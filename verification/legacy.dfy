/**
 * The older package's `vhs()` and `vhs_inline()`: run the vhs bundled in
 * the package directory, with its `bin` put in front of PATH and, on darwin,
 * its `lib` in front of DYLD_LIBRARY_PATH; `vhs_inline` writes the tape text
 * to a fresh temporary directory and removes that directory afterwards.
 */
module LegacyWrapper {
  import opened Wrappers
  import opened Text
  import opened Versions
  import Invocation

  /** A dict of environment variables that the caller owns. */
  class EnvDict {
    var vars: map<string, string>

    constructor(vars0: map<string, string>)
      ensures vars == vars0
    {
      vars := vars0;
    }

    /** `env.copy()`: a new dict with the same entries. */
    method Copy() returns (c: EnvDict)
      ensures fresh(c) && c.vars == vars
    {
      c := new EnvDict(vars);
    }
  }

  /**
   * `env.get(key) or os.environ.get(key) or ''`: the first of the two
   * lookups that is present and non-empty, else "".
   */
  function OrLookup(env: map<string, string>, ambient: map<string, string>, key: string): (r: string)
    ensures key in env && env[key] != "" ==> r == env[key]
    ensures !(key in env && env[key] != "") && key in ambient ==> r == ambient[key]
    ensures r != "" ==> (key in env && r == env[key]) || (key in ambient && r == ambient[key])
  {
    if key in env && env[key] != "" then env[key]
    else if key in ambient && ambient[key] != "" then ambient[key]
    else ""
  }

  /**
   * The environment `vhs()` hands to the process, built from `base` (the
   * caller's env, or the ambient one): PATH gets the package's bin directory
   * in front; on darwin DYLD_LIBRARY_PATH gets its lib directory in front.
   */
  function LegacyEnv(base: map<string, string>, ambient: map<string, string>, platform: string,
                     packageDir: string): (env: map<string, string>)
    ensures "PATH" in env && env["PATH"] == PrependPath(packageDir + "/bin", OrLookup(base, ambient, "PATH"))
    ensures platform == "darwin" ==>
              ("DYLD_LIBRARY_PATH" in env
               && env["DYLD_LIBRARY_PATH"] == PrependPath(packageDir + "/lib", OrLookup(base, ambient, "DYLD_LIBRARY_PATH")))
    ensures platform != "darwin" ==> env.Keys == base.Keys + {"PATH"}
    ensures platform == "darwin" ==> env.Keys == base.Keys + {"PATH", "DYLD_LIBRARY_PATH"}
    ensures forall k :: k in base && k != "PATH" && k != "DYLD_LIBRARY_PATH" ==> k in env && env[k] == base[k]
  {
    var withPath := base["PATH" := PrependPath(packageDir + "/bin", OrLookup(base, ambient, "PATH"))];
    if platform == "darwin" then
      withPath["DYLD_LIBRARY_PATH" := PrependPath(packageDir + "/lib", OrLookup(withPath, ambient, "DYLD_LIBRARY_PATH"))]
    else withPath
  }

  /** Off darwin the library path is passed through exactly as the caller had it. */
  lemma LibraryPathOnlyOnDarwin(base: map<string, string>, ambient: map<string, string>, platform: string,
                                packageDir: string)
    requires platform != "darwin"
    ensures var env := LegacyEnv(base, ambient, platform, packageDir);
      ("DYLD_LIBRARY_PATH" in env <==> "DYLD_LIBRARY_PATH" in base)
      && ("DYLD_LIBRARY_PATH" in base ==> env["DYLD_LIBRARY_PATH"] == base["DYLD_LIBRARY_PATH"])
  {
  }

  /**
   * When the package directory holds no ':', its bin directory becomes the
   * first PATH entry, followed by the entries of the value it found.
   */
  lemma BinDirFirstOnPath(base: map<string, string>, ambient: map<string, string>, platform: string,
                          packageDir: string)
    requires ':' !in packageDir
    ensures var old_ := OrLookup(base, ambient, "PATH");
      Split(LegacyEnv(base, ambient, platform, packageDir)["PATH"], ':')
      == [packageDir + "/bin"] + (if old_ == "" then [] else Split(old_, ':'))
  {
    assert ':' !in packageDir + "/bin" by {
      forall i | 0 <= i < |packageDir + "/bin"| ensures (packageDir + "/bin")[i] != ':' {
        if i < |packageDir| {
          assert (packageDir + "/bin")[i] == packageDir[i];
        }
      }
    }
    PrependPathEntries(packageDir + "/bin", OrLookup(base, ambient, "PATH"));
  }

  // ---------------------------------------------------------------------------
  // Starting the process

  /**
   * The environment part of `vhs()`: the caller's dict (or the ambient
   * environment) is copied and only the copy changes.
   */
  method PrepareEnv(env: EnvDict?, ambient: map<string, string>, platform: string, packageDir: string)
    returns (copy: EnvDict)
    ensures fresh(copy)
    ensures copy.vars == LegacyEnv(if env == null then ambient else env.vars, ambient, platform, packageDir)
    ensures env != null ==> env.vars == old(env.vars)
  {
    if env == null {
      copy := new EnvDict(ambient);
    } else {
      copy := env.Copy();
    }
    var binPath := packageDir + "/bin";
    var libPath := packageDir + "/lib";

    var envBinPath := OrLookup(copy.vars, ambient, "PATH");
    copy.vars := copy.vars["PATH" := PrependPath(binPath, envBinPath)];

    if platform == "darwin" {
      var envLibPath := OrLookup(copy.vars, ambient, "DYLD_LIBRARY_PATH");
      copy.vars := copy.vars["DYLD_LIBRARY_PATH" := PrependPath(libPath, envLibPath)];
    }
  }

  /** `vhs()` up to the process start, for a given `shell` flag. */
  method Prepare(input: string, output: Option<string>, quiet: bool, env: EnvDict?, cwd: Option<string>,
                 ambient: map<string, string>, platform: string, packageDir: string, shell: bool)
    returns (inv: Invocation.Invocation)
    ensures inv.args == Invocation.Argv("vhs", quiet, output, input)
    ensures inv.captureOutput == quiet
    ensures inv.env == LegacyEnv(if env == null then ambient else env.vars, ambient, platform, packageDir)
    ensures inv.cwd == cwd && inv.shell == shell
    ensures env != null ==> env.vars == old(env.vars)
  {
    var copy := PrepareEnv(env, ambient, platform, packageDir);
    var args, capture := Invocation.BuildArgs("vhs", quiet, output, input);
    inv := Invocation.Invocation(args, capture, copy.vars, cwd, shell);
  }

  /** `vhs()` as written: the argument list is passed with `shell=True`. */
  method Vhs(input: string, output: Option<string>, quiet: bool, env: EnvDict?, cwd: Option<string>,
             ambient: map<string, string>, platform: string, packageDir: string)
    returns (inv: Invocation.Invocation)
    ensures inv.args == Invocation.Argv("vhs", quiet, output, input)
    ensures inv.env == LegacyEnv(if env == null then ambient else env.vars, ambient, platform, packageDir)
    ensures inv.captureOutput == quiet && inv.cwd == cwd && inv.shell
    ensures env != null ==> env.vars == old(env.vars)
  {
    inv := Prepare(input, output, quiet, env, cwd, ambient, platform, packageDir, true);
  }

  /** `vhs()` with the argument list passed directly to the program (`shell=False`). */
  method VhsCorrected(input: string, output: Option<string>, quiet: bool, env: EnvDict?, cwd: Option<string>,
                      ambient: map<string, string>, platform: string, packageDir: string)
    returns (inv: Invocation.Invocation)
    ensures inv.args == Invocation.Argv("vhs", quiet, output, input)
    ensures inv.env == LegacyEnv(if env == null then ambient else env.vars, ambient, platform, packageDir)
    ensures inv.captureOutput == quiet && inv.cwd == cwd && !inv.shell
    ensures env != null ==> env.vars == old(env.vars)
  {
    inv := Prepare(input, output, quiet, env, cwd, ambient, platform, packageDir, false);
  }

  /** A command word the POSIX shell runs as it is: no blanks, quotes or other shell syntax. */
  predicate PlainWord(w: string) {
    w != "" && forall i :: 0 <= i < |w| ==> ('a' <= w[i] <= 'z' || 'A' <= w[i] <= 'Z' || IsDigit(w[i]) || w[i] in "._/-")
  }

  /**
   * The argument vector the started program receives. With `shell=True`
   * on POSIX the process is `/bin/sh -c args[0] args[1] ...`: the shell runs
   * the command line args[0] and the remaining items become the shell's own
   * $0, $1, ..., so a plain-word args[0] runs with no arguments at all.
   */
  function ProgramArgv(inv: Invocation.Invocation): (argv: seq<string>)
    requires inv.args != [] && PlainWord(inv.args[0])
    ensures inv.shell ==> argv == [inv.args[0]]
    ensures !inv.shell ==> argv == inv.args
  {
    if inv.shell then [inv.args[0]] else inv.args
  }

  /**
   * As written, vhs gets neither "-q", nor "-o", nor the tape: the program
   * argv is just ["vhs"], which is no argument vector of Argv's shape.
   */
  lemma AsWrittenDropsArguments(input: string, output: Option<string>, quiet: bool, env: map<string, string>,
                                cwd: Option<string>)
    ensures var inv := Invocation.Invocation(Invocation.Argv("vhs", quiet, output, input), quiet, env, cwd, true);
      PlainWord(inv.args[0])
      && ProgramArgv(inv) == ["vhs"]
      && |ProgramArgv(inv)| < |inv.args|
      && Invocation.DecodeArgs(ProgramArgv(inv)).None?
  {
    assert PlainWord("vhs") by {
      forall i | 0 <= i < 3 ensures 'a' <= "vhs"[i] <= 'z' { }
    }
  }

  /** Without the shell, the program receives the tape as its last argument and every option it was given. */
  lemma CorrectedPassesArguments(input: string, output: Option<string>, quiet: bool, env: map<string, string>,
                                 cwd: Option<string>)
    ensures var inv := Invocation.Invocation(Invocation.Argv("vhs", quiet, output, input), quiet, env, cwd, false);
      PlainWord(inv.args[0])
      && ProgramArgv(inv)[|ProgramArgv(inv)| - 1] == input
      && Invocation.DecodeArgs(ProgramArgv(inv))
         == Some(Invocation.Arguments("vhs", quiet, if Truthy(output) then output else None, input))
  {
    assert PlainWord("vhs") by {
      forall i | 0 <= i < 3 ensures 'a' <= "vhs"[i] <= 'z' { }
    }
    Invocation.ArgvRoundTrip("vhs", quiet, output, input);
  }

  // ---------------------------------------------------------------------------
  // vhs_inline and its temporary directory

  /** The directories and files `vhs_inline` creates and removes. */
  class TempFs {
    var dirs: set<string>
    var files: map<string, string>

    constructor(dirs0: set<string>, files0: map<string, string>)
      ensures dirs == dirs0 && files == files0
    {
      dirs := dirs0;
      files := files0;
    }

    /** `shutil.rmtree(dir)`: the directory and everything below it go. */
    method RemoveTree(dir: string)
      modifies this
      ensures dirs == set d | d in old(dirs) && d != dir && !StartsWith(d, dir + "/")
      ensures files == map f | f in old(files) && !StartsWith(f, dir + "/") :: old(files)[f]
    {
      dirs := set d | d in dirs && d != dir && !StartsWith(d, dir + "/");
      files := map f | f in files && !StartsWith(f, dir + "/") :: files[f];
    }
  }

  /** Why `vhs_inline` raised. */
  datatype InlineFailure = WriteFailed | RunFailed(error: Invocation.RunError)

  /**
   * `vhs_inline`: a fresh temporary directory (the one `mkdtemp` picked,
   * with nothing in or below it yet), the tape written into it as
   * `input.tape`, the run through `vhs()` as written (with the shell), and
   * then — whether the write or the run raised or not — the directory
   * removed again, leaving the filesystem as it was.
   */
  method VhsInline(fs: TempFs, tmpDir: string, text: string, output: Option<string>, quiet: bool, env: EnvDict?,
                   cwd: Option<string>, ambient: map<string, string>, platform: string, packageDir: string,
                   writeFails: bool, returnCode: int, stdout: string, stderr: string)
    returns (r: Result<(), InlineFailure>)
    requires tmpDir !in fs.dirs
    requires forall d :: d in fs.dirs ==> !StartsWith(d, tmpDir + "/")
    requires forall f :: f in fs.files ==> !StartsWith(f, tmpDir + "/")
    modifies fs
    ensures fs.dirs == old(fs.dirs) && fs.files == old(fs.files)
    ensures writeFails ==> r == Err(WriteFailed)
    ensures !writeFails ==> (r.Ok? <==> returnCode == 0)
    ensures !writeFails && r.Err? ==>
              r.error.RunFailed? && r.error.error.returnCode == returnCode
              && r.error.error.cmd == Invocation.Argv("vhs", quiet, output, tmpDir + "/input.tape")
  {
    ghost var dirs0 := fs.dirs;
    ghost var files0 := fs.files;
    fs.dirs := fs.dirs + {tmpDir};
    var inputPath := tmpDir + "/input.tape";
    assert inputPath[..|tmpDir + "/"|] == tmpDir + "/";
    if writeFails {
      r := Err(WriteFailed);
    } else {
      fs.files := fs.files[inputPath := text];
      var inv := Vhs(inputPath, output, quiet, env, cwd, ambient, platform, packageDir);
      var done := Invocation.Complete(inv, returnCode, stdout, stderr);
      if done.Err? {
        r := Err(RunFailed(done.error));
      } else {
        r := Ok(());
      }
    }
    // finally
    fs.RemoveTree(tmpDir);
    assert fs.files.Keys == files0.Keys;
  }
}
