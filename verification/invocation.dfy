/**
 * Running a resolved vhs (`Vhs.run`): the argument vector, whether output is
 * captured, the environment and working directory handed to the process,
 * what a failed run raises, and the text of that error (`__str__` of the
 * run error, identical in both packages).
 */
module Invocation {
  import opened Wrappers
  import opened Text
  import opened Versions

  /** What is handed to `subprocess.run`. */
  datatype Invocation = Invocation(
    args: seq<string>,
    captureOutput: bool,
    env: map<string, string>,
    cwd: Option<string>,
    shell: bool)

  /** The command-line options vhs is given, read back from an argument vector. */
  datatype Arguments = Arguments(program: string, quiet: bool, output: Option<string>, input: string)

  // ---------------------------------------------------------------------------
  // The argument vector

  /** `[program] + ["-q"] if quiet + ["-o", output] if output + [input]`. */
  function Argv(program: string, quiet: bool, output: Option<string>, input: string): (args: seq<string>)
    ensures |args| == 2 + (if quiet then 1 else 0) + (if Truthy(output) then 2 else 0)
    ensures args[0] == program && args[|args| - 1] == input
    ensures quiet ==> args[1] == "-q"
    ensures Truthy(output) ==> args[|args| - 3] == "-o" && args[|args| - 2] == output.value
  {
    [program] + (if quiet then ["-q"] else []) + (if Truthy(output) then ["-o", output.value] else []) + [input]
  }

  /** The `args += ...` sequence both packages use; output is captured exactly when quiet. */
  method BuildArgs(program: string, quiet: bool, output: Option<string>, input: string)
    returns (args: seq<string>, captureOutput: bool)
    ensures args == Argv(program, quiet, output, input)
    ensures captureOutput == quiet
  {
    args := [program];
    captureOutput := false;
    if quiet {
      args := args + ["-q"];
      captureOutput := true;
    }
    if Truthy(output) {
      args := args + ["-o", output.value];
    }
    args := args + [input];
  }

  /**
   * Reads an argument vector of the shape Argv builds. Its length alone says
   * which options are present, so the input may itself look like an option.
   */
  function DecodeArgs(args: seq<string>): (r: Option<Arguments>)
    ensures r.Some? ==> 2 <= |args| <= 5 && r.value.program == args[0] && r.value.input == args[|args| - 1]
  {
    if |args| == 2 then Some(Arguments(args[0], false, None, args[1]))
    else if |args| == 3 && args[1] == "-q" then Some(Arguments(args[0], true, None, args[2]))
    else if |args| == 4 && args[1] == "-o" && args[2] != "" then Some(Arguments(args[0], false, Some(args[2]), args[3]))
    else if |args| == 5 && args[1] == "-q" && args[2] == "-o" && args[3] != "" then
      Some(Arguments(args[0], true, Some(args[3]), args[4]))
    else None
  }

  /** Every option Argv was given can be read back; an empty output path is dropped, as `if output_path:` does. */
  lemma ArgvRoundTrip(program: string, quiet: bool, output: Option<string>, input: string)
    ensures DecodeArgs(Argv(program, quiet, output, input))
         == Some(Arguments(program, quiet, if Truthy(output) then output else None, input))
  {
  }

  /** Reading back and rebuilding gives the same vector: DecodeArgs accepts exactly Argv's shapes. */
  lemma DecodeArgsExact(args: seq<string>)
    requires DecodeArgs(args).Some?
    ensures var a := DecodeArgs(args).value; Argv(a.program, a.quiet, a.output, a.input) == args
  {
    var a := DecodeArgs(args).value;
    var rebuilt := Argv(a.program, a.quiet, a.output, a.input);
    assert |rebuilt| == |args|;
    forall i | 0 <= i < |args| ensures rebuilt[i] == args[i] {
    }
  }

  // ---------------------------------------------------------------------------
  // The environment

  /** The environment the process gets: a copy of `base` whose PATH is the resolved search path. */
  function RunEnv(base: map<string, string>, path: string): (env: map<string, string>)
    ensures env.Keys == base.Keys + {"PATH"} && env["PATH"] == path
    ensures forall k :: k in base && k != "PATH" ==> env[k] == base[k]
  {
    base["PATH" := path]
  }

  // ---------------------------------------------------------------------------
  // Completion

  /** The CalledProcessError fields a failed run carries; the outputs are None when not captured. */
  datatype RunError = RunError(returnCode: int, cmd: seq<string>, stdout: Option<string>, stderr: Option<string>)

  /** `check=True`: a non-zero return code raises, carrying the command and what was captured. */
  function Complete(inv: Invocation, returnCode: int, stdout: string, stderr: string): (r: Result<(), RunError>)
    ensures r.Ok? <==> returnCode == 0
    ensures r.Err? ==> r.error.returnCode == returnCode && r.error.cmd == inv.args
    ensures r.Err? ==> (r.error.stdout.Some? <==> inv.captureOutput) && (r.error.stderr.Some? <==> inv.captureOutput)
    ensures r.Err? && inv.captureOutput ==> r.error.stdout == Some(stdout) && r.error.stderr == Some(stderr)
  {
    if returnCode == 0 then Ok(())
    else if inv.captureOutput then Err(RunError(returnCode, inv.args, Some(stdout), Some(stderr)))
    else Err(RunError(returnCode, inv.args, None, None))
  }

  // ---------------------------------------------------------------------------
  // A resolved vhs

  /** The resolver's result, with the defaults given at resolve time. */
  datatype Vhs = Vhs(vhsPath: string, path: string, quiet: bool, env: Option<map<string, string>>, cwd: Option<string>)
  {
    /**
     * `Vhs.run` up to the process start: per-call `quiet`, `env` and `cwd`
     * override the defaults unless given as None; the environment falls
     * back to the ambient one, is copied, and gets PATH set; output is
     * captured exactly when quiet. A `quiet` left out of the call is
     * Some(true), not None (see RunDefaults).
     */
    method Prepare(input: string, output: Option<string>, quiet: Option<bool>, env: Option<map<string, string>>,
                   cwd: Option<string>, ambient: map<string, string>) returns (inv: Invocation)
      ensures inv.args == Argv(vhsPath, quiet.GetOr(this.quiet), output, input)
      ensures inv.captureOutput == quiet.GetOr(this.quiet)
      ensures inv.env == RunEnv(if env.Some? then env.value else this.env.GetOr(ambient), path)
      ensures inv.cwd == if cwd.Some? then cwd else this.cwd
      ensures !inv.shell
    {
      var q := quiet;
      if q.None? {
        q := Some(this.quiet);
      }

      var e := env;
      if e.None? {
        e := this.env;
      }
      var vars: map<string, string>;
      if e.None? {
        vars := ambient;
      } else {
        vars := e.value;
      }
      vars := vars["PATH" := path];

      var dir := cwd;
      if dir.None? {
        dir := this.cwd;
      }

      var args, capture := BuildArgs(vhsPath, q.value, output, input);
      inv := Invocation(args, capture, vars, dir, false);
    }

    /** `Vhs.run`: prepare, then the process's return code and outputs decide. */
    method Run(input: string, output: Option<string>, quiet: Option<bool>, env: Option<map<string, string>>,
               cwd: Option<string>, ambient: map<string, string>, returnCode: int, stdout: string, stderr: string)
      returns (inv: Invocation, r: Result<(), RunError>)
      ensures inv.args == Argv(vhsPath, quiet.GetOr(this.quiet), output, input)
      ensures inv.captureOutput == quiet.GetOr(this.quiet)
      ensures inv.env == RunEnv(if env.Some? then env.value else this.env.GetOr(ambient), path)
      ensures inv.cwd == (if cwd.Some? then cwd else this.cwd) && !inv.shell
      ensures "PATH" in inv.env && inv.env["PATH"] == path
      ensures r == Complete(inv, returnCode, stdout, stderr)
      ensures r.Err? ==> r.error.cmd[|r.error.cmd| - 1] == input
    {
      inv := Prepare(input, output, quiet, env, cwd, ambient);
      r := Complete(inv, returnCode, stdout, stderr);
    }

    /**
     * `Vhs.run(input_path)` with every keyword left out. The keyword
     * defaults are no output path, `env=None`, `cwd=None` and `quiet=True`:
     * "-q" is passed and the output captured whatever quiet the resolver
     * was given, which only an explicit `quiet=None` falls back to.
     */
    method RunDefaults(input: string, ambient: map<string, string>, returnCode: int, stdout: string, stderr: string)
      returns (inv: Invocation, r: Result<(), RunError>)
      ensures inv.args == [vhsPath, "-q", input] && inv.captureOutput
      ensures inv.env == RunEnv(this.env.GetOr(ambient), path) && inv.cwd == this.cwd && !inv.shell
      ensures r.Ok? <==> returnCode == 0
      ensures r.Err? ==> r.error == RunError(returnCode, [vhsPath, "-q", input], Some(stdout), Some(stderr))
    {
      inv, r := Run(input, None, Some(true), None, None, ambient, returnCode, stdout, stderr);
    }
  }

  /** The input path is always the last argument, and whether "-q" was passed shows in the vector's length. */
  lemma QuietShowsInLength(program: string, quiet: bool, output: Option<string>, input: string)
    ensures var args := Argv(program, quiet, output, input);
      args[|args| - 1] == input && (quiet <==> (|args| == 3 || |args| == 5))
  {
  }

  // ---------------------------------------------------------------------------
  // The run error's text

  /**
   * How the return code is named: a signal for a negative code (its name,
   * or "unknown signal -N" when it is no known signal), else "code N".
   */
  function ReturnCodeText(returnCode: int, signalName: Option<string>): string {
    if returnCode < 0 then
      if signalName.Some? then "signal " + signalName.value else "unknown signal " + IntToDecimal(returnCode)
    else "code " + IntToDecimal(returnCode)
  }

  function Headline(returnCode: int, signalName: Option<string>): string {
    "VHS run failed with " + ReturnCodeText(returnCode, signalName)
  }

  const StderrTitle := "\n\nStderr:\n"
  const StdoutTitle := "\n\nStdout:\n"

  /** A section, present only when its text is non-empty (None and "" are both false). */
  function Section(title: string, text: Option<string>): (r: string)
    ensures Truthy(text) ==> r == title + text.value
    ensures !Truthy(text) ==> r == ""
  {
    if Truthy(text) then title + text.value else ""
  }

  /** `__str__` of the run error: headline, then a Stderr section, then a Stdout section. */
  function RunErrorMessage(returnCode: int, signalName: Option<string>, stdout: Option<string>, stderr: Option<string>): (m: string)
    ensures StartsWith(m, Headline(returnCode, signalName))
    ensures |m| == |Headline(returnCode, signalName)| + |Section(StderrTitle, stderr)| + |Section(StdoutTitle, stdout)|
    ensures Truthy(stderr) ==> OccursAt(m, StderrTitle + stderr.value, |Headline(returnCode, signalName)|)
    ensures Truthy(stdout) ==> EndsWith(m, StdoutTitle + stdout.value)
    ensures !Truthy(stdout) && Truthy(stderr) ==> EndsWith(m, StderrTitle + stderr.value)
    ensures !Truthy(stdout) && !Truthy(stderr) ==> m == Headline(returnCode, signalName)
  {
    var head := Headline(returnCode, signalName);
    var err := Section(StderrTitle, stderr);
    var out := Section(StdoutTitle, stdout);
    var m := head + err + out;
    assert m[..|head|] == head;
    assert m[|head|..|head| + |err|] == err;
    assert m[|m| - |out|..] == out;
    assert out == "" ==> m == head + err;
    m
  }

  /** A return code of zero or more is printed as "code N" and reads back as N. */
  lemma CodeReadsBack(returnCode: int, signalName: Option<string>, stdout: Option<string>, stderr: Option<string>)
    requires returnCode >= 0
    ensures var m := RunErrorMessage(returnCode, signalName, stdout, stderr);
      var digits := IntToDecimal(returnCode);
      StartsWith(m, "VHS run failed with code " + digits) && AllDigits(digits) && DigitsValue(digits) == returnCode
  {
    var digits := IntToDecimal(returnCode);
    var m := RunErrorMessage(returnCode, signalName, stdout, stderr);
    assert ReturnCodeText(returnCode, signalName) == "code " + digits;
    assert Headline(returnCode, signalName) == "VHS run failed with code " + digits;
    assert StartsWith(m, Headline(returnCode, signalName));
  }

  /** A negative code is never reported as a "code". */
  lemma NegativeIsSignal(returnCode: int, signalName: Option<string>, stdout: Option<string>, stderr: Option<string>)
    requires returnCode < 0
    ensures var m := RunErrorMessage(returnCode, signalName, stdout, stderr);
      (signalName.Some? ==> StartsWith(m, "VHS run failed with signal " + signalName.value))
      && (signalName.None? ==> StartsWith(m, "VHS run failed with unknown signal -"))
  {
    var digits := IntToDecimal(returnCode);
    var head := Headline(returnCode, signalName);
    if signalName.None? {
      assert head == "VHS run failed with unknown signal " + digits;
      assert head[..36] == "VHS run failed with unknown signal -";
    }
  }

  /** With both outputs present the Stderr section comes first and the Stdout section closes the message. */
  lemma SectionOrder(returnCode: int, signalName: Option<string>, stdout: Option<string>, stderr: Option<string>)
    requires Truthy(stdout) && Truthy(stderr)
    ensures RunErrorMessage(returnCode, signalName, stdout, stderr)
         == Headline(returnCode, signalName) + StderrTitle + stderr.value + StdoutTitle + stdout.value
  {
  }
}
