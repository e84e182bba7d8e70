# python-vhs, modelled in Dafny

python-vhs is a Python wrapper around charmbracelet's `vhs` terminal recorder.
This project models the package's decision logic and proves things about it:

- **Finding a usable vhs** (`_check_and_install`). The resolver first tries a
  pre-installed vhs. Next it refuses a download on darwin, when installs are
  disabled, or on anything but 64-bit linux. Otherwise it fills its cache
  directory with ttyd, ffmpeg and vhs, each downloaded from GitHub releases
  only when missing. A downloaded vhs that is still outdated is only a warning.
- **Version checks** (`_check_version`). The minimum and the optional maximum
  are dotted integer triples compared as tuples. The version of a binary is the
  first `\d+\.\d+\.\d+` in the output of `vhs --version`.
- **Release selection** (`_download_release`). Drafts and pre-releases are
  skipped. So is any release whose tag lies outside the window. The first
  asset that matches the tool's filter wins.
- **Running vhs** (`Vhs.run`). This covers the argument vector, output capture,
  the environment with PATH set, the working directory, the `check=True`
  failure, and the text of the run error.
- **The legacy wrapper** (`src/vhs/__init__.py`: `vhs()` and `vhs_inline()`).
  It puts the bundled bin directory, and on darwin the lib directory, in front
  of the search paths, runs the bundled vhs, and cleans up a temporary
  directory.
- **The default progress reporter**. It rewrites one terminal line per report
  and ends with a final line. A small terminal model says what the reader sees.

Files:

- `wrappers.dfy`: Option and Result.
- `text.dfy`: Python string operations (`split`, `strip`, decimal printing, joining search paths with ':').
- `errors.dfy`: the package's exceptions.
- `versions.dfy`: version parsing, ordering, windows, the version regex and `_check_version`.
- `releases.dfy`: asset filters, archive names and release selection.
- `orchestrator.dfy`: the installers, `_get_path` and `_check_and_install`.
- `invocation.dfy`: `Vhs.run` and the run error's message.
- `legacy.dfy`: the older `src/vhs` package.
- `progress.dfy`: `DefaultProgressReporter`.

Where the code does something the surrounding text does not, the model follows the code.

## Model

| member | source | states |
|---|---|---|
| Text.IntToDecimal | vhs/__init__.py:128-130 | the canonical decimal text of an integer, as `str()` prints it: for N >= 0 non-empty digits without a leading zero (except "0") reading back as N; for N < 0 "-" then digits not starting with "0" reading back as -N |
| Text.DecimalRoundTrip | vhs/__init__.py:130 | printing a natural number in decimal gives digits whose value is that number |
| Text.Split | vhs/__init__.py:485 | `str.split(sep)` never yields an empty list, and no field contains the separator |
| Text.JoinSplit | vhs/__init__.py:485 | joining the fields of a split with the separator gives back the original text |
| Text.SplitJoin | vhs/__init__.py:485 | splitting a join of separator-free fields gives back the fields |
| Text.Strip | vhs/__init__.py:498 | `str.strip()`: the result is a slice of the input with only whitespace around it, and neither end of the result is whitespace |
| Text.PrependPath | vhs/__init__.py:860-863 | `dir + ":" + list` if the list is non-empty, else just `dir`; the result starts with `dir` |
| Text.PrependPathEntries | vhs/__init__.py:860-863 | splitting the result on ':' gives `dir` first and then the old entries, in order |
| Versions.ParseComponents | vhs/__init__.py:485-486 | `tuple(int(c) for c in ...)` succeeds iff every field is a non-empty digit string; the version is the fields' values in order; otherwise a ValueError naming a malformed field |
| Versions.FirstBadField | vhs/__init__.py:485-486 | the field a failed parse reports is the first malformed one: every field before it is valid |
| Versions.ParseVersion | vhs/__init__.py:485 | parses iff every dot-separated field of the text is a non-empty digit string; the version has one component per field, each the field's value |
| Versions.RenderParses | vhs/__init__.py:485-486 | printing a version with dots and parsing it reads the same version back |
| Versions.LessIrreflexive | vhs/__init__.py:488-491 | tuple order: no version is below itself |
| Versions.LessAsymmetric | vhs/__init__.py:488-491 | tuple order: a < b and b < a never hold together |
| Versions.LessTransitive | vhs/__init__.py:488-491 | tuple order is transitive |
| Versions.LessTotal | vhs/__init__.py:488-491 | tuple order: any two versions are equal or ordered one way |
| Versions.CheckedWindow | vhs/__init__.py:485-494 | the window is the parsed minimum with a maximum exactly when one is given non-empty, and then min < max; when both parse, the only error is max <= min, with the message the source raises (which names the lua_ls versions) |
| Versions.MinimumSeparates | vhs/__init__.py:502 | for v1 < v2: an open window from v2 rejects v1, and one from v1 admits v2 |
| Versions.EmptyWindow | vhs/__init__.py:488-492 | a window with max <= min admits no version, which is why the check refuses it |
| Versions.VersionMessage | vhs/__init__.py:524-528 | with a non-empty maximum exactly "a version between " + min + " and " + max (its length and the positions of min, " and " and max); otherwise exactly "version " + min + " or newer" |
| Versions.SearchFrom | vhs/__init__.py:499-500 | the leftmost match at or after a position; no match means none starts there or later |
| Versions.FindVersion | vhs/__init__.py:499-500 | `re.search`: the leftmost match of `\d+\.\d+\.\d+`, maximal in each run of digits |
| Versions.MatchIsVersion | vhs/__init__.py:499-501 | a matched text is three non-empty digit runs joined by dots, so it parses as a version |
| Versions.MatchComplete | vhs/__init__.py:499-500 | any text of version shape at a position where the regex's scan begins is found there |
| Versions.NoMatchNoVersion | vhs/__init__.py:499-503 | when the search finds nothing, the output has no substring of version shape at all |
| Versions.NoMatchAtNoVersion | vhs/__init__.py:499-500 | where the regex does not match, no version-shaped text starts |
| Versions.FirstVersion | vhs/__init__.py:499-501 | found iff the regex search finds a match; the text found has version shape, parses to a triple, occurs at the leftmost position where any version-shaped text starts, and is not followed by a digit; None means no version-shaped substring anywhere |
| Versions.CheckVersion | vhs/__init__.py:482-521 | raises iff the window is invalid, whatever the binary prints; no output gives (False, None); output without a version gives (False, stripped output); otherwise the version reported is the first match |
| Versions.UsableIffInWindow | vhs/__init__.py:496-503 | usable exactly when the output contains a version and the window admits it |
| Releases.StripArchiveSuffix | vhs/__init__.py:671-677 | drops one ".tar.gz", ".tar.xz" or ".zip" suffix; a name without one is kept |
| Releases.StripArchiveSuffixRoundTrip | vhs/__init__.py:756-762 | a base name with an archive suffix appended is stripped back to that base |
| Releases.SelectionWindow | vhs/__init__.py:551-558 | no window without a non-empty minimum; otherwise the low bound is the parsed minimum and the high bound is present iff a non-empty maximum is given, and then is the parsed maximum; fails iff a given bound does not parse, with the minimum's ValueError first, else the maximum's (no max <= min check here) |
| Releases.TagVersion | vhs/__init__.py:571-575 | a tag has a version exactly when the version regex matches it, and the version is the parsed first match, always a triple |
| Releases.FirstQualifying | vhs/__init__.py:564-581 | the index of the first release that is neither a draft nor a pre-release and whose tag is in the window; every earlier release fails that test |
| Releases.FirstMatch | vhs/__init__.py:583-591 | the index of the first asset whose name passes the filter; every earlier one fails it |
| Releases.NoReleaseMessage | vhs/__init__.py:594-599 | with a minimum, exactly "unable to find <tool> release for " followed by the window in words (start, end and length); without, exactly "unable to find latest <tool> release" |
| Releases.SelectRelease | vhs/__init__.py:539-599 | the loop with `continue`s computes Selection: a window error, the chosen asset, "no asset" for the first qualifying release, or "no release" |
| Releases.FindAsset | vhs/__init__.py:583-591 | the inner asset loop returns FirstMatch: the first asset the filter accepts, or none |
| Releases.FirstMatchAt | vhs/__init__.py:583-591 | an index the filter accepts, with every earlier asset rejected, is the one FirstMatch picks |
| Releases.FirstQualifyingAt | vhs/__init__.py:564-581 | a qualifying index with no qualifying release before it is the one FirstQualifying picks |
| Releases.SelectedAssetQualifies | vhs/__init__.py:564-593 | a selected asset comes from the first qualifying release: not a draft, not a pre-release, and with a minimum its tag version v has min <= v and v < max when a maximum is given; every earlier release was skipped; the asset is that release's first one passing the filter |
| Releases.FailureKinds | vhs/__init__.py:583-599 | with a valid window: the "no asset" message iff a release qualified but none of its assets matched; the "no release" message iff none qualified; success iff both were found |
| Releases.NoAssetNotNoRelease | vhs/__init__.py:591-599 | the "no asset" and "no release" messages always differ, so the two failures can be told apart |
| Releases.SkipsDraftsAndPrereleases | vhs/__init__.py:565-566 | putting drafts or pre-releases in front of the list changes nothing |
| Releases.StopsAtFirstQualifying | vhs/__init__.py:583-593 | releases after the first qualifying one are never consulted |
| Orchestrator.StripLeadingV | vhs/__init__.py:791-792 | one leading "v" is removed, and text without one is unchanged |
| Orchestrator.StripLeadingVOnce | vhs/__init__.py:791-792 | only one "v" goes, even when another follows |
| Orchestrator.StripLeadingVIfGiven | vhs/__init__.py:793-794 | the maximum is stripped the same way when given, and stays absent otherwise |
| Orchestrator.GetPath | vhs/__init__.py:468-479 | the given environment's PATH, else the ambient PATH, else CS_PATH, else `os.defpath`; an empty value still counts as present |
| Orchestrator.JoinPath | vhs/__init__.py:860 | `dir / name` starts with dir, then '/', then the name |
| Orchestrator.InstallFailure | vhs/__init__.py:686-687 | any installer exception becomes a VhsError reading "<tool> install failed: <detail>" |
| Orchestrator.OutdatedMessage | vhs/__init__.py:810-835 | "you have VHS <version found>, but " + window + " is required; " then, exactly on darwin, "run `brew upgrade vhs` to upgrade it, or see installation instructions at ", elsewhere "see upgrade instructions at ", then the docs link; positions and length fix the whole text |
| Orchestrator.MissingMessage | vhs/__init__.py:819-841 | "VHS is not installed on your system; " then, exactly on darwin, "run `brew install vhs` to install it, or ", then "see installation instructions at " and the docs link; the length fixes the whole text |
| Orchestrator.RefusalMessage | vhs/__init__.py:809-841 | a found vhs gives the outdated wording, starting "you have VHS <version found>, but " and naming the window; a missing one gives the not-installed wording (both directions); in either case the brew instructions appear exactly on darwin |
| Orchestrator.TtydInstall | vhs/__init__.py:690-725 | succeeds iff a release has an x86_64 ttyd asset and the fetch works; adds exactly "ttyd" to the cache; otherwise a "ttyd install failed: " error |
| Orchestrator.FfmpegInstall | vhs/__init__.py:728-777 | succeeds iff a release has an ffmpeg asset, the fetch works and the archive's bin directory exists; then every file of it is added to the cache; otherwise a "ffmpeg install failed: " error |
| Orchestrator.VhsInstall | vhs/__init__.py:637-687 | succeeds iff a release in the window has a Linux_x86_64 archive, the fetch works and the unpacked directory holds `vhs`; then exactly "vhs" is added; otherwise a "vhs install failed: " error |
| Orchestrator.WithTtyd | vhs/__init__.py:848-852 | a cached ttyd leaves the cache as it is; a missing one is installed by TtydInstall; afterwards it is present and nothing was removed |
| Orchestrator.WithFfmpeg | vhs/__init__.py:854-858 | a cached ffmpeg leaves the cache as it is; a missing one is installed by FfmpegInstall; nothing is removed |
| Orchestrator.FreshVhs | vhs/__init__.py:872-881 | a fresh download resolves to `<cache>/vhs` with the given path, and the cache then holds vhs |
| Orchestrator.CachedOrFreshVhs | vhs/__init__.py:865-881 | a cached vhs that passes the check is reused with the cache unchanged; a check that raises is the error; no cached vhs, or one that fails the check, gives the fresh download; either way an Ok result is `<cache>/vhs` |
| Orchestrator.Download | vhs/__init__.py:843-881 | ttyd, then ffmpeg, then the vhs stage on the search path with the cache directory in front; the first failing stage's error ends it with the cache as that stage left it; an Ok result is `<cache>/vhs`, and vhs and ttyd are in the cache |
| Orchestrator.Gate | vhs/__init__.py:809-841 | a permitted download is exactly Download; without permission the result is an error and the cache is untouched |
| Orchestrator.Outcome | vhs/__init__.py:780-881 | `_check_and_install` as a function of its inputs and the starting cache; the cache only grows (the install path is InstallPathOnLinux) |
| Orchestrator.Resolver.constructor | vhs/__init__.py:780-781 | the resolver starts from the files already in the cache directory |
| Orchestrator.Resolver.InstallTtyd | vhs/__init__.py:690-725 | the step-by-step ttyd install leaves the cache and the failure exactly as TtydInstall says |
| Orchestrator.Resolver.InstallFfmpeg | vhs/__init__.py:728-777 | the step-by-step ffmpeg install agrees with FfmpegInstall |
| Orchestrator.Resolver.InstallVhs | vhs/__init__.py:637-687 | the step-by-step vhs install agrees with VhsInstall |
| Orchestrator.Resolver.ResolveVhs | vhs/__init__.py:865-881 | result and new cache are those of CachedOrFreshVhs: a cached vhs that passes is reused, otherwise vhs is downloaded |
| Orchestrator.Resolver.DownloadAll | vhs/__init__.py:843-881 | result and new cache are those of Download: ttyd, ffmpeg, then the vhs stage, stopping at the first failure |
| Orchestrator.Resolver.GateAndDownload | vhs/__init__.py:809-881 | result and new cache are those of Gate: a permitted install downloads, a refused one leaves the cache |
| Orchestrator.Resolver.CheckAndInstall | vhs/__init__.py:780-881 | result and new cache are those of Outcome, whose install path InstallPathOnLinux states |
| Orchestrator.PreinstalledWins | vhs/__init__.py:796-807 | a pre-installed vhs that passes the check is returned with the path as given, and nothing is installed |
| Orchestrator.InstallPathOnLinux | vhs/__init__.py:843-881 | on 64-bit linux with installs enabled, no usable system vhs and the helpers cached: a passing cached vhs is returned as `<cache>/vhs` on the path with the cache in front, the cache unchanged; otherwise a successful vhs install gives the fresh `<cache>/vhs` on that path, with vhs added to the cache |
| Orchestrator.GateRefusesInstall | vhs/__init__.py:809-841 | when the gate refuses, the result is a VhsError and the cache is untouched; the message says "not installed" iff no vhs was found, and otherwise starts "you have VHS <version the check reported>, but " and names the window |
| Orchestrator.DarwinNeverDownloads | vhs/__init__.py:810-824 | on darwin the cache never changes, and only a system vhs is ever returned |
| Orchestrator.ResolvedPathStartsWithCache | vhs/__init__.py:860-881 | a system vhs keeps the path and the cache; a downloaded one is `<cache>/vhs` on a path starting with the cache, vhs and ttyd are cached, and the gate allowed it |
| Orchestrator.VhsStageIgnoresHelpers | vhs/__init__.py:865-881 | the vhs stage reads neither the ttyd nor the ffmpeg release source |
| Orchestrator.DownloadWithCachedHelpers | vhs/__init__.py:848-858 | with ttyd and ffmpeg both cached, the download stage reads neither helper's release source |
| Orchestrator.DownloadIgnoresFfmpeg | vhs/__init__.py:854-858 | with ffmpeg cached, the download stage reads no ffmpeg source |
| Orchestrator.DownloadIgnoresTtyd | vhs/__init__.py:848-852 | with ttyd cached, the download stage reads no ttyd source |
| Orchestrator.OutcomeThroughDownload | vhs/__init__.py:780-881 | the helper sources are read only inside the download stage |
| Orchestrator.CachedTtydNotReinstalled | vhs/__init__.py:848-852 | a cached ttyd is never fetched again: the outcome does not depend on the ttyd release source |
| Orchestrator.CachedFfmpegNotReinstalled | vhs/__init__.py:854-858 | a cached ffmpeg is never fetched again |
| Orchestrator.SelectionValidatesWindow | vhs/__init__.py:551-576 | a vhs release selected in the window proves the window valid, so the check after the install cannot raise a window error |
| Orchestrator.OutdatedDownloadIsOnlyWarning | vhs/__init__.py:872-881 | after a vhs download, resolution succeeds with `<cache>/vhs`; it is flagged outdated iff the new binary fails the check |
| Invocation.Argv | vhs/__init__.py:212-219 | `[vhs] + ["-q"] if quiet + ["-o", out] if out + [input]`: its length, first and last elements, and option positions |
| Invocation.BuildArgs | vhs/__init__.py:212-219 | the `args +=` steps build Argv, and output is captured exactly when quiet |
| Invocation.DecodeArgs | vhs/__init__.py:212-219 | reads program and input from the ends of a vector of Argv's shape |
| Invocation.ArgvRoundTrip | vhs/__init__.py:212-219 | every option given to Argv reads back from the vector; an empty output path is dropped like a false one |
| Invocation.DecodeArgsExact | vhs/__init__.py:212-219 | every vector DecodeArgs accepts is rebuilt exactly by Argv |
| Invocation.QuietShowsInLength | vhs/__init__.py:212-219 | the input is the last argument, and "-q" is present iff the vector has 3 or 5 elements |
| Invocation.RunEnv | vhs/__init__.py:201-207 | the process environment is a copy of the base with PATH set to the resolved path; every other key is kept |
| Invocation.Complete | vhs/__init__.py:221-236 | `check=True`: success iff the return code is 0; a failure carries the code, the command, and the outputs exactly when they were captured |
| Invocation.Vhs.Prepare | vhs/__init__.py:170-219 | per-call quiet, env and cwd override the defaults unless None; the environment falls back to the ambient one and gets PATH; no shell |
| Invocation.Vhs.Run | vhs/__init__.py:170-236 | the run is Complete of the prepared invocation: its arguments, capture flag, environment (PATH the resolved path) and cwd, with no shell; a failure's command ends with the input |
| Invocation.Vhs.RunDefaults | vhs/__init__.py:170-178 | `run(input)` with the keyword defaults passes "-q" and captures output whatever quiet was resolved, uses the resolved env and cwd, and fails iff the code is non-zero |
| Invocation.Section | vhs/__init__.py:134-142 | a section is present only when its text is truthy (neither None nor empty) |
| Invocation.RunErrorMessage | vhs/__init__.py:123-143 | the headline first, then the Stderr section if any, and the Stdout section last, with nothing else; the older package's `VhsError.__str__` (src/vhs/__init__.py:34-54) is the same text |
| Invocation.CodeReadsBack | vhs/__init__.py:129-132 | a non-negative code is printed as "code N", and N reads back |
| Invocation.NegativeIsSignal | vhs/__init__.py:124-128 | a negative code is named as a signal, or "unknown signal -N" |
| Invocation.SectionOrder | vhs/__init__.py:132-143 | with both outputs present: headline, Stderr section, Stdout section |
| LegacyWrapper.EnvDict.constructor | src/vhs/__init__.py:89-90 | a dict holding the given entries |
| LegacyWrapper.EnvDict.Copy | src/vhs/__init__.py:91 | `env.copy()` is a new dict with the same entries |
| LegacyWrapper.OrLookup | src/vhs/__init__.py:93 | the first present, non-empty value of the two lookups, else "" |
| LegacyWrapper.LegacyEnv | src/vhs/__init__.py:85-98 | PATH gets `<package>/bin` in front; on darwin DYLD_LIBRARY_PATH gets `<package>/lib` in front; the keys are the base's plus PATH, and DYLD_LIBRARY_PATH only on darwin; all other keys are kept |
| LegacyWrapper.LibraryPathOnlyOnDarwin | src/vhs/__init__.py:96-98 | off darwin, DYLD_LIBRARY_PATH is exactly as in the base |
| LegacyWrapper.BinDirFirstOnPath | src/vhs/__init__.py:93-94 | the package's bin directory is the first PATH entry, followed by the old entries |
| LegacyWrapper.PrepareEnv | src/vhs/__init__.py:89-98 | a fresh dict holding LegacyEnv; the caller's dict is not modified |
| LegacyWrapper.Prepare | src/vhs/__init__.py:89-118 | the arguments, capture flag, environment and cwd handed to `subprocess.run`; the caller's env is untouched |
| LegacyWrapper.Vhs | src/vhs/__init__.py:100-118 | `vhs()` as written: the arguments, capture flag, environment and cwd of Prepare, run with `shell=True` |
| LegacyWrapper.VhsCorrected | src/vhs/__init__.py:100-118 | the same invocation without a shell |
| LegacyWrapper.ProgramArgv | src/vhs/__init__.py:111-118 | what the program receives: with a shell only the first list element (the command string), without one the whole list |
| LegacyWrapper.AsWrittenDropsArguments | src/vhs/__init__.py:100-118 | with `shell=True` vhs is started with no arguments at all, so the tape path is lost |
| LegacyWrapper.CorrectedPassesArguments | src/vhs/__init__.py:100-118 | without a shell vhs receives the full vector, the input last, and every option reads back |
| LegacyWrapper.TempFs.constructor | src/vhs/__init__.py:156 | a file system holding the given directories and files |
| LegacyWrapper.TempFs.RemoveTree | src/vhs/__init__.py:168 | `shutil.rmtree` removes the directory and everything under it, and nothing else |
| LegacyWrapper.VhsInline | src/vhs/__init__.py:128-168 | runs the as-written `vhs()` on `<tmp>/input.tape`; the temporary directory is gone afterwards and the file system is as before, on success or failure; a failed write or run is reported, the run error with its code and command |
| Progress.LJust | vhs/__init__.py:333 | `ljust`: the text, then blanks up to the width; never shorter than the text |
| Progress.ProgressLine | vhs/__init__.py:328-331 | the description, with the formatted sizes appended only when the total size is non-zero; its length is the sum of the parts used |
| Progress.FinishWrite | vhs/__init__.py:337-343 | finishing ends with a newline iff the installation failed or something was reported; otherwise nothing is written |
| Progress.DefaultProgressReporter.constructor | vhs/__init__.py:322-325 | nothing written, and the previous length is 0 |
| Progress.DefaultProgressReporter.Progress | vhs/__init__.py:327-335 | writes the padded line and "\r", then remembers the line's length |
| Progress.DefaultProgressReporter.Finish | vhs/__init__.py:337-343 | writes exactly FinishWrite; the previous length becomes that of the failure line, of "vhs installed", or stays 0 when nothing was written |
| Progress.ApplyAllConcat | vhs/__init__.py:355-357 | a terminal fed two writes shows what it shows when fed their concatenation |
| Progress.WritePlain | vhs/__init__.py:333 | plain text overwrites the row from the cursor on and extends the row if needed |
| Progress.ProgressShowsLine | vhs/__init__.py:333-335 | after a report the row shows exactly the new line, then only blanks: no tail of a longer earlier report survives |
| Progress.StartIsTidy | vhs/__init__.py:322 | the screen starts tidy, with a previous length of 0 |
| Progress.FinishLeavesFinalLine | vhs/__init__.py:337-343 | finishing leaves the final message on its own finished row, followed only by blanks, with the cursor on a fresh row |

## Left out

- `int()` accepts more than ASCII digits (a sign, surrounding whitespace, underscores, non-ASCII decimal digits), and `\d` matches non-ASCII digits. Version components and the version regex are modelled over ASCII digits only.
- Decoding the output of `vhs --version` is not modelled. The output is an optional text: a missing binary, a failed run and a decode error all arrive as None.
- The UTF-8 decoding of captured stdout and stderr (with `errors="replace"`) in the run error's text is not modelled: both are texts already.
- The network, the GitHub API, archive extraction and the file system are inputs. Each tool source gives its releases, a possible fetch error, and the files each unpacked directory holds.
- Download streaming, and the progress reports made during installs, are left out.
- Orchestrator.FfmpegInstall: a copy that fails half-way is not modelled. The install either adds the whole bin directory or fails.
- `format_progress` (float formatting of sizes and speed) is an opaque string parameter of Progress.DefaultProgressReporter.Progress.
- Signal names are an input (`signal.Signals(-code)` as an optional name).
- Logging is left out.
- The reporter's `start`/`finish` events around the installs in `_check_and_install` are left out; the reporter is modelled on its own.
- `resolve()` and `default_cache_path()` are not modelled: they choose the cache directory and the reporter, and build the Vhs from the result of `_check_and_install`.
- `Vhs.run_inline` is not modelled separately. It writes a temporary tape and then calls `run`, the shape LegacyWrapper.VhsInline models for the older package (which calls the as-written `vhs()`).
- Path normalisation (pathlib) is not modelled: paths are joined as text with '/'.
- Terminal character widths are not modelled: one character takes one column.
- Path truthiness: an output path is modelled as a text, so an empty text is false, as `if output_path:` treats "".
- Windows shells: the shell is modelled as POSIX `/bin/sh -c`.
- Orchestrator.OutdatedDownloadIsOnlyWarning requires a non-empty minimum. With an empty minimum the window check after the download raises, and that path is covered by Orchestrator.FreshVhs and Versions.CheckVersion.

## Findings

| source | as written | input that shows it | evidently intended | confidence | as-written member | corrected member |
|---|---|---|---|---|---|---|
| src/vhs/__init__.py:100-118 | `subprocess.run(args, ..., shell=True)` with `args` a list | `vhs("demo.tape")` (default `quiet=True`) builds `["vhs", "-q", "demo.tape"]`; on POSIX that runs `/bin/sh -c vhs -q demo.tape`: the shell runs `vhs` with no arguments, "-q" becomes `$0` and "demo.tape" becomes `$1` | run the list without a shell, so vhs receives `demo.tape` (and `-q`, `-o`) as arguments | not executed | LegacyWrapper.AsWrittenDropsArguments | LegacyWrapper.CorrectedPassesArguments |
