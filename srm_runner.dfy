/** The Steam ROM Manager invoker (core/srm_runner.py): validating the executable path and
    mapping the outcome of one `subprocess.run` to a result or an `SRMError`. */
module Srm {
  import opened Common
  import opened Host
  import opened Enums
  import Constants

  /** The answer of a path check: whether the path is acceptable and why not. */
  datatype Validation = Validation(valid: bool, reason: string)

  const ValidReason: string := "Valid executable"
  const MissingReason: string := "File does not exist"
  const NotAFileReason: string := "Path is not a file"
  const NotExeReason: string := "Must be an .exe file on Windows"
  const NoPathReason: string := "No SRM path specified"

  /** The reason given when the file system raises: told apart from every fixed reason. */
  function InvalidPathReason(f: Fault): (r: string)
    ensures StartsWith(r, "Invalid path: ")
    ensures r !in {ValidReason, MissingReason, NotAFileReason, NotExeReason, NoPathReason}
  {
    var r := "Invalid path: " + FaultText(f);
    assert r[0] == 'I' && r[..14] == "Invalid path: ";
    r
  }

  /** The `.exe` requirement: on Windows only, and on the lower-cased path. */
  predicate ExeAcceptable(path: string, platform: string)
  {
    !IsWindows(platform) || EndsWith(Lower(path), ".exe")
  }

  /** The path exists, is a regular file, and passes the `.exe` requirement. */
  predicate Acceptable(fs: Fs, path: string, platform: string)
  {
    Exists(fs, path) == Ok(true) && IsFile(fs, path) == Ok(true) && ExeAcceptable(path, platform)
  }

  /** The ordered checks of `validate_path` (core/srm_runner.py:33-49), repeated verbatim by the
      settings dialog: existence, then regular file, then the Windows `.exe` suffix; an
      `OSError` from the file system becomes "Invalid path: ...". */
  function CheckExecutable(fs: Fs, path: string, platform: string): (v: Validation)
    ensures v.valid <==> Acceptable(fs, path, platform)
    ensures v.valid <==> v.reason == ValidReason
    ensures v.reason != NoPathReason
    ensures Exists(fs, path) == Ok(false) ==> v.reason == MissingReason
    ensures Exists(fs, path) == Ok(true) && IsFile(fs, path) == Ok(false) ==> v.reason == NotAFileReason
    ensures IsFile(fs, path) == Ok(true) && !ExeAcceptable(path, platform) ==> v.reason == NotExeReason
    ensures Exists(fs, path).Err? ==> v.reason == InvalidPathReason(Exists(fs, path).error)
  {
    match Exists(fs, path)
    case Err(f) => Validation(false, InvalidPathReason(f))
    case Ok(false) => Validation(false, MissingReason)
    case Ok(true) =>
      match IsFile(fs, path)
      case Err(f) => Validation(false, InvalidPathReason(f))
      case Ok(false) => Validation(false, NotAFileReason)
      case Ok(true) =>
        if !ExeAcceptable(path, platform) then Validation(false, NotExeReason)
        else Validation(true, ValidReason)
  }

  /** Each failing check is reported by its own message: equal reasons mean the same check
      failed (for the file-system faults, the same fault text). */
  lemma {:induction false} ReasonsIdentifyCheck(fs1: Fs, p1: string, fs2: Fs, p2: string, platform: string)
    requires CheckExecutable(fs1, p1, platform).reason == CheckExecutable(fs2, p2, platform).reason
    ensures Exists(fs1, p1) == Ok(false) <==> Exists(fs2, p2) == Ok(false)
    ensures Acceptable(fs1, p1, platform) <==> Acceptable(fs2, p2, platform)
  {
    assert ValidReason[0] == 'V' && MissingReason[0] == 'F' && NotAFileReason[0] == 'P' && NotExeReason[0] == 'M';
  }

  /** An SRM runner: the configured executable as a path object, and the timeout in seconds. */
  datatype SrmRunner = SrmRunner(srmPath: string, timeout: int)

  /** `SRMRunner(srm_path, timeout)`: the path is wrapped in `Path`, so the empty string becomes
      ".". */
  function NewRunner(srmPath: string, timeout: int := Constants.SrmExecuteTimeout): (r: SrmRunner)
    ensures r.srmPath != [] && r.timeout == timeout
    ensures srmPath != [] ==> r.srmPath == srmPath
    ensures srmPath == [] ==> r.srmPath == "."
  {
    SrmRunner(PathText(srmPath), timeout)
  }

  /** `validate_path`. Its first test, `not self.srm_path`, is applied to a `Path` object, which
      is never falsy, so that test never fires and the checks of `CheckExecutable` decide. */
  function ValidatePath(r: SrmRunner, fs: Fs, platform: string): (v: Validation)
    ensures v.valid <==> Acceptable(fs, r.srmPath, platform)
    ensures v.reason != NoPathReason
  {
    CheckExecutable(fs, r.srmPath, platform)
  }

  /** An empty configured path never yields "No SRM path specified": it is checked as ".", the
      current directory, and is rejected as not being a file. */
  lemma EmptyPathReachesFileChecks(fs: Fs, timeout: int, platform: string)
    requires "." !in fs.statFaults && "." in fs.nodes && fs.nodes["."].Directory?
    ensures ValidatePath(NewRunner("", timeout), fs, platform) == Validation(false, NotAFileReason)
  {
  }

  /** What `execute_command` does: the subprocess it starts, if any, and what it returns or
      raises. */
  datatype Execution = Execution(spawned: Option<Invocation>, result: Result<(bool, string), AppError>)

  function ValidationFailedMessage(reason: string): string
  {
    "Steam ROM Manager validation failed: " + reason
  }

  const TimedOutLead: string := "Steam ROM Manager timed out after "

  /** The timeout error names the timeout in seconds, right after its lead. */
  function TimedOutMessage(timeout: int): (m: string)
    ensures OccursAt(m, IntToString(timeout), |TimedOutLead|)
  {
    OccursAtConcat(TimedOutLead, IntToString(timeout), "s");
    TimedOutLead + IntToString(timeout) + "s"
  }

  function LaunchFailedMessage(message: string): string
  {
    "Failed to execute Steam ROM Manager: " + message
  }

  /** `execute_command(command)`: validate first and spawn nothing on failure; otherwise run
      `[path, command]` in the executable's directory, and report success as exit code 0 with
      the stripped concatenation of stdout and stderr. */
  function ExecuteCommand(r: SrmRunner, fs: Fs, platform: string, command: string, outcome: RunOutcome): (x: Execution)
    ensures x.spawned.Some? <==> ValidatePath(r, fs, platform).valid
    ensures x.spawned.Some? ==>
              x.spawned.value == Invocation([r.srmPath, command], Parent(r.srmPath, IsWindows(platform)), r.timeout)
    ensures x.spawned.None? ==>
              x.result == Err(SrmError(ValidationFailedMessage(ValidatePath(r, fs, platform).reason)))
    ensures x.result.Ok? <==> x.spawned.Some? && outcome.Completed?
    ensures x.result.Ok? ==>
              x.result.value == (outcome.returncode == 0, Strip(outcome.stdout + outcome.stderr))
    ensures x.spawned.Some? && outcome.TimedOut? ==>
              x.result.Err? && OccursAt(x.result.error.message, IntToString(r.timeout), |TimedOutLead|)
    ensures x.spawned.Some? && outcome.LaunchFailed? ==>
              x.result == Err(SrmError(LaunchFailedMessage(outcome.message)))
    ensures x.result.Err? ==> x.result.error.SrmError?
  {
    var v := ValidatePath(r, fs, platform);
    if !v.valid then
      Execution(None, Err(SrmError(ValidationFailedMessage(v.reason))))
    else
      var call := Invocation([r.srmPath, command], Parent(r.srmPath, IsWindows(platform)), r.timeout);
      match outcome
      case Completed(code, out, err) => Execution(Some(call), Ok((code == 0, Strip(out + err))))
      case TimedOut => Execution(Some(call), Err(SrmError(TimedOutMessage(r.timeout))))
      case LaunchFailed(message) => Execution(Some(call), Err(SrmError(LaunchFailedMessage(message))))
  }

  /** The output is returned for both exit codes and is already stripped: surrounding
      whitespace of the captured streams never reaches the caller. */
  lemma ExecuteOutputStripped(r: SrmRunner, fs: Fs, platform: string, command: string, outcome: RunOutcome)
    requires ExecuteCommand(r, fs, platform, command, outcome).result.Ok?
    ensures var out := ExecuteCommand(r, fs, platform, command, outcome).result.value.1;
            Strip(out) == out && (out != [] ==> !IsSpace(out[0]) && !IsSpace(out[|out| - 1]))
  {
    var s := outcome.stdout + outcome.stderr;
    StripIdempotent(s);
    StripEnds(s);
  }
}
