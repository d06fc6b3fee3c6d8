/** The automation run as the main window drives it (ui/main_window.py): starting a run,
    stopping Steam, verifying it is gone, running Steam ROM Manager with "add", and reporting the
    outcome through the status, the progress record and the log. The run, which the source starts
    on a worker thread, is modelled as one atomic call. */
module MainWindow {
  import opened Common
  import opened Host
  import opened Enums
  import Constants
  import Config
  import ConfigStore
  import Steam
  import Srm

  // ---------------------------------------------------------------- configuration messages

  /** The level argument of `_log_config_message`: none, a level name, or a level. */
  datatype LevelArg = NoLevel | Named(name: string) | Level(level: LogLevel)

  /** The level a configuration message is shown with: names outside the four known ones, and
      no level at all, mean INFO. */
  function ConfigLevel(arg: LevelArg): (l: LogLevel)
    ensures arg.NoLevel? ==> l == LogLevel.Info
    ensures arg.Level? ==> l == arg.level
    ensures arg.Named? && arg.name !in ConfigStore.LevelNames ==> l == LogLevel.Info
    ensures arg.Named? && arg.name in ConfigStore.LevelNames ==> l == ConfigStore.LevelFor(arg.name)
  {
    match arg
    case NoLevel => LogLevel.Info
    case Level(l) => l
    case Named(name) =>
      if name == "SUCCESS" then LogLevel.Success
      else if name == "ERROR" then LogLevel.Error
      else if name == "WARNING" then LogLevel.Warning
      else LogLevel.Info
  }

  /** The mark put in front of a configuration message. */
  function Marker(l: LogLevel): string
  {
    match l
    case Success => "\U{2713}"
    case Error => "\U{2717}"
    case Warning => "\U{26a0}"
    case Info => "\U{2699}"
  }

  /** `_log_config_message(message, level)`: the line shown in the window. */
  function ConfigMessage(message: string, arg: LevelArg): (line: LogLine)
    ensures line.level == ConfigLevel(arg)
    ensures StartsWith(line.message, Marker(line.level) + " Config: ")
    ensures EndsWith(line.message, message)
  {
    var l := ConfigLevel(arg);
    LogLine(Marker(l) + " Config: " + message, l)
  }

  /** The mark tells the level: distinct levels are shown with distinct marks. */
  lemma MarkerIdentifiesLevel(a: LogLevel, b: LogLevel)
    requires Marker(a) == Marker(b)
    ensures a == b
  {
  }

  /** The two level maps disagree on unknown names: the configuration manager reads such a name
      as ERROR, the window as INFO. Since the manager converts the name before calling the
      window, its reading is the one shown. */
  lemma UnknownLevelNames(message: string, name: string)
    requires name !in ConfigStore.LevelNames
    ensures ConfigLevel(Named(name)) == LogLevel.Info
    ensures ConfigStore.LevelFor(name) == LogLevel.Error
    ensures ConfigMessage(message, Level(ConfigStore.LevelFor(name))).level == LogLevel.Error
  {
  }

  // ---------------------------------------------------------------- progress

  /** One `update_progress` call: the step, the percentage and the message. */
  datatype Progress = Progress(step: int, percentage: int, message: string)

  function Steps(ps: seq<Progress>): (r: seq<(int, int)>)
    ensures |r| == |ps| && forall i :: 0 <= i < |ps| ==> r[i] == (ps[i].step, ps[i].percentage)
  {
    seq(|ps|, i requires 0 <= i < |ps| => (ps[i].step, ps[i].percentage))
  }

  const CompletedTrail: seq<(int, int)> := [(1, 25), (2, 50), (3, 75), (4, 100)]

  /** The progress records one run can emit: steps 1, 2, 3 in order, stopped by a (0, 0)
      failure after any of them, or ended by step 4 at 100 (success) or 0 (failure). */
  predicate AllowedTrail(t: seq<(int, int)>)
  {
    || t == [(1, 25), (0, 0)]
    || t == [(1, 25), (2, 50), (0, 0)]
    || t == [(1, 25), (2, 50), (3, 75), (0, 0)]
    || t == [(1, 25), (2, 50), (3, 75), (4, 0)]
    || t == CompletedTrail
  }

  /** Every allowed record starts at step 1, goes up one step and 25 percent at a time, and ends
      either at 100 percent or with a 0 percentage. */
  lemma AllowedTrailInOrder(t: seq<(int, int)>)
    requires AllowedTrail(t)
    ensures 2 <= |t| <= 4 && t[0] == (1, 25)
    ensures forall i :: 0 <= i < |t| - 1 ==> t[i] == (i + 1, 25 * (i + 1))
    ensures t[|t| - 1].1 == 100 <==> t == CompletedTrail
    ensures t[|t| - 1].1 == 100 || t[|t| - 1].1 == 0
  {
  }

  /** The steps of a run that reached SRM. */
  lemma StepsOfRun(ps: seq<Progress>)
    requires |ps| == 4
    ensures Steps(ps) == [(ps[0].step, ps[0].percentage), (ps[1].step, ps[1].percentage),
                          (ps[2].step, ps[2].percentage), (ps[3].step, ps[3].percentage)]
  {
  }

  /** The machine after steps 1 and 2 of a run that started at the counters `s0` and ended at
      `t`: the graceful shutdown with the timeout `timeout` answered `shutdown`; when that did
      not raise, one more enumeration followed, and `stillRunning` is what it found. */
  ghost predicate SteamStopped(scanAt: nat -> Scan, timeout: int, s0: Steam.Mark, t: Steam.Mark,
                               shutdown: Result<(bool, string), string>, stillRunning: bool)
  {
    if shutdown.Ok? then
      && t.scans > 0 && stillRunning == Steam.RunningIn(scanAt(t.scans - 1))
      && Steam.ShutDown(scanAt, timeout, s0, t.(scans := t.scans - 1), shutdown)
    else
      !stillRunning && Steam.ShutDown(scanAt, timeout, s0, t, shutdown)
  }

  // ---------------------------------------------------------------- the window

  const StartMessage: string := "\U{1f680} Starting Steam ROM Manager automation..."
  const NotConfiguredMessage: string := "\U{2717} Cannot start: Steam ROM Manager path not configured"
  // ---------------------------------------------------------------- messages of a run

  const CompletedLine: string := "\U{2713} Steam ROM Manager completed successfully!"
  const AddedLine: string := "\U{2713} ROMs have been added to Steam"
  const SrmFailedLine: string := "\U{2717} Steam ROM Manager failed!"
  const CompletedNote: string := "Process completed successfully!"
  const FailedNote: string := "Process failed - see log for details"
  const OperationNote: string := "Process failed - see log"
  const UnexpectedPrefix: string := "\U{2717} Unexpected error: "
  const OperationPrefix: string := "\U{2717} Operation failed: "
  const SaveWarning: string := "\U{26a0} Auto-detected SRM path but failed to save config"
  const Step2Note: string := "Verifying Steam is closed..."
  const StillRunningNote: string := "Failed - Steam still running"
  const Step2Line: string := "Step 2: Final verification..."
  const Step3Note: string := "Running Steam ROM Manager..."
  const Step3Line: string := "Step 3: Executing Steam ROM Manager..."
  const OutputPrefix: string := "Output: "
  const ErrorPrefix: string := "Error: "
  const SuccessMark: string := "\U{2713} "
  const WarningMark: string := "\U{26a0} "
  const AddCommand: string := "add"
  const UnexpectedNote: string := "Process failed - unexpected error"

  const Step1Note: string := "Terminating Steam processes..."
  const Step1Line: string := "Step 1: Checking Steam processes..."
  const StillRunningLine: LogLine := LogLine("\U{2717} Steam is still running! Manual intervention required.", LogLevel.Error)
  const ClosedLine: LogLine := LogLine("\U{2713} Steam is completely closed", LogLevel.Success)

  /** The line logged for the result of the graceful shutdown. */
  function ShutdownLine(r: Result<(bool, string), string>): LogLine
  {
    match r
    case Err(e) => LogLine(UnexpectedPrefix + e, LogLevel.Error)
    case Ok((true, message)) => LogLine(SuccessMark + message, LogLevel.Success)
    case Ok((false, message)) => LogLine(WarningMark + message, LogLevel.Warning)
  }

  /** How the runner starts SRM for AddCommand: the executable and the command, in the executable's
      directory, with the runner's timeout. */
  function SrmCall(r: Srm.SrmRunner, platform: string): Invocation
  {
    Invocation([r.srmPath, AddCommand], Parent(r.srmPath, IsWindows(platform)), r.timeout)
  }

  const NoRunnerError: string := "'NoneType' object has no attribute 'execute_command'"

  /** The two `except` clauses of `automation_process`: a `SteamError` or an `SRMError` is an
      operation failure, anything else an unexpected error. */
  function ErrorLine(e: AppError): string
  {
    (if e.Unexpected? then UnexpectedPrefix else OperationPrefix) + e.message
  }

  function ErrorNote(e: AppError): string
  {
    if e.Unexpected? then UnexpectedNote else OperationNote
  }

  /** What the call `execute_command("add")` of step 3 returns or raises. Without a runner the
      call itself raises, since `None` has no `execute_command`. */
  function SrmResult(runner: Option<Srm.SrmRunner>, fs: Fs, platform: string, outcome: RunOutcome): Result<(bool, string), AppError>
  {
    if runner.None? then Err(Unexpected(NoRunnerError))
    else Srm.ExecuteCommand(runner.value, fs, platform, AddCommand, outcome).result
  }

  /** SRM reports success exactly when a runner exists, its path validates and the subprocess
      completed with exit code 0; it reports failure exactly when the subprocess completed with
      another code; and the call raises an unexpected error exactly when there is no runner. */
  lemma SrmResultMeaning(runner: Option<Srm.SrmRunner>, fs: Fs, platform: string, outcome: RunOutcome)
    ensures var r := SrmResult(runner, fs, platform, outcome);
            && (r.Ok? && r.value.0 <==>
                  runner.Some? && Srm.ValidatePath(runner.value, fs, platform).valid
                  && outcome.Completed? && outcome.returncode == 0)
            && (r.Ok? && !r.value.0 <==>
                  runner.Some? && Srm.ValidatePath(runner.value, fs, platform).valid
                  && outcome.Completed? && outcome.returncode != 0)
            && (r.Err? && r.error.Unexpected? <==> runner.None?)
  {
  }

  /** The log after step 4 reported SRM's result, starting from `base` (the elapsed-time line
      aside). */
  function ReportLog(base: seq<LogLine>, result: Result<(bool, string), AppError>): seq<LogLine>
  {
    match result
    case Err(e) => base + [LogLine(ErrorLine(e), LogLevel.Error)]
    case Ok((true, output)) =>
      var done := base + [LogLine(CompletedLine, LogLevel.Success)] + [LogLine(AddedLine, LogLevel.Success)];
      if output != [] then done + [LogLine(OutputPrefix + output, LogLevel.Info)] else done
    case Ok((false, output)) =>
      var failed := base + [LogLine(SrmFailedLine, LogLevel.Error)];
      if output != [] then failed + [LogLine(ErrorPrefix + output, LogLevel.Error)] else failed
  }

  /** The log after one run that started from `base`: the step 1 line and the shutdown result;
      then, unless the shutdown raised, the step 2 line and the verdict of the final enumeration;
      then, when Steam is gone, the step 3 line and the report of SRM's result. */
  function RunLog(base: seq<LogLine>, shutdown: Result<(bool, string), string>, stillRunning: bool,
                  srm: Result<(bool, string), AppError>): seq<LogLine>
  {
    var closing := base + [LogLine(Step1Line, LogLevel.Info), ShutdownLine(shutdown)];
    if shutdown.Err? then closing
    else if stillRunning then closing + [LogLine(Step2Line, LogLevel.Info), StillRunningLine]
    else ReportLog(closing + [LogLine(Step2Line, LogLevel.Info), ClosedLine] + [LogLine(Step3Line, LogLevel.Info)], srm)
  }

  /** The progress entry step 4 records for SRM's result. */
  function ReportEntry(result: Result<(bool, string), AppError>): Progress
  {
    match result
    case Err(e) => Progress(0, 0, ErrorNote(e))
    case Ok((true, _)) => Progress(4, 100, CompletedNote)
    case Ok((false, _)) => Progress(4, 0, FailedNote)
  }

  /** The progress entries of one run: step 1, then a failure when the shutdown raised; step 2,
      then a failure when Steam is still there; otherwise steps 3 and 4. */
  function RunProgress(shutdown: Result<(bool, string), string>, stillRunning: bool,
                       srm: Result<(bool, string), AppError>): seq<Progress>
  {
    if shutdown.Err? then [Progress(1, 25, Step1Note), Progress(0, 0, UnexpectedNote)]
    else if stillRunning then [Progress(1, 25, Step1Note), Progress(2, 50, Step2Note), Progress(0, 0, StillRunningNote)]
    else [Progress(1, 25, Step1Note), Progress(2, 50, Step2Note), Progress(3, 75, Step3Note), ReportEntry(srm)]
  }

  /** Every run leaves an allowed progress record, and the record tells the outcome: complete
      exactly when Steam was gone and SRM exited with code 0, ending at (4, 0) exactly when SRM
      ran and exited with another code, at (3, 75) then (0, 0) exactly when running SRM raised,
      and stopping after step 1 or 2 exactly when the shutdown raised or Steam was still
      there. */
  lemma {:induction false} RunProgressAllowed(shutdown: Result<(bool, string), string>, stillRunning: bool,
                                              srm: Result<(bool, string), AppError>)
    ensures var t, gone := Steps(RunProgress(shutdown, stillRunning, srm)), shutdown.Ok? && !stillRunning;
            && AllowedTrail(t)
            && (t == CompletedTrail <==> gone && srm.Ok? && srm.value.0)
            && (t == [(1, 25), (2, 50), (3, 75), (4, 0)] <==> gone && srm.Ok? && !srm.value.0)
            && (t == [(1, 25), (2, 50), (3, 75), (0, 0)] <==> gone && srm.Err?)
            && (t == [(1, 25), (2, 50), (0, 0)] <==> shutdown.Ok? && stillRunning)
            && (t == [(1, 25), (0, 0)] <==> shutdown.Err?)
  {
    var ps := RunProgress(shutdown, stillRunning, srm);
    var t := Steps(ps);
    if shutdown.Err? {
      assert t == [(1, 25), (0, 0)];
    } else if stillRunning {
      assert t == [(1, 25), (2, 50), (0, 0)];
    } else {
      StepsOfRun(ps);
    }
  }

  /** The main window's state: the run status, how many runs were started, the progress records
      and log lines shown, whether the log widget exists yet, whether Start is enabled, how often
      Settings was opened, the resolved SRM path and runner, and the SRM invocations made. */
  class SteamRomManagerGui {
    var status: ProcessStatus
    var processCount: nat
    var progress: seq<Progress>
    var log: seq<LogLine>
    var logAttached: bool
    var startEnabled: bool
    var settingsOpened: nat
    var srmPath: Option<string>
    var runner: Option<Srm.SrmRunner>
    var srmCalls: seq<Invocation>
    const steam: Steam.SteamManager
    const manager: ConfigStore.ConfigManager

    /** The first part of `__init__`: status READY, no run yet, and a Steam manager with the
        configured timeout. */
    constructor (manager: ConfigStore.ConfigManager)
      ensures this.manager == manager && fresh(steam) && steam.timeout == manager.config.timeoutSteam
      ensures status == ProcessStatus.Ready && processCount == 0 && progress == [] && log == []
      ensures !logAttached && startEnabled && settingsOpened == 0
      ensures srmPath == None && runner == None && srmCalls == []
    {
      this.manager := manager;
      steam := new Steam.SteamManager(manager.config.timeoutSteam);
      status := ProcessStatus.Ready;
      processCount := 0;
      progress := [];
      log := [];
      logAttached := false;
      startEnabled := true;
      settingsOpened := 0;
      srmPath := None;
      runner := None;
      srmCalls := [];
    }

    /** `log_message`: shown only once the log widget exists. */
    method LogMessage(message: string, level: LogLevel)
      modifies this`log
      ensures log == old(log) + (if logAttached then [LogLine(message, level)] else [])
    {
      if logAttached {
        log := log + [LogLine(message, level)];
      }
    }

    /** The messages of storing a detected path whose save ended as `a`: the manager's save
        message, and the window's warning when the save failed. */
    ghost predicate SavedDetected(a: Attempt, log0: seq<LogLine>, delivered0: seq<LogLine>, printed0: seq<string>)
      reads this, manager
    {
      && manager.delivered == delivered0 + ConfigStore.ToCallback(manager.sink, ConfigStore.SaveNote(a, manager.configFile))
      && manager.printed == printed0 + ConfigStore.ToStdout(manager.sink, ConfigStore.SaveNote(a, manager.configFile))
      && log == log0 + (if a.fault.Some? && logAttached then [LogLine(SaveWarning, LogLevel.Warning)] else [])
    }

    /** The detected path is stored in the configuration and saved; a failed save is only
        logged as a warning. */
    method StoreDetected(disk: Disk, detected: string)
      modifies this`log, manager`config, manager`delivered, manager`printed, disk
      ensures manager.config == old(manager.config).(srmPath := detected)
      ensures var a := ConfigStore.Save(old(disk.fs), manager.configFile, manager.config);
              SavedDetected(a, old(log), old(manager.delivered), old(manager.printed)) && disk.fs == a.fs
    {
      manager.config := manager.config.(srmPath := detected);
      var ok := manager.SaveConfig(disk);
      if !ok {
        LogMessage(SaveWarning, LogLevel.Warning);
      }
    }

    /** `_resolve_srm_path`: a configured path is returned as it is; with the sentinel, the
        detected path is returned, and stored and saved when one was found. An exception from
        the detection propagates. */
    method ResolveSrmPath(disk: Disk, env: map<string, string>) returns (r: Result<Option<string>, Fault>)
      modifies this`log, manager`config, manager`delivered, manager`printed, disk
      ensures old(manager.config.srmPath) != Constants.AutoDetect ==>
                r == Ok(Some(old(manager.config.srmPath)))
                && manager.config == old(manager.config) && disk.fs == old(disk.fs) && log == old(log)
                && manager.delivered == old(manager.delivered) && manager.printed == old(manager.printed)
      ensures old(manager.config.srmPath) == Constants.AutoDetect ==>
                r == ConfigStore.FirstExisting(old(disk.fs), ConfigStore.Candidates(ConfigStore.Username(env)))
      ensures var found := r.Ok? && r.value.Some? && r.value.value != [] && r.value.value != Constants.AutoDetect;
              old(manager.config.srmPath) == Constants.AutoDetect ==>
                (found ==>
                   manager.config == old(manager.config).(srmPath := r.value.value)
                   && var a := ConfigStore.Save(old(disk.fs), manager.configFile, manager.config);
                      disk.fs == a.fs && SavedDetected(a, old(log), old(manager.delivered), old(manager.printed)))
                && (!found ==>
                      manager.config == old(manager.config) && disk.fs == old(disk.fs) && log == old(log)
                      && manager.delivered == old(manager.delivered) && manager.printed == old(manager.printed))
      ensures Config.Valid(old(manager.config)) ==> Config.Valid(manager.config)
    {
      if manager.config.srmPath != Constants.AutoDetect {
        return Ok(Some(manager.config.srmPath));
      }
      r := manager.AutoDetectSrmPath(disk.fs, env);
      if r.Ok? && r.value.Some? && r.value.value != [] {
        var detected := r.value.value;
        if manager.config.srmPath != detected {
          StoreDetected(disk, detected);
        }
      }
    }

    /** The rest of `__init__` that the run depends on: resolve the path, build a runner only
        for a non-empty path, and attach the log widget (the UI callback is connected once the
        widgets exist). An exception while resolving ends construction. */
    method Setup(disk: Disk, env: map<string, string>) returns (r: Result<(), Fault>)
      modifies this`srmPath, this`runner, this`logAttached, this`log, manager`config, manager`delivered, manager`printed, disk
      ensures old(manager.config.srmPath) != Constants.AutoDetect ==>
                r.Ok? && srmPath == Some(old(manager.config.srmPath))
                && manager.config == old(manager.config) && disk.fs == old(disk.fs) && log == old(log)
                && manager.delivered == old(manager.delivered) && manager.printed == old(manager.printed)
      ensures var det := ConfigStore.FirstExisting(old(disk.fs), ConfigStore.Candidates(ConfigStore.Username(env)));
              old(manager.config.srmPath) == Constants.AutoDetect ==>
                (r.Err? <==> det.Err?) && (r.Ok? ==> srmPath == det.value)
      ensures var det := ConfigStore.FirstExisting(old(disk.fs), ConfigStore.Candidates(ConfigStore.Username(env)));
              var found := det.Ok? && det.value.Some? && det.value.value != [] && det.value.value != Constants.AutoDetect;
              old(manager.config.srmPath) == Constants.AutoDetect ==>
                (found ==>
                   manager.config == old(manager.config).(srmPath := det.value.value)
                   && var a := ConfigStore.Save(old(disk.fs), manager.configFile, manager.config);
                      && disk.fs == a.fs
                      && manager.delivered == old(manager.delivered) + ConfigStore.ToCallback(manager.sink, ConfigStore.SaveNote(a, manager.configFile))
                      && manager.printed == old(manager.printed) + ConfigStore.ToStdout(manager.sink, ConfigStore.SaveNote(a, manager.configFile))
                      && log == old(log) + (if a.fault.Some? && old(logAttached) then [LogLine(SaveWarning, LogLevel.Warning)] else []))
                && (!found ==>
                      manager.config == old(manager.config) && disk.fs == old(disk.fs) && log == old(log)
                      && manager.delivered == old(manager.delivered) && manager.printed == old(manager.printed))
      ensures r.Ok? ==> logAttached
      ensures r.Ok? ==> (runner.Some? <==> srmPath.Some? && srmPath.value != [])
      ensures r.Ok? && runner.Some? ==> runner.value == Srm.NewRunner(srmPath.value, manager.config.timeoutSrm)
      ensures Config.Valid(old(manager.config)) ==> Config.Valid(manager.config)
    {
      var resolved := ResolveSrmPath(disk, env);
      if resolved.Err? {
        return Err(resolved.error);
      }
      AttachRunner(resolved.value);
      r := Ok(());
    }

    /** The window takes the resolved path, a runner exactly when the path is non-empty, and
        its log widget. */
    method AttachRunner(path: Option<string>)
      modifies this`srmPath, this`runner, this`logAttached
      ensures srmPath == path && logAttached
      ensures runner.Some? <==> path.Some? && path.value != []
      ensures runner.Some? ==> runner.value == Srm.NewRunner(path.value, manager.config.timeoutSrm)
    {
      srmPath := path;
      if path.Some? && path.value != [] {
        runner := Some(Srm.NewRunner(path.value, manager.config.timeoutSrm));
      } else {
        runner := None;
      }
      logAttached := true;
    }

    /** The window after `_open_settings`, which found the path `path0`, the runner `runner0`
        and the count `opened0`: one more dialog shown, and the configured path, unless it is
        the sentinel or already the window's, now the window's, with a new runner. */
    ghost predicate SettingsShown(path0: Option<string>, runner0: Option<Srm.SrmRunner>, opened0: nat)
      reads this, manager
    {
      && settingsOpened == opened0 + 1
      && var p := manager.config.srmPath;
         if p != Constants.AutoDetect && Some(p) != path0
         then srmPath == Some(p) && runner == Some(Srm.NewRunner(p, manager.config.timeoutSrm))
         else srmPath == path0 && runner == runner0
    }

    /** `_open_settings`: the dialog is shown, which does not wait for the user, and the
        configured path is compared at once: one that differs from the window's replaces it,
        together with the runner. Afterwards the window's path is the configured one unless
        that is the sentinel. Edits made later in the dialog reach the window only at the next
        call. */
    method OpenSettings()
      modifies this`settingsOpened, this`srmPath, this`runner
      ensures SettingsShown(old(srmPath), old(runner), old(settingsOpened))
      ensures manager.config.srmPath != Constants.AutoDetect ==> srmPath == Some(manager.config.srmPath)
    {
      settingsOpened := settingsOpened + 1;
      var newPath := manager.config.srmPath;
      if newPath != Constants.AutoDetect && Some(newPath) != srmPath {
        srmPath := Some(newPath);
        runner := Some(Srm.NewRunner(newPath, manager.config.timeoutSrm));
      }
    }

    /** A failure inside the run: log it, record a (0, 0) progress entry, mark the run failed. */
    method Fail(line: string, note: string)
      modifies this`log, this`progress, this`status
      ensures log == old(log) + (if logAttached then [LogLine(line, LogLevel.Error)] else [])
      ensures progress == old(progress) + [Progress(0, 0, note)]
      ensures status == ProcessStatus.Failed
    {
      LogMessage(line, LogLevel.Error);
      progress := progress + [Progress(0, 0, note)];
      status := ProcessStatus.Failed;
    }

    /** The end of `automation_process` once SRM has been run: record the invocation, and
        report the outcome with one progress entry: (4, 100) and SUCCESS when SRM exited with
        code 0, (4, 0) and FAILED for any other code, (0, 0) and FAILED when the runner raised. */
    method Report(x: Srm.Execution)
      modifies this`status, this`progress, this`log, this`srmCalls
      ensures srmCalls == old(srmCalls) + (if x.spawned.Some? then [x.spawned.value] else [])
      ensures x.result.Ok? && x.result.value.0 ==> progress == old(progress) + [Progress(4, 100, CompletedNote)]
      ensures x.result.Ok? && !x.result.value.0 ==> progress == old(progress) + [Progress(4, 0, FailedNote)]
      ensures x.result.Err? ==> progress == old(progress) + [Progress(0, 0, ErrorNote(x.result.error))]
      ensures status == ProcessStatus.Success || status == ProcessStatus.Failed
      ensures status == ProcessStatus.Success <==> x.result.Ok? && x.result.value.0
      ensures log == if logAttached then ReportLog(old(log), x.result) else old(log)
    {
      if x.spawned.Some? {
        srmCalls := srmCalls + [x.spawned.value];
      }
      match x.result
      case Err(e) =>
        Fail(ErrorLine(e), ErrorNote(e));
      case Ok(done) =>
        var success, output := done.0, done.1;
        if success {
          progress := progress + [Progress(4, 100, CompletedNote)];
          LogMessage(CompletedLine, LogLevel.Success);
          LogMessage(AddedLine, LogLevel.Success);
          if output != [] {
            LogMessage(OutputPrefix + output, LogLevel.Info);
          }
          status := ProcessStatus.Success;
        } else {
          progress := progress + [Progress(4, 0, FailedNote)];
          LogMessage(SrmFailedLine, LogLevel.Error);
          if output != [] {
            LogMessage(ErrorPrefix + output, LogLevel.Error);
          }
          status := ProcessStatus.Failed;
        }
    }

    /** Step 1 of `automation_process`: mark the run as started, disable Start and stop Steam.
        A failed shutdown is only a warning; an exception from it (`r` is `Err`) fails the run. */
    method StopSteam(m: Machine) returns (r: Result<(bool, string), string>)
      modifies this`status, this`startEnabled, this`progress, this`log, m`scans, m`signals, m`clock
      ensures !startEnabled
      ensures r.Ok? ==> status == ProcessStatus.Running && progress == old(progress) + [Progress(1, 25, Step1Note)]
      ensures r.Err? ==>
                status == ProcessStatus.Failed
                && progress == old(progress) + [Progress(1, 25, Step1Note), Progress(0, 0, UnexpectedNote)]
      ensures log == old(log) + (if logAttached then [LogLine(Step1Line, LogLevel.Info), ShutdownLine(r)] else [])
      ensures Steam.ShutDown(m.scanAt, steam.timeout, Steam.Mark(old(m.scans), old(m.signals), old(m.clock)),
                             Steam.Mark(m.scans, m.signals, m.clock), r)
    {
      status := ProcessStatus.Running;
      startEnabled := false;
      progress := progress + [Progress(1, 25, Step1Note)];
      LogMessage(Step1Line, LogLevel.Info);
      r := steam.GracefulShutdown(m);
      var line := ShutdownLine(r);
      LogMessage(line.message, line.level);
      if r.Err? {
        progress := progress + [Progress(0, 0, UnexpectedNote)];
        status := ProcessStatus.Failed;
      }
    }

    /** Step 2 of `automation_process`: one more enumeration; a Steam process still there fails
        the run. */
    method VerifyClosed(m: Machine) returns (running: bool)
      modifies this`status, this`progress, this`log, m`scans
      ensures m.scans == old(m.scans) + 1 && running == Steam.RunningIn(m.scanAt(old(m.scans)))
      ensures progress == old(progress) + [Progress(2, 50, Step2Note)]
                          + (if running then [Progress(0, 0, StillRunningNote)] else [])
      ensures status == if running then ProcessStatus.Failed else old(status)
      ensures log == old(log) + (if logAttached then [LogLine(Step2Line, LogLevel.Info),
                                                       if running then StillRunningLine else ClosedLine] else [])
    {
      progress := progress + [Progress(2, 50, Step2Note)];
      LogMessage(Step2Line, LogLevel.Info);
      running := steam.IsRunning(m);
      if running {
        Fail(StillRunningLine.message, StillRunningNote);
      } else {
        LogMessage(ClosedLine.message, ClosedLine.level);
      }
    }

    /** Step 3 of `automation_process`: run SRM AddCommand and report. Without a runner the call
        raises (`None` has no `execute_command`) and the run fails as unexpected. */
    method RunSrm(fs: Fs, platform: string, outcome: RunOutcome)
      modifies this`status, this`progress, this`log, this`srmCalls
      ensures var srm := SrmResult(runner, fs, platform, outcome);
              && progress == old(progress) + [Progress(3, 75, Step3Note)] + [ReportEntry(srm)]
              && status == (if srm.Ok? && srm.value.0 then ProcessStatus.Success else ProcessStatus.Failed)
              && log == if logAttached then ReportLog(old(log) + [LogLine(Step3Line, LogLevel.Info)], srm) else old(log)
      ensures status == ProcessStatus.Success <==>
                runner.Some? && Srm.ValidatePath(runner.value, fs, platform).valid
                && outcome.Completed? && outcome.returncode == 0
      ensures runner.None? ==> srmCalls == old(srmCalls)
      ensures runner.Some? ==>
                && (srmCalls != old(srmCalls) <==> Srm.ValidatePath(runner.value, fs, platform).valid)
                && (srmCalls != old(srmCalls) ==> srmCalls == old(srmCalls) + [SrmCall(runner.value, platform)])
    {
      progress := progress + [Progress(3, 75, Step3Note)];
      LogMessage(Step3Line, LogLevel.Info);
      ghost var srm := SrmResult(runner, fs, platform, outcome);
      if runner.None? {
        Fail(ErrorLine(Unexpected(NoRunnerError)), UnexpectedNote);
      } else {
        var x := Srm.ExecuteCommand(runner.value, fs, platform, AddCommand, outcome);
        assert x.result == srm;
        Report(x);
      }
    }

    /** Steps 1 and 2 of `automation_process`: stop Steam and check that it is gone. The run
        goes on to SRM (`proceed`) only when the shutdown did not raise and the final
        enumeration found no Steam process; otherwise it has failed here. */
    method CloseSteam(m: Machine) returns (proceed: bool, ghost shutdown: Result<(bool, string), string>, ghost added: seq<Progress>)
      modifies this`status, this`startEnabled, this`progress, this`log, m`scans, m`signals, m`clock
      ensures progress == old(progress) + added
      ensures var closing := old(log) + [LogLine(Step1Line, LogLevel.Info), ShutdownLine(shutdown)];
              log == if !logAttached then old(log)
                     else if shutdown.Err? then closing
                     else closing + [LogLine(Step2Line, LogLevel.Info), if proceed then ClosedLine else StillRunningLine]
      ensures proceed ==> status == ProcessStatus.Running && added == [Progress(1, 25, Step1Note), Progress(2, 50, Step2Note)]
      ensures !proceed ==> status == ProcessStatus.Failed
      ensures shutdown.Err? ==>
                !proceed && added == [Progress(1, 25, Step1Note), Progress(0, 0, UnexpectedNote)]
      ensures shutdown.Ok? ==>
                !proceed ==> added == [Progress(1, 25, Step1Note), Progress(2, 50, Step2Note), Progress(0, 0, StillRunningNote)]
      ensures SteamStopped(m.scanAt, steam.timeout, Steam.Mark(old(m.scans), old(m.signals), old(m.clock)), Steam.Mark(m.scans, m.signals, m.clock), shutdown, shutdown.Ok? && !proceed)
    {
      var stopped := StopSteam(m);
      shutdown := stopped;
      if stopped.Err? {
        added := [Progress(1, 25, Step1Note), Progress(0, 0, UnexpectedNote)];
        return false, shutdown, added;
      }
      var running := VerifyClosed(m);
      proceed := !running;
      added := [Progress(1, 25, Step1Note), Progress(2, 50, Step2Note)]
               + (if running then [Progress(0, 0, StillRunningNote)] else []);
    }

    /** The window after one run that started from the progress `p0` and the log `log0`: Start
        is enabled again; the run succeeded exactly when Steam was gone and SRM reported
        success; and the progress entries and log lines of the run were appended. */
    ghost predicate RunDone(p0: seq<Progress>, log0: seq<LogLine>, shutdown: Result<(bool, string), string>,
                            stillRunning: bool, srm: Result<(bool, string), AppError>)
      reads this
    {
      && startEnabled
      && status == (if shutdown.Ok? && !stillRunning && srm.Ok? && srm.value.0
                    then ProcessStatus.Success else ProcessStatus.Failed)
      && progress == p0 + RunProgress(shutdown, stillRunning, srm)
      && log == if logAttached then RunLog(log0, shutdown, stillRunning, srm) else log0
    }

    /** `automation_process`: stop Steam, check it is gone, run SRM "add", and report. The run
        always ends SUCCESS or FAILED with Start enabled again; its progress entries follow the
        steps in order; SRM is started only after a final enumeration found no Steam process;
        and SUCCESS means SRM exited with code 0. `shutdown` is the result of the graceful
        shutdown, an `Err` standing for an exception it let through, and `added` the progress
        entries of this run. */
    method AutomationProcess(m: Machine, fs: Fs, platform: string, outcome: RunOutcome)
      returns (ghost shutdown: Result<(bool, string), string>, ghost stillRunning: bool,
               ghost srm: Result<(bool, string), AppError>)
      modifies this`status, this`startEnabled, this`progress, this`log, this`srmCalls, m`scans, m`signals, m`clock
      ensures SteamStopped(m.scanAt, steam.timeout, Steam.Mark(old(m.scans), old(m.signals), old(m.clock)), Steam.Mark(m.scans, m.signals, m.clock), shutdown, stillRunning)
      ensures srm == SrmResult(runner, fs, platform, outcome)
      ensures RunDone(old(progress), old(log), shutdown, stillRunning, srm)
      ensures shutdown.Ok? && !stillRunning && runner.Some? ==>
                srmCalls == old(srmCalls)
                            + (if Srm.ValidatePath(runner.value, fs, platform).valid then [SrmCall(runner.value, platform)] else [])
      ensures !(shutdown.Ok? && !stillRunning && runner.Some?) ==> srmCalls == old(srmCalls)
    {
      var proceed;
      ghost var added;
      ghost var s0 := Steam.Mark(m.scans, m.signals, m.clock);
      proceed, shutdown, added := CloseSteam(m);
      stillRunning := shutdown.Ok? && !proceed;
      ghost var t := Steam.Mark(m.scans, m.signals, m.clock);
      assert SteamStopped(m.scanAt, steam.timeout, s0, t, shutdown, stillRunning);
      srm := SrmResult(runner, fs, platform, outcome);
      FinishRun(fs, platform, outcome, proceed, shutdown, old(progress), old(log));
    }

    /** Steps 3 and 4 of `automation_process` and its end, once steps 1 and 2 left the window as
        `CloseSteam` states: SRM is run only when Steam is gone, and Start is enabled again. */
    method FinishRun(fs: Fs, platform: string, outcome: RunOutcome, proceed: bool,
                     ghost shutdown: Result<(bool, string), string>, ghost p0: seq<Progress>, ghost log0: seq<LogLine>)
      requires proceed ==>
                 && shutdown.Ok? && status == ProcessStatus.Running
                 && progress == p0 + [Progress(1, 25, Step1Note), Progress(2, 50, Step2Note)]
                 && log == if logAttached
                           then log0 + [LogLine(Step1Line, LogLevel.Info), ShutdownLine(shutdown)]
                                + [LogLine(Step2Line, LogLevel.Info), ClosedLine]
                           else log0
      requires !proceed ==>
                 var srm := SrmResult(runner, fs, platform, outcome);
                 && status == ProcessStatus.Failed
                 && progress == p0 + RunProgress(shutdown, shutdown.Ok?, srm)
                 && log == if logAttached then RunLog(log0, shutdown, shutdown.Ok?, srm) else log0
      modifies this`status, this`startEnabled, this`progress, this`log, this`srmCalls
      ensures RunDone(p0, log0, shutdown, shutdown.Ok? && !proceed, SrmResult(runner, fs, platform, outcome))
      ensures proceed && runner.Some? ==>
                srmCalls == old(srmCalls)
                            + (if Srm.ValidatePath(runner.value, fs, platform).valid then [SrmCall(runner.value, platform)] else [])
      ensures !(proceed && runner.Some?) ==> srmCalls == old(srmCalls)
    {
      if proceed {
        RunSrm(fs, platform, outcome);
        ghost var last := ReportEntry(SrmResult(runner, fs, platform, outcome));
        assert progress == p0 + [Progress(1, 25, Step1Note), Progress(2, 50, Step2Note)]
                           + [Progress(3, 75, Step3Note)] + [last];
      }
      startEnabled := true;
    }

    /** The end of `start_process`: the log is cleared from the second run on, the run is
        counted, the start line is logged, and the automation is performed. `shutdown`,
        `stillRunning` and `srm` describe the run as for `AutomationProcess`. */
    method LaunchRun(m: Machine, fs: Fs, platform: string, outcome: RunOutcome)
      returns (ghost shutdown: Result<(bool, string), string>, ghost stillRunning: bool,
               ghost srm: Result<(bool, string), AppError>)
      modifies this`status, this`startEnabled, this`progress, this`log, this`srmCalls, this`processCount
      modifies m`scans, m`signals, m`clock
      ensures processCount == old(processCount) + 1
      ensures SteamStopped(m.scanAt, steam.timeout, Steam.Mark(old(m.scans), old(m.signals), old(m.clock)), Steam.Mark(m.scans, m.signals, m.clock), shutdown, stillRunning)
      ensures srm == SrmResult(runner, fs, platform, outcome)
      ensures RunDone(old(progress), (if old(processCount) > 0 then [] else old(log))
                                     + (if logAttached then [LogLine(StartMessage, LogLevel.Info)] else []),
                      shutdown, stillRunning, srm)
      ensures shutdown.Ok? && !stillRunning && runner.Some? ==>
                srmCalls == old(srmCalls)
                            + (if Srm.ValidatePath(runner.value, fs, platform).valid then [SrmCall(runner.value, platform)] else [])
      ensures !(shutdown.Ok? && !stillRunning && runner.Some?) ==> srmCalls == old(srmCalls)
    {
      if processCount > 0 {
        log := [];
      }
      processCount := processCount + 1;
      LogMessage(StartMessage, LogLevel.Info);
      shutdown, stillRunning, srm := AutomationProcess(m, fs, platform, outcome);
    }

    /** `start_process` without a runner: the problem is logged and the settings are opened. */
    method RefuseStart()
      modifies this`log, this`settingsOpened, this`srmPath, this`runner
      ensures log == old(log) + (if logAttached then [LogLine(NotConfiguredMessage, LogLevel.Error)] else [])
      ensures SettingsShown(old(srmPath), old(runner), old(settingsOpened))
    {
      LogMessage(NotConfiguredMessage, LogLevel.Error);
      OpenSettings();
    }

    /** `start_process`: ignored while a run is going on; without a runner it logs the problem
        and opens the settings; otherwise it begins a run and performs it. `shutdown`,
        `stillRunning` and `srm` describe the run as for `AutomationProcess`. */
    method StartProcess(m: Machine, fs: Fs, platform: string, outcome: RunOutcome)
      returns (ghost shutdown: Result<(bool, string), string>, ghost stillRunning: bool,
               ghost srm: Result<(bool, string), AppError>)
      modifies this`status, this`startEnabled, this`progress, this`log, this`srmCalls, this`processCount
      modifies this`settingsOpened, this`srmPath, this`runner, m`scans, m`signals, m`clock
      ensures old(status) == ProcessStatus.Running ==>
                status == old(status) && processCount == old(processCount) && progress == old(progress)
                && log == old(log) && srmCalls == old(srmCalls) && settingsOpened == old(settingsOpened)
                && runner == old(runner) && srmPath == old(srmPath) && startEnabled == old(startEnabled)
                && m.scans == old(m.scans) && m.signals == old(m.signals) && m.clock == old(m.clock)
      ensures old(status) != ProcessStatus.Running && old(runner).None? ==>
                status == old(status) && processCount == old(processCount) && progress == old(progress)
                && srmCalls == old(srmCalls) && startEnabled == old(startEnabled)
                && m.scans == old(m.scans) && m.signals == old(m.signals) && m.clock == old(m.clock)
                && log == old(log) + (if logAttached then [LogLine(NotConfiguredMessage, LogLevel.Error)] else [])
                && SettingsShown(old(srmPath), old(runner), old(settingsOpened))
      ensures old(status) != ProcessStatus.Running && old(runner).Some? ==>
                processCount == old(processCount) + 1 && runner == old(runner)
                && srmPath == old(srmPath) && settingsOpened == old(settingsOpened)
                && srmCalls == old(srmCalls)
                               + (if shutdown.Ok? && !stillRunning && Srm.ValidatePath(runner.value, fs, platform).valid
                                  then [SrmCall(runner.value, platform)] else [])
                && SteamStopped(m.scanAt, steam.timeout, Steam.Mark(old(m.scans), old(m.signals), old(m.clock)), Steam.Mark(m.scans, m.signals, m.clock), shutdown, stillRunning)
                && srm == SrmResult(runner, fs, platform, outcome)
                && RunDone(old(progress), (if old(processCount) > 0 then [] else old(log))
                                          + (if logAttached then [LogLine(StartMessage, LogLevel.Info)] else []),
                           shutdown, stillRunning, srm)
    {
      if status == ProcessStatus.Running {
        return Ok((true, [])), false, Ok((true, []));
      }
      if runner.None? {
        RefuseStart();
        return Ok((true, [])), false, Ok((true, []));
      }
      shutdown, stillRunning, srm := LaunchRun(m, fs, platform, outcome);
    }
  }
}
