# SRM automator, modelled in Dafny

The SRM automator is a small desktop tool. It closes the Steam client, runs Steam ROM Manager
(SRM) with the command `add` so that ROMs are registered as Steam shortcuts, and reports the
outcome in a window. This project models the decisions the tool makes and proves properties of
them. The model covers:

- **Steam process control** (`steam_manager.dfy`, module `Steam`):
  - finding Steam's processes in one enumeration of the process table;
  - the two-phase terminate-then-kill;
  - waiting for closure with a capped exponential backoff (0.5 s, times 1.5, at most 3 s);
  - the composite graceful shutdown and its four messages.
- **The SRM invoker** (`srm_runner.dfy`, module `Srm`):
  - the ordered path checks (exists, regular file, `.exe` on Windows);
  - mapping one subprocess outcome to a result or an `SRMError`.
- **The configuration record** (`app_config.dfy`, module `Config`):
  - defaults, the integer bounds and the three field validators;
  - building a record from the fields read from a file.
- **Configuration persistence** (`config_manager.dfy`, module `ConfigStore`):
  - loading, which always gives a valid record;
  - saving as indented JSON (`json.dfy`, module `Json`, writes that text);
  - the message routing of `_log`;
  - detecting the SRM install location.
- **Platform directories** (`app_dirs.dfy`, module `Dirs`):
  - file paths and creating the directories;
  - moving a legacy configuration into place without overwriting one that exists.
- **The settings dialog** (`settings_dialog.dfy`, module `Settings`): path check, save,
  auto-detect.
- **The main window's run** (`main_window.dfy`, module `MainWindow`), held in the class
  `SteamRomManagerGui`, whose fields the methods update:
  - setup and starting a run;
  - the four steps of `automation_process`;
  - the status, progress entries, log lines and SRM invocations they leave behind.

The operating system is replaced by oracles in `host.dfy` (module `Host`):

- the file system is an `Fs` value, held by a shared `Disk` object;
- the process table is a `Machine` whose n-th enumeration returns `scanAt(n)`. Every process
  entry says what reading its name, `terminate()` and `kill()` would do. The machine records
  the signals sent, and a ghost clock advances only with `Sleep`;
- the outcome of `subprocess.run` is a `RunOutcome` parameter;
- `json.load` together with pydantic's type coercion is a `decode` function parameter;
- environment variables are a map.

`common.dfy` holds the Python string operations the tool relies on:

- `str.lower` (ASCII only);
- `str.strip`, with exactly the characters `str.isspace` accepts;
- decimal rendering of integers.

`constants.dfy` holds the constants and enumerations.

Some behaviour of the code is easy to misread; the model follows what the code does:

- Enumerating processes can fail. An exception other than `NoSuchProcess`, `AccessDenied` or
  `ZombieProcess` escapes the loop (core/steam_manager.py:21-27). Only `is_running` swallows
  it. Through `kill_processes` it reaches the run, which fails as an unexpected error.
  `Steam.SteamProcessesFailure` states when this happens.
- The check for a missing path never fires. The code tests `not self.srm_path` on a `Path`,
  which is never falsy, so an empty path is checked as "." and rejected as not being a file.
  See `Srm.EmptyPathReachesFileChecks`.
- The Steam controller accepts any timeout. A timeout of zero or less makes the wait give up
  at once, without polling (`Steam.SteamManager.WaitForClosure`).

Two properties proved here show disagreements inside the code:

- The settings dialog accepts an existing `SRM.EXE` on Windows, because it lower-cases the path.
  The configuration validator refuses the same file: its `.exe` test is case-sensitive and runs
  on every platform (`Settings.ExeRulesDisagree`). A path the dialog saves can therefore make
  the next load fall back to the default record (`Settings.AcceptedPathCanResetConfig`).
- The configuration manager maps an unknown level name to ERROR. The window maps it to INFO
  (`MainWindow.UnknownLevelNames`).

## Model

| member | source | states |
|---|---|---|
| Steam.SteamProcessesFailure | core/steam_manager.py:18-28 | Enumeration fails exactly when reading some process name raises an exception that is not skipped. It then reports the first such exception. |
| Steam.SteamProcessesExact | core/steam_manager.py:18-28 | A successful enumeration keeps each process with a Steam name (compared lower-cased) as often as the snapshot lists it, and no other process. |
| Steam.SteamProcessesConcat | core/steam_manager.py:21-27 | Enumerating two consecutive stretches of the table gives the first stretch's matches followed by the second's, stopping at the first exception. |
| Steam.SteamManager.GetSteamProcesses | core/steam_manager.py:18-28 | The loop uses exactly one enumeration, and its result is the enumeration of that snapshot. |
| Steam.RunningInIff | core/steam_manager.py:30-35 | Steam counts as running exactly when the snapshot lists a Steam process and no name read raises an exception that is not skipped. |
| Steam.SteamManager.IsRunning | core/steam_manager.py:30-35 | One enumeration. The answer is whether that snapshot shows Steam running, and an exception counts as not running. |
| Steam.KillVerdictIgnoresSurvivors | core/steam_manager.py:37-69 | When every signal is delivered the verdict is true, however many processes survive. |
| Steam.SteamManager.SignalAll | core/steam_manager.py:46-53 | Sends one signal per process, in order. The phase fails only on an exception that is not tolerated, and such an exception does not stop the loop. |
| Steam.SteamManager.KillProcesses | core/steam_manager.py:37-69 | The machine's enumerations, signals and clock afterwards are exactly `Steam.AfterKill` of those before. With no Steam process, or when the first enumeration raises, nothing is sent and no time passes. Otherwise terminate signals go to the first snapshot's matches, one second passes, and kill signals go to a fresh snapshot's matches. The result is the kill verdict. |
| Steam.Interval | core/steam_manager.py:74-83 | Every sleep lasts between 0.5 and 3 seconds. |
| Steam.IntervalSchedule | core/steam_manager.py:74-83 | The sleeps are 0.5, 0.75, 1.125, 1.6875, 2.53125 seconds, then 3 seconds from the sixth on. |
| Steam.ElapsedClosedForm | core/steam_manager.py:74-83 | After k ≥ 5 sleeps the time waited is 6.59375 + 3(k − 5) seconds. |
| Steam.WaitOvershoot | core/steam_manager.py:77-83 | A wait that gives up overshoots its limit by less than one capped interval. |
| Steam.DefaultTimeoutSchedule | core/steam_manager.py:71-85 | With the default 30-second timeout, a Steam that never closes is polled 13 times, for 30.59375 seconds. |
| Steam.SteamManager.WaitForClosure | core/steam_manager.py:71-85 | A limit of None or 0 means the manager's timeout. `Steam.Waited` relates the machine before and after: no signal is sent, every poll but the last found Steam running, and the clock advances by the sleeps taken. It returns true exactly when the last poll found Steam gone before the time slept reached the limit. It returns false when the time slept reached the limit, which happens at once for a limit ≤ 0. Otherwise the number of polls is the one whose sleeps first reach the limit. |
| Steam.StillRunningMessage | core/steam_manager.py:98 | The timeout message names the timeout in seconds. |
| Steam.FixedMessagesDistinct | core/steam_manager.py:87-100 | The three fixed shutdown messages are pairwise distinct. |
| Steam.StillRunningDistinct | core/steam_manager.py:87-100 | The timeout message differs from the three fixed messages, so every shutdown outcome can be told apart by its message. |
| Steam.SteamManager.GracefulShutdown | core/steam_manager.py:87-100 | `Steam.ShutDown` fixes, in each case, both the result and the machine's enumerations, signals and clock afterwards. Not running: success, "Steam not running", one enumeration, nothing sent, no time passed. An exception from the kill, or a kill verdict of false: the exception or the failure, with the machine as `AfterKill` leaves it. Otherwise: the kill followed by the wait, with "Steam closed successfully" exactly when the wait saw Steam gone, and the timeout message otherwise. |
| Steam.ShutDownMeaning | core/steam_manager.py:87-100 | A successful shutdown means the last enumeration found no Steam. The timeout message means at least the timeout was slept, and, for a positive timeout, that the last enumeration still found Steam. Every shutdown enumerates at least once. |
| Steam.SteamManager.constructor | core/steam_manager.py:15-16 | The manager keeps the timeout it is given. |
| Srm.InvalidPathReason | core/srm_runner.py:48-49 | A file-system error gives an "Invalid path: " reason, distinct from every fixed reason. |
| Srm.CheckExecutable | core/srm_runner.py:33-49 | The path is valid exactly when it exists, is a regular file and, on Windows, ends in ".exe" case-insensitively. Each failing check gives its own reason, in the order exists, file, extension. |
| Srm.ReasonsIdentifyCheck | core/srm_runner.py:24-49 | Equal reasons mean the same verdict and the same "does not exist" finding. |
| Srm.ValidatePath | core/srm_runner.py:24-49 | The runner's check accepts exactly the acceptable paths and never answers "No SRM path specified". |
| Srm.EmptyPathReachesFileChecks | core/srm_runner.py:30-31 | An empty configured path is checked as the directory "." and rejected as "Path is not a file". |
| Srm.TimedOutMessage | core/srm_runner.py:71-72 | The timeout error names the timeout in seconds. |
| Srm.ExecuteCommand | core/srm_runner.py:51-74 | The subprocess is started exactly when validation passes. It is started with [path, command], in the path's parent directory, with the runner's timeout. A validation failure raises an `SRMError` with the reason. A completed run gives (exit code is 0, stripped stdout+stderr). A timeout raises an `SRMError` naming the timeout, and a launch failure raises an `SRMError`. |
| Srm.ExecuteOutputStripped | core/srm_runner.py:68-69 | Whatever the exit code, the returned output neither starts nor ends with whitespace, and stripping it again changes nothing. |
| Common.LowerFixedPoints | core/steam_manager.py:23 | Lower-casing leaves no upper-case letter, and it changes a string exactly when the string has one. |
| Common.LowerIdempotent | config/app_config.py:35-37 | Lower-casing twice equals lower-casing once. |
| Common.StripLeft | core/srm_runner.py:69 | Removes exactly the leading whitespace: the result is a suffix, everything removed is whitespace, and the result does not start with whitespace. |
| Common.StripRight | core/srm_runner.py:69 | Removes exactly the trailing whitespace, symmetrically. |
| Common.StripRemovesSpace | core/srm_runner.py:69 | Everything `strip` removes after the part it keeps is whitespace. |
| Common.StripEnds | core/srm_runner.py:69 | The stripped output neither starts nor ends with whitespace. |
| Common.StripIdempotent | core/srm_runner.py:69 | Stripping twice equals stripping once. |
| Common.StripBlank | core/srm_runner.py:68-69 | Output made only of whitespace strips to the empty string, so the window logs no output line for it. |
| Common.NatToString | core/steam_manager.py:98 | The decimal rendering is a non-empty string of digits. |
| Common.NatToStringRoundTrip | core/steam_manager.py:98 | The decimal rendering of a natural number can be read back. |
| Common.IntToStringRoundTrip | core/steam_manager.py:98 | The rendering of an integer, sign included, can be read back. |
| Common.IntToStringInjective | core/steam_manager.py:98 | Distinct timeouts give distinct renderings. |
| Host.LastSep | core/srm_runner.py:64 | Finds the last separator, or reports that there is none. |
| Host.Parent | core/srm_runner.py:64 | The parent of a path is never empty. |
| Host.Join | config/app_dirs.py:52 | `dir / name` ends with the name and starts with the directory. |
| Host.ParentOfJoin | config/config_manager.py:120 | The parent of `dir / name` is `dir` again, so saving creates the configuration file's own directory. |
| Host.ReadFile | config/config_manager.py:58-60 | Reading succeeds exactly for an existing regular file whose stat does not raise and which opens for reading (an unreadable file raises as `open` does). The text read is the file's content. |
| Host.MakeDir | config/app_dirs.py:72 | `mkdir(parents=True, exist_ok=True)` only adds the directory. |
| Host.WriteFile | config/config_manager.py:123-124 | Writing replaces the file's content and nothing else. It fails only when `open` fails, on a write fault or a directory, and a failure leaves the file as it was. |
| Host.CopyFile | config/app_dirs.py:104 | A copy succeeds only from a readable regular file. It puts the source file's node at the destination and changes nothing else. |
| Config.DefaultValid | config/app_config.py:15-21 | The default record satisfies the bounds and the choices. |
| Config.Choose | config/app_config.py:30-46 | A choice is accepted exactly when its lower-cased form is allowed. It is then stored lower-cased; otherwise it raises a `ValueError`. |
| Config.ChooseIgnoresCase | config/app_config.py:35 | Values that lower-case alike are treated alike. |
| Config.ChooseIdempotent | config/app_config.py:35-37 | Validating an accepted value again accepts it unchanged. |
| Config.ChoicesAreLowerCase | config/app_config.py:34-43 | The allowed themes and levels are already lower case. |
| Config.ValidateTheme | config/app_config.py:30-37 | The theme is accepted exactly when it is auto, light or dark (any case), and stored lower-cased. |
| Config.ValidateLogLevel | config/app_config.py:39-46 | The level is accepted exactly when it is debug, info, warning or error (any case), and stored lower-cased. |
| Config.ValidateBounds | config/app_config.py:19-20 | An integer is accepted exactly within its `ge`/`le` bounds. |
| Config.ValidateSrmPath | config/app_config.py:48-61 | The sentinel, the empty string and missing paths are kept. An existing path is kept exactly when it is a file ending in ".exe" (case-sensitive). A file-system error escapes. |
| Config.FieldErrors | config/app_config.py:12-61 | The collected errors are empty exactly when every field, defaults included, was accepted, and each names a refused field. |
| Config.SettledRecord | config/app_config.py:12-61 | A record made of accepted values is valid, and each field is the value read or, when absent, the default. |
| Config.Build | config/app_config.py:12-61 | A built record is valid and made of the given fields, with defaults for absent ones. A raising path check escapes. Otherwise the record is built exactly when no field was refused and no unknown key was given, and every error names a refused field or an unknown key. |
| Config.BuildDefaults | config/app_config.py:15-21 | No fields give the default record. |
| Config.BuildFieldsOf | config/app_config.py:12-61 | A valid record whose path passes its check is rebuilt unchanged from its own fields. |
| Config.BadThemeReported | config/app_config.py:30-37 | A theme outside the choices never loads, and the errors name "theme". |
| Json.HexDigit | config/config_manager.py:124 | A written hex digit reads back as its value. |
| Json.Hex4RoundTrip | config/config_manager.py:124 | A four-digit `\u` escape reads back as its code unit. |
| Json.EscapeCharAscii | config/config_manager.py:124 | With `ensure_ascii`, every character is written as printable ASCII only. |
| Json.SurrogatesRecombine | config/config_manager.py:124 | The surrogate pair written for a character outside the basic plane recombines into that character. |
| Json.UnescapeEscapeChar | config/config_manager.py:124 | Reading back one written character gives that character. |
| Json.UnescapeEscape | config/config_manager.py:124 | Every string is read back from its escaped form. |
| Json.QuoteInjective | config/config_manager.py:124 | Distinct strings are written as distinct literals. |
| Json.Object | config/config_manager.py:124 | An object is written between braces. Its member layout is not stated. |
| ConfigStore.Serialize | config/config_manager.py:124 | The saved text starts with "{" and ends with "}". That the fields read back from it is not proved. |
| ConfigStore.LevelFor | config/config_manager.py:41-47 | A level name outside the four known ones maps to ERROR. |
| ConfigStore.LevelNamesBijective | config/config_manager.py:41-47 | The level map is a bijection between the four names and the four levels. |
| ConfigStore.LoadAlwaysValid | config/config_manager.py:54-86 | Loading never gives an invalid record, whatever the file system and the file. |
| ConfigStore.LoadReadsFields | config/config_manager.py:58-64 | A readable file that decodes to a valid record's fields loads as that record. |
| ConfigStore.Save | config/config_manager.py:109-124 | A successful save leaves the serialized record in the file. |
| ConfigStore.SaveThenLoad | config/config_manager.py:54-135 | A saved valid record loads back unchanged, given that the file can be read, that reading the JSON text back returns the fields written, and that the path still passes. |
| ConfigStore.SubstituteNoBrace | config/config_manager.py:142 | A template without braces is unchanged by `format`. |
| ConfigStore.SubstituteSplice | config/config_manager.py:142 | "{username}" between brace-free parts is replaced by the user name, and nothing else changes. |
| ConfigStore.Candidates | config/config_manager.py:141-142 | There is one candidate path per install-location template. |
| ConfigStore.FirstExistingIsFirst | config/config_manager.py:137-146 | Detection answers the first existing candidate, None exactly when none exists, and otherwise the first exception. |
| ConfigStore.ConfigManager.constructor | config/config_manager.py:20-32 | The file defaults to the one in the configuration directory. The directories are created first. The record is then what loading from that file system gives, with the same disk effect and the same message as `load_config`, and it is valid. |
| ConfigStore.ConfigManager.Log | config/config_manager.py:34-52 | The message goes to the callback with its mapped level, or is printed with "Config: " when there is no callback or it raises. |
| ConfigStore.ConfigManager.LoadConfig | config/config_manager.py:54-86 | Returns the loaded record or the default, which is valid in every case. A missing file is saved as the default, and otherwise the disk is unchanged. Exactly the one message of the outcome is written, if any. |
| ConfigStore.ConfigManager.SaveConfigInternal | config/config_manager.py:109-135 | Returns true exactly when the text was written, and writes one message saying so or why not. |
| ConfigStore.ConfigManager.SaveConfig | config/config_manager.py:101-107 | Saves the current record. |
| ConfigStore.ConfigManager.AutoDetectSrmPath | config/config_manager.py:137-146 | The first candidate that exists, for the user from USERNAME (default "User"). |
| Dirs.ConfigFilePath | config/app_dirs.py:43-52 | The configuration file path ends with the file name. |
| Dirs.LogFilePath | config/app_dirs.py:54-63 | The log file path ends with the file name. |
| Dirs.LegacyConfigPath | config/app_dirs.py:110-122 | The legacy path is "srm_config.json" in the given or current directory. |
| Dirs.ConfigFileInConfigDir | config/app_dirs.py:43-52 | The configuration file's parent is the configuration directory. |
| Dirs.LogFileInLogDir | config/app_dirs.py:54-63 | The log file's parent is the log directory. |
| Dirs.LegacyConfigInGivenDir | config/app_dirs.py:110-122 | The legacy file's parent is the directory given, or the working directory when none is. |
| Dirs.MakeDirs | config/app_dirs.py:71-76 | Creating directories changes no fault of the file system. |
| Dirs.MakeDirsCreatesAll | config/app_dirs.py:65-78 | When every creation succeeds, every directory exists afterwards. |
| Dirs.MakeDirsKeepsDirectory | config/app_dirs.py:71-75 | A directory stays a directory while more are created. |
| Dirs.MakeDirsKeepsFiles | config/app_dirs.py:71-75 | Creating directories never removes or rewrites a file. |
| Dirs.EnsureDirectoriesExist | config/app_dirs.py:65-78 | The disk becomes exactly what `Dirs.MakeDirs` gives for the four directories in order, stopping at the first failure, with earlier directories kept. Returns true exactly when no creation raised. |
| Dirs.MigrateAbsentLegacy | config/app_dirs.py:89-90 | With no legacy file the answer is true and nothing changes. |
| Dirs.MigrateNeverOverwrites | config/app_dirs.py:98-100 | An existing configuration is never overwritten. |
| Dirs.MigrateCopies | config/app_dirs.py:102-106 | A successful move puts the legacy contents at the new path and changes nothing else but the directory. |
| Dirs.MigrateLegacyConfig | config/app_dirs.py:80-108 | The file system and answer are those of the migration steps. An error while checking the legacy file escapes; any later error gives false. |
| Settings.ValidateSrmPath | ui/dialogs/settings_dialog.py:25-46 | The empty path and the sentinel are accepted. Any other path is accepted exactly when it passes the runner's checks. |
| Settings.DialogAgreesWithRunner | ui/dialogs/settings_dialog.py:25-46 | For a real path, the dialog and the runner give the same verdict and reason. |
| Settings.ExeRulesDisagree | ui/dialogs/settings_dialog.py:40 | An existing "SRM.EXE" passes the dialog on Windows but is refused by the configuration validator. |
| Settings.AcceptedPathCanResetConfig | ui/dialogs/settings_dialog.py:109-121 | A path the dialog accepts can make the next load fall back to the default record. |
| Settings.SettingsDialog.constructor | ui/dialogs/settings_dialog.py:18-23 | The entry shows the configured path. |
| Settings.SettingsDialog.SaveSettings | ui/dialogs/settings_dialog.py:109-129 | An invalid path, other than the sentinel, is refused with the "Invalid Path" box, and nothing else changes: no notice, no manager message, no save. Otherwise the path is stored and saved, with the manager's save message. On success the window closes with the notice; on failure it stays open with the "Save Failed" box. Validity is preserved. |
| Settings.SettingsDialog.StorePath | ui/dialogs/settings_dialog.py:118-129 | Stores the path, saves, and ends as the save result says. |
| Settings.SettingsDialog.Conclude | ui/dialogs/settings_dialog.py:121-129 | After a save: the notice and a closed window, or the "Save Failed" box and the window unchanged. |
| Settings.SettingsDialog.AutoDetectPath | ui/dialogs/settings_dialog.py:98-107 | The answer is the first existing candidate. The entry changes only to a detected path. With a logger, exactly one notice is added: "✓ Auto-detected SRM at: <path>" as success when a path was found, "✗ Could not auto-detect SRM installation" as an error otherwise. An exception from the detection adds none. |
| MainWindow.ConfigLevel | ui/main_window.py:187-197 | No level, or a name outside the four, means INFO. A known name maps as the manager maps it. |
| MainWindow.ConfigMessage | ui/main_window.py:182-209 | The line has the level, starts with the level's mark and " Config: ", and ends with the message. |
| MainWindow.MarkerIdentifiesLevel | ui/main_window.py:199-207 | Distinct levels get distinct marks. |
| MainWindow.UnknownLevelNames | ui/main_window.py:189-195 | An unknown name is INFO to the window but ERROR to the manager. The manager converts first, so such a line shows as ERROR. |
| MainWindow.AllowedTrailInOrder | ui/main_window.py:220-297 | Every allowed progress record starts at (1, 25) and rises 25 percent per step. It ends at 100 exactly on success, and otherwise at 0. |
| MainWindow.SrmResultMeaning | ui/main_window.py:258-297 | The SRM step succeeds exactly when there is a runner, the path is valid and SRM exited with code 0. It fails normally exactly on another exit code, and as unexpected exactly without a runner. |
| MainWindow.RunProgressAllowed | ui/main_window.py:220-297 | Every run's progress is an allowed record. It is the complete record exactly on success; it ends (4, 0) exactly when SRM exited with a non-zero code; it ends (0, 0) after (3, 75), (2, 50) or (1, 25) exactly on an SRM exception, Steam still running, or a shutdown exception. |
| MainWindow.SteamRomManagerGui.constructor | ui/main_window.py:40-44 | Status READY, no run yet, and a Steam manager with the configured timeout. |
| MainWindow.SteamRomManagerGui.LogMessage | ui/main_window.py:175-180 | A line is shown only once the log widget exists. |
| MainWindow.SteamRomManagerGui.StoreDetected | ui/main_window.py:65-69 | Stores the detected path in the configuration and saves it: the disk becomes the save's result. The manager delivers and prints exactly the save's message. A warning is logged exactly when the save failed. |
| MainWindow.SteamRomManagerGui.ResolveSrmPath | ui/main_window.py:59-74 | A configured path is returned with nothing changed. With the sentinel, the detection's answer is returned. A found path is stored and saved, with the save's message delivered and printed and a warning logged exactly when the save failed. When nothing usable was found, nothing changes. Validity is preserved. |
| MainWindow.SteamRomManagerGui.Setup | ui/main_window.py:47-74 | A configured path becomes the window's path, and nothing else changes. With the sentinel, construction fails exactly when the detection raises. Otherwise the window's path is the detection's answer. A usable detected path is stored and saved, with the save's message delivered and printed and the warning only if the save failed; when none is found, nothing changes. A runner exists exactly for a non-empty path, with the configured SRM timeout. |
| MainWindow.SteamRomManagerGui.AttachRunner | ui/main_window.py:48-52 | The window's path is the resolved one. A runner exists exactly when that path is non-empty, built with the configured SRM timeout. |
| MainWindow.SteamRomManagerGui.OpenSettings | ui/main_window.py:322-335 | A configured path other than the sentinel replaces a different window path, together with its runner. |
| MainWindow.SteamRomManagerGui.Fail | ui/main_window.py:288-297 | A failure logs an error, records (0, 0) and sets FAILED. |
| MainWindow.SteamRomManagerGui.Report | ui/main_window.py:263-297 | Records the SRM call. SUCCESS with (4, 100) exactly when SRM exited with code 0; (4, 0) and FAILED when it exited otherwise; (0, 0) and FAILED on an exception. The log gets the completion lines and the output, or the failure line and the error text, or the error line. |
| MainWindow.SteamRomManagerGui.StopSteam | ui/main_window.py:224-241 | Sets RUNNING with (1, 25) and Start disabled, then logs the shutdown result as success or warning. An exception from the shutdown fails the run. The machine is left exactly as `Steam.ShutDown` states for that result. |
| MainWindow.SteamRomManagerGui.VerifyClosed | ui/main_window.py:243-256 | One more enumeration. If Steam is still there, the run fails with (0, 0); otherwise "completely closed". |
| MainWindow.SteamRomManagerGui.RunSrm | ui/main_window.py:258-297 | Records (3, 75), then the report of the SRM result. SRM is invoked exactly when there is a runner and the path validates. SUCCESS exactly when there is a runner, the path is valid and SRM exited with code 0. Without a runner the run fails as unexpected. |
| MainWindow.SteamRomManagerGui.CloseSteam | ui/main_window.py:224-256 | The run goes on to SRM exactly when the shutdown did not raise and the last enumeration found no Steam. The progress entries and log lines of steps 1 and 2 are stated for each outcome. `MainWindow.SteamStopped` ties the machine to the shutdown: its effect, plus the one check of step 2 when it did not raise. |
| MainWindow.SteamRomManagerGui.AutomationProcess | ui/main_window.py:220-300 | Ends with Start enabled. SUCCESS exactly when the shutdown did not raise, the last enumeration found no Steam, and SRM (with a runner and a valid path) exited with code 0. The progress and log are the run's exact entries and lines. SRM is invoked only after an enumeration found no Steam. The machine is left as `SteamStopped` states. |
| MainWindow.SteamRomManagerGui.FinishRun | ui/main_window.py:258-300 | After steps 1 and 2, runs SRM only when Steam is gone and enables Start. The run ends with the exact status, progress and log of `RunDone`, and SRM is invoked only with a runner and a valid path. |
| MainWindow.SteamRomManagerGui.LaunchRun | ui/main_window.py:311-319 | Clears the log from the second run on, counts the run, logs the start line, and performs the run with its exact outcome. The machine is left as `SteamStopped` states. SRM is invoked, and only with a valid path, exactly when the shutdown did not raise and the last enumeration found no Steam. |
| MainWindow.SteamRomManagerGui.StartProcess | ui/main_window.py:301-320 | Ignored while RUNNING: nothing changes. Without a runner it logs the problem and opens the settings: the path and runner change exactly as `OpenSettings` states, and no run or signal happens. Otherwise it counts and performs a whole run, with the same outcome and machine effect as `automation_process`, with the path and runner kept. SRM is invoked, and only with a valid path, exactly when the shutdown did not raise and the last enumeration found no Steam. |
| MainWindow.SteamRomManagerGui.RefuseStart | ui/main_window.py:306-309 | Logs "✗ Cannot start: Steam ROM Manager path not configured" as an error and opens the settings, with `OpenSettings`' effect on the path and runner. |

## Left out

- The worker thread of `start_process`: a run is one atomic call, so the window cannot be used
  while it is in progress.
- The Tk widgets, the theme, the window geometry, keyboard shortcuts, the preflight checks, the
  auto-start timer, copying and exporting logs, `close_application` and the browse dialog: they
  are presentation only.
- The loguru logger (`self.logger` in the window, `utils/logger.py`): its calls only write a log
  file. The window log is the `log_message` lines.
- The "⏱ Total time" line of a successful run: wall-clock time is not modelled.
- MainWindow.SteamRomManagerGui.OpenSettings: models `_open_settings` up to showing the dialog.
  Edits made in the dialog are modelled by `Settings.SettingsDialog`.
- Messages the configuration manager sends to the window stay on the manager (`delivered`)
  rather than being merged into the window log. Their rendering is `MainWindow.ConfigMessage`.
- `AppConfig`'s environment and `.env` overrides (`SRM_` variables): they are not read.
- Pydantic's full error text: its order follows set iteration order. Only the summary line
  ("n validation errors for AppConfig") is modelled.
- `json.load` and pydantic's type coercion: they are the `decode` parameter.
- ConfigStore.SaveThenLoad: takes as a premise that reading back the JSON text of a record gives
  the record's fields. The model writes that text but has no JSON reader to prove it.
- Host.WriteFile: a failure while `json.dump` is writing, after `open` has truncated the file
  (a full disk, say), is not modelled. The only write faults are those `open` raises.
- Host.Exists: a `NotFound` stat fault is allowed, although `exists()` and `is_file()` answer
  False for a missing file. The model thus allows some failures that never happen, and its
  results hold for those too.
- `UnicodeDecodeError` while reading the configuration: text is read as a string.
- A process name that is `None` (its `.lower()` raises): this is covered by
  `NameRaises(OtherProcError(...))`.
- `str.lower` beyond ASCII letters.
- Windows separators in `Join` and path normalisation.
- `mkdir(parents=True)` creating missing ancestors: only the directory itself is added.
- `str.format` is modelled only for templates whose only brace is "{username}", which covers
  every install-location template.
- `ConfigManager.can_write_config`: nothing in the core calls it.
- The `get_subprocess_flags` creation flags: they only hide the console window.
- The platform directories' locations: they are platformdirs' answer, a parameter here.
