/** The settings dialog (ui/dialogs/settings_dialog.py): checking the path typed by the user,
    saving it into the configuration, and filling the entry by auto-detection. Only the decisions
    are modelled; the widgets are not. */
module Settings {
  import opened Common
  import opened Host
  import opened Enums
  import Constants
  import Config
  import ConfigStore
  import Srm

  const AutoDetectReason: string := "Auto-detect enabled"

  /** `_validate_srm_path`: the empty string and the sentinel are accepted without looking at
      the file system; any other path goes through the runner's ordered checks. */
  function ValidateSrmPath(path: string, fs: Fs, platform: string): (v: Srm.Validation)
    ensures path == [] || path == Constants.AutoDetect ==> v == Srm.Validation(true, AutoDetectReason)
    ensures path != [] && path != Constants.AutoDetect ==>
              (v.valid <==> Srm.Acceptable(fs, path, platform))
  {
    if path == [] || path == Constants.AutoDetect then Srm.Validation(true, AutoDetectReason)
    else Srm.CheckExecutable(fs, path, platform)
  }

  /** The dialog and the runner judge a configured path the same way: same verdict, same
      reason. */
  lemma DialogAgreesWithRunner(path: string, fs: Fs, platform: string, timeout: int)
    requires path != [] && path != Constants.AutoDetect
    ensures ValidateSrmPath(path, fs, platform) == Srm.ValidatePath(Srm.NewRunner(path, timeout), fs, platform)
  {
  }

  /** The dialog and the configuration record do not agree on what an executable is: an existing
      file named in upper case ("SRM.EXE") passes the dialog on Windows but is refused by
      `validate_srm_path`, whose ".exe" test is case-sensitive. */
  lemma ExeRulesDisagree()
    ensures var path, fs := "SRM.EXE", Fs(map["SRM.EXE" := RegularFile("")], map[], map[], map[]);
            ValidateSrmPath(path, fs, "win32").valid
            && Config.ValidateSrmPath(path, fs).Rejected?
  {
    var path, fs := "SRM.EXE", Fs(map["SRM.EXE" := RegularFile("")], map[], map[], map[]);
    assert Lower(path) == "srm.exe";
    assert EndsWith(Lower(path), ".exe");
    assert !EndsWith(path, ".exe") by {
      assert path[|path| - 4..] == ".EXE";
    }
  }

  /** The consequence: a path the dialog accepts and saves can make the next load fall back to
      the default record, losing every setting, when the JSON reader hands the saved fields
      back. On a platform other than Windows any existing file passes the dialog, so a file not
      named "*.exe" is enough. */
  lemma AcceptedPathCanResetConfig(c: Config.AppConfig, fs: Fs, file: string, decode: string -> ConfigStore.Decoded)
    requires Config.Valid(c) && c.srmPath == "srm" && file != "srm"
    requires file !in fs.statFaults && file in fs.nodes && fs.nodes[file].RegularFile?
    requires "srm" !in fs.statFaults && "srm" in fs.nodes && fs.nodes["srm"].RegularFile?
    requires decode(fs.nodes[file].content) == ConfigStore.Document(Config.FieldsOf(c))
    ensures ValidateSrmPath(c.srmPath, fs, "linux").valid
    ensures ConfigStore.LoadedConfig(ConfigStore.Load(fs, file, decode)) == Config.Default
  {
    assert !EndsWith("srm", ".exe");
    assert !IsWindows("linux") by {
      assert "linux"[..3] != "win" by { assert "linux"[0] == 'l'; }
    }
    assert |c.srmPath| != |Constants.AutoDetect|;
  }

  /** The error box shown when saving the settings failed. */
  const SaveFailedBox: (string, string) := ("Save Failed", "Failed to save settings. Check the log for details.")

  /** The message sent to the logger once the settings are saved. */
  function SavedNotice(path: string): LogLine
  {
    LogLine("\U{2713} Settings saved. SRM path: " + path, LogLevel.Success)
  }

  /** The message sent to the logger when detection answers: the location found, or that none
      was. */
  function DetectionNotice(found: Option<string>): LogLine
  {
    if found.Some? then LogLine("\U{2713} Auto-detected SRM at: " + found.value, LogLevel.Success)
    else LogLine("\U{2717} Could not auto-detect SRM installation", LogLevel.Error)
  }

  /** The settings dialog: the configuration manager it edits, the text of the path entry,
      whether the window is open, the error boxes it showed, and the messages it sent to its
      logger. */
  class SettingsDialog {
    const manager: ConfigStore.ConfigManager
    const hasLogger: bool
    var pathEntry: string
    var open: bool
    var errorBoxes: seq<(string, string)>
    var notices: seq<LogLine>

    /** The dialog with its window open and the entry showing the configured path. */
    constructor (manager: ConfigStore.ConfigManager, hasLogger: bool)
      ensures this.manager == manager && this.hasLogger == hasLogger
      ensures pathEntry == manager.config.srmPath && open && errorBoxes == [] && notices == []
    {
      this.manager := manager;
      this.hasLogger := hasLogger;
      pathEntry := manager.config.srmPath;
      open := true;
      errorBoxes := [];
      notices := [];
    }

    /** `_save_settings`: an invalid path is refused with an error box and the configuration is
        left alone; otherwise the path is stored and saved, and the window closes only when the
        save succeeded. */
    method SaveSettings(disk: Disk, platform: string) returns (saved: bool)
      modifies this`open, this`errorBoxes, this`notices, manager`config, manager`delivered, manager`printed, disk
      ensures var v := ValidateSrmPath(old(pathEntry), old(disk.fs), platform);
              var refused := !v.valid && old(pathEntry) != Constants.AutoDetect;
              && (refused ==>
                    !saved && manager.config == old(manager.config) && disk.fs == old(disk.fs) && open == old(open)
                    && errorBoxes == old(errorBoxes) + [("Invalid Path", "Invalid SRM path: " + v.reason)]
                    && notices == old(notices)
                    && manager.delivered == old(manager.delivered) && manager.printed == old(manager.printed))
              && (!refused ==>
                    manager.config == old(manager.config).(srmPath := old(pathEntry))
                    && var a := ConfigStore.Save(old(disk.fs), manager.configFile, manager.config);
                       && saved == a.fault.None? && disk.fs == a.fs
                       && manager.delivered == old(manager.delivered) + ConfigStore.ToCallback(manager.sink, ConfigStore.SaveNote(a, manager.configFile))
                       && manager.printed == old(manager.printed) + ConfigStore.ToStdout(manager.sink, ConfigStore.SaveNote(a, manager.configFile))
                       && errorBoxes == old(errorBoxes) + (if saved then [] else [SaveFailedBox])
                       && notices == old(notices) + (if saved && hasLogger then [SavedNotice(old(pathEntry))] else []))
      ensures saved ==> !open
      ensures !saved ==> open == old(open)
      ensures Config.Valid(old(manager.config)) ==> Config.Valid(manager.config)
    {
      var newPath := pathEntry;
      var v := ValidateSrmPath(newPath, disk.fs, platform);
      if !v.valid && newPath != Constants.AutoDetect {
        errorBoxes := errorBoxes + [("Invalid Path", "Invalid SRM path: " + v.reason)];
        return false;
      }
      saved := StorePath(disk, newPath);
    }

    /** The accepted branch of `_save_settings`: store the path, save, and either close the
        window with a notice or show the failure box. */
    method StorePath(disk: Disk, newPath: string) returns (saved: bool)
      modifies this`open, this`errorBoxes, this`notices, manager`config, manager`delivered, manager`printed, disk
      ensures manager.config == old(manager.config).(srmPath := newPath)
      ensures var a := ConfigStore.Save(old(disk.fs), manager.configFile, manager.config);
              && saved == a.fault.None? && disk.fs == a.fs
              && manager.delivered == old(manager.delivered) + ConfigStore.ToCallback(manager.sink, ConfigStore.SaveNote(a, manager.configFile))
              && manager.printed == old(manager.printed) + ConfigStore.ToStdout(manager.sink, ConfigStore.SaveNote(a, manager.configFile))
      ensures errorBoxes == old(errorBoxes) + (if saved then [] else [SaveFailedBox])
      ensures notices == old(notices) + (if saved && hasLogger then [SavedNotice(newPath)] else [])
      ensures open == (if saved then false else old(open))
    {
      manager.config := manager.config.(srmPath := newPath);
      saved := manager.SaveConfig(disk);
      Conclude(saved, newPath);
    }

    /** After saving: close the window with a notice, or show the failure box. */
    method Conclude(saved: bool, newPath: string)
      modifies this`open, this`errorBoxes, this`notices
      ensures errorBoxes == old(errorBoxes) + (if saved then [] else [SaveFailedBox])
      ensures notices == old(notices) + (if saved && hasLogger then [SavedNotice(newPath)] else [])
      ensures open == (if saved then false else old(open))
    {
      if saved {
        if hasLogger {
          notices := notices + [SavedNotice(newPath)];
        }
        open := false;
      } else {
        errorBoxes := errorBoxes + [SaveFailedBox];
      }
    }

    /** `_auto_detect_path`: the entry changes only when a location was found. An exception
        from the detection propagates and changes nothing. */
    method AutoDetectPath(fs: Fs, env: map<string, string>) returns (r: Result<Option<string>, Fault>)
      modifies this`pathEntry, this`notices
      ensures r == ConfigStore.FirstExisting(fs, ConfigStore.Candidates(ConfigStore.Username(env)))
      ensures r.Ok? && r.value.Some? ==> pathEntry == r.value.value
      ensures !(r.Ok? && r.value.Some?) ==> pathEntry == old(pathEntry)
      ensures r.Err? || !hasLogger ==> notices == old(notices)
      ensures r.Ok? && hasLogger ==> notices == old(notices) + [DetectionNotice(r.value)]
    {
      r := manager.AutoDetectSrmPath(fs, env);
      if r.Err? {
        return;
      }
      match r.value
      case Some(detected) =>
        pathEntry := detected;
        if hasLogger {
          notices := notices + [DetectionNotice(Some(detected))];
        }
      case None =>
        if hasLogger {
          notices := notices + [DetectionNotice(None)];
        }
    }
  }
}
