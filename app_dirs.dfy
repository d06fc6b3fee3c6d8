/** Platform directories (config/app_dirs.py): the paths of the configuration and log files,
    the legacy configuration path, creating the directories, and moving a legacy configuration
    into place without ever overwriting one that is already there. */
module Dirs {
  import opened Common
  import opened Host
  import Constants

  /** The four per-user directories; which ones they are is platformdirs' answer, a parameter
      here. */
  datatype AppDirectories = AppDirectories(configDir: string, dataDir: string, logDir: string, cacheDir: string)

  /** `get_config_file_path(filename)`: the file inside the configuration directory. */
  function ConfigFilePath(d: AppDirectories, filename: string := Constants.ConfigFileName): (p: string)
    ensures filename != [] ==> EndsWith(p, filename)
  {
    Join(d.configDir, filename)
  }

  /** `get_log_file_path(filename)`: the file inside the log directory. */
  function LogFilePath(d: AppDirectories, filename: string := Constants.LogFileName): (p: string)
    ensures filename != [] ==> EndsWith(p, filename)
  {
    Join(d.logDir, filename)
  }

  /** `get_legacy_config_path(cwd)`: "srm_config.json" in the given directory, or in the
      current working directory (a parameter) when none is given. */
  function LegacyConfigPath(cwd: string, given: Option<string>): (p: string)
    ensures EndsWith(p, Constants.ConfigFileName)
  {
    Join(if given.Some? then given.value else cwd, Constants.ConfigFileName)
  }

  /** The configuration file lies in the configuration directory: its parent is that directory,
      for a directory written without a trailing separator. */
  lemma {:induction false} ConfigFileInConfigDir(d: AppDirectories)
    requires d.configDir != [] && d.configDir != "." && d.configDir[|d.configDir| - 1] != '/'
    ensures Parent(ConfigFilePath(d), false) == d.configDir
  {
    var name := Constants.ConfigFileName;
    assert forall k :: 0 <= k < |name| ==> name[k] != '/';
    ParentOfJoin(d.configDir, name);
  }

  /** The log file lies in the log directory, for a directory written without a trailing
      separator. */
  lemma {:induction false} LogFileInLogDir(d: AppDirectories)
    requires d.logDir != [] && d.logDir != "." && d.logDir[|d.logDir| - 1] != '/'
    ensures Parent(LogFilePath(d), false) == d.logDir
  {
    var name := Constants.LogFileName;
    assert forall k :: 0 <= k < |name| ==> name[k] != '/';
    ParentOfJoin(d.logDir, name);
  }

  /** The legacy file lies in the directory given, or else in the working directory. */
  lemma {:induction false} LegacyConfigInGivenDir(cwd: string, given: Option<string>)
    requires var dir := if given.Some? then given.value else cwd;
             dir != [] && dir != "." && dir[|dir| - 1] != '/'
    ensures Parent(LegacyConfigPath(cwd, given), false) == (if given.Some? then given.value else cwd)
  {
    var name := Constants.ConfigFileName;
    assert forall k :: 0 <= k < |name| ==> name[k] != '/';
    ParentOfJoin(if given.Some? then given.value else cwd, name);
  }

  /** The directories in the order `ensure_directories_exist` creates them. */
  function DirectoryList(d: AppDirectories): seq<string>
  {
    [d.configDir, d.dataDir, d.logDir, d.cacheDir]
  }

  /** Creating directories in order, stopping at the first that fails. */
  function MakeDirs(fs: Fs, dirs: seq<string>): (a: Attempt)
    ensures a.fs.statFaults == fs.statFaults && a.fs.writeFaults == fs.writeFaults
    ensures a.fs.readFaults == fs.readFaults
    decreases |dirs|
  {
    if dirs == [] then Attempt(fs, None)
    else
      match MakeDir(fs, dirs[0])
      case Err(f) => Attempt(fs, Some(f))
      case Ok(next) => MakeDirs(next, dirs[1..])
  }

  /** When every creation succeeds, every directory is there afterwards: a later `mkdir` does not
      undo an earlier one. */
  lemma {:induction false} MakeDirsCreatesAll(fs: Fs, dirs: seq<string>)
    requires MakeDirs(fs, dirs).fault.None?
    ensures forall p :: p in dirs ==> p in MakeDirs(fs, dirs).fs.nodes && MakeDirs(fs, dirs).fs.nodes[p].Directory?
    decreases |dirs|
  {
    if dirs != [] {
      var next := MakeDir(fs, dirs[0]).value;
      MakeDirsCreatesAll(next, dirs[1..]);
      MakeDirsKeepsDirectory(next, dirs[1..], dirs[0]);
      assert forall p :: p in dirs ==> p == dirs[0] || p in dirs[1..];
    }
  }

  /** A directory that exists stays a directory while further directories are created. */
  lemma {:induction false} MakeDirsKeepsDirectory(fs: Fs, dirs: seq<string>, p: string)
    requires p in fs.nodes && fs.nodes[p].Directory?
    ensures p in MakeDirs(fs, dirs).fs.nodes && MakeDirs(fs, dirs).fs.nodes[p].Directory?
    decreases |dirs|
  {
    if dirs != [] && MakeDir(fs, dirs[0]).Ok? {
      MakeDirsKeepsDirectory(MakeDir(fs, dirs[0]).value, dirs[1..], p);
    }
  }

  /** Creating directories never removes or rewrites a regular file. */
  lemma {:induction false} MakeDirsKeepsFiles(fs: Fs, dirs: seq<string>, p: string)
    requires p in fs.nodes && fs.nodes[p].RegularFile?
    ensures p in MakeDirs(fs, dirs).fs.nodes && MakeDirs(fs, dirs).fs.nodes[p] == fs.nodes[p]
    decreases |dirs|
  {
    if dirs != [] && MakeDir(fs, dirs[0]).Ok? {
      assert dirs[0] != p;
      MakeDirsKeepsFiles(MakeDir(fs, dirs[0]).value, dirs[1..], p);
    }
  }

  /** One successful `mkdir` followed by the rest of the list is the whole list. */
  lemma MakeDirsStep(fs: Fs, dirs: seq<string>)
    requires dirs != [] && MakeDir(fs, dirs[0]).Ok?
    ensures MakeDirs(fs, dirs) == MakeDirs(MakeDir(fs, dirs[0]).value, dirs[1..])
  {
  }

  /** `ensure_directories_exist`: the four directories are created in order, stopping at the
      first that fails, and the answer is whether all four were. */
  method EnsureDirectoriesExist(d: AppDirectories, disk: Disk) returns (ok: bool)
    modifies disk
    ensures disk.fs == MakeDirs(old(disk.fs), DirectoryList(d)).fs
    ensures ok <==> MakeDirs(old(disk.fs), DirectoryList(d)).fault.None?
  {
    var dirs := DirectoryList(d);
    ghost var start := disk.fs;
    assert dirs[1..] == [d.dataDir, d.logDir, d.cacheDir];
    assert dirs[2..] == [d.logDir, d.cacheDir] && dirs[3..] == [d.cacheDir];
    match MakeDir(disk.fs, d.configDir)
    case Err(_) =>
      return false;
    case Ok(next) =>
      MakeDirsStep(disk.fs, dirs);
      disk.fs := next;
    match MakeDir(disk.fs, d.dataDir)
    case Err(_) =>
      return false;
    case Ok(next) =>
      MakeDirsStep(disk.fs, dirs[1..]);
      disk.fs := next;
    match MakeDir(disk.fs, d.logDir)
    case Err(_) =>
      return false;
    case Ok(next) =>
      MakeDirsStep(disk.fs, dirs[2..]);
      disk.fs := next;
    match MakeDir(disk.fs, d.cacheDir)
    case Err(_) =>
      return false;
    case Ok(next) =>
      MakeDirsStep(disk.fs, dirs[3..]);
      disk.fs := next;
    assert MakeDirs(start, dirs) == Attempt(disk.fs, None);
    return true;
  }

  /** What `migrate_legacy_config` does to the file system and answers: `Err` when checking the
      legacy file itself raises (that check is outside the `try`), `Ok(true)` when there is
      nothing to move, the new file already exists or the copy succeeded, and `Ok(false)` when
      anything inside the `try` raised. */
  function Migrate(d: AppDirectories, fs: Fs, legacy: string): (Result<bool, Fault>, Fs)
  {
    match Exists(fs, legacy)
    case Err(f) => (Err(f), fs)
    case Ok(false) => (Ok(true), fs)
    case Ok(true) =>
      match MakeDir(fs, d.configDir)
      case Err(_) => (Ok(false), fs)
      case Ok(made) =>
        match Exists(made, ConfigFilePath(d))
        case Err(_) => (Ok(false), made)
        case Ok(true) => (Ok(true), made)
        case Ok(false) =>
          match CopyFile(made, legacy, ConfigFilePath(d))
          case Err(_) => (Ok(false), made)
          case Ok(copied) => (Ok(true), copied)
  }

  /** With no legacy file there is nothing to do: the answer is true and nothing changes. */
  lemma MigrateAbsentLegacy(d: AppDirectories, fs: Fs, legacy: string)
    requires Exists(fs, legacy) == Ok(false)
    ensures Migrate(d, fs, legacy) == (Ok(true), fs)
  {
  }

  /** An existing new configuration is never overwritten: whatever happens, its contents are
      those it had before. */
  lemma MigrateNeverOverwrites(d: AppDirectories, fs: Fs, legacy: string)
    requires ConfigFilePath(d) in fs.nodes && fs.nodes[ConfigFilePath(d)].RegularFile?
    ensures var after := Migrate(d, fs, legacy).1;
            ConfigFilePath(d) in after.nodes && after.nodes[ConfigFilePath(d)] == fs.nodes[ConfigFilePath(d)]
  {
    var p := ConfigFilePath(d);
    if Exists(fs, legacy) == Ok(true) && MakeDir(fs, d.configDir).Ok? {
      var made := MakeDir(fs, d.configDir).value;
      assert p != d.configDir;
      assert p in made.nodes && made.nodes[p] == fs.nodes[p];
    }
  }

  /** A successful move leaves the legacy contents at the new path, and only there: every other
      path keeps its node, or gains the configuration directory. */
  lemma MigrateCopies(d: AppDirectories, fs: Fs, legacy: string)
    requires Exists(fs, legacy) == Ok(true) && ConfigFilePath(d) !in fs.nodes && ConfigFilePath(d) != d.configDir
    requires Migrate(d, fs, legacy).0 == Ok(true)
    ensures var after := Migrate(d, fs, legacy).1;
            && legacy in fs.nodes
            && after.nodes == fs.nodes[d.configDir := Directory][ConfigFilePath(d) := fs.nodes[legacy]]
  {
    var made := MakeDir(fs, d.configDir).value;
    assert Exists(made, ConfigFilePath(d)) == Ok(false);
  }

  /** `migrate_legacy_config`. */
  method MigrateLegacyConfig(d: AppDirectories, disk: Disk, legacy: string) returns (r: Result<bool, Fault>)
    modifies disk
    ensures (r, disk.fs) == Migrate(d, old(disk.fs), legacy)
  {
    match Exists(disk.fs, legacy)
    case Err(f) =>
      return Err(f);
    case Ok(present) =>
      if !present {
        return Ok(true);
      }
    match MakeDir(disk.fs, d.configDir)
    case Err(_) =>
      return Ok(false);
    case Ok(made) =>
      disk.fs := made;
    var newPath := ConfigFilePath(d);
    match Exists(disk.fs, newPath)
    case Err(_) =>
      return Ok(false);
    case Ok(present) =>
      if present {
        return Ok(true);
      }
    match CopyFile(disk.fs, legacy, newPath)
    case Err(_) =>
      return Ok(false);
    case Ok(copied) =>
      disk.fs := copied;
    return Ok(true);
  }
}
