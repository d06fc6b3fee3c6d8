/** Configuration persistence (config/config_manager.py): loading a record that is always valid
    whatever the file holds, saving it as indented JSON, routing messages to a logger or to
    standard output, and detecting the Steam ROM Manager install location. */
module ConfigStore {
  import opened Common
  import opened Host
  import opened Enums
  import Constants
  import opened Config
  import Json
  import Dirs

  // ---------------------------------------------------------------- the file's text

  /** What `json.load` makes of the file's text, with pydantic's coercion of the values applied:
      an object's fields, text that is not JSON (`JSONDecodeError`), or JSON that is not an
      object (the `TypeError` of `AppConfig(**json_data)`). */
  datatype Decoded = Document(raw: RawConfig) | NotJson(message: string) | NotMapping(message: string)

  /** The text `json.dump(config.model_dump(), f, indent=2)` writes: the seven fields in
      declaration order. */
  function Serialize(c: AppConfig): (text: string)
    ensures StartsWith(text, "{") && EndsWith(text, "}")
  {
    Json.Object([
      ("srm_path", Json.Quote(c.srmPath)),
      ("theme", Json.Quote(c.theme)),
      ("auto_start", Json.BoolText(c.autoStart)),
      ("log_level", Json.Quote(c.logLevel)),
      ("timeout_steam", IntToString(c.timeoutSteam)),
      ("timeout_srm", IntToString(c.timeoutSrm)),
      ("backup_shortcuts", Json.BoolText(c.backupShortcuts))])
  }

  // ---------------------------------------------------------------- messages

  const LevelNames: set<string> := {"SUCCESS", "ERROR", "WARNING", "INFO"}

  /** The level map of `_log`: the four names, and `ERROR` for any other name. */
  function LevelFor(name: string): (l: LogLevel)
    ensures name !in LevelNames ==> l == LogLevel.Error
  {
    if name == "SUCCESS" then LogLevel.Success
    else if name == "WARNING" then LogLevel.Warning
    else if name == "INFO" then LogLevel.Info
    else LogLevel.Error
  }

  function NameOf(l: LogLevel): (name: string)
    ensures name in LevelNames
  {
    match l
    case Info => "INFO"
    case Success => "SUCCESS"
    case Warning => "WARNING"
    case Error => "ERROR"
  }

  /** The level map is a bijection between the four names and the four levels. */
  lemma LevelNamesBijective(name: string, l: LogLevel)
    ensures LevelFor(NameOf(l)) == l
    ensures name in LevelNames ==> NameOf(LevelFor(name)) == name
  {
  }

  /** A message for `_log`: its text and its level name. */
  datatype Note = Note(message: string, levelName: string)

  /** Where `_log` sends a message: standard output, or a logger callback that may raise. */
  datatype LogSink = Printing | Callback(raises: bool)

  /** What a note adds to the callback's record and to standard output. */
  function ToCallback(sink: LogSink, n: Note): seq<LogLine>
  {
    if sink == Callback(false) then [LogLine(n.message, LevelFor(n.levelName))] else []
  }

  function ToStdout(sink: LogSink, n: Note): seq<string>
  {
    if sink == Callback(false) then [] else ["Config: " + n.message]
  }

  // ---------------------------------------------------------------- loading

  const UnexpectedReadPrefix: string := "Unexpected error reading config file: "
  const CorruptedPrefix: string := "Config file corrupted, using defaults: "
  const ValidationFailedPrefix: string := "Configuration validation failed: "

  /** The message for an exception raised while reading, by its type: `FileNotFoundError`,
      `PermissionError`, and any other exception. */
  function ReadFailure(f: Fault, file: string): Note
  {
    match f
    case NotFound(_) => Note("Config file not found: " + file, "INFO")
    case PermissionDenied(_) => Note("Permission denied reading config file: " + file, "ERROR")
    case OsFault(m) => Note(UnexpectedReadPrefix + m, "ERROR")
  }

  /** The first line of a `ValidationError`'s text. */
  function ValidationSummary(count: nat): string
  {
    IntToString(count) + (if count == 1 then " validation error" else " validation errors") + " for AppConfig"
  }

  /** How `load_config` ends: with the record read from the file, with no file (the default is
      then saved), or with the default after a logged failure. */
  datatype Loading = FromFile(config: AppConfig) | Missing | Fallback(note: Note)

  function Load(fs: Fs, file: string, decode: string -> Decoded): Loading
  {
    match Exists(fs, file)
    case Err(f) => Fallback(ReadFailure(f, file))
    case Ok(false) => Missing
    case Ok(true) =>
      match ReadFile(fs, file)
      case Err(f) => Fallback(ReadFailure(f, file))
      case Ok(text) =>
        match decode(text)
        case NotJson(m) => Fallback(Note(CorruptedPrefix + m, "WARNING"))
        case NotMapping(m) => Fallback(Note(UnexpectedReadPrefix + m, "ERROR"))
        case Document(raw) =>
          match Build(raw, fs)
          case Loaded(c) => FromFile(c)
          case Invalid(errors) =>
            Fallback(Note(ValidationFailedPrefix + ValidationSummary(|errors|), "ERROR"))
          case Escaped(f) => Fallback(ReadFailure(f, file))
  }

  /** The record `load_config` returns: the file's when it loaded, the default otherwise. */
  function LoadedConfig(l: Loading): AppConfig
  {
    if l.FromFile? then l.config else Default
  }

  /** The message `load_config` logs: the outcome of saving the default when there was no file,
      the failure when the file could not be used, and none when it loaded. */
  function LoadNote(fs: Fs, file: string, decode: string -> Decoded): Option<Note>
  {
    var l := Load(fs, file, decode);
    if l.Missing? then Some(SaveNote(Save(fs, file, Default), file))
    else if l.Fallback? then Some(l.note)
    else None
  }

  /** `load_config` never hands out an invalid record, whatever the file system and the file's
      contents. */
  lemma LoadAlwaysValid(fs: Fs, file: string, decode: string -> Decoded)
    ensures Valid(LoadedConfig(Load(fs, file, decode)))
  {
    DefaultValid();
  }

  /** A file that decodes to a valid record's own fields loads as that record. */
  lemma LoadReadsFields(fs: Fs, file: string, decode: string -> Decoded, c: AppConfig)
    requires file !in fs.statFaults && file in fs.nodes && fs.nodes[file].RegularFile? && file !in fs.readFaults
    requires decode(fs.nodes[file].content) == Document(FieldsOf(c))
    requires Valid(c) && ValidateSrmPath(c.srmPath, fs).Accepted?
    ensures Load(fs, file, decode) == FromFile(c)
  {
    BuildFieldsOf(c, fs);
  }

  // ---------------------------------------------------------------- saving

  /** `save_config_internal` on the file system: create the parent directory, then write the
      text. */
  function Save(fs: Fs, file: string, c: AppConfig): (a: Attempt)
    ensures a.fs.statFaults == fs.statFaults && a.fs.readFaults == fs.readFaults
    ensures a.fault.None? ==> file in a.fs.nodes && a.fs.nodes[file] == RegularFile(Serialize(c))
  {
    match MakeDir(fs, Parent(file, false))
    case Err(f) => Attempt(fs, Some(f))
    case Ok(made) =>
      match WriteFile(made, file, Serialize(c))
      case Err(f) => Attempt(made, Some(f))
      case Ok(written) => Attempt(written, None)
  }

  /** The message `save_config_internal` logs. */
  function SaveNote(a: Attempt, file: string): Note
  {
    match a.fault
    case None => Note("Configuration saved to " + file, "SUCCESS")
    case Some(PermissionDenied(_)) => Note("Permission denied writing config file: " + file, "ERROR")
    case Some(f) => Note("Failed to save config: " + FaultText(f), "ERROR")
  }

  /** Saving and loading are inverse: a valid record that was saved is loaded back unchanged,
      given that the file can be read back, that the JSON reader returns the fields that were
      written and that the path still passes its check. */
  lemma SaveThenLoad(fs: Fs, file: string, c: AppConfig, decode: string -> Decoded)
    requires Valid(c) && file !in fs.statFaults && file !in fs.readFaults
    requires Save(fs, file, c).fault.None?
    requires decode(Serialize(c)) == Document(FieldsOf(c))
    requires ValidateSrmPath(c.srmPath, Save(fs, file, c).fs).Accepted?
    ensures Load(Save(fs, file, c).fs, file, decode) == FromFile(c)
  {
    LoadReadsFields(Save(fs, file, c).fs, file, decode, c);
  }

  // ---------------------------------------------------------------- detection

  /** `os.getenv('USERNAME', 'User')`. */
  function Username(env: map<string, string>): string
  {
    if "USERNAME" in env then env["USERNAME"] else "User"
  }

  /** `template.format(username=user)` for templates whose only braces are the placeholder:
      every occurrence of "{username}" is replaced by `user`. */
  function Substitute(s: string, user: string): string
    decreases |s|
  {
    var p := Constants.UserPlaceholder;
    if |s| < |p| then s
    else if s[..|p|] == p then user + Substitute(s[|p|..], user)
    else [s[0]] + Substitute(s[1..], user)
  }

  predicate NoBrace(s: string)
  {
    forall k :: 0 <= k < |s| ==> s[k] != '{'
  }

  lemma {:induction false} SubstituteNoBrace(s: string, user: string)
    requires NoBrace(s)
    ensures Substitute(s, user) == s
    decreases |s|
  {
    if |s| >= |Constants.UserPlaceholder| {
      assert s[..|Constants.UserPlaceholder|][0] == s[0];
      SubstituteNoBrace(s[1..], user);
    }
  }

  /** The placeholder between two brace-free parts is replaced by the user name, and nothing
      else changes. */
  lemma {:induction false} SubstituteSplice(a: string, b: string, user: string)
    requires NoBrace(a) && NoBrace(b)
    ensures Substitute(a + Constants.UserPlaceholder + b, user) == a + user + b
    decreases |a|
  {
    var p := Constants.UserPlaceholder;
    if a == [] {
      assert a + p + b == p + b;
      SubstituteReplaces(b, user);
      SubstituteNoBrace(b, user);
    } else {
      assert a + p + b == [a[0]] + (a[1..] + p + b);
      SubstituteKeeps(a[0], a[1..] + p + b, user);
      SubstituteSplice(a[1..], b, user);
      assert a + user + b == [a[0]] + (a[1..] + user + b);
    }
  }

  /** The placeholder is replaced by the user name. */
  lemma SubstituteReplaces(rest: string, user: string)
    ensures Substitute(Constants.UserPlaceholder + rest, user) == user + Substitute(rest, user)
  {
    var s := Constants.UserPlaceholder + rest;
    assert s[..|Constants.UserPlaceholder|] == Constants.UserPlaceholder;
    assert s[|Constants.UserPlaceholder|..] == rest;
  }

  /** A character other than a brace is copied as it is. */
  lemma SubstituteKeeps(c: char, rest: string, user: string)
    requires c != '{'
    ensures Substitute([c] + rest, user) == [c] + Substitute(rest, user)
  {
    var s := [c] + rest;
    if |s| >= |Constants.UserPlaceholder| {
      assert s[..|Constants.UserPlaceholder|][0] == c;
      assert s[1..] == rest;
    }
  }

  /** The install locations probed for `user`, in order. */
  function Candidates(user: string): (cs: seq<string>)
    ensures |cs| == |Constants.CommonSrmPaths|
  {
    seq(|Constants.CommonSrmPaths|, i requires 0 <= i < |Constants.CommonSrmPaths| =>
      Substitute(Constants.CommonSrmPaths[i], user))
  }

  /** The first path that exists, in order; an exception from a check propagates. */
  function FirstExisting(fs: Fs, paths: seq<string>): Result<Option<string>, Fault>
    decreases |paths|
  {
    if paths == [] then Ok(None)
    else
      match Exists(fs, paths[0])
      case Err(f) => Err(f)
      case Ok(true) => Ok(Some(paths[0]))
      case Ok(false) => FirstExisting(fs, paths[1..])
  }

  /** Every path before index `i` was checked and does not exist. */
  predicate NoneBefore(fs: Fs, paths: seq<string>, i: int)
    requires 0 <= i <= |paths|
  {
    forall j :: 0 <= j < i ==> Exists(fs, paths[j]) == Ok(false)
  }

  /** `FirstExisting` answers with the first existing path, `None` exactly when no path exists,
      and the first exception otherwise. */
  lemma {:induction false} FirstExistingIsFirst(fs: Fs, paths: seq<string>)
    ensures var r := FirstExisting(fs, paths);
            && (r == Ok(None) <==> NoneBefore(fs, paths, |paths|))
            && (r.Ok? && r.value.Some? ==>
                  exists i :: 0 <= i < |paths| && NoneBefore(fs, paths, i)
                              && paths[i] == r.value.value && Exists(fs, paths[i]) == Ok(true))
            && (r.Err? ==>
                  exists i :: 0 <= i < |paths| && NoneBefore(fs, paths, i) && Exists(fs, paths[i]) == Err(r.error))
    decreases |paths|
  {
    if paths != [] {
      var rest := paths[1..];
      FirstExistingIsFirst(fs, rest);
      assert forall i :: 0 <= i < |rest| ==> rest[i] == paths[i + 1];
      if Exists(fs, paths[0]) == Ok(false) {
        var r := FirstExisting(fs, rest);
        assert NoneBefore(fs, paths, |paths|) <==> NoneBefore(fs, rest, |rest|);
        if r.Ok? && r.value.Some? {
          var i :| 0 <= i < |rest| && NoneBefore(fs, rest, i) && rest[i] == r.value.value && Exists(fs, rest[i]) == Ok(true);
          assert NoneBefore(fs, paths, i + 1);
        }
        if r.Err? {
          var i :| 0 <= i < |rest| && NoneBefore(fs, rest, i) && Exists(fs, rest[i]) == Err(r.error);
          assert NoneBefore(fs, paths, i + 1);
        }
      } else {
        assert NoneBefore(fs, paths, 0);
      }
    }
  }

  // ---------------------------------------------------------------- the manager

  /** The configuration manager: the current record, the file it is kept in, where its messages
      go, and what has been written there. */
  class ConfigManager {
    var config: AppConfig
    const configFile: string
    const sink: LogSink
    /** The messages handed to the logger callback, with their levels. */
    var delivered: seq<LogLine>
    /** The lines printed on standard output. */
    var printed: seq<string>

    /** `ConfigManager(config_file, logger)`: the file defaults to the one in the platform
        configuration directory; the directories are created (their failure is ignored) and
        the record is loaded. */
    constructor (dirs: Dirs.AppDirectories, configFile: Option<string>, sink: LogSink, disk: Disk, decode: string -> Decoded)
      modifies disk
      ensures this.configFile == if configFile.Some? then PathText(configFile.value) else Dirs.ConfigFilePath(dirs)
      ensures this.sink == sink
      ensures var made := Dirs.MakeDirs(old(disk.fs), Dirs.DirectoryList(dirs)).fs;
              var l := Load(made, this.configFile, decode);
              && config == LoadedConfig(l)
              && (l.Missing? ==> disk.fs == Save(made, this.configFile, Default).fs)
              && (!l.Missing? ==> disk.fs == made)
      ensures Valid(config)
      ensures var n := LoadNote(Dirs.MakeDirs(old(disk.fs), Dirs.DirectoryList(dirs)).fs, this.configFile, decode);
              && delivered == (if n.Some? then ToCallback(sink, n.value) else [])
              && printed == (if n.Some? then ToStdout(sink, n.value) else [])
    {
      this.configFile := if configFile.Some? then PathText(configFile.value) else Dirs.ConfigFilePath(dirs);
      this.sink := sink;
      config := Default;
      delivered := [];
      printed := [];
      new;
      var created := Dirs.EnsureDirectoriesExist(dirs, disk);
      config := LoadConfig(disk, decode);
    }

    /** `_log(message, level_name)`: to the callback with the mapped level, or printed with a
        "Config: " prefix when there is no callback or the callback raises. */
    method Log(message: string, levelName: string := "ERROR")
      modifies this`delivered, this`printed
      ensures delivered == old(delivered) + ToCallback(sink, Note(message, levelName))
      ensures printed == old(printed) + ToStdout(sink, Note(message, levelName))
    {
      match sink
      case Callback(raises) =>
        if raises {
          printed := printed + ["Config: " + message];
        } else {
          delivered := delivered + [LogLine(message, LevelFor(levelName))];
        }
      case Printing =>
        printed := printed + ["Config: " + message];
    }

    /** `load_config`: never raises; returns the record of the file when it loads, and the
        default otherwise, saving it when there was no file. */
    method LoadConfig(disk: Disk, decode: string -> Decoded) returns (c: AppConfig)
      modifies this`delivered, this`printed, disk
      ensures var l := Load(old(disk.fs), configFile, decode);
              && c == LoadedConfig(l)
              && (l.Missing? ==> disk.fs == Save(old(disk.fs), configFile, Default).fs)
              && (!l.Missing? ==> disk.fs == old(disk.fs))
      ensures Valid(c)
      ensures var n := LoadNote(old(disk.fs), configFile, decode);
              && delivered == old(delivered) + (if n.Some? then ToCallback(sink, n.value) else [])
              && printed == old(printed) + (if n.Some? then ToStdout(sink, n.value) else [])
    {
      LoadAlwaysValid(disk.fs, configFile, decode);
      var fs := disk.fs;
      match Exists(fs, configFile)
      case Err(f) =>
        var n := ReadFailure(f, configFile);
        Log(n.message, n.levelName);
        return Default;
      case Ok(present) =>
        if !present {
          c := Default;
          var saved := SaveConfigInternal(disk, c);
          return c;
        }
      match ReadFile(fs, configFile)
      case Err(f) =>
        var n := ReadFailure(f, configFile);
        Log(n.message, n.levelName);
        return Default;
      case Ok(text) =>
        match decode(text)
        case NotJson(m) =>
          Log(CorruptedPrefix + m, "WARNING");
          return Default;
        case NotMapping(m) =>
          Log(UnexpectedReadPrefix + m, "ERROR");
          return Default;
        case Document(raw) =>
          match Build(raw, fs)
          case Loaded(built) =>
            return built;
          case Invalid(errors) =>
            Log(ValidationFailedPrefix + ValidationSummary(|errors|), "ERROR");
            return Default;
          case Escaped(f) =>
            var n := ReadFailure(f, configFile);
            Log(n.message, n.levelName);
            return Default;
    }

    /** `save_config_internal(config)`: true exactly when the text was written. */
    method SaveConfigInternal(disk: Disk, c: AppConfig) returns (ok: bool)
      modifies this`delivered, this`printed, disk
      ensures var a := Save(old(disk.fs), configFile, c);
              && ok == a.fault.None?
              && disk.fs == a.fs
              && delivered == old(delivered) + ToCallback(sink, SaveNote(a, configFile))
              && printed == old(printed) + ToStdout(sink, SaveNote(a, configFile))
    {
      match MakeDir(disk.fs, Parent(configFile, false))
      case Err(f) =>
        var n := SaveNote(Attempt(disk.fs, Some(f)), configFile);
        Log(n.message, n.levelName);
        return false;
      case Ok(made) =>
        disk.fs := made;
      match WriteFile(disk.fs, configFile, Serialize(c))
      case Err(f) =>
        var n := SaveNote(Attempt(disk.fs, Some(f)), configFile);
        Log(n.message, n.levelName);
        return false;
      case Ok(written) =>
        disk.fs := written;
      Log("Configuration saved to " + configFile, "SUCCESS");
      return true;
    }

    /** `save_config`: saves the current record. */
    method SaveConfig(disk: Disk) returns (ok: bool)
      modifies this`delivered, this`printed, disk
      ensures var a := Save(old(disk.fs), configFile, config);
              && ok == a.fault.None?
              && disk.fs == a.fs
              && delivered == old(delivered) + ToCallback(sink, SaveNote(a, configFile))
              && printed == old(printed) + ToStdout(sink, SaveNote(a, configFile))
    {
      ok := SaveConfigInternal(disk, config);
    }

    /** `auto_detect_srm_path`: the first install location, with the user name filled in, that
        exists; `None` when none does. */
    method AutoDetectSrmPath(fs: Fs, env: map<string, string>) returns (r: Result<Option<string>, Fault>)
      ensures r == FirstExisting(fs, Candidates(Username(env)))
    {
      var username := Username(env);
      var templates := Constants.CommonSrmPaths;
      ghost var paths := Candidates(username);
      var i := 0;
      while i < |templates|
        invariant 0 <= i <= |templates|
        invariant FirstExisting(fs, paths) == FirstExisting(fs, paths[i..])
      {
        var path := Substitute(templates[i], username);
        assert path == paths[i];
        assert paths[i..] == [path] + paths[i + 1..];
        match Exists(fs, path)
        case Err(f) =>
          return Err(f);
        case Ok(present) =>
          if present {
            return Ok(Some(path));
          }
        i := i + 1;
      }
      assert paths[i..] == [];
      return Ok(None);
    }
  }
}
