/** The configuration record (config/app_config.py): its defaults, the integer bounds and the
    field validators, and the construction of a record from the fields read from a file. */
module Config {
  import opened Common
  import opened Host
  import Constants

  /** The seven settings of `AppConfig`. */
  datatype AppConfig = AppConfig(
    srmPath: string,
    theme: string,
    autoStart: bool,
    logLevel: string,
    timeoutSteam: int,
    timeoutSrm: int,
    backupShortcuts: bool)

  /** The field defaults. The settings class validates defaults too, and every default passes
      its validator. */
  const Default: AppConfig := AppConfig(Constants.AutoDetect, "auto", true, "info", 30, 120, true)

  const Themes: set<string> := {"auto", "light", "dark"}
  const LogLevels: set<string> := {"debug", "info", "warning", "error"}

  const SteamTimeoutMin: int := 5
  const SteamTimeoutMax: int := 300
  const SrmTimeoutMin: int := 10
  const SrmTimeoutMax: int := 600

  /** What every validated record satisfies. The SRM path is left out: it is checked against the
      file system at one moment only, and assigning the field later does not validate. */
  predicate Valid(c: AppConfig)
  {
    && c.theme in Themes
    && c.logLevel in LogLevels
    && SteamTimeoutMin <= c.timeoutSteam <= SteamTimeoutMax
    && SrmTimeoutMin <= c.timeoutSrm <= SrmTimeoutMax
  }

  lemma DefaultValid()
    ensures Valid(Default)
  {
  }

  /** The answer of one field check: the value to store, a refusal with pydantic's message, or
      an exception that is not a `ValueError` and so escapes validation. */
  datatype Checked<T> = Accepted(value: T) | Rejected(message: string) | Raised(fault: Fault)

  /** A refusal raised as `ValueError` inside a validator, as pydantic words it. */
  function ValueError(message: string): string
  {
    "Value error, " + message
  }

  const ThemeMessage: string := "Theme must be one of: "
  const LogLevelMessage: string := "Log level must be one of: "

  /** The shared shape of `validate_theme` and `validate_log_level`: the lower-cased value if it
      is one of `choices`, otherwise a `ValueError`. */
  function Choose(v: string, choices: set<string>, message: string): (r: Checked<string>)
    ensures !r.Raised?
    ensures r.Accepted? <==> Lower(v) in choices
    ensures r.Accepted? ==> r.value == Lower(v) && r.value in choices
    ensures r.Rejected? ==> StartsWith(r.message, ValueError(message))
  {
    if Lower(v) in choices then Accepted(Lower(v)) else Rejected(ValueError(message))
  }

  /** Choosing is case-insensitive: values that lower-case alike are treated alike. */
  lemma ChooseIgnoresCase(a: string, b: string, choices: set<string>, message: string)
    requires Lower(a) == Lower(b)
    ensures Choose(a, choices, message) == Choose(b, choices, message)
  {
  }

  /** Choosing again from an accepted value accepts it unchanged. */
  lemma ChooseIdempotent(v: string, choices: set<string>, message: string)
    requires Choose(v, choices, message).Accepted?
    ensures var w := Choose(v, choices, message).value;
            Choose(w, choices, message) == Accepted(w)
  {
    LowerIdempotent(v);
  }

  /** The choices are already lower case, so each is accepted as itself. */
  lemma ChoicesAreLowerCase()
    ensures forall t :: t in Themes ==> Lower(t) == t
    ensures forall l :: l in LogLevels ==> Lower(l) == l
  {
    assert Lower("auto") == "auto" && Lower("light") == "light" && Lower("dark") == "dark";
    assert Lower("debug") == "debug" && Lower("info") == "info";
    assert Lower("warning") == "warning" && Lower("error") == "error";
  }

  /** `validate_theme`. */
  function ValidateTheme(v: string): (r: Checked<string>)
    ensures r.Accepted? <==> Lower(v) in Themes
    ensures r.Accepted? ==> r.value == Lower(v)
    ensures r.Rejected? ==> StartsWith(r.message, ValueError(ThemeMessage))
    ensures !r.Raised?
  {
    Choose(v, Themes, ThemeMessage)
  }

  /** `validate_log_level`. */
  function ValidateLogLevel(v: string): (r: Checked<string>)
    ensures r.Accepted? <==> Lower(v) in LogLevels
    ensures r.Accepted? ==> r.value == Lower(v)
    ensures r.Rejected? ==> StartsWith(r.message, ValueError(LogLevelMessage))
    ensures !r.Raised?
  {
    Choose(v, LogLevels, LogLevelMessage)
  }

  /** The `ge`/`le` constraints of an integer field. */
  function ValidateBounds(v: int, lo: int, hi: int): (r: Checked<int>)
    ensures r.Accepted? <==> lo <= v <= hi
    ensures r.Accepted? ==> r.value == v
    ensures !r.Raised?
  {
    if v < lo then Rejected("Input should be greater than or equal to " + IntToString(lo))
    else if v > hi then Rejected("Input should be less than or equal to " + IntToString(hi))
    else Accepted(v)
  }

  /** `validate_srm_path`: the sentinel, the empty string and paths that do not exist are kept
      for later detection; an existing path must be a file whose text ends in ".exe" exactly
      (case-sensitive, on every platform). An `OSError` from the file system is not a
      `ValueError` and escapes. */
  function ValidateSrmPath(v: string, fs: Fs): (r: Checked<string>)
    ensures r.Accepted? ==> r.value == v
    ensures v == Constants.AutoDetect || v == [] ==> r == Accepted(v)
    ensures v != Constants.AutoDetect && v != [] ==>
              (r.Raised? <==> Exists(fs, v).Err?)
    ensures v != Constants.AutoDetect && v != [] && Exists(fs, v) == Ok(false) ==> r == Accepted(v)
    ensures v != Constants.AutoDetect && v != [] && Exists(fs, v) == Ok(true) ==>
              (r.Accepted? <==> IsFile(fs, v) == Ok(true) && EndsWith(v, ".exe"))
  {
    if v == Constants.AutoDetect || v == [] then Accepted(v)
    else
      match Exists(fs, v)
      case Err(f) => Raised(f)
      case Ok(false) => Accepted(v)
      case Ok(true) =>
        match IsFile(fs, v)
        case Err(f) => Raised(f)
        case Ok(false) => Rejected(ValueError("SRM path must be a file: " + v))
        case Ok(true) =>
          if EndsWith(PathText(v), ".exe") then Accepted(v)
          else Rejected(ValueError("SRM path must be an executable (.exe) file: " + v))
  }

  // ---------------------------------------------------------------- construction

  /** A field as read from the file after pydantic's type coercion: absent, coerced to the
      field's type, or not coercible to it. */
  datatype Field<T> = Absent | Given(value: T) | Uncoercible

  /** The keyword arguments `AppConfig(**json_data)` receives: the seven fields, and the names
      of any other keys (which the settings class forbids). */
  datatype RawConfig = RawConfig(
    srmPath: Field<string>,
    theme: Field<string>,
    autoStart: Field<bool>,
    logLevel: Field<string>,
    timeoutSteam: Field<int>,
    timeoutSrm: Field<int>,
    backupShortcuts: Field<bool>,
    unknown: seq<string>)

  /** One entry of a `ValidationError`: the field and the message. */
  datatype FieldError = FieldError(field: string, message: string)

  /** The outcome of `AppConfig(**json_data)`. */
  datatype Built = Loaded(config: AppConfig) | Invalid(errors: seq<FieldError>) | Escaped(fault: Fault)

  /** One field: the validator's answer for the default when absent, a type error when not
      coercible, the validator's answer for the value otherwise. */
  function Settle<T>(f: Field<T>, default: T, typeName: string, check: T -> Checked<T>): Checked<T>
  {
    match f
    case Absent => check(default)
    case Uncoercible => Rejected("Input should be a valid " + typeName)
    case Given(v) => check(v)
  }

  function ErrorsOf<T>(name: string, c: Checked<T>): (e: seq<FieldError>)
    ensures e == [] <==> c.Accepted?
    ensures forall i :: 0 <= i < |e| ==> e[i].field == name
  {
    match c
    case Accepted(_) => []
    case Rejected(m) => [FieldError(name, m)]
    case Raised(f) => [FieldError(name, FaultText(f))]
  }

  function ExtraErrors(keys: seq<string>): (e: seq<FieldError>)
    ensures |e| == |keys|
    ensures forall i :: 0 <= i < |keys| ==> e[i].field == keys[i]
  {
    seq(|keys|, i requires 0 <= i < |keys| => FieldError(keys[i], "Extra inputs are not permitted"))
  }

  function Keep<T>(v: T): Checked<T>
  {
    Accepted(v)
  }

  /** The answers for the seven fields, in declaration order. */
  datatype Settled = Settled(
    path: Checked<string>,
    theme: Checked<string>,
    autoStart: Checked<bool>,
    level: Checked<string>,
    steam: Checked<int>,
    srm: Checked<int>,
    backup: Checked<bool>)

  function SettleAll(raw: RawConfig, fs: Fs): Settled
  {
    Settled(
      Settle(raw.srmPath, Constants.AutoDetect, "string", v => ValidateSrmPath(v, fs)),
      Settle(raw.theme, "auto", "string", ValidateTheme),
      Settle(raw.autoStart, true, "boolean", Keep),
      Settle(raw.logLevel, "info", "string", ValidateLogLevel),
      Settle(raw.timeoutSteam, 30, "integer", v => ValidateBounds(v, SteamTimeoutMin, SteamTimeoutMax)),
      Settle(raw.timeoutSrm, 120, "integer", v => ValidateBounds(v, SrmTimeoutMin, SrmTimeoutMax)),
      Settle(raw.backupShortcuts, true, "boolean", Keep))
  }

  predicate AllAccepted(s: Settled)
  {
    && s.path.Accepted? && s.theme.Accepted? && s.autoStart.Accepted? && s.level.Accepted?
    && s.steam.Accepted? && s.srm.Accepted? && s.backup.Accepted?
  }

  /** The names of the fields whose answer is not an acceptance. */
  function Refused(s: Settled): set<string>
  {
    (if s.path.Accepted? then {} else {"srm_path"})
    + (if s.theme.Accepted? then {} else {"theme"})
    + (if s.autoStart.Accepted? then {} else {"auto_start"})
    + (if s.level.Accepted? then {} else {"log_level"})
    + (if s.steam.Accepted? then {} else {"timeout_steam"})
    + (if s.srm.Accepted? then {} else {"timeout_srm"})
    + (if s.backup.Accepted? then {} else {"backup_shortcuts"})
  }

  /** The errors of the seven fields, in declaration order: there are none exactly when every
      field was accepted, and each names a refused field. */
  function FieldErrors(s: Settled): (e: seq<FieldError>)
    ensures e == [] <==> AllAccepted(s)
    ensures forall i :: 0 <= i < |e| ==> e[i].field in Refused(s)
  {
    ErrorsOf("srm_path", s.path) + ErrorsOf("theme", s.theme) + ErrorsOf("auto_start", s.autoStart)
    + ErrorsOf("log_level", s.level) + ErrorsOf("timeout_steam", s.steam)
    + ErrorsOf("timeout_srm", s.srm) + ErrorsOf("backup_shortcuts", s.backup)
  }

  /** The record made of the accepted values. */
  function Record(s: Settled): AppConfig
    requires AllAccepted(s)
  {
    AppConfig(s.path.value, s.theme.value, s.autoStart.value, s.level.value, s.steam.value,
              s.srm.value, s.backup.value)
  }

  /** A record built from accepted fields is valid, and each of its fields is the value read, or
      the default when the field was absent. */
  lemma SettledRecord(raw: RawConfig, fs: Fs)
    requires AllAccepted(SettleAll(raw, fs))
    ensures Valid(Record(SettleAll(raw, fs))) && FieldsAgree(raw, Record(SettleAll(raw, fs)))
  {
    ChoicesAreLowerCase();
  }

  /** `AppConfig(**json_data)`: fields are validated in declaration order; a path check that
      raises ends construction at once, every other refusal is collected, and the record is
      built exactly when no field was refused and no unknown key was given. */
  function Build(raw: RawConfig, fs: Fs): (b: Built)
    ensures b.Loaded? ==> Valid(b.config) && FieldsAgree(raw, b.config)
    ensures b.Escaped? <==> raw.srmPath.Given? && ValidateSrmPath(raw.srmPath.value, fs).Raised?
    ensures b.Loaded? <==> AllAccepted(SettleAll(raw, fs)) && raw.unknown == []
    ensures b.Invalid? ==> b.errors != []
    ensures b.Invalid? ==>
              forall i :: 0 <= i < |b.errors| ==>
                b.errors[i].field in Refused(SettleAll(raw, fs)) || b.errors[i].field in raw.unknown
  {
    var s := SettleAll(raw, fs);
    if s.path.Raised? then Escaped(s.path.fault)
    else
      var errors := FieldErrors(s) + ExtraErrors(raw.unknown);
      if errors != [] then Invalid(errors)
      else
        SettledRecord(raw, fs);
        Loaded(Record(s))
  }

  /** A field of the record came from the corresponding field read: the default when absent,
      the value itself when given (lower-cased for the two choice fields). */
  predicate FieldsAgree(raw: RawConfig, c: AppConfig)
  {
    && (raw.srmPath.Absent? ==> c.srmPath == Constants.AutoDetect)
    && (raw.srmPath.Given? ==> c.srmPath == raw.srmPath.value)
    && (raw.theme.Absent? ==> c.theme == "auto")
    && (raw.theme.Given? ==> c.theme == Lower(raw.theme.value))
    && (raw.autoStart.Absent? ==> c.autoStart)
    && (raw.autoStart.Given? ==> c.autoStart == raw.autoStart.value)
    && (raw.logLevel.Absent? ==> c.logLevel == "info")
    && (raw.logLevel.Given? ==> c.logLevel == Lower(raw.logLevel.value))
    && (raw.timeoutSteam.Absent? ==> c.timeoutSteam == 30)
    && (raw.timeoutSteam.Given? ==> c.timeoutSteam == raw.timeoutSteam.value)
    && (raw.timeoutSrm.Absent? ==> c.timeoutSrm == 120)
    && (raw.timeoutSrm.Given? ==> c.timeoutSrm == raw.timeoutSrm.value)
    && (raw.backupShortcuts.Absent? ==> c.backupShortcuts)
    && (raw.backupShortcuts.Given? ==> c.backupShortcuts == raw.backupShortcuts.value)
  }

  /** The fields a record is written out as. */
  function FieldsOf(c: AppConfig): RawConfig
  {
    RawConfig(Given(c.srmPath), Given(c.theme), Given(c.autoStart), Given(c.logLevel),
              Given(c.timeoutSteam), Given(c.timeoutSrm), Given(c.backupShortcuts), [])
  }

  /** `AppConfig()` with nothing given is the default record, whatever the file system. */
  lemma BuildDefaults(fs: Fs)
    ensures Build(RawConfig(Absent, Absent, Absent, Absent, Absent, Absent, Absent, []), fs) == Loaded(Default)
  {
    var raw := RawConfig(Absent, Absent, Absent, Absent, Absent, Absent, Absent, []);
    ChoicesAreLowerCase();
    assert AllAccepted(SettleAll(raw, fs));
  }

  /** A valid record read back from its own fields is the same record, provided its path still
      passes the path check. */
  lemma BuildFieldsOf(c: AppConfig, fs: Fs)
    requires Valid(c) && ValidateSrmPath(c.srmPath, fs).Accepted?
    ensures Build(FieldsOf(c), fs) == Loaded(c)
  {
    ChoicesAreLowerCase();
    assert Lower(c.theme) == c.theme && Lower(c.logLevel) == c.logLevel;
  }

  /** A rejected field is reported under its own name: a theme outside the three choices never
      loads, and the errors name "theme". */
  lemma BadThemeReported(raw: RawConfig, fs: Fs)
    requires raw.theme.Given? && Lower(raw.theme.value) !in Themes
    requires !(raw.srmPath.Given? && ValidateSrmPath(raw.srmPath.value, fs).Raised?)
    ensures Build(raw, fs).Invalid?
    ensures exists i :: 0 <= i < |Build(raw, fs).errors| && Build(raw, fs).errors[i].field == "theme"
  {
    var b := Build(raw, fs);
    var path := Settle(raw.srmPath, Constants.AutoDetect, "string", v => ValidateSrmPath(v, fs));
    var pre := ErrorsOf("srm_path", path);
    assert b.errors[|pre|].field == "theme";
  }
}
