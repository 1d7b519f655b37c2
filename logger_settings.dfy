/** The logger's persisted settings: the three values `Logger` keeps, the
    configuration file `SaveSettings` writes and `LoadSettings` reads (a Godot
    `ConfigFile`, here a map from section and key to value), and the merge a
    load performs. */
module LoggerSettings {
  import opened Common
  import LogFormat

  /** A value stored in a `ConfigFile`. */
  datatype ConfigValue = IntValue(i: int) | BoolValue(b: bool)

  /** A key of a `ConfigFile`: a section and a key inside it. */
  datatype ConfigKey = ConfigKey(section: string, key: string)

  type Config = map<ConfigKey, ConfigValue>

  const LogLevelKey: ConfigKey := ConfigKey("Logger", "LogLevel")
  const IncludeStackTracesKey: ConfigKey := ConfigKey("Logger", "IncludeStackTraces")
  const StackTraceDepthKey: ConfigKey := ConfigKey("Logger", "StackTraceDepth")

  /** `(int)variant`: a 64-bit integer is truncated to 32 bits, a boolean becomes 0 or 1. */
  function AsInt(v: ConfigValue): (r: int)
    ensures IsInt32(r)
    ensures v.IntValue? ==> (r - v.i) % TwoTo32 == 0
    ensures v.IntValue? && IsInt32(v.i) ==> r == v.i
    ensures v.BoolValue? ==> r == if v.b then 1 else 0
  {
    match v
    case IntValue(i) => Wrap32(i)
    case BoolValue(b) => if b then 1 else 0
  }

  /** `(bool)variant`: an integer is true when it is not 0. */
  function AsBool(v: ConfigValue): bool {
    match v
    case IntValue(i) => i != 0
    case BoolValue(b) => b
  }

  /** `CurrentLevel`, `IncludeStackTraces` and `StackTraceDepth`. */
  datatype Settings = Settings(level: int, includeStackTraces: bool, stackTraceDepth: int)

  /** Both integers are C# `int`s. */
  predicate Valid(s: Settings) {
    IsInt32(s.level) && IsInt32(s.stackTraceDepth)
  }

  /** The property initialisers: level Info, no stack traces, depth 3. */
  const Defaults: Settings := Settings(LogFormat.Info, false, 3)

  /** The settings file as `ConfigFile.Load` finds it. */
  datatype SettingsFile =
    | Missing            // no file at the path: the load fails
    | Unreadable         // a file that does not parse: the load fails
    | Stored(config: Config)

  /** The file `SaveSettings` writes: a fresh `ConfigFile` holding all three keys and nothing else. */
  function SavedConfig(s: Settings): (c: Config)
    ensures c.Keys == {LogLevelKey, IncludeStackTracesKey, StackTraceDepthKey}
  {
    map[LogLevelKey := IntValue(s.level),
        IncludeStackTracesKey := BoolValue(s.includeStackTraces),
        StackTraceDepthKey := IntValue(s.stackTraceDepth)]
  }

  /** What `LoadSettings` makes of a successfully loaded file: each setting whose
      key is present is replaced by the file's value; the others keep theirs. */
  function Merge(s: Settings, c: Config): (r: Settings)
    ensures Valid(s) ==> Valid(r)
    ensures r.level != s.level ==> LogLevelKey in c
    ensures r.includeStackTraces != s.includeStackTraces ==> IncludeStackTracesKey in c
    ensures r.stackTraceDepth != s.stackTraceDepth ==> StackTraceDepthKey in c
    ensures LogLevelKey in c ==> r.level == AsInt(c[LogLevelKey])
    ensures IncludeStackTracesKey in c ==> r.includeStackTraces == AsBool(c[IncludeStackTracesKey])
    ensures StackTraceDepthKey in c ==> r.stackTraceDepth == AsInt(c[StackTraceDepthKey])
  {
    Settings(
      if LogLevelKey in c then AsInt(c[LogLevelKey]) else s.level,
      if IncludeStackTracesKey in c then AsBool(c[IncludeStackTracesKey]) else s.includeStackTraces,
      if StackTraceDepthKey in c then AsInt(c[StackTraceDepthKey]) else s.stackTraceDepth)
  }

  /** `LoadSettings`: a failed load leaves the settings as they were; a successful
      one merges the file into them. */
  function Load(s: Settings, file: SettingsFile): (r: Settings)
    ensures !file.Stored? ==> r == s
    ensures file.Stored? ==> r == Merge(s, file.config)
    ensures Valid(s) ==> Valid(r)
  {
    if file.Stored? then Merge(s, file.config) else s
  }

  /** Saving and then loading gives back the saved settings, whatever the
      settings were when the file was loaded. */
  lemma SaveLoadRoundTrip(saved: Settings, current: Settings)
    requires Valid(saved)
    ensures Load(current, Stored(SavedConfig(saved))) == saved
  {
  }

  /** A file without any of the three keys changes nothing. */
  lemma MergeUnrelatedKeys(s: Settings, c: Config)
    requires LogLevelKey !in c && IncludeStackTracesKey !in c && StackTraceDepthKey !in c
    ensures Merge(s, c) == s
  {
  }

  /** A file holding only the level, as another process may write it, changes the
      level, truncated to 32 bits, and nothing else. */
  lemma LoadLevelOnly(s: Settings, level: int)
    ensures Load(s, Stored(map[LogLevelKey := IntValue(level)])) == s.(level := Wrap32(level))
  {
    assert IncludeStackTracesKey != LogLevelKey && StackTraceDepthKey != LogLevelKey;
  }

  /** Loading the same file twice is the same as loading it once. */
  lemma LoadIdempotent(s: Settings, file: SettingsFile)
    ensures Load(Load(s, file), file) == Load(s, file)
  {
  }
}
