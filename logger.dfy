/** The static `Logger` class: its process-wide settings, the dirty flag its
    file watcher raises, the settings file it shares with other processes, and
    the severity entry points that gate, format and print a line.

    The clock and the captured call stack are inputs (`Runtime`); the lines
    handed to `GD.PrintRich` are recorded in the ghost sequence `display`. */
module Logging {
  import opened Common
  import opened LogFormat
  import opened StackTraces
  import opened LoggerSettings

  /** What the runtime supplies at the moment of a call: the formatted
      `DateTime.Now` and the captured call stack. */
  datatype Runtime = Runtime(timestamp: string, frames: seq<Frame>)

  /** The result of one logging call: suppressed by the level gate, printed,
      or aborted by an exception before anything was printed. */
  datatype LogOutcome = Filtered | Emitted(line: string) | Threw(error: string)

  /** The lines a call prints. */
  function Printed(outcome: LogOutcome): seq<string> {
    if outcome.Emitted? then [outcome.line] else []
  }

  /** The line `Log` prints for a message, or the exception it throws:
      the coloured line, then the stack trace when stack traces are enabled. */
  function LogLine(s: Settings, level: int, message: string, ctx: CallerContext, skipFrames: int, rt: Runtime): Result<string> {
    var colored := GetColoredMessage(level, rt.timestamp, message, GetCallerInfo(ctx));
    if !s.includeStackTraces then Success(colored)
    else match StackTraceText(rt.frames, skipFrames, s.stackTraceDepth)
      case Success(trace) => Success(colored + trace)
      case Failure(e) => Failure(e)
  }

  /** The outcome of a call that got past the gate. */
  function Unfiltered(line: Result<string>): (r: LogOutcome)
    ensures r != Filtered
  {
    match line
    case Success(l) => Emitted(l)
    case Failure(e) => Threw(e)
  }

  /** The caller context `InternalInfo` passes: no member, no file, line 0. */
  const NoCaller: CallerContext := CallerContext("", "", 0)

  /** The outcome of a call at `level` made while the settings are `s`. */
  function CallOutcome(s: Settings, level: int, message: string, ctx: CallerContext, skipFrames: int, rt: Runtime): (r: LogOutcome)
    ensures r == Filtered <==> !Enabled(s.level, level)
    ensures r.Emitted? && !s.includeStackTraces ==>
      r.line == GetColoredMessage(level, rt.timestamp, message, GetCallerInfo(ctx))
  {
    if !Enabled(s.level, level) then Filtered
    else Unfiltered(LogLine(s, level, message, ctx, skipFrames, rt))
  }

  /** The settings in force after the reload check: reloaded from the file when the flag was raised. */
  function Reloaded(s: Settings, changed: bool, file: SettingsFile): Settings {
    if changed then Load(s, file) else s
  }

  /** The message `LogObject` logs: the label, then the object's text or "null". */
  function ObjectMessage(context: string, objString: Option<string>): (r: string)
    ensures context + ": " <= r
    ensures objString.None? ==> r[|context| + 2..] == "null"
    ensures objString.Some? ==> r[|context| + 2..] == objString.value
  {
    context + ": " + objString.GetOr("null")
  }

  const WatcherFailurePrefix: string := "File watcher setup failed: Settings file not found: "

  /** The message `SetupFileWatcher` reports when the settings file does not exist. */
  function WatcherFailure(settingsPath: string): string {
    WatcherFailurePrefix + settingsPath
  }

  class Logger {
    var currentLevel: int
    var includeStackTraces: bool
    var stackTraceDepth: int
    /** `_settingsChanged`, raised by the file watcher and consumed by the next severity call. */
    var settingsChanged: bool
    /** The file at `user://logger_settings.cfg`. */
    var settingsFile: SettingsFile
    /** Whether `SetupFileWatcher` managed to watch the settings file. */
    var watcherActive: bool
    /** Every line handed to `GD.PrintRich`, oldest first. */
    ghost var display: seq<string>

    function CurrentSettings(): Settings
      reads this
    {
      Settings(currentLevel, includeStackTraces, stackTraceDepth)
    }

    ghost predicate Valid()
      reads this
    {
      LoggerSettings.Valid(CurrentSettings())
    }

    /** The static constructor: the property defaults, merged with the file when it
        loads, are written back (all three keys), then the file is watched. When there is
        still no file to watch, the failure is reported through `InternalInfo`. */
    constructor (file: SettingsFile, saveSucceeds: bool, settingsPath: string, rt: Runtime)
      ensures Valid()
      ensures CurrentSettings() == Load(Defaults, file)
      ensures settingsFile == if saveSucceeds then Stored(SavedConfig(Load(Defaults, file))) else file
      ensures watcherActive == !settingsFile.Missing? && !settingsChanged
      ensures display == if watcherActive then []
        else Printed(Unfiltered(LogLine(CurrentSettings(), LogFormat.Info, WatcherFailure(settingsPath), NoCaller, 0, rt)))
    {
      currentLevel, includeStackTraces, stackTraceDepth := Defaults.level, Defaults.includeStackTraces, Defaults.stackTraceDepth;
      settingsChanged := false;
      settingsFile := file;
      watcherActive := false;
      display := [];
      new;
      LoadSettings();
      SaveSettings(saveSucceeds);
      SetupFileWatcher(settingsPath, rt);
    }

    /** `SetupFileWatcher`: watches the settings file when it exists; otherwise the
        failure is reported through `InternalInfo`. */
    method SetupFileWatcher(settingsPath: string, rt: Runtime)
      modifies this`watcherActive, this`display
      ensures watcherActive == !settingsFile.Missing?
      ensures display == old(display) + if watcherActive then []
        else Printed(Unfiltered(LogLine(CurrentSettings(), LogFormat.Info, WatcherFailure(settingsPath), NoCaller, 0, rt)))
    {
      if settingsFile.Missing? {
        watcherActive := false;
        var _ := InternalInfo(WatcherFailure(settingsPath), rt);
      } else {
        watcherActive := true;
      }
    }

    /** `LoadSettings`: a failed load changes nothing; otherwise each setting whose key is present is replaced. */
    method LoadSettings()
      requires Valid()
      modifies this`currentLevel, this`includeStackTraces, this`stackTraceDepth
      ensures Valid()
      ensures CurrentSettings() == Load(old(CurrentSettings()), settingsFile)
    {
      if !settingsFile.Stored? {
        return;
      }
      var config := settingsFile.config;
      if LogLevelKey in config {
        currentLevel := AsInt(config[LogLevelKey]);
      }
      if IncludeStackTracesKey in config {
        includeStackTraces := AsBool(config[IncludeStackTracesKey]);
      }
      if StackTraceDepthKey in config {
        stackTraceDepth := AsInt(config[StackTraceDepthKey]);
      }
    }

    /** `SaveSettings`: a new file with all three keys replaces the old one, unless the
        save fails. A watched file's change raises the dirty flag. */
    method SaveSettings(saveSucceeds: bool)
      modifies this`settingsFile, this`settingsChanged
      ensures settingsFile == if saveSucceeds then Stored(SavedConfig(CurrentSettings())) else old(settingsFile)
      ensures settingsChanged == (old(settingsChanged) || (saveSucceeds && watcherActive))
    {
      if saveSucceeds {
        settingsFile := Stored(SavedConfig(CurrentSettings()));
        if watcherActive {
          OnFileChanged();
        }
      }
    }

    /** The watcher's callback for a change, creation or rename of the settings file. */
    method OnFileChanged()
      modifies this`settingsChanged
      ensures settingsChanged
    {
      settingsChanged := true;
    }

    /** Another process writes, creates, renames or deletes the settings file, leaving
        `file` under the settings name. The watcher reports writes, creations and
        renames, a rename away from the settings name included (`renamedAway`), but
        not deletions. */
    method ExternalEdit(file: SettingsFile, renamedAway: bool)
      modifies this`settingsFile, this`settingsChanged
      ensures settingsFile == file
      ensures settingsChanged == (old(settingsChanged) || (watcherActive && (!file.Missing? || renamedAway)))
    {
      settingsFile := file;
      if watcherActive && (!file.Missing? || renamedAway) {
        OnFileChanged();
      }
    }

    /** `CheckAndReloadSettings`: reloads only when the flag is raised, and always leaves it lowered. */
    method CheckAndReloadSettings()
      requires Valid()
      modifies this`currentLevel, this`includeStackTraces, this`stackTraceDepth, this`settingsChanged
      ensures Valid()
      ensures !settingsChanged
      ensures CurrentSettings() == Reloaded(old(CurrentSettings()), old(settingsChanged), settingsFile)
    {
      if !settingsChanged {
        return;
      }
      settingsChanged := false;
      LoadSettings();
    }

    /** `Log`: formats the line, appends the stack trace when enabled and prints it.
        A fault while capturing the trace escapes before anything is printed. */
    method Log(level: int, message: string, ctx: CallerContext, skipFrames: int, rt: Runtime) returns (outcome: LogOutcome)
      modifies this`display
      ensures outcome == Unfiltered(LogLine(CurrentSettings(), level, message, ctx, skipFrames, rt))
      ensures display == old(display) + Printed(outcome)
    {
      var callerInfo := GetCallerInfo(ctx);
      var coloredMessage := GetColoredMessage(level, rt.timestamp, message, callerInfo);
      var stackTrace := "";
      if includeStackTraces {
        var trace := GetStackTrace(rt.frames, skipFrames, stackTraceDepth);
        if trace.Failure? {
          return Threw(trace.error);
        }
        stackTrace := trace.value;
      }
      outcome := Emitted(coloredMessage + stackTrace);
      display := display + [coloredMessage + stackTrace];
    }

    /** The body shared by the five severity methods: the reload check, then the gate. */
    method LogAt(level: int, message: string, ctx: CallerContext, skipFrames: int, rt: Runtime) returns (outcome: LogOutcome)
      requires Valid()
      modifies this
      ensures Valid()
      ensures !settingsChanged && settingsFile == old(settingsFile) && watcherActive == old(watcherActive)
      ensures CurrentSettings() == Reloaded(old(CurrentSettings()), old(settingsChanged), settingsFile)
      ensures outcome == CallOutcome(CurrentSettings(), level, message, ctx, skipFrames, rt)
      ensures display == old(display) + Printed(outcome)
    {
      CheckAndReloadSettings();
      if currentLevel >= level {
        outcome := Log(level, message, ctx, skipFrames, rt);
      } else {
        outcome := Filtered;
      }
    }

    method Error(message: string, ctx: CallerContext, skipFrames: int, rt: Runtime) returns (outcome: LogOutcome)
      requires Valid()
      modifies this
      ensures Valid()
      ensures !settingsChanged && settingsFile == old(settingsFile) && watcherActive == old(watcherActive)
      ensures CurrentSettings() == Reloaded(old(CurrentSettings()), old(settingsChanged), settingsFile)
      ensures outcome == CallOutcome(CurrentSettings(), LogFormat.Error, message, ctx, skipFrames, rt)
      ensures display == old(display) + Printed(outcome)
      ensures outcome == Filtered <==> currentLevel < 0
    {
      outcome := LogAt(LogFormat.Error, message, ctx, skipFrames, rt);
    }

    method Warning(message: string, ctx: CallerContext, skipFrames: int, rt: Runtime) returns (outcome: LogOutcome)
      requires Valid()
      modifies this
      ensures Valid()
      ensures !settingsChanged && settingsFile == old(settingsFile) && watcherActive == old(watcherActive)
      ensures CurrentSettings() == Reloaded(old(CurrentSettings()), old(settingsChanged), settingsFile)
      ensures outcome == CallOutcome(CurrentSettings(), LogFormat.Warning, message, ctx, skipFrames, rt)
      ensures display == old(display) + Printed(outcome)
      ensures outcome == Filtered <==> currentLevel < 1
    {
      outcome := LogAt(LogFormat.Warning, message, ctx, skipFrames, rt);
    }

    method Info(message: string, ctx: CallerContext, skipFrames: int, rt: Runtime) returns (outcome: LogOutcome)
      requires Valid()
      modifies this
      ensures Valid()
      ensures !settingsChanged && settingsFile == old(settingsFile) && watcherActive == old(watcherActive)
      ensures CurrentSettings() == Reloaded(old(CurrentSettings()), old(settingsChanged), settingsFile)
      ensures outcome == CallOutcome(CurrentSettings(), LogFormat.Info, message, ctx, skipFrames, rt)
      ensures display == old(display) + Printed(outcome)
      ensures outcome == Filtered <==> currentLevel < 2
    {
      outcome := LogAt(LogFormat.Info, message, ctx, skipFrames, rt);
    }

    method Debug(message: string, ctx: CallerContext, skipFrames: int, rt: Runtime) returns (outcome: LogOutcome)
      requires Valid()
      modifies this
      ensures Valid()
      ensures !settingsChanged && settingsFile == old(settingsFile) && watcherActive == old(watcherActive)
      ensures CurrentSettings() == Reloaded(old(CurrentSettings()), old(settingsChanged), settingsFile)
      ensures outcome == CallOutcome(CurrentSettings(), LogFormat.Debug, message, ctx, skipFrames, rt)
      ensures display == old(display) + Printed(outcome)
      ensures outcome == Filtered <==> currentLevel < 3
    {
      outcome := LogAt(LogFormat.Debug, message, ctx, skipFrames, rt);
    }

    method Verbose(message: string, ctx: CallerContext, skipFrames: int, rt: Runtime) returns (outcome: LogOutcome)
      requires Valid()
      modifies this
      ensures Valid()
      ensures !settingsChanged && settingsFile == old(settingsFile) && watcherActive == old(watcherActive)
      ensures CurrentSettings() == Reloaded(old(CurrentSettings()), old(settingsChanged), settingsFile)
      ensures outcome == CallOutcome(CurrentSettings(), LogFormat.Verbose, message, ctx, skipFrames, rt)
      ensures display == old(display) + Printed(outcome)
      ensures outcome == Filtered <==> currentLevel < 4
    {
      outcome := LogAt(LogFormat.Verbose, message, ctx, skipFrames, rt);
    }

    /** `InternalInfo`: an Info line with no caller, printed whatever the level. */
    method InternalInfo(message: string, rt: Runtime) returns (outcome: LogOutcome)
      modifies this`display
      ensures outcome == Unfiltered(LogLine(CurrentSettings(), LogFormat.Info, message, NoCaller, 0, rt))
      ensures display == old(display) + Printed(outcome)
    {
      outcome := Log(LogFormat.Info, message, NoCaller, 0, rt);
    }

    /** `LogObject`: the same gate as the severity methods, but without the reload
        check; the message is the label and the object's text. */
    method LogObject(level: int, context: string, objString: Option<string>, ctx: CallerContext, skipFrames: int, rt: Runtime)
      returns (outcome: LogOutcome)
      modifies this`display
      ensures outcome == CallOutcome(CurrentSettings(), level, ObjectMessage(context, objString), ctx, skipFrames, rt)
      ensures display == old(display) + Printed(outcome)
    {
      if currentLevel < level {
        return Filtered;
      }
      outcome := Log(level, ObjectMessage(context, objString), ctx, skipFrames, rt);
    }
  }

  /** Another process tightens the level to Warning in the watched file: the next
      Info call is suppressed and the next Warning call is printed. */
  method ExternalTighteningTakesEffect(logger: Logger, ctx: CallerContext, rt: Runtime)
    returns (info: LogOutcome, warning: LogOutcome)
    requires logger.Valid() && logger.watcherActive
    modifies logger
    ensures info == Filtered && warning.Emitted?
    ensures logger.currentLevel == LogFormat.Warning
    ensures logger.display == old(logger.display) + [warning.line]
  {
    logger.ExternalEdit(Stored(map[LogLevelKey := IntValue(LogFormat.Warning)]), false);
    info := logger.Info("suppressed", ctx, 0, rt);
    assert logger.currentLevel == LogFormat.Warning;
    warning := logger.Warning("shown", ctx, 0, rt);
  }

  /** A save, which the watcher reports, followed by the reload it triggers leaves the
      settings as they were. */
  method SaveThenReloadKeepsSettings(logger: Logger)
    requires logger.Valid()
    modifies logger
    ensures logger.Valid() && !logger.settingsChanged
    ensures logger.CurrentSettings() == old(logger.CurrentSettings())
    ensures logger.settingsFile == Stored(SavedConfig(logger.CurrentSettings()))
  {
    logger.SaveSettings(true);
    logger.CheckAndReloadSettings();
    SaveLoadRoundTrip(old(logger.CurrentSettings()), old(logger.CurrentSettings()));
  }
}
