# RichLogger, modelled in Dafny

A model of the logging core of the Godot RichLogger add-on. It covers two classes.

**`Logger`** (`addons/RichLogger/Logger.cs`) is a static class. It holds the process-wide settings:
- the level threshold;
- whether stack traces are appended;
- the stack-trace depth.

It also holds the dirty flag that its file watcher raises when the shared settings file changes. Each of its five severity methods works in three steps:
1. reload the settings if the flag is raised;
2. gate on the level;
3. print one BBCode line.

That line has a grey timestamp, a colour tag for the level and the upper-case level label. The label sits inside a hover tooltip that names the calling class, method, file and line. The message comes last. When stack traces are enabled, a block of caller frames follows, taken from the captured call stack.

**`LogFileWriter`** (`addons/RichLogger/LogFileWriter.cs`) writes one log file per run. On start-up it deletes old log files, keeping the greatest names up to the retention limit. It buffers writes and counts them. Once ten messages have been counted since the last scheduled flush, the next write made with no flush in flight schedules a background flush. Disposing it flushes and closes the file; after that, writes do nothing.

The model has one module per part of the core:

| module | file | what it holds |
|---|---|---|
| `Common` | `common.dfy` | `Option`, `Result`, and C# `int` wrap-around |
| `Text` | `text.dfy` | last-index search, decimal rendering of `int` and its parser, ASCII upper-casing, ordinal string order |
| `Paths` | `paths.dfy` | `Path.GetFileName` and `Path.GetFileNameWithoutExtension` |
| `LogFormat` | `log_format.dfy` | levels, caller info, colour tags, the coloured line |
| `StackTraces` | `stack_traces.dfy` | the frame window and the `GetStackTrace` loop |
| `LoggerSettings` | `logger_settings.dfy` | the settings, the configuration file as a map, save and merge |
| `Logging` | `logger.dfy` | class `Logger` with its state and every entry point |
| `Sorting` | `sorting.dfy` | `OrderByDescending` on file names |
| `LogFiles` | `log_file_writer.dfy` | the flush protocol, file naming, retention, class `LogFileWriter` |

How the outside world appears in the model:
- The static state of `Logger` becomes the fields of a `Logger` object. Its static constructor becomes the object's constructor.
- The clock and the captured call stack are inputs (`Logging.Runtime`).
- Each line handed to `GD.PrintRich` is appended to a ghost sequence `display`.
- The settings file is a `SettingsFile` value: missing, unreadable, or a map from section and key to value.
- The log directory is a set of names. The writer's buffer and the file's contents are sequences of lines.
- The outcome of each I/O call (save, write, flush, close, delete) is a parameter.

## Model

| member | source | states |
|---|---|---|
| `Common.Wrap32` | addons/RichLogger/LogFileWriter.cs:39 | C# `int` arithmetic: the result is an `int`, equals its argument when that is an `int`, and is congruent to it modulo 2^32 |
| `Text.NatToStringDigits` | addons/RichLogger/Logger.cs:109 | the decimal rendering of a natural number is a non-empty run of digits |
| `Text.IntToStringHasNoSpace` | addons/RichLogger/Logger.cs:109 | `lineNumber.ToString()` is non-empty and has no space in it |
| `Text.NatToStringRoundTrip` | addons/RichLogger/Logger.cs:109 | parsing the rendering of a natural number gives the number back |
| `Text.IntToStringRoundTrip` | addons/RichLogger/Logger.cs:109 | parsing `n.ToString()` gives `n` back, negatives included |
| `Text.LastIndexOfAny` | addons/RichLogger/Logger.cs:108 | the index found holds a character of the set and no later character does; -1 when there is none |
| `Text.LastIndexOfAnySplit` | addons/RichLogger/Logger.cs:109 | in `a + [c] + b` with only `b` free of the set, the last match is at `|a|` |
| `Text.LastWord` | addons/RichLogger/Logger.cs:109 | the last word is a tail of the text and holds no space |
| `Text.LastWordAfterSpace` | addons/RichLogger/Logger.cs:109 | the last word of `head + " " + word` is `word` when `word` has no space |
| `Text.BelowIrreflexive` | addons/RichLogger/LogFileWriter.cs:75 | ordinal order: no name sorts before itself |
| `Text.BelowTransitive` | addons/RichLogger/LogFileWriter.cs:75 | ordinal order is transitive |
| `Text.BelowTotal` | addons/RichLogger/LogFileWriter.cs:75 | ordinal order is total: two names are equal or one sorts first |
| `Text.BelowAsymmetric` | addons/RichLogger/LogFileWriter.cs:75 | ordinal order is asymmetric |
| `Paths.GetFileNameIsSuffix` | addons/RichLogger/Logger.cs:107 | `Path.GetFileName` returns a tail of the path |
| `Paths.GetFileNameHasNoSeparator` | addons/RichLogger/Logger.cs:107 | the file name holds no '/' or '\\' |
| `Paths.GetFileNameFollowsSeparator` | addons/RichLogger/Logger.cs:107 | the character before the file name, if any, is a separator |
| `Paths.GetFileNameIsLastComponent` | addons/RichLogger/Logger.cs:107 | the file name is the longest separator-free tail: path = directory part + name, and the name stops at the last separator |
| `Paths.StripExtension` | addons/RichLogger/Logger.cs:108 | the name without its extension is a prefix of the name, and what is removed is empty or one '.' followed by no other '.'; the name is kept whole exactly when it has no '.', so the part removed starts at the last '.' |
| `Paths.GetFileNameOfName` | addons/RichLogger/Logger.cs:108 | a name without separators is its own file name |
| `Paths.GetFileNameIdempotent` | addons/RichLogger/Logger.cs:107-108 | taking the file name twice is taking it once, so `GetFileNameWithoutExtension(fileName)` sees the same name |
| `LogFormat.LevelLabels` | addons/RichLogger/Logger.cs:114 | the labels are `[ERROR]`, `[WARNING]`, `[INFO]`, `[DEBUG]`, `[VERBOSE]` |
| `LogFormat.ClassNameOfPath` | addons/RichLogger/Logger.cs:107-108 | the class is "Unknown" when the path names no file; otherwise it is `GetFileNameWithoutExtension` of the name, a prefix of it with at most an extension removed |
| `LogFormat.CallerInfoReadsBack` | addons/RichLogger/Logger.cs:105-110 | the caller info opens with `Class: <class> Method: <member> File: `, continues with the file name, then ` Line: ` and the line number, and its last word parses back to the caller's line number |
| `LogFormat.GetColorForLevel` | addons/RichLogger/Logger.cs:124-135 | each tag is 15 characters long; the level can be read back from the tag of a named level; any other value gets `[color=#FFFFFF]` |
| `LogFormat.ColorForLevelInjective` | addons/RichLogger/Logger.cs:124-135 | distinct named levels get distinct colour tags |
| `LogFormat.ColoredMessageLayout` | addons/RichLogger/Logger.cs:112-122 | the line opens with the timestamp; the level's colour tag follows; then the tooltip `[hint=callerInfo][LEVEL][/hint]`; the line ends with `" " + message` |
| `LogFormat.ColoredMessageRevealsLevel` | addons/RichLogger/Logger.cs:112-122 | lines for the same message at two different named levels differ |
| `StackTraces.DeepTraceListsNothingAsWritten` | addons/RichLogger/Logger.cs:146-147 | with the 32-bit sum, depth `int.MaxValue` on a ten-frame stack gives an end before the start, though seven frames lie past the logger's own |
| `StackTraces.ListedFrames` | addons/RichLogger/Logger.cs:146-151 | the frames listed are those at offsets 0, 1, … from `3 + skip`, `max(0, min(depth, len - start))` of them, so at most `max(0, depth)`; there are none iff `depth <= 0` or `3 + skip >= len` |
| `StackTraces.HeaderOnly` | addons/RichLogger/Logger.cs:139-160 | depth zero or less, or no frame past the hidden ones, gives the header line alone |
| `StackTraces.TraceTextExtend` | addons/RichLogger/Logger.cs:149-157 | one more frame appends exactly that frame's line |
| `StackTraces.PartialTraceStep` | addons/RichLogger/Logger.cs:149-157 | one pass of the loop appends the line of frame `i` |
| `StackTraces.PartialTraceComplete` | addons/RichLogger/Logger.cs:147-159 | once the window is walked without fault, the text built is the trace of the listed frames |
| `StackTraces.AppendFrameLines` | addons/RichLogger/Logger.cs:149-157 | the loop appends the line of each frame from `start` up to `end` after the header, and fails when it reads a negative index |
| `StackTraces.GetStackTrace` | addons/RichLogger/Logger.cs:137-160 | the result is the header plus the lines of the listed frames, or the index fault when the window is non-empty and starts below zero (`3 + skip < 0` and `depth > 0`) |
| `LoggerSettings.AsInt` | addons/RichLogger/Logger.cs:236 | `(int)variant` of an integer is the `int` congruent to it modulo 2^32, itself when it is already an `int`; of a boolean it is 1 or 0 |
| `LoggerSettings.SavedConfig` | addons/RichLogger/Logger.cs:212-217 | the saved file has exactly the three keys |
| `LoggerSettings.Merge` | addons/RichLogger/Logger.cs:234-250 | a setting whose key is present takes the file's value (`(int)` or `(bool)` of it); a setting whose key is absent keeps its value; `int` settings stay `int`s |
| `LoggerSettings.Load` | addons/RichLogger/Logger.cs:226-251 | a failed load leaves the settings unchanged; a successful one merges the file into them; a load keeps them valid |
| `LoggerSettings.SaveLoadRoundTrip` | addons/RichLogger/Logger.cs:212-251 | loading the file that `SaveSettings` wrote gives back the saved settings, whatever the settings were before the load |
| `LoggerSettings.LoadLevelOnly` | addons/RichLogger/Logger.cs:234-250 | a file holding only the level changes the level, truncated to 32 bits, and leaves the other two settings alone |
| `LoggerSettings.MergeUnrelatedKeys` | addons/RichLogger/Logger.cs:234-250 | a file with none of the three keys changes nothing |
| `LoggerSettings.LoadIdempotent` | addons/RichLogger/Logger.cs:226-251 | loading the same file twice is loading it once |
| `Logging.Unfiltered` | addons/RichLogger/Logger.cs:91-103 | a call past the gate is never reported as filtered |
| `Logging.CallOutcome` | addons/RichLogger/Logger.cs:40-42 | a call is filtered iff `CurrentLevel < level`; without stack traces, the line printed is the coloured message |
| `Logging.ObjectMessage` | addons/RichLogger/Logger.cs:170-172 | the message is `context + ": "` followed by the object's text, or by "null" when there is no object |
| `Logging.Logger.constructor` | addons/RichLogger/Logger.cs:23-28 | the settings are the defaults merged with the file; the file is rewritten with all three keys when the save succeeds; the watcher runs iff a file exists; otherwise the failure line is printed |
| `Logging.Logger.SetupFileWatcher` | addons/RichLogger/Logger.cs:175-201 | the watcher is set up iff the settings file exists; otherwise `InternalInfo` prints the failure message |
| `Logging.Logger.LoadSettings` | addons/RichLogger/Logger.cs:226-251 | the new settings are `Load` of the old ones and the file |
| `Logging.Logger.SaveSettings` | addons/RichLogger/Logger.cs:212-224 | a successful save replaces the file with the three keys and, when watched, raises the dirty flag; a failed save changes nothing |
| `Logging.Logger.OnFileChanged` | addons/RichLogger/Logger.cs:203 | the callback raises the dirty flag |
| `Logging.Logger.ExternalEdit` | addons/RichLogger/Logger.cs:193-195 | another process's write or creation of the settings file, or a rename onto or away from its name, raises the flag; a deletion does not |
| `Logging.Logger.CheckAndReloadSettings` | addons/RichLogger/Logger.cs:205-210 | reloads only when the flag is raised, and always leaves it lowered |
| `Logging.Logger.Log` | addons/RichLogger/Logger.cs:91-103 | prints the coloured line plus the trace when enabled, or throws before printing anything |
| `Logging.Logger.LogAt` | addons/RichLogger/Logger.cs:40-42 | reload check, then the gate `CurrentLevel >= level` decides between printing and nothing |
| `Logging.Logger.Error` | addons/RichLogger/Logger.cs:34-43 | as `LogAt` at Error; it is filtered iff `CurrentLevel < 0` |
| `Logging.Logger.Warning` | addons/RichLogger/Logger.cs:45-54 | as `LogAt` at Warning; it is filtered iff `CurrentLevel < 1` |
| `Logging.Logger.Info` | addons/RichLogger/Logger.cs:56-65 | as `LogAt` at Info; it is filtered iff `CurrentLevel < 2` |
| `Logging.Logger.Debug` | addons/RichLogger/Logger.cs:67-76 | as `LogAt` at Debug; it is filtered iff `CurrentLevel < 3` |
| `Logging.Logger.Verbose` | addons/RichLogger/Logger.cs:78-87 | as `LogAt` at Verbose; it is filtered iff `CurrentLevel < 4` |
| `Logging.Logger.InternalInfo` | addons/RichLogger/Logger.cs:89 | an Info line with no caller, printed whatever the level |
| `Logging.Logger.LogObject` | addons/RichLogger/Logger.cs:162-173 | the same gate without a reload check; the message is the label and the object's text |
| `Logging.ExternalTighteningTakesEffect` | addons/RichLogger/Logger.cs:45-65 | after another process sets the level to Warning, the next Info call is suppressed and the next Warning call is printed |
| `Logging.SaveThenReloadKeepsSettings` | addons/RichLogger/Logger.cs:205-251 | a save that the watcher reports, followed by the reload it triggers, leaves the settings as they were |
| `Sorting.Insert` | addons/RichLogger/LogFileWriter.cs:75 | inserting into a descending list keeps it descending and adds exactly that name |
| `Sorting.SortDescending` | addons/RichLogger/LogFileWriter.cs:75 | the result is in descending ordinal order and is a permutation of the input |
| `Sorting.PrefixDominatesSuffix` | addons/RichLogger/LogFileWriter.cs:75-77 | in a descending list, every name before a cut is at least every name after it |
| `LogFiles.AfterWrite` | addons/RichLogger/LogFileWriter.cs:39-45 | a flush is scheduled iff the incremented counter reaches 10 with none in flight, and then the counter is reset and the flag set; afterwards `counter < 10 || inFlight` |
| `LogFiles.AtMostOneFlushInFlight` | addons/RichLogger/LogFileWriter.cs:41-45 | any run of writes schedules at most one flush, none while one is in flight, and the flag stays set once set |
| `LogFiles.WritesBelowThreshold` | addons/RichLogger/LogFileWriter.cs:39-41 | from a fresh writer, fewer than ten writes only count |
| `LogFiles.TenWritesScheduleOneFlush` | addons/RichLogger/LogFileWriter.cs:14-45 | from a fresh writer, nine writes schedule no flush and ten schedule exactly one |
| `LogFiles.LogFileName` | addons/RichLogger/LogFileWriter.cs:25-27 | the new file's name matches `logger_*.log` and carries the timestamp after `logger_` |
| `LogFiles.KeepCount` | addons/RichLogger/LogFileWriter.cs:76 | `Skip(MaxLogFiles - 1)` passes over `MaxLogFiles - 1` names, clamped to what is listed, and none when that is zero or less |
| `LogFiles.RetentionRule` | addons/RichLogger/LogFileWriter.cs:74-77 | kept and deleted names partition the listing; every kept name is at least every deleted one; `MaxLogFiles - 1` names are kept when that many exist; all are deleted when `MaxLogFiles <= 1` |
| `LogFiles.DeletedPrefix` | addons/RichLogger/LogFileWriter.cs:79-80 | the deletions performed are a prefix of the doomed names, all deletable, and stop at the first that is not |
| `LogFiles.CleanupLeavesRetained` | addons/RichLogger/LogFileWriter.cs:70-86 | when every deletion succeeds, the log files left are exactly the retained names |
| `LogFiles.LogFileWriter.constructor` | addons/RichLogger/LogFileWriter.cs:18-30 | old logs are deleted as the cleanup says, the new file is added, and the writer is open with an empty buffer and an idle flush state |
| `LogFiles.LogFileWriter.CleanupOldLogs` | addons/RichLogger/LogFileWriter.cs:70-86 | the directory loses exactly the deletable prefix of the doomed names, greatest first |
| `LogFiles.LogFileWriter.Write` | addons/RichLogger/LogFileWriter.cs:32-68 | once disposed, or when the write throws, nothing changes; otherwise one line (message plus newline) is buffered and the counter and flag move as `AfterWrite` says |
| `LogFiles.LogFileWriter.CompleteFlush` | addons/RichLogger/LogFileWriter.cs:47-61 | clears the flag whether the flush succeeds or throws; loses no line |
| `LogFiles.LogFileWriter.Dispose` | addons/RichLogger/LogFileWriter.cs:88-100 | a successful dispose persists the buffer and closes the writer; a failed one keeps the writer open; no line is lost |
| `LogFiles.BufferedLines` | addons/RichLogger/LogFileWriter.cs:38 | one buffered line per message, each the message and a line break, in order |
| `LogFiles.TenWritesFlushOnce` | addons/RichLogger/LogFileWriter.cs:32-45 | ten writes to an open, idle writer schedule exactly one flush and buffer every message in order; the writer stays open with the counter reset, the flush in flight and nothing more persisted |
| `LogFiles.WriteAfterDispose` | addons/RichLogger/LogFileWriter.cs:88-100 | after `Dispose`, a write schedules nothing and buffers nothing, and a second `Dispose` is harmless |

## Left out

- `GD.PrintRich` and `GD.PrintErr` output: the printed lines are recorded in a ghost sequence, and the error reports on the stderr path are not modelled.
- `FileSystemWatcher`: only the flag its callback raises is modelled. Its other failure causes (an invalid directory, a watcher that cannot start) are not. Only "file not found" is reported.
- `ConfigFile` parsing and `Save`: the file is a map or unreadable, and a save succeeds or fails. Variant kinds other than integers and booleans are not modelled.
- `Engine.IsEditorHint`, `DateTime.Now` and `ProjectSettings.GlobalizePath`: these are inputs. The timestamp format is not modelled.
- `level.ToString().ToUpper()` is modelled for ASCII letters. Culture-specific upper-casing is not modelled.
- `OrderByDescending(f => f)`: modelled with ordinal order on full names. The model compares file names where the source compares full paths in one directory, which orders them the same way. Culture-aware string comparison is not modelled.
- `Environment.NewLine` is taken as "\n".
- `{lineNumber}` is rendered with the current culture in the source; the model renders a negative number with '-' whatever the culture.
- `Path.GetFileName`: the model uses the Windows separator set, '/' and '\\'. On Linux and macOS .NET treats only '/' as a separator, and '\\' is an ordinary character there; that platform difference is not modelled. Windows volume separators are not modelled either.
- Concurrency: the worker-pool flush runs as a separate `CompleteFlush` step. The race on `_flushInProgress` and the interleaving of flushes with writes are not modelled. The file watcher's `Changed`, `Created` and `Renamed` events are taken to run `OnFileChanged` at once, inside `SaveSettings` and `ExternalEdit`; in the source they arrive later on a pool thread, and the unsynchronised access to `_settingsChanged` is not modelled.
- `WorkerThreadPool.AddTask` failing: the flag would stay set. This case is not modelled.
- `StreamWriter`'s own buffering: a line is either buffered or persisted, and the writer never flushes on its own.
- `Dispose` where `Flush` succeeds but closing throws: the model treats flush and close as one step that succeeds or throws.
- `LogFiles.LogFileWriter.constructor`: always ends with the writer open. `Directory.CreateDirectory` (LogFileWriter.cs:21) and `new StreamWriter` (LogFileWriter.cs:29) are outside any `try`, and either can throw out of the constructor; those failures are not modelled.
- `LogFiles.LogFileWriter.CleanupOldLogs`: a failure of `Directory.GetFiles` itself is not modelled. The listing is an input.
- `StackTraces.GetStackTrace`: computes `3 + skip` and `start + StackTraceDepth` exactly, not in 32-bit arithmetic (see Findings). The 32-bit form is kept as `WindowStartAsWritten` and `WindowEndAsWritten`.
- `LogFormat.GetColorForLevel`: states the tags of the named levels through `LevelOfColor` and their length. It does not list each literal tag in its contract.
- Things the code does not do, which the model therefore does not do either:
  - No line and no log-file name carries a process id.
  - No markup-free copy of a line is written anywhere, and `Logger` never calls `LogFileWriter`.
  - The settings file holds three keys: `LogLevel`, `IncludeStackTraces` and `StackTraceDepth`.
  - The file watcher is the only way a change to the settings file is noticed.
  - When the settings file is missing, the in-memory defaults are kept and then saved.
  - `LogObject` does not run the reload check.
  - A fault while capturing a stack trace escapes the logging call; it is not reported.

## Findings

| source | as written | input that shows it | evidently intended | confidence | as-written member | corrected member |
|---|---|---|---|---|---|---|
| addons/RichLogger/Logger.cs:146-147 | `startFrame + StackTraceDepth` is a 32-bit `int` sum, and `Math.Min` clamps the wrapped value | `StackTraceDepth = int.MaxValue` (meaning "all frames"), no skipped frames, a ten-frame stack: the end wraps to a negative value and no frame is listed | the window runs to the end of the stack, listing the seven frames below the logger | medium, not executed | `StackTraces.DeepTraceListsNothingAsWritten` | `StackTraces.ListedFrames` |
