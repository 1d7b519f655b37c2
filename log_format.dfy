/** The pure string builders of `Logger`: severity levels, the caller-info
    tooltip, the colour tag per level and the BBCode line shown in the editor's
    output panel. */
module LogFormat {
  import opened Common
  import opened Text
  import opened Paths

  // The `LogLevel` enum. A C# enum variable holds any `int` (settings are read
  // back with an unchecked cast), so a level is an `int`, and gating compares
  // the integers: a lower value is more severe.
  const Error: int := 0
  const Warning: int := 1
  const Info: int := 2
  const Debug: int := 3
  const Verbose: int := 4

  predicate IsNamedLevel(level: int) {
    Error <= level <= Verbose
  }

  /** A message at `level` gets past a logger whose threshold is `currentLevel`. */
  predicate Enabled(currentLevel: int, level: int) {
    currentLevel >= level
  }

  /** `level.ToString()`: the member's name, or the decimal value of an unnamed level. */
  function LevelName(level: int): string {
    if level == Error then "Error"
    else if level == Warning then "Warning"
    else if level == Info then "Info"
    else if level == Debug then "Debug"
    else if level == Verbose then "Verbose"
    else IntToString(level)
  }

  /** The bracketed upper-case level name the line shows, e.g. `[ERROR]`. */
  function LevelLabel(level: int): string {
    "[" + ToUpper(LevelName(level)) + "]"
  }

  lemma LevelLabels()
    ensures LevelLabel(Error) == "[ERROR]"
    ensures LevelLabel(Warning) == "[WARNING]"
    ensures LevelLabel(Info) == "[INFO]"
    ensures LevelLabel(Debug) == "[DEBUG]"
    ensures LevelLabel(Verbose) == "[VERBOSE]"
  {
    assert ToUpper("Error") == "ERROR";
    assert ToUpper("Warning") == "WARNING";
    assert ToUpper("Info") == "INFO";
    assert ToUpper("Debug") == "DEBUG";
    assert ToUpper("Verbose") == "VERBOSE";
  }

  // ---- caller info ----

  /** What the compiler fills in at the call site: calling member, source file path, line. */
  datatype CallerContext = CallerContext(memberName: string, filePath: string, lineNumber: int)

  /** The class shown for a caller: its source file's name without the extension,
      or "Unknown" when the path names no file. */
  function ClassName(filePath: string): string {
    var fileName := GetFileName(filePath);
    if fileName == [] then "Unknown" else StripExtension(fileName)
  }

  /** The class is "Unknown" when the path names no file; otherwise it is
      `GetFileNameWithoutExtension` of that file name, which is the file name with at
      most its extension removed. */
  lemma ClassNameOfPath(filePath: string)
    ensures GetFileName(filePath) == [] ==> ClassName(filePath) == "Unknown"
    ensures GetFileName(filePath) != [] ==>
      var name, r := GetFileName(filePath), ClassName(filePath);
      r == GetFileNameWithoutExtension(name) && |r| <= |name| && name == r + name[|r|..] && IsExtension(name[|r|..])
  {
    GetFileNameIdempotent(filePath);
  }

  /** The tooltip text naming the caller: class, method, file and line. */
  function GetCallerInfo(ctx: CallerContext): string {
    CallerInfoHead(ctx) + " " + IntToString(ctx.lineNumber)
  }

  /** Everything of the caller info up to the line number. */
  function CallerInfoHead(ctx: CallerContext): string {
    "Class: " + ClassName(ctx.filePath) + " Method: " + ctx.memberName + " File: " + GetFileName(ctx.filePath) + " Line:"
  }

  lemma PrefixOfChain(a: string, b: string, c: string, d: string, e: string)
    ensures a <= a + b + c + d + e
  {
    assert a + b + c + d + e == a + (b + c + d + e);
  }

  /** The caller info opens with the class and method, goes on with the file name and
      the labelled line number, and its last word reads back as the line number. */
  lemma CallerInfoReadsBack(ctx: CallerContext)
    ensures var opening := "Class: " + ClassName(ctx.filePath) + " Method: " + ctx.memberName + " File: ";
      opening <= GetCallerInfo(ctx) &&
      GetCallerInfo(ctx)[|opening|..] == GetFileName(ctx.filePath) + " Line: " + IntToString(ctx.lineNumber)
    ensures ParseInt(LastWord(GetCallerInfo(ctx))) == ctx.lineNumber
  {
    var opening := "Class: " + ClassName(ctx.filePath) + " Method: " + ctx.memberName + " File: ";
    var fileName, number := GetFileName(ctx.filePath), IntToString(ctx.lineNumber);
    PrefixOfChain(opening, fileName, " Line:", " ", number);
    assert GetCallerInfo(ctx) == opening + (fileName + " Line: " + number);
    IntToStringHasNoSpace(ctx.lineNumber);
    LastWordAfterSpace(CallerInfoHead(ctx), IntToString(ctx.lineNumber));
    IntToStringRoundTrip(ctx.lineNumber);
  }

  // ---- colours ----

  const TimestampColor: string := "[color=#AAAAAA]"
  const ResetColor: string := "[color=#FFFFFF]"
  const CloseColor: string := "[/color]"

  /** Every colour tag of a level has this length. */
  const ColorTagLength: nat := 15

  /** Reads a level back from its colour tag; `None` for any other tag. */
  function LevelOfColor(tag: string): Option<int> {
    if tag == "[color=#FF5555]" then Some(Error)
    else if tag == "[color=#FFAA55]" then Some(Warning)
    else if tag == "[color=#55AAFF]" then Some(Info)
    else if tag == "[color=#55FF55]" then Some(Debug)
    else if tag == "[color=#AAAAAA]" then Some(Verbose)
    else None
  }

  /** The colour of a level: a distinct tag for each named level (so the level can be
      read back from it) and the reset colour, which names no level, for any other value. */
  function GetColorForLevel(level: int): (r: string)
    ensures |r| == ColorTagLength
    ensures LevelOfColor(r) == if IsNamedLevel(level) then Some(level) else None
    ensures !IsNamedLevel(level) ==> r == ResetColor
  {
    if level == Error then "[color=#FF5555]"
    else if level == Warning then "[color=#FFAA55]"
    else if level == Info then "[color=#55AAFF]"
    else if level == Debug then "[color=#55FF55]"
    else if level == Verbose then "[color=#AAAAAA]"
    else ResetColor
  }

  /** Distinct named levels are shown in distinct colours. */
  lemma ColorForLevelInjective(a: int, b: int)
    requires IsNamedLevel(a) && IsNamedLevel(b) && a != b
    ensures GetColorForLevel(a) != GetColorForLevel(b)
  {
    assert LevelOfColor(GetColorForLevel(a)) != LevelOfColor(GetColorForLevel(b));
  }

  // ---- the coloured line ----

  /** The grey timestamp that opens every line. */
  function TimestampPart(timestamp: string): string {
    TimestampColor + "[" + timestamp + "]" + CloseColor + " "
  }

  /** The hover tooltip wrapped around the level label. */
  function Tooltip(level: int, callerInfo: string): string {
    "[hint=" + callerInfo + "]" + LevelLabel(level) + "[/hint]"
  }

  /** The line for one message: the timestamp, the level's colour tag, the level
      label inside a tooltip carrying the caller info, the reset colour, and the message last. */
  function GetColoredMessage(level: int, timestamp: string, message: string, callerInfo: string): string {
    TimestampPart(timestamp) + GetColorForLevel(level) + Tooltip(level, callerInfo) + ResetColor + " " + message
  }

  /** Positions in a line assembled from five parts and a message. */
  lemma PartsAt(a: string, b: string, c: string, d: string, m: string)
    ensures var r := a + b + c + d + " " + m;
      a <= r && r[|a|..|a| + |b|] == b && r[|a| + |b|..|a| + |b| + |c|] == c &&
      |m| + 1 <= |r| && r[|r| - |m| - 1..] == " " + m
  {
    var r := a + b + c + d + " " + m;
    assert r == a + (b + (c + (d + (" " + m))));
    assert r[|a|..] == b + (c + (d + (" " + m)));
    assert r[|a| + |b|..] == c + (d + (" " + m));
  }

  /** Where the parts of a line sit: the colour tag right after the timestamp names the
      level (or no level), the tooltip follows it, and the line ends with the message. */
  lemma ColoredMessageLayout(level: int, timestamp: string, message: string, callerInfo: string)
    ensures var r := GetColoredMessage(level, timestamp, message, callerInfo);
      var p := |TimestampPart(timestamp)|;
      TimestampPart(timestamp) <= r &&
      p + ColorTagLength + |Tooltip(level, callerInfo)| <= |r| &&
      LevelOfColor(r[p..p + ColorTagLength]) == (if IsNamedLevel(level) then Some(level) else None) &&
      r[p + ColorTagLength..p + ColorTagLength + |Tooltip(level, callerInfo)|] == Tooltip(level, callerInfo) &&
      |message| + 1 <= |r| && r[|r| - |message| - 1..] == " " + message
  {
    PartsAt(TimestampPart(timestamp), GetColorForLevel(level), Tooltip(level, callerInfo), ResetColor, message);
  }

  /** The level of a named-level line can be read back from the line alone (given its
      timestamp), so lines at different named levels always differ. */
  lemma ColoredMessageRevealsLevel(a: int, b: int, timestamp: string, message: string, callerInfo: string)
    requires IsNamedLevel(a) && IsNamedLevel(b) && a != b
    ensures GetColoredMessage(a, timestamp, message, callerInfo) != GetColoredMessage(b, timestamp, message, callerInfo)
  {
    var p := |TimestampPart(timestamp)|;
    var ra := GetColoredMessage(a, timestamp, message, callerInfo);
    var rb := GetColoredMessage(b, timestamp, message, callerInfo);
    ColoredMessageLayout(a, timestamp, message, callerInfo);
    ColoredMessageLayout(b, timestamp, message, callerInfo);
    assert LevelOfColor(ra[p..p + ColorTagLength]) == Some(a);
    assert LevelOfColor(rb[p..p + ColorTagLength]) == Some(b);
  }
}
