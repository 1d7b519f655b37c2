/** `Logger.GetStackTrace`: the block of caller frames appended to a line when
    stack traces are enabled. The captured runtime stack is an input: a
    sequence of frames, innermost first. */
module StackTraces {
  import opened Common
  import opened Text
  import opened Paths

  /** What a `StackFrame` reports: its file (null when unknown), its method
      (null when unknown) and its line (0 when unknown). */
  datatype Frame = Frame(fileName: Option<string>, methodName: Option<string>, lineNumber: int)

  /** Frames of the logger itself at the top of the captured stack:
      GetStackTrace, Log and the public severity method. */
  const LoggerFrames: int := 3

  const Header: string := "\n[color=#888888]Stack trace:[/color]" + NewLine

  const IndexOutOfRange: string := "IndexOutOfRangeException"

  function Min(a: int, b: int): int {
    if a <= b then a else b
  }

  function Max(a: int, b: int): int {
    if a <= b then b else a
  }

  /** The line listing one frame. */
  function FrameLine(f: Frame): string {
    Concat(["[color=#888888]  at ", f.methodName.GetOr("Unknown"), " in ", GetFileName(f.fileName.GetOr("Unknown")),
      ":line ", IntToString(f.lineNumber), "[/color]", NewLine])
  }

  /** The header followed by the lines of `fs`, in order. */
  function TraceText(fs: seq<Frame>): string {
    if fs == [] then Header else TraceText(fs[..|fs| - 1]) + FrameLine(fs[|fs| - 1])
  }

  // ---- the window of frames, as the source computes it in 32-bit arithmetic ----

  function WindowStartAsWritten(skip: int): int {
    Wrap32(LoggerFrames + skip)
  }

  function WindowEndAsWritten(count: nat, skip: int, depth: int): int {
    Min(Wrap32(WindowStartAsWritten(skip) + depth), count)
  }

  /** With the 32-bit sum, a depth of `int.MaxValue` (meant as "every frame") wraps to a
      negative end, and a ten-frame stack lists none of the seven frames below the logger. */
  lemma DeepTraceListsNothingAsWritten()
    ensures WindowStartAsWritten(0) == 3
    ensures WindowEndAsWritten(10, 0, Int32Max) < WindowStartAsWritten(0)
    ensures WindowEnd(10, 0, Int32Max) - WindowStart(0) == 7
  {
  }

  // ---- the window of frames, with the sum computed exactly ----

  /** The index of the first frame listed: the logger's own frames and `skip` more are hidden. */
  function WindowStart(skip: int): int {
    LoggerFrames + skip
  }

  /** One past the last frame listed: `depth` frames after the start, or the end of the stack. */
  function WindowEnd(count: nat, skip: int, depth: int): int {
    Min(WindowStart(skip) + depth, count)
  }

  /** The loop reads `frames[start]` first, so a negative start throws
      unless the window is empty. */
  predicate WindowFaults(count: nat, skip: int, depth: int) {
    WindowStart(skip) < WindowEnd(count, skip, depth) && WindowStart(skip) < 0
  }

  /** The frames a trace lists: at most `depth` of them, none exactly when the depth is
      not positive or the stack has no frame past the hidden ones, each the frame at its
      offset from the start. */
  function ListedFrames(frames: seq<Frame>, skip: int, depth: int): (r: seq<Frame>)
    requires !WindowFaults(|frames|, skip, depth)
    ensures |r| <= Max(0, depth)
    ensures |r| == 0 <==> depth <= 0 || WindowStart(skip) >= |frames|
    ensures |r| == Max(0, Min(depth, |frames| - WindowStart(skip)))
    ensures forall k :: 0 <= k < |r| ==> r[k] == frames[WindowStart(skip) + k]
  {
    var lo, hi := WindowStart(skip), WindowEnd(|frames|, skip, depth);
    if lo < hi then frames[lo..hi] else []
  }

  /** The text `GetStackTrace` returns, or the exception it throws. */
  function StackTraceText(frames: seq<Frame>, skip: int, depth: int): Result<string> {
    if WindowFaults(|frames|, skip, depth) then Failure(IndexOutOfRange)
    else Success(TraceText(ListedFrames(frames, skip, depth)))
  }

  /** A depth of zero or less, or a stack with nothing below the hidden frames,
      gives the header alone. */
  lemma HeaderOnly(frames: seq<Frame>, skip: int, depth: int)
    requires depth <= 0 || WindowStart(skip) >= |frames|
    ensures StackTraceText(frames, skip, depth) == Success(Header)
  {
    assert !WindowFaults(|frames|, skip, depth);
    assert ListedFrames(frames, skip, depth) == [];
  }

  /** Extending a run of frames by the next one appends that frame's line. */
  lemma TraceTextExtend(frames: seq<Frame>, lo: int, hi: int)
    requires 0 <= lo <= hi < |frames|
    ensures TraceText(frames[lo..hi + 1]) == TraceText(frames[lo..hi]) + FrameLine(frames[hi])
  {
    var fs := frames[lo..hi + 1];
    assert fs[..|fs| - 1] == frames[lo..hi];
    assert fs[|fs| - 1] == frames[hi];
  }

  /** A run of one frame is the header and that frame's line. */
  lemma TraceTextSingle(frames: seq<Frame>, i: int)
    requires 0 <= i < |frames|
    ensures TraceText(frames[i..i + 1]) == Header + FrameLine(frames[i])
  {
    var fs := frames[i..i + 1];
    assert fs[..0] == [];
    assert fs[0] == frames[i];
  }

  /** The text after the frames from `lo` up to `hi`: the header alone when there are none. */
  function PartialTrace(frames: seq<Frame>, lo: int, hi: int): string
    requires lo < hi ==> 0 <= lo && hi <= |frames|
  {
    if lo < hi then TraceText(frames[lo..hi]) else Header
  }

  lemma PartialTraceStep(frames: seq<Frame>, lo: int, i: int)
    requires 0 <= lo <= i < |frames|
    ensures PartialTrace(frames, lo, i + 1) == PartialTrace(frames, lo, i) + FrameLine(frames[i])
  {
    if lo < i {
      TraceTextExtend(frames, lo, i);
    } else {
      TraceTextSingle(frames, i);
    }
  }

  /** Once the window is walked without fault, the text built is the trace. */
  lemma PartialTraceComplete(frames: seq<Frame>, skip: int, depth: int)
    requires !WindowFaults(|frames|, skip, depth)
    ensures var lo, hi := WindowStart(skip), WindowEnd(|frames|, skip, depth);
      lo < hi ==> 0 <= lo && hi <= |frames|
    ensures StackTraceText(frames, skip, depth)
      == Success(PartialTrace(frames, WindowStart(skip), WindowEnd(|frames|, skip, depth)))
  {
    var lo, hi := WindowStart(skip), WindowEnd(|frames|, skip, depth);
    if lo < hi {
      assert frames[lo..hi] == ListedFrames(frames, skip, depth);
    } else {
      assert ListedFrames(frames, skip, depth) == [];
    }
  }

  /** The source's `for` loop: appends the line of each frame from `start` up to `end`
      to the header. Reading a frame at a negative index throws. */
  method AppendFrameLines(frames: seq<Frame>, start: int, end: int) returns (r: Result<string>)
    requires end <= |frames|
    ensures r == if start < end && start < 0 then Failure(IndexOutOfRange) else Success(PartialTrace(frames, start, end))
  {
    var text := Header;
    var i := start;
    while i < end
      invariant start <= i
      invariant start < i ==> 0 <= start && i <= end
      invariant text == PartialTrace(frames, start, i)
    {
      if i < 0 {
        return Failure(IndexOutOfRange);
      }
      PartialTraceStep(frames, start, i);
      text := text + FrameLine(frames[i]);
      i := i + 1;
    }
    if i != end {
      assert start == i && end <= start;
    }
    return Success(text);
  }

  /** `GetStackTrace`: the header, then the frames of the window below the logger's own. */
  method GetStackTrace(frames: seq<Frame>, skip: int, depth: int) returns (r: Result<string>)
    ensures r == StackTraceText(frames, skip, depth)
  {
    var start := WindowStart(skip);
    var end := WindowEnd(|frames|, skip, depth);
    r := AppendFrameLines(frames, start, end);
    if !WindowFaults(|frames|, skip, depth) {
      PartialTraceComplete(frames, skip, depth);
    }
  }
}
