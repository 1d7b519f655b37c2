/** `LogFileWriter`: one log file per run in `user://logs/`, named after the
    start time and the run mode. Writes go to an in-memory buffer and are
    counted; once ten have been counted since the last scheduled flush, the next
    write made with no flush in flight schedules a background flush. On start-up,
    old log files beyond the retention limit are deleted.

    The log directory is a set of file names, the writer's buffer and the
    file's contents are sequences of lines, and the outcome of each I/O call
    is a parameter. */
module LogFiles {
  import opened Common
  import opened Text
  import opened Sorting

  /** Buffered messages that trigger a flush. */
  const FlushThreshold: int := 10

  /** The initial value of `MaxLogFiles`, the one `CleanupOldLogs` runs with. */
  const DefaultMaxLogFiles: int := 10

  // ---- the flush protocol ----

  /** `_messagesSinceFlush` and `_flushInProgress`. */
  datatype FlushState = FlushState(sinceFlush: int, inFlight: bool)

  const Idle: FlushState := FlushState(0, false)

  /** The flush state after a write, and whether that write scheduled a flush. */
  datatype WriteStep = WriteStep(state: FlushState, scheduled: bool)

  /** One successful write: the counter goes up (with 32-bit wrap-around); once it
      reaches the threshold with no flush in flight, it is reset and a flush is scheduled. */
  function AfterWrite(st: FlushState): (r: WriteStep)
    ensures IsInt32(r.state.sinceFlush)
    ensures r.state.sinceFlush < FlushThreshold || r.state.inFlight
    ensures r.scheduled <==> !st.inFlight && Wrap32(st.sinceFlush + 1) >= FlushThreshold
    ensures r.scheduled ==> r.state == FlushState(0, true)
    ensures !r.scheduled ==> r.state == FlushState(Wrap32(st.sinceFlush + 1), st.inFlight)
  {
    var count := Wrap32(st.sinceFlush + 1);
    if count >= FlushThreshold && !st.inFlight then WriteStep(FlushState(0, true), true)
    else WriteStep(FlushState(count, st.inFlight), false)
  }

  /** The flush state after a run of writes, and how many flushes the run scheduled. */
  datatype Run = Run(state: FlushState, flushes: nat)

  /** `n` successful writes with no flush completing in between. */
  function Writes(st: FlushState, n: nat): Run {
    if n == 0 then Run(st, 0)
    else
      var before := Writes(st, n - 1);
      var step := AfterWrite(before.state);
      Run(step.state, before.flushes + if step.scheduled then 1 else 0)
  }

  /** However many writes arrive, at most one flush is scheduled until it completes,
      and none while one is already in flight. */
  lemma {:induction false} AtMostOneFlushInFlight(st: FlushState, n: nat)
    ensures Writes(st, n).flushes <= if st.inFlight then 0 else 1
    ensures Writes(st, n).flushes == 1 ==> Writes(st, n).state.inFlight
    ensures st.inFlight ==> Writes(st, n).state.inFlight
  {
    if n > 0 {
      AtMostOneFlushInFlight(st, n - 1);
    }
  }

  /** From a fresh writer, fewer than ten writes schedule nothing and only count. */
  lemma {:induction false} WritesBelowThreshold(k: nat)
    requires k < FlushThreshold
    ensures Writes(Idle, k) == Run(FlushState(k, false), 0)
  {
    if k > 0 {
      WritesBelowThreshold(k - 1);
    }
  }

  /** From a fresh writer, the tenth write schedules the one flush and resets the counter. */
  lemma TenWritesScheduleOneFlush()
    ensures Writes(Idle, 9).flushes == 0
    ensures Writes(Idle, FlushThreshold) == Run(FlushState(0, true), 1)
  {
    WritesBelowThreshold(9);
  }

  // ---- file names and retention ----

  /** The pattern `logger_*.log` the cleanup lists. */
  predicate MatchesLogPattern(name: string) {
    |name| >= 11 && name[..7] == "logger_" && name[|name| - 4..] == ".log"
  }

  /** The name of a run's log file: the start time, then "editor" or "game". */
  function LogFileName(timestamp: string, isEditor: bool): (r: string)
    ensures MatchesLogPattern(r)
    ensures |r| > 7 + |timestamp| && r[7..7 + |timestamp|] == timestamp
  {
    var r := "logger_" + timestamp + "_" + (if isEditor then "editor" else "game") + ".log";
    assert r[|r| - 4..] == ".log";
    r
  }

  /** How many of `available` names `Skip(MaxLogFiles - 1)` passes over: the 32-bit
      difference, where a count of zero or less skips nothing. */
  function KeepCount(maxLogFiles: int, available: nat): (k: nat)
    ensures k <= available
    ensures IsInt32(maxLogFiles) && maxLogFiles > Int32Min ==>
      k == if maxLogFiles - 1 <= 0 then 0 else if maxLogFiles - 1 >= available then available else maxLogFiles - 1
  {
    var n := Wrap32(maxLogFiles - 1);
    if n <= 0 then 0 else if n >= available then available else n
  }

  /** The listed names the cleanup keeps: the greatest, in descending order. */
  function Retained(listing: seq<string>, maxLogFiles: int): seq<string> {
    SortDescending(listing)[..KeepCount(maxLogFiles, |listing|)]
  }

  /** The listed names the cleanup deletes, in the order it deletes them. */
  function Doomed(listing: seq<string>, maxLogFiles: int): seq<string> {
    SortDescending(listing)[KeepCount(maxLogFiles, |listing|)..]
  }

  /** The cleanup splits the listing into the names kept and the names deleted; each
      kept name is at least each deleted one; `MaxLogFiles - 1` names are kept when that
      many exist, and none when `MaxLogFiles - 1` is zero or less. */
  lemma RetentionRule(listing: seq<string>, maxLogFiles: int)
    requires IsInt32(maxLogFiles) && maxLogFiles > Int32Min
    ensures multiset(Retained(listing, maxLogFiles)) + multiset(Doomed(listing, maxLogFiles)) == multiset(listing)
    ensures forall a, b :: a in Retained(listing, maxLogFiles) && b in Doomed(listing, maxLogFiles) ==> AtMost(b, a)
    ensures |Retained(listing, maxLogFiles)| == if maxLogFiles - 1 <= 0 then 0
      else if maxLogFiles - 1 >= |listing| then |listing| else maxLogFiles - 1
    ensures maxLogFiles <= 1 ==> Doomed(listing, maxLogFiles) == SortDescending(listing)
  {
    var sorted := SortDescending(listing);
    var k := KeepCount(maxLogFiles, |listing|);
    assert sorted == sorted[..k] + sorted[k..];
    forall a, b | a in sorted[..k] && b in sorted[k..] ensures AtMost(b, a) {
      PrefixDominatesSuffix(sorted, k, a, b);
    }
  }

  function Elements(s: seq<string>): set<string> {
    set x | x in s
  }

  /** The names `foreach ... File.Delete` removes before the first deletion that throws
      (the exception leaves the loop): the longest prefix of deletable names. */
  function DeletedPrefix(doomed: seq<string>, deletable: set<string>): (r: seq<string>)
    ensures r <= doomed
    ensures forall x :: x in r ==> x in deletable
    ensures |r| < |doomed| ==> doomed[|r|] !in deletable
  {
    if doomed == [] || doomed[0] !in deletable then []
    else [doomed[0]] + DeletedPrefix(doomed[1..], deletable)
  }

  /** The loop's stopping point is the end of the deletable prefix. */
  lemma DeletedPrefixAt(doomed: seq<string>, deletable: set<string>, i: nat)
    requires i <= |doomed|
    requires forall k :: 0 <= k < i ==> doomed[k] in deletable
    requires i < |doomed| ==> doomed[i] !in deletable
    ensures DeletedPrefix(doomed, deletable) == doomed[..i]
  {
  }

  /** `listing` is what `Directory.GetFiles(dir, "logger_*.log")` returns for `dir`. */
  ghost predicate ListingOf(dir: set<string>, listing: seq<string>) {
    forall x :: x in listing <==> x in dir && MatchesLogPattern(x)
  }

  /** `Directory.GetFiles` lists each file once. */
  predicate NoDuplicates(s: seq<string>) {
    forall i, j :: 0 <= i < j < |s| ==> s[i] != s[j]
  }

  lemma {:induction false} NoDuplicatesCount(s: seq<string>, x: string)
    requires NoDuplicates(s)
    ensures multiset(s)[x] <= 1
  {
    if s != [] {
      assert s == [s[0]] + s[1..];
      NoDuplicatesCount(s[1..], x);
      if x == s[0] {
        assert x !in s[1..];
      }
    }
  }

  /** Splitting a rearrangement of a list without duplicates: no name lands on both
      sides, and every listed name lands on one. */
  lemma SplitOfDistinct(listing: seq<string>, sorted: seq<string>, k: nat)
    requires NoDuplicates(listing) && multiset(sorted) == multiset(listing) && k <= |sorted|
    ensures forall x :: x in sorted[..k] ==> x !in sorted[k..]
    ensures forall x :: x in listing ==> x in sorted[..k] || x in sorted[k..]
    ensures forall x :: x in sorted[..k] ==> x in listing
  {
    assert sorted == sorted[..k] + sorted[k..];
    assert multiset(sorted) == multiset(sorted[..k]) + multiset(sorted[k..]);
    forall x | x in sorted[..k]
      ensures x !in sorted[k..] && x in listing
    {
      NoDuplicatesCount(listing, x);
      assert x in multiset(sorted[..k]);
    }
    forall x | x in listing
      ensures x in sorted[..k] || x in sorted[k..]
    {
      assert x in multiset(listing);
    }
  }

  /** Deleting `doomed` from a directory whose log files are `kept` and `doomed`, with
      no name in both, leaves the names of `kept` as its log files. */
  lemma LogFilesLeft(dir: set<string>, listing: seq<string>, kept: seq<string>, doomed: seq<string>)
    requires ListingOf(dir, listing)
    requires forall x :: x in kept ==> x !in doomed && x in listing
    requires forall x :: x in listing ==> x in kept || x in doomed
    ensures (set x | x in dir - Elements(doomed) && MatchesLogPattern(x)) == Elements(kept)
  {
    var left := set x | x in dir - Elements(doomed) && MatchesLogPattern(x);
    forall x | x in left
      ensures x in kept
    {
      assert x in listing;
    }
    forall x | x in kept
      ensures x in left
    {
      assert x in listing && x !in doomed;
    }
  }

  /** When every deletion succeeds, the log files left in the directory are exactly
      the retained names: the greatest `MaxLogFiles - 1` of those listed. */
  lemma CleanupLeavesRetained(dir: set<string>, listing: seq<string>, maxLogFiles: int, deletable: set<string>)
    requires ListingOf(dir, listing) && NoDuplicates(listing)
    requires Elements(Doomed(listing, maxLogFiles)) <= deletable
    ensures (set x | x in dir - Elements(DeletedPrefix(Doomed(listing, maxLogFiles), deletable)) && MatchesLogPattern(x))
      == Elements(Retained(listing, maxLogFiles))
  {
    var doomed := Doomed(listing, maxLogFiles);
    DeletedPrefixAt(doomed, deletable, |doomed|);
    assert doomed[..|doomed|] == doomed;
    SplitOfDistinct(listing, SortDescending(listing), KeepCount(maxLogFiles, |listing|));
    LogFilesLeft(dir, listing, Retained(listing, maxLogFiles), doomed);
  }

  class LogFileWriter {
    /** The file this run writes, inside the log directory. */
    const logFileName: string
    /** The names in the log directory. */
    var directory: set<string>
    /** `_writer != null`. */
    var open: bool
    /** Text written but still in the writer's buffer, one entry per line. */
    var pending: seq<string>
    /** Text this writer has flushed to its file, one entry per line. */
    var persisted: seq<string>
    var messagesSinceFlush: int
    var flushInProgress: bool
    var maxLogFiles: int

    ghost predicate Valid()
      reads this
    {
      IsInt32(messagesSinceFlush) && IsInt32(maxLogFiles) && (!open ==> pending == [])
    }

    function Flush(): FlushState
      reads this
    {
      FlushState(messagesSinceFlush, flushInProgress)
    }

    /** Every line written, flushed or not. */
    function Written(): seq<string>
      reads this
    {
      persisted + pending
    }

    /** Deletes old logs, keeping at most `MaxLogFiles - 1`, then opens this run's file. */
    constructor (existing: set<string>, listing: seq<string>, deletable: set<string>, timestamp: string, isEditor: bool)
      requires ListingOf(existing, listing)
      ensures Valid()
      ensures maxLogFiles == DefaultMaxLogFiles
      ensures logFileName == LogFileName(timestamp, isEditor)
      ensures directory == existing - Elements(DeletedPrefix(Doomed(listing, DefaultMaxLogFiles), deletable)) + {logFileName}
      ensures open && Written() == [] && Flush() == Idle
    {
      logFileName := LogFileName(timestamp, isEditor);
      directory := existing;
      open := false;
      pending, persisted := [], [];
      messagesSinceFlush, flushInProgress := 0, false;
      maxLogFiles := DefaultMaxLogFiles;
      new;
      CleanupOldLogs(listing, deletable);
      directory := directory + {logFileName};
      open := true;
    }

    /** `CleanupOldLogs`: deletes the listed names beyond the newest `MaxLogFiles - 1`,
        greatest first, stopping at the first deletion that fails. */
    method CleanupOldLogs(listing: seq<string>, deletable: set<string>)
      requires ListingOf(directory, listing)
      modifies this`directory
      ensures directory == old(directory) - Elements(DeletedPrefix(Doomed(listing, maxLogFiles), deletable))
    {
      var doomed := SortDescending(listing)[KeepCount(maxLogFiles, |listing|)..];
      var i := 0;
      while i < |doomed|
        invariant 0 <= i <= |doomed|
        invariant forall k :: 0 <= k < i ==> doomed[k] in deletable
        invariant directory == old(directory) - Elements(doomed[..i])
      {
        if doomed[i] !in deletable {
          break;
        }
        assert Elements(doomed[..i + 1]) == Elements(doomed[..i]) + {doomed[i]} by {
          assert doomed[..i + 1] == doomed[..i] + [doomed[i]];
        }
        directory := directory - {doomed[i]};
        i := i + 1;
      }
      DeletedPrefixAt(doomed, deletable, i);
    }

    /** `Write`: a no-op once disposed; otherwise the line is buffered and the counter and
        flag move as `AfterWrite` says. A `WriteLine` that throws changes nothing. */
    method Write(message: string, writeSucceeds: bool) returns (scheduled: bool)
      requires Valid()
      modifies this`pending, this`messagesSinceFlush, this`flushInProgress
      ensures Valid()
      ensures persisted == old(persisted)
      ensures old(open) && writeSucceeds ==>
        pending == old(pending) + [message + NewLine] && WriteStep(Flush(), scheduled) == AfterWrite(old(Flush()))
      ensures !(old(open) && writeSucceeds) ==>
        pending == old(pending) && Flush() == old(Flush()) && !scheduled
    {
      scheduled := false;
      if !open {
        return;
      }
      if !writeSucceeds {
        return;
      }
      pending := pending + [message + NewLine];
      messagesSinceFlush := Wrap32(messagesSinceFlush + 1);
      if messagesSinceFlush >= FlushThreshold && !flushInProgress {
        messagesSinceFlush := 0;
        flushInProgress := true;
        scheduled := true;
      }
    }

    /** The scheduled flush finishing: the flag is cleared whether `Flush` succeeded or
        threw. It flushes the writer it captured, which throws once that writer is disposed. */
    method CompleteFlush(flushSucceeds: bool)
      requires Valid() && flushInProgress
      modifies this`pending, this`persisted, this`flushInProgress
      ensures Valid() && !flushInProgress
      ensures Written() == old(Written())
      ensures pending == if flushSucceeds && open then [] else old(pending)
    {
      if flushSucceeds && open {
        persisted, pending := persisted + pending, [];
      }
      flushInProgress := false;
    }

    /** `Dispose`: flushes and closes the writer and forgets it. If flushing or closing
        throws, the writer is kept. */
    method Dispose(closeSucceeds: bool)
      requires Valid()
      modifies this`open, this`pending, this`persisted
      ensures Valid()
      ensures Written() == old(Written())
      ensures open == (old(open) && !closeSucceeds)
      ensures pending == if old(open) && closeSucceeds then [] else old(pending)
    {
      if open && closeSucceeds {
        persisted, pending := persisted + pending, [];
        open := false;
      }
    }
  }

  /** The lines `WriteLine` buffers for a run of messages, in order. */
  function Buffered(messages: seq<string>): seq<string> {
    if messages == [] then [] else Buffered(messages[..|messages| - 1]) + [messages[|messages| - 1] + NewLine]
  }

  /** One buffered line per message, each the message and a line break, in order. */
  lemma {:induction false} BufferedLines(messages: seq<string>)
    ensures |Buffered(messages)| == |messages|
    ensures forall k :: 0 <= k < |messages| ==> Buffered(messages)[k] == messages[k] + NewLine
  {
    if messages != [] {
      BufferedLines(messages[..|messages| - 1]);
    }
  }

  /** Ten successful writes to a writer with nothing counted and no flush in flight
      schedule exactly one flush, and every message is buffered in order. */
  method TenWritesFlushOnce(w: LogFileWriter, messages: seq<string>) returns (flushes: nat)
    requires w.Valid() && w.open && w.Flush() == Idle && |messages| == FlushThreshold
    modifies w`pending, w`messagesSinceFlush, w`flushInProgress
    ensures flushes == 1
    ensures w.pending == old(w.pending) + Buffered(messages)
    ensures w.open && w.Flush() == FlushState(0, true) && w.persisted == old(w.persisted)
  {
    flushes := 0;
    var i := 0;
    while i < |messages|
      invariant 0 <= i <= |messages|
      invariant w.Valid() && w.open
      invariant Writes(Idle, i) == Run(w.Flush(), flushes)
      invariant w.pending == old(w.pending) + Buffered(messages[..i])
    {
      assert messages[..i + 1][..i] == messages[..i];
      var scheduled := w.Write(messages[i], true);
      if scheduled {
        flushes := flushes + 1;
      }
      i := i + 1;
    }
    TenWritesScheduleOneFlush();
    assert messages[..|messages|] == messages;
  }

  /** After a successful `Dispose`, writes change nothing and a second `Dispose` is harmless. */
  method WriteAfterDispose(w: LogFileWriter, message: string) returns (scheduled: bool)
    requires w.Valid()
    modifies w
    ensures !scheduled && !w.open
    ensures w.pending == [] && w.persisted == old(w.Written())
  {
    w.Dispose(true);
    scheduled := w.Write(message, true);
    w.Dispose(true);
  }
}
