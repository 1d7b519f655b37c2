/** `OrderByDescending(f => f)` over file names: an insertion sort into
    descending ordinal order, and the facts about a sorted list that the log
    retention rule relies on. */
module Sorting {
  import opened Text

  predicate SortedDescending(s: seq<string>) {
    forall i, j :: 0 <= i < j < |s| ==> AtMost(s[j], s[i])
  }

  lemma AtMostTransitive(a: string, b: string, c: string)
    requires AtMost(a, b) && AtMost(b, c)
    ensures AtMost(a, c)
  {
    if a != b && b != c {
      BelowTransitive(a, b, c);
    }
  }

  /** A name at least the head of a descending list can go in front of it. */
  lemma PrependSorted(x: string, s: seq<string>)
    requires SortedDescending(s) && s != [] && AtMost(s[0], x)
    ensures SortedDescending([x] + s)
  {
    forall j | 0 <= j < |s|
      ensures AtMost(s[j], x)
    {
      if j > 0 {
        AtMostTransitive(s[j], s[0], x);
      }
    }
  }

  /** The head of a descending list stays in front of any rearrangement of its tail
      with a smaller name added. */
  lemma ConsSorted(h: string, tail: seq<string>, x: string, rest: seq<string>)
    requires SortedDescending([h] + tail) && SortedDescending(rest)
    requires AtMost(x, h)
    requires multiset(rest) == multiset(tail) + multiset{x}
    ensures SortedDescending([h] + rest)
  {
    var s := [h] + tail;
    forall k | 0 <= k < |rest|
      ensures AtMost(rest[k], h)
    {
      assert rest[k] in multiset(rest);
      if rest[k] != x {
        assert rest[k] in multiset(tail);
        var j :| 0 <= j < |tail| && tail[j] == rest[k];
        assert s[0] == h && s[j + 1] == rest[k];
      }
    }
    var r := [h] + rest;
    forall i, j | 0 <= i < j < |r|
      ensures AtMost(r[j], r[i])
    {
      if i > 0 {
        assert r[i] == rest[i - 1] && r[j] == rest[j - 1];
      }
    }
  }

  /** `x` placed into a descending list before the first name not greater than it. */
  function Insert(x: string, s: seq<string>): (r: seq<string>)
    requires SortedDescending(s)
    ensures SortedDescending(r)
    ensures multiset(r) == multiset(s) + multiset{x}
    ensures |r| == |s| + 1
  {
    if s == [] then [x]
    else if AtMost(s[0], x) then
      PrependSorted(x, s);
      [x] + s
    else
      BelowTotal(s[0], x);
      assert s == [s[0]] + s[1..];
      var rest := Insert(x, s[1..]);
      ConsSorted(s[0], s[1..], x, rest);
      [s[0]] + rest
  }

  /** The names of `s` in descending order. */
  function SortDescending(s: seq<string>): (r: seq<string>)
    ensures SortedDescending(r)
    ensures multiset(r) == multiset(s)
    ensures |r| == |s|
  {
    if s == [] then []
    else
      assert s == [s[0]] + s[1..];
      Insert(s[0], SortDescending(s[1..]))
  }

  /** In a descending list, every name of a prefix is at least every name after it. */
  lemma PrefixDominatesSuffix(s: seq<string>, n: nat, a: string, b: string)
    requires SortedDescending(s) && n <= |s|
    requires a in s[..n] && b in s[n..]
    ensures AtMost(b, a)
  {
    var i :| 0 <= i < n && s[..n][i] == a;
    var j :| 0 <= j < |s| - n && s[n..][j] == b;
    assert s[i] == a && s[n + j] == b;
  }
}
