/** String operations of the .NET runtime that the logger relies on, stated over
    `seq<char>`: searching for the last occurrence of a character, the decimal
    rendering of an `int` (with its parser, to show the rendering loses nothing),
    ASCII upper-casing and ordinal string order. */
module Text {

  /** `Environment.NewLine`, which `StringBuilder.AppendLine` and `StreamWriter.WriteLine` append. */
  const NewLine: string := "\n"

  /** `string.Concat`: the pieces, one after the other. */
  function Concat(pieces: seq<string>): string {
    if pieces == [] then [] else Concat(pieces[..|pieces| - 1]) + pieces[|pieces| - 1]
  }

  /** The index of the last character of `s` that belongs to `cs`, or -1 when there is none. */
  function LastIndexOfAny(s: string, cs: set<char>): (r: int)
    ensures -1 <= r < |s|
    ensures 0 <= r ==> s[r] in cs
    ensures forall j :: r < j < |s| ==> s[j] !in cs
  {
    if |s| == 0 then -1
    else if s[|s| - 1] in cs then |s| - 1
    else LastIndexOfAny(s[..|s| - 1], cs)
  }

  /** When `c` is followed only by characters outside `cs`, the last match is that `c`. */
  lemma LastIndexOfAnySplit(a: string, c: char, b: string, cs: set<char>)
    requires c in cs
    requires forall j :: 0 <= j < |b| ==> b[j] !in cs
    ensures LastIndexOfAny(a + [c] + b, cs) == |a|
  {
    var s := a + [c] + b;
    var r := LastIndexOfAny(s, cs);
    assert s[|a|] in cs;
  }

  /** The text after the last space of `s` (all of `s` when it has no space). */
  function LastWord(s: string): (r: string)
    ensures forall j :: 0 <= j < |r| ==> r[j] != ' '
    ensures |r| <= |s| && r == s[|s| - |r|..]
  {
    s[LastIndexOfAny(s, {' '}) + 1..]
  }

  /** The last word of a text ending in a space and a word without spaces is that word. */
  lemma LastWordAfterSpace(head: string, word: string)
    requires ' ' !in word
    ensures LastWord(head + " " + word) == word
  {
    assert head + " " + word == head + [' '] + word;
    assert forall j :: 0 <= j < |word| ==> word[j] !in {' '};
    LastIndexOfAnySplit(head, ' ', word, {' '});
  }

  // ---- decimal rendering of integers (`int.ToString()`; a negative number is taken to carry '-') ----

  function DigitChar(d: nat): (c: char)
    requires d < 10
    ensures '0' <= c <= '9'
  {
    ('0' as int + d) as char
  }

  predicate IsDigits(s: string) {
    forall i :: 0 <= i < |s| ==> '0' <= s[i] <= '9'
  }

  function NatToString(n: nat): string {
    if n < 10 then [DigitChar(n)] else NatToString(n / 10) + [DigitChar(n % 10)]
  }

  /** `n.ToString()`: a minus sign before the digits of a negative number. */
  function IntToString(n: int): string {
    if n < 0 then "-" + NatToString(-n) else NatToString(n)
  }

  /** The rendering of a natural number is a non-empty run of digits. */
  lemma {:induction false} NatToStringDigits(n: nat)
    ensures |NatToString(n)| > 0 && IsDigits(NatToString(n))
  {
    if n >= 10 {
      NatToStringDigits(n / 10);
    }
  }

  /** The rendering of an integer is non-empty and has no space in it. */
  lemma IntToStringHasNoSpace(n: int)
    ensures |IntToString(n)| > 0 && ' ' !in IntToString(n)
  {
    NatToStringDigits(if n < 0 then -n else n);
  }

  /** The value of a run of digits. */
  function ParseNat(s: string): int {
    if |s| == 0 then 0 else ParseNat(s[..|s| - 1]) * 10 + (s[|s| - 1] as int - '0' as int)
  }

  function ParseInt(s: string): int {
    if |s| > 0 && s[0] == '-' && IsDigits(s[1..]) then -ParseNat(s[1..])
    else if IsDigits(s) then ParseNat(s)
    else 0
  }

  lemma {:induction false} NatToStringRoundTrip(n: nat)
    ensures ParseNat(NatToString(n)) == n
  {
    if n >= 10 {
      var s := NatToString(n);
      NatToStringRoundTrip(n / 10);
      assert s[..|s| - 1] == NatToString(n / 10);
    }
  }

  /** Reading back the decimal rendering of an integer gives the integer. */
  lemma IntToStringRoundTrip(n: int)
    ensures ParseInt(IntToString(n)) == n
  {
    if n < 0 {
      NatToStringRoundTrip(-n);
      NatToStringDigits(-n);
      assert IntToString(n)[1..] == NatToString(-n);
    } else {
      NatToStringRoundTrip(n);
      NatToStringDigits(n);
    }
  }

  // ---- upper-casing (`string.ToUpper()` on ASCII letters) ----

  function UpperChar(c: char): char {
    if 'a' <= c <= 'z' then (c as int - 32) as char else c
  }

  function ToUpper(s: string): string {
    seq(|s|, i requires 0 <= i < |s| => UpperChar(s[i]))
  }

  // ---- ordinal string order ----

  /** `a` sorts strictly before `b` when strings are compared character by character. */
  predicate Below(a: string, b: string) {
    if |a| == 0 then |b| > 0
    else |b| > 0 && (a[0] < b[0] || (a[0] == b[0] && Below(a[1..], b[1..])))
  }

  /** `a` sorts before `b` or equals it. */
  predicate AtMost(a: string, b: string) {
    a == b || Below(a, b)
  }

  lemma {:induction false} BelowIrreflexive(a: string)
    ensures !Below(a, a)
  {
    if |a| > 0 {
      BelowIrreflexive(a[1..]);
    }
  }

  lemma {:induction false} BelowTransitive(a: string, b: string, c: string)
    requires Below(a, b) && Below(b, c)
    ensures Below(a, c)
  {
    if |a| > 0 && a[0] == b[0] && b[0] == c[0] {
      BelowTransitive(a[1..], b[1..], c[1..]);
    }
  }

  lemma {:induction false} BelowTotal(a: string, b: string)
    ensures a == b || Below(a, b) || Below(b, a)
  {
    if |a| > 0 && |b| > 0 && a[0] == b[0] {
      BelowTotal(a[1..], b[1..]);
      if a[1..] == b[1..] {
        assert a == [a[0]] + a[1..] && b == [b[0]] + b[1..];
      }
    }
  }

  lemma BelowAsymmetric(a: string, b: string)
    requires Below(a, b)
    ensures !Below(b, a)
  {
    if Below(b, a) {
      BelowTransitive(a, b, a);
      BelowIrreflexive(a);
    }
  }
}
