/**
 * The slice of JavaScript string behaviour the animation polyfill relies on:
 * rendering integers in decimal (template literals), reading a decimal
 * string back (`Number(...)`, `isNaN(...)`), and `split` / `join`.
 */
module Strings {

  datatype Option<+T> = None | Some(value: T)

  predicate IsDigit(c: char) {
    '0' <= c <= '9'
  }

  predicate AllDigits(s: string) {
    forall k :: 0 <= k < |s| ==> IsDigit(s[k])
  }

  /** No character of `s` is `c`. */
  predicate Free(s: string, c: char) {
    forall k :: 0 <= k < |s| ==> s[k] != c
  }

  function DigitChar(d: nat): (c: char)
    requires d < 10
    ensures IsDigit(c)
  {
    "0123456789"[d]
  }

  function DigitValue(c: char): nat
    requires IsDigit(c)
  {
    (c as int) - ('0' as int)
  }

  /** Decimal rendering of a natural number, as `${n}` produces it. */
  function NatToString(n: nat): (s: string)
    ensures |s| >= 1 && AllDigits(s)
  {
    if n < 10 then [DigitChar(n)] else NatToString(n / 10) + [DigitChar(n % 10)]
  }

  /** Decimal rendering of an integer, with a leading minus sign when negative. */
  function IntToString(i: int): string {
    if i < 0 then "-" + NatToString(-i) else NatToString(i)
  }

  /** Value of a string of decimal digits, most significant first. */
  function Digits(s: string): nat
    requires AllDigits(s)
  {
    if |s| == 0 then 0 else Digits(s[..|s| - 1]) * 10 + DigitValue(s[|s| - 1])
  }

  /**
   * `Number(s)` restricted to integer literals: the empty string is 0, an
   * optional sign followed by decimal digits is that integer, and anything
   * else is NaN (`None`).
   */
  function ToNumber(s: string): Option<int> {
    if s == "" then Some(0)
    else if (s[0] == '-' || s[0] == '+') && |s| > 1 && AllDigits(s[1..]) then
      Some(if s[0] == '-' then -(Digits(s[1..]) as int) else Digits(s[1..]))
    else if AllDigits(s) then Some(Digits(s))
    else None
  }

  lemma {:induction false} DigitsOfNatToString(n: nat)
    ensures Digits(NatToString(n)) == n
  {
    if n >= 10 {
      var s := NatToString(n);
      assert s[..|s| - 1] == NatToString(n / 10);
      DigitsOfNatToString(n / 10);
      assert DigitValue(DigitChar(n % 10)) == n % 10;
    } else {
      assert DigitValue(DigitChar(n)) == n;
    }
  }

  /** Reading back a rendered natural number gives the number. */
  lemma NatToStringRoundTrip(n: nat)
    ensures ToNumber(NatToString(n)) == Some(n)
  {
    DigitsOfNatToString(n);
  }

  /** Reading back a rendered integer gives the integer, negative ones included. */
  lemma IntToStringRoundTrip(i: int)
    ensures ToNumber(IntToString(i)) == Some(i)
  {
    var s := IntToString(i);
    if i < 0 {
      var n: nat := -i;
      assert s == "-" + NatToString(n);
      NegativeRoundTrip(n);
    } else {
      assert s == NatToString(i);
      NatToStringRoundTrip(i);
    }
  }

  /** A minus sign followed by the rendering of n reads as -n. */
  lemma NegativeRoundTrip(n: nat)
    ensures ToNumber("-" + NatToString(n)) == Some(-(n as int))
  {
    var d := NatToString(n);
    var s := "-" + d;
    assert s[0] == '-' && s[1..] == d;
    DigitsOfNatToString(n);
  }

  /** Different natural numbers render differently. */
  lemma NatToStringInjective(a: nat, b: nat)
    requires NatToString(a) == NatToString(b)
    ensures a == b
  {
    NatToStringRoundTrip(a);
    NatToStringRoundTrip(b);
  }

  lemma DigitsFree(s: string, c: char)
    requires AllDigits(s) && !IsDigit(c)
    ensures Free(s, c)
  {
  }

  // ---------------------------------------------------------------------
  // split and join

  /** `sep` occurs in `s` at position `j`. */
  predicate MatchAt(s: string, sep: string, j: nat) {
    j + |sep| <= |s| && s[j..j + |sep|] == sep
  }

  /** The first position at or after `from` where `sep` occurs, like `indexOf`. */
  function Find(s: string, sep: string, from: nat): (r: Option<nat>)
    requires |sep| > 0
    ensures r.Some? ==> from <= r.value && MatchAt(s, sep, r.value)
    ensures r.Some? ==> forall j :: from <= j < r.value ==> !MatchAt(s, sep, j)
    ensures r.None? ==> forall j :: from <= j ==> !MatchAt(s, sep, j)
    decreases |s| - from
  {
    if from + |sep| > |s| then None
    else if s[from..from + |sep|] == sep then Some(from)
    else Find(s, sep, from + 1)
  }

  /**
   * `s.split(sep)`: the pieces between non-overlapping occurrences of `sep`,
   * scanned left to right; a string without `sep` is one piece.
   */
  function Split(s: string, sep: string): (parts: seq<string>)
    requires |sep| > 0
    ensures |parts| >= 1
    decreases |s|
  {
    match Find(s, sep, 0)
    case None => [s]
    case Some(j) => [s[..j]] + Split(s[j + |sep|..], sep)
  }

  /** `parts.join(sep)`. */
  function Join(parts: seq<string>, sep: string): string {
    if |parts| == 0 then ""
    else if |parts| == 1 then parts[0]
    else parts[0] + sep + Join(parts[1..], sep)
  }

  /** Splitting and joining again on the same separator gives back the string. */
  lemma {:induction false} JoinSplit(s: string, sep: string)
    requires |sep| > 0
    ensures Join(Split(s, sep), sep) == s
    decreases |s|
  {
    match Find(s, sep, 0)
    case None =>
    case Some(j) =>
      var rest := s[j + |sep|..];
      var tail := Split(rest, sep);
      JoinSplit(rest, sep);
      var parts := [s[..j]] + tail;
      assert Split(s, sep) == parts;
      assert |parts| >= 2 && parts[1..] == tail;
      assert Join(parts, sep) == s[..j] + sep + rest;
      assert s[j..j + |sep|] == sep;
      assert s == s[..j] + s[j..j + |sep|] + rest;
  }

  lemma FreeNoMatch(s: string, sep: string)
    requires |sep| > 0 && Free(s, sep[0])
    ensures forall j :: !MatchAt(s, sep, j)
  {
    forall j: nat
      ensures !MatchAt(s, sep, j)
    {
      if j + |sep| <= |s| {
        assert s[j..j + |sep|][0] == s[j];
      }
    }
  }

  /** A string free of the separator's first character is a single piece. */
  lemma SplitFree(s: string, sep: string)
    requires |sep| > 0 && Free(s, sep[0])
    ensures Split(s, sep) == [s]
  {
    FreeNoMatch(s, sep);
    assert Find(s, sep, 0).None?;
  }

  lemma {:induction false} FindFirst(s: string, sep: string, from: nat, k: nat)
    requires |sep| > 0 && from <= k && MatchAt(s, sep, k)
    requires forall j :: from <= j < k ==> !MatchAt(s, sep, j)
    ensures Find(s, sep, from) == Some(k)
    decreases k - from
  {
    if from < k {
      assert !MatchAt(s, sep, from);
      FindFirst(s, sep, from + 1, k);
    }
  }

  /**
   * When `a` is free of the separator's first character, splitting
   * `a + sep + b` cuts exactly at the separator that follows `a`.
   */
  lemma SplitAfterFree(a: string, sep: string, b: string)
    requires |sep| > 0 && Free(a, sep[0])
    ensures Split(a + sep + b, sep) == [a] + Split(b, sep)
  {
    var s := a + sep + b;
    forall j | 0 <= j < |a|
      ensures !MatchAt(s, sep, j)
    {
      assert s[j] == a[j];
      if j + |sep| <= |s| {
        assert s[j..j + |sep|][0] == s[j];
      }
    }
    assert s[|a|..|a| + |sep|] == sep;
    FindFirst(s, sep, 0, |a|);
    assert s[..|a|] == a;
    assert s[|a| + |sep|..] == b;
  }
}
