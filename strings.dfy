/**
 * Python string operations the service relies on, over `seq<char>`:
 * substring search (`p in s`), `str.endswith`, and decimal rendering of
 * non-negative integers (`str(n)`, `f"{n}"`) with its inverse.
 */
module Strings {
  import opened Wrappers

  /** `p` occurs in `s` starting at position `i`. */
  ghost predicate OccursAt(s: string, p: string, i: int) {
    0 <= i && i + |p| <= |s| && s[i..i + |p|] == p
  }

  predicate IsPrefix(p: string, s: string) {
    |p| <= |s| && s[..|p|] == p
  }

  /** Python's substring test `p in s`. */
  function Contains(s: string, p: string): bool
    decreases |s|
  {
    if IsPrefix(p, s) then true
    else if |s| == 0 then false
    else Contains(s[1..], p)
  }

  /** `Contains` is exactly "occurs at some position". */
  lemma {:induction false} ContainsIff(s: string, p: string)
    ensures Contains(s, p) <==> exists i :: OccursAt(s, p, i)
    decreases |s|
  {
    if IsPrefix(p, s) {
      assert OccursAt(s, p, 0);
    } else if |s| == 0 {
    } else {
      ContainsIff(s[1..], p);
      if exists i :: OccursAt(s, p, i) {
        var i :| OccursAt(s, p, i);
        assert i != 0;
        assert s[1..][i - 1..i - 1 + |p|] == s[i..i + |p|];
        assert OccursAt(s[1..], p, i - 1);
      }
      if exists j :: OccursAt(s[1..], p, j) {
        var j :| OccursAt(s[1..], p, j);
        assert s[1..][j..j + |p|] == s[j + 1..j + 1 + |p|];
        assert OccursAt(s, p, j + 1);
      }
    }
  }

  /** Prepending text never removes an occurrence. */
  lemma {:induction false} ContainsPrepend(q: string, s: string, p: string)
    requires Contains(s, p)
    ensures Contains(q + s, p)
    decreases |q|
  {
    if q == [] {
      assert q + s == s;
    } else if !IsPrefix(p, q + s) {
      assert (q + s)[1..] == q[1..] + s;
      ContainsPrepend(q[1..], s, p);
    }
  }

  /** Python's `s.endswith(suffix)`. */
  predicate EndsWith(s: string, suffix: string) {
    |suffix| <= |s| && s[|s| - |suffix|..] == suffix
  }

  predicate IsDigit(c: char) {
    '0' <= c <= '9'
  }

  predicate AllDigits(s: string) {
    forall i :: 0 <= i < |s| ==> IsDigit(s[i])
  }

  function DigitChar(d: nat): (c: char)
    requires d < 10
    ensures IsDigit(c) && c as int - '0' as int == d
  {
    ['0', '1', '2', '3', '4', '5', '6', '7', '8', '9'][d]
  }

  /** `str(n)` for a non-negative integer: no leading zeros, at least one digit. */
  function NatToString(n: nat): (r: string)
    ensures |r| > 0 && AllDigits(r)
    ensures r[0] == '0' ==> n == 0
  {
    if n < 10 then [DigitChar(n)]
    else NatToString(n / 10) + [DigitChar(n % 10)]
  }

  /** The value of a string of decimal digits (Python's `int(s)` on such a string). */
  function DigitsValue(s: string): nat
    requires AllDigits(s)
  {
    if s == [] then 0
    else DigitsValue(s[..|s| - 1]) * 10 + (s[|s| - 1] as int - '0' as int)
  }

  /** Parsing a rendered number gives the number back. */
  lemma {:induction false} NatToStringRoundTrip(n: nat)
    ensures DigitsValue(NatToString(n)) == n
  {
    if n >= 10 {
      var a := NatToString(n / 10);
      var r := a + [DigitChar(n % 10)];
      assert r[..|r| - 1] == a;
      NatToStringRoundTrip(n / 10);
    }
  }

  /** A decimal digit string never holds a dot. */
  lemma DigitsHaveNoDot(s: string)
    requires AllDigits(s)
    ensures '.' !in s
  {
  }
}
