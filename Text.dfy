/** Option, the stock wrapper for a value that may be missing. */
module Wrappers {
  datatype Option<+T> = None | Some(value: T)
}

/**
 * Decimal text of integers as `std::to_string` writes it for an `int`
 * (an optional minus sign, then the digits without leading zeros), its
 * inverse, and prefix matching used to decode labels.
 */
module Decimal {
  import opened Wrappers

  predicate IsDigit(ch: char) {
    '0' <= ch <= '9'
  }

  function DigitValue(ch: char): (d: nat)
    requires IsDigit(ch)
    ensures d < 10
  {
    ch as int - '0' as int
  }

  function DigitChar(d: nat): (ch: char)
    requires d < 10
    ensures IsDigit(ch) && DigitValue(ch) == d
  {
    ('0' as int + d) as char
  }

  /** The digits of `n`, most significant first, with no leading zero. */
  function NatToString(n: nat): (s: string)
    ensures 0 < |s| && IsDigit(s[0])
    ensures |s| > 1 ==> s[0] != '0'
    decreases n
  {
    if n < 10 then [DigitChar(n)] else NatToString(n / 10) + [DigitChar(n % 10)]
  }

  /** The value of a non-empty string of decimal digits; None for any other text. */
  function ParseNat(s: string): (r: Option<nat>)
    ensures r.Some? ==> 0 < |s|
  {
    if |s| == 0 || !IsDigit(s[|s| - 1]) then None
    else if |s| == 1 then Some(DigitValue(s[0]))
    else match ParseNat(s[..|s| - 1])
      case None => None
      case Some(v) => Some(v * 10 + DigitValue(s[|s| - 1]))
  }

  /** `std::to_string(int)`. */
  function IntToString(n: int): (s: string)
    ensures 0 < |s|
    ensures n < 0 <==> s[0] == '-'
  {
    if n < 0 then "-" + NatToString(-n) else NatToString(n)
  }

  /** Reads back what IntToString writes; None for text that is not a decimal integer. */
  function ParseInt(s: string): Option<int> {
    if 0 < |s| && s[0] == '-' then
      match ParseNat(s[1..])
      case None => None
      case Some(v) => Some(-(v as int))
    else
      match ParseNat(s)
      case None => None
      case Some(v) => Some(v as int)
  }

  lemma {:induction false} NatRoundTrip(n: nat)
    ensures ParseNat(NatToString(n)) == Some(n)
    decreases n
  {
    if n >= 10 {
      var s := NatToString(n);
      assert s[..|s| - 1] == NatToString(n / 10);
      NatRoundTrip(n / 10);
    }
  }

  /** The decimal text of an int identifies it. */
  lemma IntRoundTrip(n: int)
    ensures ParseInt(IntToString(n)) == Some(n)
  {
    if n < 0 {
      var s := IntToString(n);
      assert s[1..] == NatToString(-n);
      NatRoundTrip(-n);
    } else {
      NatRoundTrip(n);
    }
  }

  lemma IntToStringInjective(m: int, n: int)
    ensures IntToString(m) == IntToString(n) <==> m == n
  {
    IntRoundTrip(m);
    IntRoundTrip(n);
  }

  predicate StartsWith(s: string, p: string) {
    |p| <= |s| && s[..|p|] == p
  }

  predicate EndsWith(s: string, t: string) {
    |t| <= |s| && s[|s| - |t|..] == t
  }

  lemma StartsWithConcat(p: string, q: string, s: string)
    ensures StartsWith(p + (q + s), p + q)
  {
    assert (p + (q + s))[..|p + q|] == p + q;
  }

  lemma EndsWithConcat(p: string, s: string, t: string)
    requires EndsWith(s, t)
    ensures EndsWith(p + s, t)
  {
    assert (p + s)[|p + s| - |t|..] == s[|s| - |t|..];
  }

  /** Two texts that differ at a position both have: neither starts the other. */
  predicate Diverge(a: string, b: string)
    decreases |a|
  {
    0 < |a| && 0 < |b| && (a[0] != b[0] || Diverge(a[1..], b[1..]))
  }

  lemma {:induction false} DivergeNotPrefix(a: string, b: string, rest: string)
    requires Diverge(a, b)
    ensures !StartsWith(a + rest, b)
    decreases |a|
  {
    if a[0] == b[0] {
      DivergeNotPrefix(a[1..], b[1..], rest);
      assert (a + rest)[1..] == a[1..] + rest;
      if |b| <= |a + rest| {
        assert (a + rest)[..|b|][1..] == (a + rest)[1..][..|b| - 1];
      }
    } else {
      assert 0 < |b| && (a + rest)[0] != b[0];
    }
  }
}
