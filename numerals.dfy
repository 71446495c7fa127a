/**
 * Decimal rendering of integers, as a JavaScript template literal renders an
 * integral number (`${n}`), together with its inverse.  The inverse exists to
 * prove that the rendering is injective, which every string key built from
 * numbers (hex keys, error paths) relies on.
 */
module Numerals {

  predicate IsDigit(c: char)
  {
    '0' <= c <= '9'
  }

  function Digit(d: nat): (c: char)
    requires d < 10
    ensures IsDigit(c)
  {
    ('0' as int + d) as char
  }

  function DigitValue(c: char): nat
    requires IsDigit(c)
  {
    c as int - '0' as int
  }

  /** `${n}` for a non-negative integer: most significant digit first, no leading zeros. */
  function NatToString(n: nat): (s: string)
    ensures |s| > 0
    ensures forall k :: 0 <= k < |s| ==> IsDigit(s[k])
  {
    if n < 10 then [Digit(n)] else NatToString(n / 10) + [Digit(n % 10)]
  }

  /** The value of a string of decimal digits. */
  function ParseNat(s: string): nat
    requires forall k :: 0 <= k < |s| ==> IsDigit(s[k])
  {
    if s == [] then 0 else ParseNat(s[..|s| - 1]) * 10 + DigitValue(s[|s| - 1])
  }

  lemma {:induction false} ParseNatOfNatToString(n: nat)
    ensures ParseNat(NatToString(n)) == n
  {
    var s := NatToString(n);
    if n >= 10 {
      ParseNatOfNatToString(n / 10);
      assert s[..|s| - 1] == NatToString(n / 10);
    }
  }

  /** `${i}` for any integer: a minus sign before the magnitude when negative. */
  function IntToString(i: int): (s: string)
    ensures |s| > 0
    ensures forall k :: 0 <= k < |s| ==> s[k] == '-' || IsDigit(s[k])
  {
    if i < 0 then "-" + NatToString(-i) else NatToString(i)
  }

  /** Inverse of IntToString on its range. */
  function ParseInt(s: string): int
    requires |s| > 0
    requires forall k :: 0 <= k < |s| ==> (s[k] == '-' && k == 0) || IsDigit(s[k])
  {
    if s[0] == '-' then -(ParseNat(s[1..]) as int) else ParseNat(s)
  }

  lemma {:induction false} ParseIntOfIntToString(i: int)
    ensures var s := IntToString(i);
      (forall k :: 0 <= k < |s| ==> (s[k] == '-' && k == 0) || IsDigit(s[k])) &&
      ParseInt(s) == i
  {
    if i < 0 {
      ParseNatOfNatToString(-i);
      assert IntToString(i)[1..] == NatToString(-i);
    } else {
      ParseNatOfNatToString(i);
    }
  }

  lemma IntToStringInjective(a: int, b: int)
    requires IntToString(a) == IntToString(b)
    ensures a == b
  {
    ParseIntOfIntToString(a);
    ParseIntOfIntToString(b);
  }
}
