/**
 * Python's `str()` of an integer and `int()` of a float, the two conversions
 * the challenge text and the proof-of-work input are built from. ParseNat and
 * ParseInt read a decimal numeral back; they are the inverses that show the
 * conversion loses nothing.
 */
module Decimal {

  predicate IsDigit(c: char) {
    '0' <= c <= '9'
  }

  function DigitChar(d: nat): (c: char)
    requires d < 10
    ensures IsDigit(c)
  {
    ('0' as int + d) as char
  }

  function DigitValue(c: char): (d: nat)
    ensures IsDigit(c) ==> d < 10 && DigitChar(d) == c
  {
    if IsDigit(c) then c as int - '0' as int else 0
  }

  /** `str(n)` for n >= 0: the shortest decimal numeral of n. */
  function NatToString(n: nat): (s: string)
    ensures |s| >= 1
    ensures forall i :: 0 <= i < |s| ==> IsDigit(s[i])
    ensures s[0] == '0' ==> n == 0
  {
    if n < 10 then [DigitChar(n)] else NatToString(n / 10) + [DigitChar(n % 10)]
  }

  /** `str(i)`: a minus sign before the numeral of |i| when i < 0. */
  function IntToString(i: int): (s: string)
    ensures |s| >= 1
    ensures s[0] == '-' <==> i < 0
    ensures i >= 0 ==> s == NatToString(i)
  {
    if i < 0 then "-" + NatToString(-i) else NatToString(i)
  }

  /** The value of a decimal numeral, read from its last digit backwards. */
  function ParseNat(s: string): nat {
    if s == [] then 0 else ParseNat(s[..|s| - 1]) * 10 + DigitValue(s[|s| - 1])
  }

  function ParseInt(s: string): int {
    if |s| > 0 && s[0] == '-' then -(ParseNat(s[1..]) as int) else ParseNat(s)
  }

  lemma {:induction false} ParseNatToString(n: nat)
    ensures ParseNat(NatToString(n)) == n
  {
    var s := NatToString(n);
    if n >= 10 {
      assert s[..|s| - 1] == NatToString(n / 10);
      ParseNatToString(n / 10);
    }
  }

  lemma ParseIntToString(i: int)
    ensures ParseInt(IntToString(i)) == i
  {
    if i < 0 {
      assert IntToString(i)[1..] == NatToString(-i);
      ParseNatToString(-i);
    } else {
      ParseNatToString(i);
    }
  }

  /** Distinct integers never print alike. */
  lemma IntToStringInjective(a: int, b: int)
    ensures IntToString(a) == IntToString(b) <==> a == b
  {
    if IntToString(a) == IntToString(b) {
      ParseIntToString(a);
      ParseIntToString(b);
    }
  }

  /** `int(x)` for a float: truncation toward zero. */
  function Truncate(x: real): (r: int)
    ensures x >= 0.0 ==> 0 <= r && r as real <= x < r as real + 1.0
    ensures x < 0.0 ==> r <= 0 && r as real - 1.0 < x <= r as real
  {
    if x >= 0.0 then x.Floor else -((-x).Floor)
  }
}
