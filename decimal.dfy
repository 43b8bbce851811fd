/**
 * Decimal rendering of integers, as the client formats zones and sources
 * into frames, and the reading of digit runs, as the client converts the
 * two-digit groups of a status reply.  Only ASCII digits are considered.
 */
module Decimal {
  import opened Wrappers

  predicate IsDigit(c: char) { '0' <= c <= '9' }

  predicate AllDigits(s: string) {
    forall i :: 0 <= i < |s| ==> IsDigit(s[i])
  }

  function DigitValue(c: char): (d: nat)
    requires IsDigit(c)
    ensures d < 10
  {
    c as int - '0' as int
  }

  function DigitChar(d: nat): (c: char)
    requires d < 10
    ensures IsDigit(c) && DigitValue(c) == d
  {
    ('0' as int + d) as char
  }

  /** The decimal digits of `n`, most significant first, without leading zeros. */
  function NatToDecimal(n: nat): (r: string)
    ensures |r| >= 1 && AllDigits(r)
    ensures r[0] == '0' <==> n == 0
    ensures |r| == 1 <==> n < 10
    decreases n
  {
    if n < 10 then [DigitChar(n)] else NatToDecimal(n / 10) + [DigitChar(n % 10)]
  }

  /** A Python integer in decimal: a minus sign for negative values, then the digits of its magnitude. */
  function IntToDecimal(z: int): (r: string)
    ensures |r| >= 1 && IsDigit(r[|r| - 1])
    ensures r[0] == '-' <==> z < 0
    ensures r[0] == '-' || IsDigit(r[0])
    ensures z >= 0 ==> AllDigits(r)
    ensures z < 0 ==> AllDigits(r[1..])
  {
    if z < 0 then "-" + NatToDecimal(-z) else NatToDecimal(z)
  }

  /** The value of a run of digits; leading zeros are allowed, so `02` is 2. */
  function DecimalValue(s: string): nat
    requires AllDigits(s)
  {
    if s == [] then 0 else 10 * DecimalValue(s[..|s| - 1]) + DigitValue(s[|s| - 1])
  }

  /** Reads an optionally signed decimal integer; anything else is `None`. */
  function ParseInt(s: string): Option<int>
  {
    if |s| >= 2 && s[0] == '-' && AllDigits(s[1..]) then Some(0 - DecimalValue(s[1..]) as int)
    else if |s| >= 1 && AllDigits(s) then Some(DecimalValue(s))
    else None
  }

  lemma TwoDigitValue(a: char, b: char)
    requires IsDigit(a) && IsDigit(b)
    ensures DecimalValue([a, b]) == 10 * DigitValue(a) + DigitValue(b)
    ensures DecimalValue([a, b]) < 100
  {
    assert [a][..0] == [];
    assert DecimalValue([a]) == DigitValue(a);
    assert [a, b][..1] == [a];
  }

  /** Reading back the rendering of a natural number gives the number. */
  lemma {:induction false} NatToDecimalRoundTrip(n: nat)
    ensures DecimalValue(NatToDecimal(n)) == n
    decreases n
  {
    if n < 10 {
      assert [DigitChar(n)][..0] == [];
    } else {
      var prefix := NatToDecimal(n / 10);
      NatToDecimalRoundTrip(n / 10);
      var r := prefix + [DigitChar(n % 10)];
      assert r[..|r| - 1] == prefix;
    }
  }

  /** Reading back the rendering of any integer, negative ones included, gives the integer. */
  lemma IntToDecimalRoundTrip(z: int)
    ensures ParseInt(IntToDecimal(z)) == Some(z)
  {
    var r := IntToDecimal(z);
    if z < 0 {
      var digits := NatToDecimal(-z);
      assert r == "-" + digits;
      assert r[1..] == digits;
      NatToDecimalRoundTrip(-z);
      assert DecimalValue(r[1..]) == -z;
    } else {
      assert r == NatToDecimal(z);
      assert !(r[0] == '-');
      NatToDecimalRoundTrip(z);
    }
  }

  /** Distinct integers render differently, so a frame determines its numbers. */
  lemma IntToDecimalInjective(x: int, y: int)
    requires IntToDecimal(x) == IntToDecimal(y)
    ensures x == y
  {
    IntToDecimalRoundTrip(x);
    IntToDecimalRoundTrip(y);
  }
}
