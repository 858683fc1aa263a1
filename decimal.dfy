/**
 * Decimal rendering of integers as the source gets it from `String(n)`,
 * left padding as `padStart` does it, and the reading back of digit
 * strings that shows the rendering loses nothing.
 */
module Decimal {

  predicate IsDigit(c: char)
  {
    '0' <= c <= '9'
  }

  predicate AllDigits(s: string)
  {
    forall i :: 0 <= i < |s| ==> IsDigit(s[i])
  }

  /** The character for a digit value 0..9. */
  function DigitChar(d: nat): (c: char)
    requires d < 10
    ensures IsDigit(c) && (c as int) - ('0' as int) == d
  {
    ['0', '1', '2', '3', '4', '5', '6', '7', '8', '9'][d]
  }

  function DigitValue(c: char): int
  {
    (c as int) - ('0' as int)
  }

  /** `String(n)` for a natural number: decimal digits, no leading zero. */
  function NatString(n: nat): (r: string)
    ensures 1 <= |r| && AllDigits(r)
    ensures |r| == 1 <==> n < 10
    ensures |r| == 2 <==> 10 <= n < 100
    ensures r[0] == '0' ==> n == 0
  {
    if n < 10 then [DigitChar(n)] else NatString(n / 10) + [DigitChar(n % 10)]
  }

  /** The shape of `String(i)`: digits without a leading zero (bar `0` itself), optionally led by a minus sign before a non-zero digit. */
  predicate IsIntString(s: string)
  {
    (|s| >= 1 && AllDigits(s) && (s[0] != '0' || |s| == 1)) ||
    (|s| >= 2 && s[0] == '-' && AllDigits(s[1..]) && s[1] != '0')
  }

  /** `String(i)` for any integer: a minus sign before the digits of a negative number. */
  function IntString(i: int): (r: string)
    ensures 1 <= |r|
    ensures i >= 0 ==> AllDigits(r)
    ensures i < 0 ==> r[0] == '-' && AllDigits(r[1..])
  {
    if i < 0 then "-" + NatString(-i) else NatString(i)
  }

  /** The value of a string of decimal digits, most significant first. */
  function ParseNat(s: string): int
  {
    if s == [] then 0 else ParseNat(s[..|s| - 1]) * 10 + DigitValue(s[|s| - 1])
  }

  /** The value of an optionally signed string of decimal digits. */
  function ParseInt(s: string): int
  {
    if |s| > 0 && s[0] == '-' then -ParseNat(s[1..]) else ParseNat(s)
  }

  lemma {:induction false} NatStringRoundTrip(n: nat)
    ensures ParseNat(NatString(n)) == n
  {
    if n >= 10 {
      var s := NatString(n);
      assert s[..|s| - 1] == NatString(n / 10);
      NatStringRoundTrip(n / 10);
    }
  }

  lemma IntStringRoundTrip(i: int)
    ensures ParseInt(IntString(i)) == i
  {
    var s := IntString(i);
    if i < 0 {
      assert s[0] == '-' && s[1..] == NatString(-i);
      NatStringRoundTrip(-i);
    } else {
      assert IsDigit(s[0]);
      NatStringRoundTrip(i);
    }
  }

  /** Every rendered integer has the shape of one. */
  lemma IntStringShape(i: int)
    ensures IsIntString(IntString(i))
  {
    if i < 0 {
      assert |NatString(-i)| >= 1;
    }
  }

  /** `s.padStart(width, fill)` with a one-character fill. */
  function PadStart(s: string, width: nat, fill: char): (r: string)
    ensures |s| >= width ==> r == s
    ensures |s| < width ==> |r| == width
    ensures |r| >= |s| && r[|r| - |s|..] == s
    ensures forall i :: 0 <= i < |r| - |s| ==> r[i] == fill
  {
    if |s| >= width then s else seq(width - |s|, _ => fill) + s
  }

  /** Exactly two decimal digits. */
  predicate IsTwoDigits(s: string)
  {
    |s| == 2 && IsDigit(s[0]) && IsDigit(s[1])
  }

  /** The value of a two-character digit string. */
  function TwoDigitValue(s: string): int
    requires |s| == 2
  {
    DigitValue(s[0]) * 10 + DigitValue(s[1])
  }

  /** `String(n).padStart(2, '0')`: a calendar field shown with two digits. */
  function TwoDigits(n: nat): (r: string)
    ensures n < 100 ==> IsTwoDigits(r) && TwoDigitValue(r) == n
    ensures n < 10 ==> r[0] == '0'
    ensures n >= 10 ==> r == NatString(n)
  {
    var r := PadStart(NatString(n), 2, '0');
    if n < 10 then
      assert r == ['0', DigitChar(n)];
      r
    else if n < 100 then
      assert NatString(n / 10) == [DigitChar(n / 10)];
      assert NatString(n) == [DigitChar(n / 10), DigitChar(n % 10)];
      r
    else
      r
  }
}
