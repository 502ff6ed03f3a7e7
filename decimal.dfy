/**
 * Decimal text as the Arduino core prints and reads it: unsigned and
 * signed integers in base ten, fixed-point reals with a given number of
 * fractional digits, and the value of a run of digits.
 */
module Decimal {

  predicate IsDigit(c: char) {
    '0' <= c <= '9'
  }

  /** Every character is a decimal digit. */
  predicate AllDigits(s: string) {
    forall i :: 0 <= i < |s| ==> IsDigit(s[i])
  }

  /** The character of the digit `d`. */
  function DigitChar(d: nat): (c: char)
    requires d < 10
    ensures IsDigit(c)
  {
    (d + '0' as int) as char
  }

  /** The value of the digit character `c`. */
  function DigitValue(c: char): (d: nat)
    requires IsDigit(c)
    ensures d < 10
  {
    c as int - '0' as int
  }

  /** The number a run of digits denotes, most significant first (0 for the empty run). */
  function DigitsValue(s: string): nat
    requires AllDigits(s)
  {
    if s == [] then 0 else DigitsValue(s[..|s| - 1]) * 10 + DigitValue(s[|s| - 1])
  }

  /** `n` in base ten, most significant digit first, without leading zeros. */
  function NatToString(n: nat): (s: string)
    ensures |s| >= 1 && AllDigits(s)
    ensures n < 10 <==> |s| == 1
    ensures 10 <= n < 100 ==> |s| == 2
    ensures s[0] == '0' ==> n == 0
    decreases n
  {
    if n < 10 then [DigitChar(n)] else NatToString(n / 10) + [DigitChar(n % 10)]
  }

  /** Reading back the printed digits gives the number. */
  lemma {:induction false} NatToStringRoundTrip(n: nat)
    ensures DigitsValue(NatToString(n)) == n
    decreases n
  {
    if n >= 10 {
      NatToStringRoundTrip(n / 10);
      var s := NatToString(n);
      assert s[..|s| - 1] == NatToString(n / 10);
    }
  }

  /**
   * A signed integer: a minus sign before the digits of a negative value.
   * The text starts with '-' exactly for negative values, and the digits
   * after the sign read back as the magnitude.
   */
  function IntToString(i: int): (s: string)
    ensures |s| >= 1
    ensures i < 0 <==> s[0] == '-'
    ensures i >= 0 ==> AllDigits(s) && DigitsValue(s) == i
    ensures i < 0 ==> |s| >= 2 && AllDigits(s[1..]) && DigitsValue(s[1..]) == -i
  {
    if i < 0 then
      NatToStringRoundTrip(-i);
      var s := "-" + NatToString(-i);
      assert s[1..] == NatToString(-i);
      s
    else
      NatToStringRoundTrip(i);
      NatToString(i)
  }

  /** The characters `print` can emit for a number: digits, sign, point and the overflow mark. */
  predicate NumberText(s: string) {
    forall i :: 0 <= i < |s| ==> IsDigit(s[i]) || s[i] in "-.ovf"
  }

  /** Printed integers are number text. */
  lemma IntToStringIsNumberText(i: int)
    ensures NumberText(IntToString(i))
  {
  }

  /** Largest magnitude `print(float, digits)` writes in figures; beyond it prints "ovf". */
  const FloatPrintLimit: real := 4294967040.0

  /** 10^k. */
  function Pow10(k: nat): (p: nat)
    ensures p >= 1
  {
    if k == 0 then 1 else 10 * Pow10(k - 1)
  }

  /**
   * The `digits` fractional digits of `rem`: each step multiplies the
   * remainder by ten, prints its integer part and keeps the fraction.
   */
  function FractionDigits(rem: real, digits: nat): (s: string)
    requires 0.0 <= rem < 1.0
    ensures |s| == digits && AllDigits(s)
    decreases digits
  {
    if digits == 0 then ""
    else
      var r := rem * 10.0;
      var d := r.Floor;
      assert 0 <= d < 10;
      [DigitChar(d)] + FractionDigits(r - d as real, digits - 1)
  }

  /**
   * `print(x, digits)` of the Arduino core for a finite `x`: "ovf" beyond
   * the 32-bit range, else the sign, the integer part of |x| rounded by
   * half a unit of the last digit, and, when `digits` > 0, a point followed
   * by the fractional digits.
   */
  function FloatToString(x: real, digits: nat): (s: string)
    ensures NumberText(s)
    ensures |s| >= 1
  {
    if x > FloatPrintLimit || x < -FloatPrintLimit then "ovf"
    else
      var sign := if x < 0.0 then "-" else "";
      var a := (if x < 0.0 then -x else x) + 0.5 / Pow10(digits) as real;
      var ip := a.Floor;
      var frac := FractionDigits(a - ip as real, digits);
      sign + NatToString(ip) + (if digits > 0 then "." + frac else "")
  }
}
