/**
 * Python's `str` of an integer, as used by the f-string `f'Unknown error ({rc})'`,
 * and the digit string's value, which undoes it.
 */
module Decimal {

  predicate IsDigit(c: char) {
    '0' <= c <= '9'
  }

  predicate IsDigits(s: string) {
    forall i :: 0 <= i < |s| ==> IsDigit(s[i])
  }

  function DigitChar(d: nat): (c: char)
    requires d < 10
    ensures IsDigit(c)
  {
    ('0' as int + d) as char
  }

  function DigitValue(c: char): (d: nat)
    requires IsDigit(c)
    ensures d < 10 && DigitChar(d) == c
  {
    c as int - '0' as int
  }

  /** The decimal digits of `n`, most significant first, without leading zeros. */
  function NatToDecimal(n: nat): (s: string)
    ensures s != [] && IsDigits(s)
    ensures s[0] == '0' ==> n == 0
    decreases n
  {
    if n < 10 then [DigitChar(n)] else NatToDecimal(n / 10) + [DigitChar(n % 10)]
  }

  /** `str(i)`: a minus sign for negative numbers, then the digits of `|i|`. */
  function IntToDecimal(i: int): (s: string)
    ensures s != []
    ensures s[0] == '-' <==> i < 0
    ensures i < 0 ==> s[1..] == NatToDecimal(-i)
    ensures 0 <= i ==> s == NatToDecimal(i)
  {
    if i < 0 then "-" + NatToDecimal(-i) else NatToDecimal(i)
  }

  /** The number a digit string denotes. */
  function DecimalValue(s: string): (n: nat)
    requires IsDigits(s)
    decreases |s|
  {
    if s == [] then 0 else 10 * DecimalValue(s[..|s| - 1]) + DigitValue(s[|s| - 1])
  }

  /** Reading the digits back gives the number that was printed. */
  lemma {:induction false} DecimalValueOfNatToDecimal(n: nat)
    ensures DecimalValue(NatToDecimal(n)) == n
  {
    if n >= 10 {
      var s := NatToDecimal(n / 10);
      var t := s + [DigitChar(n % 10)];
      assert t[..|t| - 1] == s;
      DecimalValueOfNatToDecimal(n / 10);
    }
  }

  /** Two different integers never print the same. */
  lemma IntToDecimalInjective(a: int, b: int)
    ensures IntToDecimal(a) == IntToDecimal(b) ==> a == b
  {
    if IntToDecimal(a) == IntToDecimal(b) {
      if a < 0 {
        DecimalValueOfNatToDecimal(-a);
        DecimalValueOfNatToDecimal(-b);
      } else {
        DecimalValueOfNatToDecimal(a);
        DecimalValueOfNatToDecimal(b);
      }
    }
  }
}
