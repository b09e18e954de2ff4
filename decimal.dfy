/** How the screens print integers inside template strings (`${n}`):
    decimal digits without leading zeros, a minus sign for negatives.
    ParseNat is the reader that shows the printed count can be read back.
    This matches JavaScript only for magnitudes below 10^21; JavaScript
    prints larger ones in exponent form ("1e+21"). Those numbers, and the
    inexact arithmetic on magnitudes of 2^53 and above, are not modelled. */
module Decimal {

  predicate IsDigit(c: char) {
    '0' <= c <= '9'
  }

  predicate AllDigits(s: string) {
    forall i :: 0 <= i < |s| ==> IsDigit(s[i])
  }

  function DigitChar(d: nat): (c: char)
    requires d < 10
    ensures IsDigit(c) && c as int - '0' as int == d
  {
    ('0' as int + d) as char
  }

  function DigitValue(c: char): (d: nat)
    requires IsDigit(c)
    ensures d < 10 && DigitChar(d) == c
  {
    c as int - '0' as int
  }

  /** The text of a non-negative integer: at least one digit, only digits,
      and no leading zero unless the number is zero. */
  function NatText(n: nat): (s: string)
    ensures |s| >= 1 && AllDigits(s)
    ensures s[0] == '0' <==> n == 0
    ensures n == 0 ==> s == "0"
    decreases n
  {
    if n < 10 then [DigitChar(n)] else NatText(n / 10) + [DigitChar(n % 10)]
  }

  /** The text of any integer: a leading '-' exactly for negatives, then
      the digits of its magnitude, which read back as that magnitude. */
  function IntText(n: int): (s: string)
    ensures |s| >= 1
    ensures s[0] == '-' <==> n < 0
    ensures n >= 0 ==> AllDigits(s) && ParseNat(s) == n && (s[0] == '0' <==> n == 0)
    ensures n < 0 ==> |s| >= 2 && AllDigits(s[1..]) && ParseNat(s[1..]) == -n && s[1] != '0'
    ensures n == 0 ==> s == "0"
  {
    if n < 0 then
      ParseNatText(-n);
      var s := "-" + NatText(-n);
      assert s[1..] == NatText(-n);
      s
    else
      ParseNatText(n);
      NatText(n)
  }

  /** Reads a string of digits back as a number (the empty string reads as 0). */
  function ParseNat(s: string): nat
    requires AllDigits(s)
    decreases |s|
  {
    if s == [] then 0 else 10 * ParseNat(s[..|s| - 1]) + DigitValue(s[|s| - 1])
  }

  /** Printing then reading a count gives the count back. */
  lemma {:induction false} ParseNatText(n: nat)
    ensures ParseNat(NatText(n)) == n
    decreases n
  {
    var s := NatText(n);
    if n < 10 {
      assert s[..0] == [];
    } else {
      ParseNatText(n / 10);
      assert s[..|s| - 1] == NatText(n / 10);
      assert DigitValue(s[|s| - 1]) == n % 10;
    }
  }
}
