/**
 * Decimal text of a transfer amount.
 *
 * Amounts are whole numbers: BigDecimal values of scale zero, one unit
 * printing as "1". Such a BigDecimal prints as its plain decimal digits,
 * without sign, exponent or leading zeros; NatToString is that rendering and
 * ParseNat reads it back.
 */
module Amounts {

  predicate IsDigit(c: char) {
    '0' <= c <= '9'
  }

  predicate AllDigits(s: string) {
    forall i :: 0 <= i < |s| ==> IsDigit(s[i])
  }

  /** The canonical decimal numerals: digits only, and no leading zero except in "0". */
  predicate IsNumeral(s: string) {
    |s| > 0 && AllDigits(s) && (s[0] == '0' ==> |s| == 1)
  }

  function DigitChar(d: nat): (c: char)
    requires d < 10
    ensures IsDigit(c)
  {
    ('0' as int + d) as char
  }

  function DigitValue(c: char): (d: nat)
    requires IsDigit(c)
    ensures d < 10 && DigitChar(d) == c
  {
    c as int - '0' as int
  }

  /** The decimal numeral of n, most significant digit first. */
  function NatToString(n: nat): (s: string)
    ensures IsNumeral(s)
    ensures s[0] == '0' <==> n == 0
    decreases n
  {
    if n < 10 then [DigitChar(n)] else NatToString(n / 10) + [DigitChar(n % 10)]
  }

  /** The value of a non-empty string of decimal digits (leading zeros allowed). */
  function ParseNat(s: string): (n: nat)
    requires |s| > 0 && AllDigits(s)
    decreases |s|
  {
    if |s| == 1 then DigitValue(s[0])
    else ParseNat(s[..|s| - 1]) * 10 + DigitValue(s[|s| - 1])
  }

  /** Reading the printed amount gives the amount back. */
  lemma {:induction false} ParseNatToString(n: nat)
    ensures ParseNat(NatToString(n)) == n
    decreases n
  {
    if n >= 10 {
      var s := NatToString(n);
      assert s[..|s| - 1] == NatToString(n / 10);
      ParseNatToString(n / 10);
    }
  }

  /** A numeral whose first digit is not zero denotes a positive number. */
  lemma {:induction false} ParseNatPositive(s: string)
    requires |s| > 0 && AllDigits(s) && s[0] != '0'
    ensures ParseNat(s) > 0
    decreases |s|
  {
    if |s| > 1 {
      ParseNatPositive(s[..|s| - 1]);
    }
  }

  /** Printing the value of a canonical numeral gives the numeral back. */
  lemma {:induction false} NatToStringParse(s: string)
    requires IsNumeral(s)
    ensures NatToString(ParseNat(s)) == s
    decreases |s|
  {
    if |s| > 1 {
      var p := s[..|s| - 1];
      ParseNatPositive(p);
      NatToStringParse(p);
      var n := ParseNat(s);
      assert n / 10 == ParseNat(p) && n % 10 == DigitValue(s[|s| - 1]);
      assert s == p + [s[|s| - 1]];
    }
  }
}
