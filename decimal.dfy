/**
 * The decimal text a JavaScript template literal produces for an integral
 * number (`${n}`): an optional minus sign followed by the digits, without
 * leading zeros.  `Parse` reads such text back, so that the fallback labels of
 * the location catalog can be shown to name their id unambiguously.
 */
module Decimal {

  predicate IsDigit(c: char) {
    '0' <= c <= '9'
  }

  function DigitChar(d: nat): (c: char)
    requires d < 10
    ensures IsDigit(c) && c as int - '0' as int == d
  {
    (d + '0' as int) as char
  }

  function DigitValue(c: char): nat
    requires IsDigit(c)
  {
    c as int - '0' as int
  }

  predicate AllDigits(s: string) {
    forall i | 0 <= i < |s| :: IsDigit(s[i])
  }

  /** Digits of a non-negative integer, most significant first. */
  function NatToText(n: nat): (s: string)
    ensures |s| >= 1 && AllDigits(s)
    ensures s[0] == '0' ==> n == 0
  {
    if n < 10 then [DigitChar(n)] else NatToText(n / 10) + [DigitChar(n % 10)]
  }

  /**
   * The text JavaScript produces for an integral number of magnitude below
   * 10^21 (above that it switches to exponent notation, which this model
   * does not cover: ids are taken as mathematical integers).
   */
  function IntToText(n: int): (s: string)
    ensures |s| >= 1
    ensures n >= 0 <==> s[0] != '-'
  {
    if n < 0 then "-" + NatToText(-n) else NatToText(n)
  }

  /** Value of a string of digits, read most significant first. */
  function ParseNat(s: string): nat
    requires AllDigits(s)
  {
    if s == [] then 0 else 10 * ParseNat(s[..|s| - 1]) + DigitValue(s[|s| - 1])
  }

  function ParseInt(s: string): int
    requires |s| >= 1
    requires s[0] == '-' ==> AllDigits(s[1..])
    requires s[0] != '-' ==> AllDigits(s)
  {
    if s[0] == '-' then -(ParseNat(s[1..]) as int) else ParseNat(s)
  }

  lemma {:induction false} ParseNatToText(n: nat)
    ensures ParseNat(NatToText(n)) == n
  {
    if n >= 10 {
      var init := NatToText(n / 10);
      var s := init + [DigitChar(n % 10)];
      assert s[..|s| - 1] == init;
      ParseNatToText(n / 10);
    }
  }

  /** Reading the text of an integer back gives the integer. */
  lemma ParseIntToText(n: int)
    ensures var s := IntToText(n); (s[0] == '-' ==> AllDigits(s[1..])) && (s[0] != '-' ==> AllDigits(s))
    ensures ParseInt(IntToText(n)) == n
  {
    if n < 0 {
      assert IntToText(n)[1..] == NatToText(-n);
      ParseNatToText(-n);
    } else {
      ParseNatToText(n);
    }
  }

  /** Distinct integers have distinct texts. */
  lemma IntToTextInjective(a: int, b: int)
    requires IntToText(a) == IntToText(b)
    ensures a == b
  {
    ParseIntToText(a);
    ParseIntToText(b);
  }
}
