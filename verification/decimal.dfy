/**
 * Decimal numerals of non-negative integers, as produced by JavaScript's
 * `Number.prototype.toString()` on an integer value. Both versions of the
 * bot draw a verification code as an integer in a range and relay its
 * decimal string.
 */
module Decimal {

  predicate IsDigit(c: char) { '0' <= c <= '9' }

  predicate AllDigits(s: string) { forall i :: 0 <= i < |s| ==> IsDigit(s[i]) }

  function DigitChar(d: nat): (c: char)
    requires d < 10
    ensures IsDigit(c) && c as int - '0' as int == d
  {
    ('0' as int + d) as char
  }

  function DigitValue(c: char): (d: nat)
    requires IsDigit(c)
    ensures d < 10
  {
    c as int - '0' as int
  }

  function Pow10(k: nat): (p: nat)
    ensures p >= 1
  {
    if k == 0 then 1 else 10 * Pow10(k - 1)
  }

  /** The shortest decimal numeral of `n`: digits only, no leading zero. */
  function ToDecimal(n: nat): (s: string)
    ensures |s| >= 1 && AllDigits(s)
    ensures s[0] == '0' ==> n == 0
  {
    if n < 10 then [DigitChar(n)] else ToDecimal(n / 10) + [DigitChar(n % 10)]
  }

  /** The value of a string of digits, most significant first. */
  function FromDecimal(s: string): nat
    requires AllDigits(s)
  {
    if s == [] then 0 else 10 * FromDecimal(s[..|s| - 1]) + DigitValue(s[|s| - 1])
  }

  /** Reading back the numeral gives the number it was made from. */
  lemma {:induction false} FromToDecimal(n: nat)
    ensures FromDecimal(ToDecimal(n)) == n
  {
    var s := ToDecimal(n);
    if n >= 10 {
      var t := ToDecimal(n / 10);
      assert s[..|s| - 1] == t;
      FromToDecimal(n / 10);
    }
  }

  /** Distinct numbers have distinct numerals, so distinct draws give distinct codes. */
  lemma ToDecimalInjective(a: nat, b: nat)
    requires ToDecimal(a) == ToDecimal(b)
    ensures a == b
  {
    FromToDecimal(a);
    FromToDecimal(b);
  }

  /** A number with k digits (10^(k-1) <= n < 10^k) has a numeral of exactly k characters. */
  lemma {:induction false} ToDecimalWidth(n: nat, k: nat)
    requires 1 <= k && Pow10(k - 1) <= n < Pow10(k)
    ensures |ToDecimal(n)| == k
  {
    if k == 1 {
      assert n < 10;
    } else {
      assert n >= 10;
      ToDecimalWidth(n / 10, k - 1);
    }
  }
}
