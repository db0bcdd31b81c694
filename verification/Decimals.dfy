/**
  Text as code points, what counts as space, and numbers written in decimal.
 */
module Decimals {

  /** A Python string is any sequence of code points, lone surrogates included. */
  type Code = c: nat | c <= 0x10FFFF
  type Text = seq<Code>

  /** The text of an ASCII literal. */
  function Of(s: string): (t: Text)
    ensures |t| == |s|
  {
    seq(|s|, i requires 0 <= i < |s| => var c: nat := s[i] as int; c)
  }

  lemma OfIsInjective(a: string, b: string)
    requires Of(a) == Of(b)
    ensures a == b
  {
    assert |a| == |b|;
    forall i | 0 <= i < |a| ensures a[i] == b[i] {
      assert Of(a)[i] == Of(b)[i];
    }
  }

  /** What str.strip() takes off. */
  predicate IsPythonSpace(c: nat) {
    9 <= c <= 13 || 28 <= c <= 32 || c == 0x85 || c == 0xA0 || c == 0x1680 || 0x2000 <= c <= 0x200A || c == 0x2028 || c == 0x2029
    || c == 0x202F || c == 0x205F || c == 0x3000
  }

  predicate IsDigit(c: Code) {
    48 <= c <= 57
  }

  predicate AllDigits(t: Text) {
    forall i :: 0 <= i < |t| ==> IsDigit(t[i])
  }

  /** What str gives for a natural number. */
  function Decimal(n: nat): (t: Text)
    ensures |t| > 0 && AllDigits(t)
    ensures t[0] == 48 ==> n == 0 && t == [48]
  {
    if n < 10 then [48 + n] else Decimal(n / 10) + [48 + n % 10]
  }

  function Value(digits: Text): nat
    requires AllDigits(digits)
  {
    if digits == [] then 0 else 10 * Value(digits[..|digits| - 1]) + (digits[|digits| - 1] - 48)
  }

  lemma {:induction false} ValueOfDecimal(n: nat)
    ensures Value(Decimal(n)) == n
  {
    if n >= 10 {
      ValueOfDecimal(n / 10);
      var d := Decimal(n);
      assert d[..|d| - 1] == Decimal(n / 10);
    }
  }

  lemma DecimalIsInjective(m: nat, n: nat)
    requires Decimal(m) == Decimal(n)
    ensures m == n
  {
    ValueOfDecimal(m);
    ValueOfDecimal(n);
  }
}
