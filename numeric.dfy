/** Exact decimal arithmetic helpers used by the production-chain views:
    the `Round(0)` rule of the decimal library (half away from zero) and the
    decimal rendering of a positive whole number. */
module Numeric {

  datatype Option<+T> = None | Some(value: T)

  /** `r` is `x` rounded to a whole number, ties going away from zero. */
  predicate IsRoundedHalfAway(x: real, r: int) {
    if x >= 0.0 then x - 0.5 < r as real <= x + 0.5
    else x - 0.5 <= r as real < x + 0.5
  }

  function RoundHalfAway(x: real): (r: int)
    ensures IsRoundedHalfAway(x, r)
  {
    if x >= 0.0 then (x + 0.5).Floor else -((-x + 0.5).Floor)
  }

  /** The rounding rule admits exactly one whole number for every value. */
  lemma RoundingIsUnique(x: real, r: int)
    requires IsRoundedHalfAway(x, r)
    ensures r == RoundHalfAway(x)
  {
  }

  lemma RoundingKeepsWholeNumbers(n: int)
    ensures RoundHalfAway(n as real) == n
  {
    RoundingIsUnique(n as real, n);
  }

  /** Rounding never reverses the order of two values. */
  lemma RoundingIsMonotone(x: real, y: real)
    requires x <= y
    ensures RoundHalfAway(x) <= RoundHalfAway(y)
  {
  }

  predicate IsDigit(c: char) {
    '0' <= c <= '9'
  }

  predicate AllDigits(s: string) {
    forall i :: 0 <= i < |s| ==> IsDigit(s[i])
  }

  function DigitChar(d: nat): (c: char)
    requires d < 10
    ensures IsDigit(c) && c as int - '0' as int == d
  {
    ('0' as int + d) as char
  }

  /** The decimal string of a whole number, as the decimal library prints a
      non-negative integral value: digits only, no leading zero. */
  function NatToString(n: nat): (s: string)
    ensures |s| >= 1 && AllDigits(s)
    ensures s[0] == '0' ==> n == 0 && s == "0"
  {
    if n < 10 then [DigitChar(n)] else NatToString(n / 10) + [DigitChar(n % 10)]
  }

  /** The value of a string of decimal digits, most significant first. */
  function DigitsValue(s: string): nat
    requires AllDigits(s)
  {
    if s == [] then 0
    else DigitsValue(s[..|s| - 1]) * 10 + (s[|s| - 1] as int - '0' as int)
  }

  lemma {:induction false} DigitsValueOfNatToString(n: nat)
    ensures DigitsValue(NatToString(n)) == n
  {
    var s := NatToString(n);
    if n >= 10 {
      var prefix := NatToString(n / 10);
      assert s == prefix + [DigitChar(n % 10)];
      assert s[..|s| - 1] == prefix;
      DigitsValueOfNatToString(n / 10);
    } else {
      assert s[..|s| - 1] == [];
    }
  }
}
