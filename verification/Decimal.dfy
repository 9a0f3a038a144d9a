/** Decimal numerals: the recursive formatter of the SQL rewriter, which is also what
    `%d` and `FormatInt` print for non-negative values. */
module Decimal {

  function DigitChar(d: nat): char
    requires d < 10
  {
    '0' + d as char
  }

  predicate IsDigit(c: char) { '0' <= c <= '9' }

  predicate AllDigits(s: string) { forall i :: 0 <= i < |s| ==> IsDigit(s[i]) }

  function IntString(value: nat): (r: string)
  {
    if value < 10 then [DigitChar(value)] else IntString(value / 10) + IntString(value % 10)
  }

  /** The number a numeral stands for, most significant digit first. */
  function NumeralValue(s: string): nat
    requires AllDigits(s)
  {
    if s == "" then 0
    else NumeralValue(s[..|s| - 1]) * 10 + (s[|s| - 1] - '0') as nat
  }

  lemma {:induction false} NumeralReads(value: nat)
    ensures IntString(value) != "" && AllDigits(IntString(value)) && NumeralValue(IntString(value)) == value
    ensures IntString(value)[0] == '0' ==> value == 0
  {
    if value >= 10 {
      NumeralReads(value / 10);
      var high, low := IntString(value / 10), IntString(value % 10);
      assert low == [DigitChar(value % 10)];
      assert (high + low)[..|high + low| - 1] == high;
    } else {
      assert IntString(value)[..0] == "";
    }
  }

  /** Digit by digit, most significant first. */
  lemma NumeralIsDecimal(value: nat, digit: nat)
    requires digit < 10
    ensures IntString(digit) == ["0123456789"[digit]]
    ensures value > 0 ==> IntString(10 * value + digit) == IntString(value) + ["0123456789"[digit]]
    ensures NumeralValue(["0123456789"[digit]]) == digit
  {
    var one := ["0123456789"[digit]];
    assert one[..0] == "";
    assert IntString(digit) == one;
    assert value > 0 ==> (10 * value + digit) / 10 == value && (10 * value + digit) % 10 == digit;
  }

  lemma IntStringInjective(v: nat, w: nat)
    requires IntString(v) == IntString(w)
    ensures v == w
  {
    NumeralReads(v);
    NumeralReads(w);
  }
}
