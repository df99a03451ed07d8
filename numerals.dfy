/**
 * Decimal conversion as done by Rust's `i64::from_str_radix(text, 10)`, which
 * the parser applies to the text of an integer-literal token.
 */
module Numerals {
  import opened Wrappers
  import opened Syntax

  predicate IsDigit(c: char) {
    '0' <= c <= '9'
  }

  predicate AllDigits(s: string) {
    forall k | 0 <= k < |s| :: IsDigit(s[k])
  }

  function DigitValue(c: char): nat
    requires IsDigit(c)
  {
    (c - '0') as nat
  }

  /** The number a digit string denotes, most significant digit first. */
  function DigitsValue(s: string): nat
    requires AllDigits(s)
  {
    if s == [] then 0 else 10 * DigitsValue(s[..|s| - 1]) + DigitValue(s[|s| - 1])
  }

  /**
   * `i64::from_str_radix(text, 10)`: an optional `+` or `-`, then one or more
   * decimal digits, whose value must fit in a signed 64-bit integer. The library
   * accumulates with checked arithmetic; since every prefix of the digits has a
   * value no larger than the whole, it fails exactly when the final value is out
   * of range.
   */
  function ParseI64(text: string): (r: Option<i64>)
    ensures |text| > 0 && IsDigit(text[0]) ==>
              (r.Some? <==> AllDigits(text) && DigitsValue(text) <= I64_MAX)
    ensures |text| > 0 && IsDigit(text[0]) && r.Some? ==> r.value as int == DigitsValue(text)
  {
    if |text| == 0 then None
    else
      var negative := text[0] == '-';
      var digits := if text[0] == '+' || text[0] == '-' then text[1..] else text;
      if |digits| == 0 || !AllDigits(digits) then None
      else
        var v: int := if negative then -(DigitsValue(digits) as int) else DigitsValue(digits);
        if -0x8000_0000_0000_0000 <= v <= I64_MAX then Some(v as i64) else None
  }

  /** The shortest decimal spelling of a natural number. */
  function Decimal(n: nat): (s: string)
    ensures |s| > 0 && AllDigits(s)
  {
    var d := ['0' + (n % 10) as char];
    if n < 10 then d else Decimal(n / 10) + d
  }

  lemma {:induction false} DecimalValue(n: nat)
    ensures DigitsValue(Decimal(n)) == n
  {
    var s := Decimal(n);
    if n >= 10 {
      DecimalValue(n / 10);
      assert s[..|s| - 1] == Decimal(n / 10);
    }
  }

  /** Every value in range is read back from its decimal spelling, with or without a sign. */
  lemma DecimalRoundTrip(n: nat)
    requires n <= I64_MAX
    ensures ParseI64(Decimal(n)) == Some(n as i64)
    ensures ParseI64("+" + Decimal(n)) == Some(n as i64)
    ensures ParseI64("-" + Decimal(n)) == Some((-(n as int)) as i64)
  {
    DecimalValue(n);
    assert ("+" + Decimal(n))[1..] == Decimal(n);
    assert ("-" + Decimal(n))[1..] == Decimal(n);
  }

  /** One more than the largest value is rejected. */
  lemma OverflowRejected()
    ensures ParseI64(Decimal(I64_MAX + 1)) == None
  {
    DecimalValue(I64_MAX + 1);
  }
}
