/**
 * The decimal text of a natural number, which is how a template literal
 * renders integers below 10^21 such as the default max-age 300, and the `delta-seconds` grammar of section 1.2.2 of RFC 9111
 * (one or more DIGIT) that a cache reads back from `max-age=`.
 */
module DecimalText {

  predicate IsDigit(c: char) {
    '0' <= c <= '9'
  }

  /** `delta-seconds = 1*DIGIT` (section 1.2.2 of RFC 9111). */
  predicate IsDeltaSeconds(s: string) {
    |s| >= 1 && forall i :: 0 <= i < |s| ==> IsDigit(s[i])
  }

  function DigitChar(d: nat): (c: char)
    requires d < 10
    ensures IsDigit(c)
  {
    ('0' as int + d) as char
  }

  function DigitValue(c: char): (d: nat)
    requires IsDigit(c)
    ensures d < 10
  {
    c as int - '0' as int
  }

  /** The value of a digit string, most significant digit first. */
  function DigitsValue(s: string): (n: nat)
    requires forall i :: 0 <= i < |s| ==> IsDigit(s[i])
  {
    if |s| == 0 then 0 else DigitsValue(s[..|s| - 1]) * 10 + DigitValue(s[|s| - 1])
  }

  /**
   * The shortest decimal text of `n`: only digits, at least one of them, and
   * no leading zero unless `n` is zero.
   */
  function Decimal(n: nat): (s: string)
    ensures IsDeltaSeconds(s)
    ensures s[0] == '0' <==> n == 0
  {
    if n < 10 then [DigitChar(n)] else Decimal(n / 10) + [DigitChar(n % 10)]
  }

  /** Reading the decimal text of `n` back gives `n`. */
  lemma {:induction false} DecimalRoundTrip(n: nat)
    ensures DigitsValue(Decimal(n)) == n
  {
    var s := Decimal(n);
    if n >= 10 {
      assert s[..|s| - 1] == Decimal(n / 10);
      assert DigitValue(s[|s| - 1]) == n % 10;
      DecimalRoundTrip(n / 10);
    }
  }
}
