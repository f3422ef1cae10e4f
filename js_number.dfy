/**
 * The JavaScript number built-ins the distance label uses: `Math.round`,
 * integer-to-decimal rendering and `toFixed(1)`, on the exact value of the
 * double (a `real`), for magnitudes below 10^21 where JavaScript does not
 * switch to exponent notation.
 */
module JsNumber {

  /** `Math.round`: the nearest integer, a half rounding up (towards +infinity). */
  function Round(x: real): (n: int)
    ensures x - 0.5 < n as real <= x + 0.5
  {
    (x + 0.5).Floor
  }

  predicate IsDigit(c: char) {
    '0' <= c <= '9'
  }

  function DigitChar(d: nat): (c: char)
    requires d < 10
    ensures IsDigit(c)
  {
    ('0' as int + d) as char
  }

  function DigitValue(c: char): (d: nat)
    requires IsDigit(c)
    ensures d < 10
  {
    c as int - '0' as int
  }

  /** The decimal digits of `n`, most significant first, with no leading zero. */
  function NatDigits(n: nat): (s: string)
    ensures |s| >= 1 && forall i :: 0 <= i < |s| ==> IsDigit(s[i])
    ensures |s| > 1 ==> s[0] != '0'
  {
    if n < 10 then [DigitChar(n)] else NatDigits(n / 10) + [DigitChar(n % 10)]
  }

  /** The number a string of decimal digits denotes. */
  function DecimalValue(s: string): nat
    requires forall i :: 0 <= i < |s| ==> IsDigit(s[i])
  {
    if s == [] then 0 else 10 * DecimalValue(s[..|s| - 1]) + DigitValue(s[|s| - 1])
  }

  /** Reading the rendered digits back gives the number. */
  lemma {:induction false} DecimalValueOfDigits(n: nat)
    ensures DecimalValue(NatDigits(n)) == n
  {
    var s := NatDigits(n);
    if n >= 10 {
      DecimalValueOfDigits(n / 10);
      assert s[..|s| - 1] == NatDigits(n / 10);
    } else {
      assert s[..|s| - 1] == [];
    }
  }

  /** The decimal rendering of an integer, as a template literal shows it (`-0` shows as `0`). */
  function IntToString(n: int): string {
    if n < 0 then "-" + NatDigits(-n) else NatDigits(n)
  }

  /**
   * `toFixed(1)` of a non-negative value: the integer `n` nearest to ten times
   * the value (the larger one on a tie), shown with one digit after the point.
   */
  function ToFixed1(x: real): string
    requires 0.0 <= x
  {
    var n := Round(10.0 * x);
    NatDigits(n / 10) + "." + [DigitChar(n % 10)]
  }
}
