/**
 * Decimal numerals: the part of JavaScript's `Number(...)` and `String(...)`
 * conversions that the application relies on, for the non-negative whole
 * numbers it converts (quiz timer minutes and HTTP status codes). Numbers are
 * unbounded here: JavaScript's doubles lose precision above 2^53 and are
 * written in exponent form from 10^21 on, which these functions do not model.
 */
module Numerals {

  predicate IsDigit(c: char) {
    '0' <= c <= '9'
  }

  predicate AllDigits(s: string) {
    forall i :: 0 <= i < |s| ==> IsDigit(s[i])
  }

  /** A non-empty string of decimal digits (leading zeros allowed, as `Number` accepts them). */
  predicate IsNumeral(s: string) {
    s != [] && AllDigits(s)
  }

  function DigitChar(d: nat): (c: char)
    requires d < 10
    ensures IsDigit(c) && c as int - '0' as int == d
  {
    ('0' as int + d) as char
  }

  /** The value of a string of decimal digits, read most significant digit first. */
  function Parse(s: string): nat
    requires AllDigits(s)
    decreases |s|
  {
    if s == [] then 0 else 10 * Parse(s[..|s| - 1]) + (s[|s| - 1] as int - '0' as int)
  }

  /** The canonical decimal spelling of `n`, as `String(n)` writes it for `n` below 2^53. */
  function Show(n: nat): (s: string)
    ensures IsNumeral(s)
    ensures n == 0 <==> s == "0"
    ensures s[0] == '0' ==> s == "0"
    decreases n
  {
    if n < 10 then [DigitChar(n)] else Show(n / 10) + [DigitChar(n % 10)]
  }

  /** Reading back what `Show` writes gives the number it was given. */
  lemma {:induction false} ParseShow(n: nat)
    ensures Parse(Show(n)) == n
  {
    if n >= 10 {
      var s := Show(n);
      assert s[..|s| - 1] == Show(n / 10);
      ParseShow(n / 10);
    }
  }
}
