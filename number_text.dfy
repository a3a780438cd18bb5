// How a template literal `${n}` writes the numbers the app shows: non-negative
// integers, and the quotient of a non-negative integer by 10 (which JavaScript
// prints exactly, with at most one decimal digit). This is the plain decimal
// form JavaScript uses below 10^21; larger numbers, written with an exponent,
// never occur in the app.
module NumberText {

  predicate IsDigit(c: char) {
    '0' <= c <= '9'
  }

  function DigitChar(d: nat): (c: char)
    requires d < 10
    ensures IsDigit(c)
  {
    (48 + d) as char
  }

  function DigitValue(c: char): (d: nat)
    requires IsDigit(c)
    ensures d < 10 && DigitChar(d) == c
  {
    (c as int) - 48
  }

  /** Decimal text of `n`, most significant digit first, without leading zeros. */
  function DecimalText(n: nat): (s: string)
    ensures 1 <= |s|
    ensures forall i :: 0 <= i < |s| ==> IsDigit(s[i])
    ensures 1 < |s| ==> s[0] != '0'
  {
    if n < 10 then [DigitChar(n)] else DecimalText(n / 10) + [DigitChar(n % 10)]
  }

  /** The value of a string of decimal digits. */
  function ParseDecimal(s: string): nat
    requires forall i :: 0 <= i < |s| ==> IsDigit(s[i])
  {
    if s == [] then 0 else ParseDecimal(s[..|s| - 1]) * 10 + DigitValue(s[|s| - 1])
  }

  /** Reading back the text of a number gives the number. */
  lemma {:induction false} DecimalRoundTrip(n: nat)
    ensures ParseDecimal(DecimalText(n)) == n
  {
    var s := DecimalText(n);
    if n >= 10 {
      DecimalRoundTrip(n / 10);
      assert s[..|s| - 1] == DecimalText(n / 10);
    }
    assert DigitValue(s[|s| - 1]) == n % 10;
  }

  /** Different numbers are written differently. */
  lemma DecimalTextInjective(a: nat, b: nat)
    requires DecimalText(a) == DecimalText(b)
    ensures a == b
  {
    DecimalRoundTrip(a);
    DecimalRoundTrip(b);
  }

  /** Text of `n / 10`: the integer part, then a point and the tenths digit
      unless that digit is 0. */
  function TenthsText(n: nat): (s: string)
    ensures IsTenthsShape(s)
    ensures ('.' in s) <==> n % 10 != 0
    ensures n % 10 == 0 ==> s == DecimalText(n / 10)
  {
    var whole := DecimalText(n / 10);
    if n % 10 == 0 then whole else whole + "." + [DigitChar(n % 10)]
  }

  predicate AllDigits(s: string) {
    forall i :: 0 <= i < |s| ==> IsDigit(s[i])
  }

  /** A number written with at most one decimal digit: `w` or `w.d`. */
  predicate IsTenthsShape(s: string) {
    || (1 <= |s| && AllDigits(s))
    || (3 <= |s| && AllDigits(s[..|s| - 2]) && s[|s| - 2] == '.' && IsDigit(s[|s| - 1]))
  }

  /** The value, counted in tenths, of a number written `w` or `w.d`. */
  function ReadTenths(s: string): nat
    requires IsTenthsShape(s)
  {
    if AllDigits(s) then ParseDecimal(s) * 10
    else ParseDecimal(s[..|s| - 2]) * 10 + DigitValue(s[|s| - 1])
  }

  /** Reading back the text of `n / 10` gives `n` tenths. */
  lemma TenthsRoundTrip(n: nat)
    ensures ReadTenths(TenthsText(n)) == n
  {
    var whole := DecimalText(n / 10);
    var s := TenthsText(n);
    DecimalRoundTrip(n / 10);
    if n % 10 != 0 {
      assert s[..|s| - 2] == whole;
      assert !IsDigit(s[|s| - 2]);
      assert DigitValue(s[|s| - 1]) == n % 10;
    }
  }

  /** Different numbers of tenths are written differently. */
  lemma TenthsTextInjective(a: nat, b: nat)
    requires TenthsText(a) == TenthsText(b)
    ensures a == b
  {
    TenthsRoundTrip(a);
    TenthsRoundTrip(b);
  }
}
