/** The decimal rendering of numbers (`Number.prototype.toString`) and
    `String.prototype.padStart`, over unbounded integers. */
module NumberText {

  predicate IsDigit(c: char) { '0' <= c <= '9' }

  predicate AllDigits(s: string) { forall i :: 0 <= i < |s| ==> IsDigit(s[i]) }

  function DigitValue(c: char): nat
    requires IsDigit(c)
  {
    c as int - '0' as int
  }

  function Digit(d: nat): (c: char)
    requires d < 10
    ensures IsDigit(c) && DigitValue(c) == d
  {
    ('0' as int + d) as char
  }

  /** The base-10 text of a non-negative integer: digits only, never empty,
      and without a leading zero unless the number is zero. */
  function DecimalString(n: nat): (r: string)
    ensures 1 <= |r| && AllDigits(r)
    ensures r[0] == '0' <==> n == 0
    ensures |r| == 1 <==> n < 10
    decreases n
  {
    if n < 10 then [Digit(n)] else DecimalString(n / 10) + [Digit(n % 10)]
  }

  /** The number a string of decimal digits denotes (leading zeros allowed). */
  function DecimalValue(s: string): nat
    requires AllDigits(s)
    decreases |s|
  {
    if s == [] then 0 else DecimalValue(s[..|s| - 1]) * 10 + DigitValue(s[|s| - 1])
  }

  /** `s` is a string of decimal digits whose value is `v`. */
  predicate Denotes(s: string, v: nat) { AllDigits(s) && DecimalValue(s) == v }

  /** Reading back the decimal text of `n` gives `n`. */
  lemma {:induction false} DecimalRoundTrip(n: nat)
    ensures DecimalValue(DecimalString(n)) == n
  {
    if n >= 10 {
      var s := DecimalString(n);
      assert s[..|s| - 1] == DecimalString(n / 10);
      DecimalRoundTrip(n / 10);
    }
  }

  /** A leading zero does not change the value of a digit string. */
  lemma {:induction false} LeadingZeroValue(s: string)
    requires AllDigits(s)
    ensures AllDigits("0" + s) && DecimalValue("0" + s) == DecimalValue(s)
  {
    if s != [] {
      var t := "0" + s;
      assert t[..|t| - 1] == "0" + s[..|s| - 1];
      LeadingZeroValue(s[..|s| - 1]);
    }
  }

  /** A four-digit number has four-character text. */
  lemma FourDigits(n: nat)
    requires 1000 <= n <= 9999
    ensures |DecimalString(n)| == 4
  {
    assert |DecimalString(n / 10)| == 3 by {
      assert |DecimalString(n / 100)| == 2;
    }
  }

  /** `String(x)` for an integer: a minus sign in front of the magnitude when negative. */
  function NumberToString(x: int): (r: string)
    ensures 1 <= |r| && (r[0] == '-' <==> x < 0)
    ensures x >= 0 ==> AllDigits(r) && DecimalValue(r) == x
    ensures x < 0 ==> AllDigits(r[1..]) && DecimalValue(r[1..]) == -x
  {
    if x < 0 then
      DecimalRoundTrip(-x);
      assert ("-" + DecimalString(-x))[1..] == DecimalString(-x);
      "-" + DecimalString(-x)
    else
      DecimalRoundTrip(x);
      DecimalString(x)
  }

  /** `s.padStart(width, fill)` with a one-character fill: `s` unchanged when it is
      already `width` long or longer, otherwise `s` preceded by copies of `fill`. */
  function PadStart(s: string, width: nat, fill: char): (r: string)
    ensures |s| >= width ==> r == s
    ensures |s| < width ==> |r| == width
    ensures |s| <= |r| && r[|r| - |s|..] == s
    ensures forall i :: 0 <= i < |r| - |s| ==> r[i] == fill
  {
    if |s| >= width then s else seq(width - |s|, _ => fill) + s
  }
}
