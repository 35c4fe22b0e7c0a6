/** The decimal text of a Swift `Int`, as produced both by `NSNumber(value:).stringValue`
    and by string interpolation `"\(n)"`, together with a reference reader that turns a
    decimal numeral back into its value. The reader exists only to state what the
    rendering means: reading it back yields the number it came from. */
module Decimal {
  import opened Optionals

  predicate IsDigit(c: char)
  {
    '0' <= c <= '9'
  }

  predicate AllDigits(s: string)
  {
    forall i :: 0 <= i < |s| ==> IsDigit(s[i])
  }

  function DigitChar(d: nat): (c: char)
    requires d < 10
    ensures IsDigit(c)
  {
    (48 + d) as char
  }

  function DigitValue(c: char): (d: nat)
    requires IsDigit(c)
    ensures d < 10
  {
    c as int - 48
  }

  /** Decimal digits of a natural number, most significant first, without leading zeros. */
  function Digits(n: nat): (s: string)
    ensures 1 <= |s|
    ensures AllDigits(s)
    ensures |s| > 1 ==> s[0] != '0'
    ensures n > 0 ==> s[0] != '0'
    decreases n
  {
    if n < 10 then [DigitChar(n)] else Digits(n / 10) + [DigitChar(n % 10)]
  }

  /** The textual form of an integer: a leading '-' for negatives, then its digits; the
      canonical numeral, with no leading zero and no "-0". */
  function Describe(v: int): (s: string)
    ensures 1 <= |s|
    ensures s[0] == '-' <==> v < 0
    ensures s[0] != '-' && |s| > 1 ==> s[0] != '0'
    ensures s[0] == '-' ==> |s| > 1 && s[1] != '0'
  {
    if v < 0 then "-" + Digits(-v) else Digits(v)
  }

  /** Value of a string of digits, read left to right. */
  function NumeralValue(s: string): nat
    requires AllDigits(s)
  {
    if |s| == 0 then 0 else NumeralValue(s[..|s| - 1]) * 10 + DigitValue(s[|s| - 1])
  }

  /** Reference reader: an optional '-' followed by at least one digit. */
  function ParseDecimal(s: string): Option<int>
  {
    if |s| > 1 && s[0] == '-' && AllDigits(s[1..]) then Some(-(NumeralValue(s[1..]) as int))
    else if |s| > 0 && AllDigits(s) then Some(NumeralValue(s) as int)
    else None
  }

  lemma {:induction false} DigitsRoundTrip(n: nat)
    ensures NumeralValue(Digits(n)) == n
    decreases n
  {
    if n >= 10 {
      var d := Digits(n / 10);
      var s := d + [DigitChar(n % 10)];
      assert s[..|s| - 1] == d;
      DigitsRoundTrip(n / 10);
    }
  }

  /** Reading the rendering of `v` gives `v` back. */
  lemma DescribeRoundTrip(v: int)
    ensures ParseDecimal(Describe(v)) == Some(v)
  {
    var s := Describe(v);
    if v < 0 {
      assert s[1..] == Digits(-v);
      DigitsRoundTrip(-v);
    } else {
      DigitsRoundTrip(v);
    }
  }

  /** Distinct integers render differently. */
  lemma DescribeInjective(a: int, b: int)
    ensures Describe(a) == Describe(b) ==> a == b
  {
    DescribeRoundTrip(a);
    DescribeRoundTrip(b);
  }
}
