/** Go's `%f` and `%.2f` verbs on a float64, taken as the exact real number
    the float denotes. The text is the value rounded to the requested number
    of decimals, ties to even (Go's conversion is correctly rounded), with a
    minus sign for a negative value. */
module FloatText {
  import opened Decimal

  /** The nearest integer to a non-negative real, ties to the even one. */
  function RoundHalfEven(y: real): (n: int)
    requires y >= 0.0
    ensures n >= 0
    ensures -0.5 <= n as real - y <= 0.5
    ensures n as real - y == 0.5 || n as real - y == -0.5 ==> n % 2 == 0
  {
    var f := y.Floor;
    var d := y - f as real;
    if d > 0.5 then f + 1
    else if d < 0.5 then f
    else if f % 2 == 0 then f
    else f + 1
  }

  /** `s` with zeros in front up to `width` characters. */
  function PadZeros(s: string, width: nat): (r: string)
    ensures |r| == if |s| >= width then |s| else width
    ensures r[|r| - |s|..] == s
    ensures forall i :: 0 <= i < |r| - |s| ==> r[i] == '0'
    decreases width - |s|
  {
    if |s| >= width then s
    else
      var r := PadZeros("0" + s, width);
      assert r[|r| - |s|..] == r[|r| - |s| - 1..][1..];
      assert r[|r| - |s| - 1] == ("0" + s)[0];
      r
  }

  function Abs(x: real): (a: real)
    ensures a >= 0.0 && (a == x || a == -x)
  {
    if x < 0.0 then -x else x
  }

  /** `|x|` in units of its last printed decimal, rounded: within half a
      unit of the exact value. */
  function Scaled(x: real, prec: nat): (n: nat)
    ensures -0.5 <= n as real - Abs(x) * Pow10(prec) as real <= 0.5
  {
    RoundHalfEven(Abs(x) * Pow10(prec) as real)
  }

  /** Every digit of the text, before and after the point, with at least one
      before it. */
  function ScaledDigits(x: real, prec: nat): (s: string)
    ensures |s| >= prec + 1 && AllDigits(s)
  {
    PadZeros(NatToString(Scaled(x, prec)), prec + 1)
  }

  /** The digits before the point. */
  function IntDigits(x: real, prec: nat): (s: string)
    ensures |s| >= 1 && AllDigits(s)
  {
    var d := ScaledDigits(x, prec);
    d[..|d| - prec]
  }

  /** The `prec` digits after the point. */
  function FracDigits(x: real, prec: nat): (s: string)
    ensures |s| == prec && AllDigits(s)
  {
    var d := ScaledDigits(x, prec);
    d[|d| - prec..]
  }

  /** `strconv.FormatFloat(x, 'f', prec, 64)`, which `%f` (prec 6) and
      `%.2f` (prec 2) print: an optional minus sign, the integer digits and,
      when decimals are asked for, a point and the decimals. */
  function FormatFixed(x: real, prec: nat): string {
    (if x < 0.0 then "-" else "") + IntDigits(x, prec)
    + (if prec > 0 then "." + FracDigits(x, prec) else "")
  }

  /** The text is never empty, holds no comma, and ends in a point followed
      by exactly `prec` digits when decimals are asked for. */
  lemma FormatFixedShape(x: real, prec: nat)
    ensures var r := FormatFixed(x, prec);
      |r| >= prec + 1 && ',' !in r
      && (prec > 0 ==> r[|r| - prec - 1] == '.' && AllDigits(r[|r| - prec..]))
  {
    var sign := if x < 0.0 then "-" else "";
    var i, f := IntDigits(x, prec), FracDigits(x, prec);
    assert ',' !in i && ',' !in f;
    if prec > 0 {
      var r := sign + i + ("." + f);
      assert r[|r| - prec..] == f;
    }
  }

  /** Read back as one numeral, the digits before and after the point are
      the rounded magnitude, in units of the last printed decimal. */
  lemma FormatFixedValue(x: real, prec: nat)
    ensures DigitsValue(IntDigits(x, prec) + FracDigits(x, prec)) == Scaled(x, prec)
  {
    assert IntDigits(x, prec) + FracDigits(x, prec) == ScaledDigits(x, prec);
    DigitsValueOfScaledDigits(x, prec);
  }

  lemma DigitsValueOfScaledDigits(x: real, prec: nat)
    ensures DigitsValue(ScaledDigits(x, prec)) == Scaled(x, prec)
  {
    DigitsValueOfNatToString(Scaled(x, prec));
    DigitsValueOfPadZeros(NatToString(Scaled(x, prec)), prec + 1);
  }

  /** Leading zeros do not change the value of a numeral. */
  lemma {:induction false} DigitsValueOfPadZeros(s: string, width: nat)
    requires AllDigits(s)
    ensures AllDigits(PadZeros(s, width)) && DigitsValue(PadZeros(s, width)) == DigitsValue(s)
    decreases width - |s|
  {
    if |s| < width {
      DigitsValueOfZeroPrefix(s);
      DigitsValueOfPadZeros("0" + s, width);
    }
  }

  lemma {:induction false} DigitsValueOfZeroPrefix(s: string)
    requires AllDigits(s)
    ensures AllDigits("0" + s) && DigitsValue("0" + s) == DigitsValue(s)
    decreases |s|
  {
    if s != [] {
      var t := "0" + s;
      assert t[..|t| - 1] == "0" + s[..|s| - 1];
      DigitsValueOfZeroPrefix(s[..|s| - 1]);
    } else {
      assert DigitsValue("0") == DigitsValue([]) * 10 + DigitValue('0');
    }
  }
}
