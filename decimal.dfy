/** The parts of Go's `strconv` and `strings` packages the pipeline relies on:
    decimal formatting of integers (`strconv.Itoa`, `strconv.FormatUint`, `%d`),
    decimal parsing (`strconv.Atoi` on a 64-bit platform, `strconv.ParseUint(s, 10, 64)`)
    and `strings.TrimSpace`. */
module Decimal {
  import opened Wrappers

  const MaxInt64: int := 0x7fff_ffff_ffff_ffff
  const MinInt64: int := -0x8000_0000_0000_0000
  const MaxUint64: int := 0xffff_ffff_ffff_ffff

  /** Go's `int` on a 64-bit platform, and `uint64`. */
  type Int64 = x: int | MinInt64 <= x <= MaxInt64
  type Uint64 = x: int | 0 <= x <= MaxUint64

  predicate IsDigit(c: char) { '0' <= c <= '9' }

  predicate AllDigits(s: string) { forall i :: 0 <= i < |s| ==> IsDigit(s[i]) }

  function DigitChar(d: nat): (c: char)
    requires d < 10
    ensures IsDigit(c)
  {
    ('0' as int + d) as char
  }

  function DigitValue(c: char): (d: nat)
    requires IsDigit(c)
    ensures d < 10 && DigitChar(d) == c
  {
    (c as int) - ('0' as int)
  }

  /** The value of a string of decimal digits; leading zeros are allowed. */
  function DigitsValue(s: string): nat
    requires AllDigits(s)
    decreases |s|
  {
    if s == [] then 0 else DigitsValue(s[..|s| - 1]) * 10 + DigitValue(s[|s| - 1])
  }

  /** The decimal numeral of `n` without leading zeros, as `strconv.FormatUint(n, 10)`
      and `%d` print a non-negative value. */
  function NatToString(n: nat): (s: string)
    ensures |s| >= 1 && AllDigits(s)
    ensures |s| > 1 ==> s[0] != '0'
    decreases n
  {
    if n < 10 then [DigitChar(n)] else NatToString(n / 10) + [DigitChar(n % 10)]
  }

  /** `strconv.Itoa(i)` and `fmt.Sprintf("%d", i)`. */
  function IntToString(i: int): string {
    if i < 0 then "-" + NatToString(-i) else NatToString(i)
  }

  /** `strconv.ParseUint(s, 10, 64)`: one or more decimal digits, no sign, no
      underscores, and a value that fits 64 bits. */
  function ParseUint64(s: string): Option<Uint64> {
    if s != [] && AllDigits(s) && DigitsValue(s) <= MaxUint64 then Some(DigitsValue(s)) else None
  }

  /** `strconv.Atoi(s)` with a 64-bit `int`: an optional `+` or `-`, then one or
      more decimal digits, and a value that fits the type. */
  function Atoi(s: string): Option<Int64> {
    if s == [] then None
    else
      var body := if s[0] == '-' || s[0] == '+' then s[1..] else s;
      if body == [] || !AllDigits(body) then None
      else
        var v: int := if s[0] == '-' then -(DigitsValue(body) as int) else DigitsValue(body);
        if MinInt64 <= v <= MaxInt64 then Some(v) else None
  }

  function Pow10(n: nat): (p: nat)
    ensures p >= 1
  {
    if n == 0 then 1 else 10 * Pow10(n - 1)
  }

  /** A string of `n` digits denotes a number below 10 to the `n`. */
  lemma {:induction false} DigitsValueBound(s: string)
    requires AllDigits(s)
    ensures DigitsValue(s) < Pow10(|s|)
    decreases |s|
  {
    if s != [] {
      DigitsValueBound(s[..|s| - 1]);
    }
  }

  /** Appending a digit shifts the value one decimal place. */
  lemma DigitsValueSnoc(s: string, c: char)
    requires AllDigits(s) && IsDigit(c)
    ensures DigitsValue(s + [c]) == DigitsValue(s) * 10 + DigitValue(c)
  {
    assert (s + [c])[..|s|] == s;
  }

  /** Reading back a numeral gives the number that was printed. */
  lemma {:induction false} DigitsValueOfNatToString(n: nat)
    ensures DigitsValue(NatToString(n)) == n
    decreases n
  {
    if n >= 10 {
      var s := NatToString(n / 10);
      var t := s + [DigitChar(n % 10)];
      assert t[..|t| - 1] == s;
      DigitsValueOfNatToString(n / 10);
    }
  }

  /** `ParseUint` inverts `FormatUint` on every 64-bit unsigned value. */
  lemma ParseUint64OfNatToString(n: Uint64)
    ensures ParseUint64(NatToString(n)) == Some(n)
  {
    DigitsValueOfNatToString(n);
  }

  /** `Atoi` inverts `Itoa` on every 64-bit signed value. */
  lemma AtoiOfIntToString(i: Int64)
    ensures Atoi(IntToString(i)) == Some(i)
  {
    if i < 0 {
      var m: nat := -(i as int);
      DigitsValueOfNatToString(m);
      assert IntToString(i)[1..] == NatToString(m);
    } else {
      DigitsValueOfNatToString(i);
    }
  }

  /** Any character outside the digits, other than one leading sign, makes
      `Atoi` fail; so does the empty string. */
  lemma AtoiRejectsNonNumeric(s: string, k: nat)
    requires k < |s| && !IsDigit(s[k])
    requires k == 0 ==> s[0] != '-' && s[0] != '+'
    ensures Atoi(s) == None
  {
    if k > 0 && (s[0] == '-' || s[0] == '+') {
      assert !IsDigit(s[1..][k - 1]);
    }
  }

  /** The characters `unicode.IsSpace` accepts. */
  predicate IsSpace(c: char) {
    var n := c as int;
    (9 <= n <= 13) || n == 32 || n == 0x85 || n == 0xA0 || n == 0x1680
    || (0x2000 <= n <= 0x200A) || n == 0x2028 || n == 0x2029 || n == 0x202F
    || n == 0x205F || n == 0x3000
  }

  function TrimLeftSpace(s: string): (r: string)
    ensures |r| <= |s| && r == s[|s| - |r|..]
    ensures r == [] || !IsSpace(r[0])
    ensures forall i :: 0 <= i < |s| - |r| ==> IsSpace(s[i])
    decreases |s|
  {
    if s != [] && IsSpace(s[0]) then TrimLeftSpace(s[1..]) else s
  }

  function TrimRightSpace(s: string): (r: string)
    ensures |r| <= |s| && r == s[..|r|]
    ensures r == [] || !IsSpace(r[|r| - 1])
    ensures forall i :: |r| <= i < |s| ==> IsSpace(s[i])
    decreases |s|
  {
    if s != [] && IsSpace(s[|s| - 1]) then TrimRightSpace(s[..|s| - 1]) else s
  }

  /** `strings.TrimSpace`: the longest middle part of `s` that neither starts
      nor ends with white space; everything cut off is white space. */
  function TrimSpace(s: string): (r: string)
    ensures exists a: nat, b: nat ::
              (a <= b <= |s| && r == s[a..b]
               && (forall i :: 0 <= i < a ==> IsSpace(s[i]))
               && (forall i :: b <= i < |s| ==> IsSpace(s[i])))
    ensures r == [] || (!IsSpace(r[0]) && !IsSpace(r[|r| - 1]))
  {
    var l := TrimLeftSpace(s);
    var r := TrimRightSpace(l);
    TrimmedIsMiddle(s, l, r);
    r
  }

  /** A prefix `r` of a suffix `l` of `s` is a middle slice of `s`. */
  lemma TrimmedIsMiddle(s: string, l: string, r: string)
    requires |l| <= |s| && l == s[|s| - |l|..] && (forall i :: 0 <= i < |s| - |l| ==> IsSpace(s[i]))
    requires |r| <= |l| && r == l[..|r|] && (forall i :: |r| <= i < |l| ==> IsSpace(l[i]))
    ensures var a := |s| - |l|;
      a + |r| <= |s| && r == s[a..a + |r|]
      && (forall i :: 0 <= i < a ==> IsSpace(s[i]))
      && (forall i :: a + |r| <= i < |s| ==> IsSpace(s[i]))
  {
    var a := |s| - |l|;
    var b := a + |r|;
    forall i | 0 <= i < |r|
      ensures r[i] == s[a..b][i]
    {
      assert r[i] == l[i] == s[a + i];
    }
    assert r == s[a..b];
    forall i | b <= i < |s|
      ensures IsSpace(s[i])
    {
      assert s[i] == l[i - a];
    }
  }

  /** A string that neither starts nor ends with white space is left as it is. */
  lemma TrimSpaceOfTrimmed(s: string)
    requires s == [] || (!IsSpace(s[0]) && !IsSpace(s[|s| - 1]))
    ensures TrimSpace(s) == s
  {
  }

  /** In particular a numeral has nothing to trim. */
  lemma TrimSpaceOfDigits(s: string)
    requires AllDigits(s)
    ensures TrimSpace(s) == s
  {
    if s != [] {
      assert IsDigit(s[0]) && IsDigit(s[|s| - 1]);
      TrimSpaceOfTrimmed(s);
    }
  }
}
