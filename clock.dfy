/** The parts of Go's `time` package the pipeline uses: parsing with the
    layouts `time.RFC1123Z` ("Mon, 02 Jan 2006 15:04:05 -0700") and
    "2006-01-02 15:04:05", and formatting with "2006/01/02" (and its pieces
    "2006", "01", "02"), `time.RFC1123Z` and `time.RFC3339`.

    A parsed time keeps its wall clock and its numeric zone offset. Fractional
    seconds are accepted after the seconds field, as Go does, but none of the
    layouts used here prints them, so they are not kept. */
module Clock {
  import opened Wrappers
  import opened Decimal

  /** A wall-clock time with a zone offset in minutes east of UTC. */
  datatype DateTime = DateTime(year: int, month: int, day: int,
                               hour: int, minute: int, second: int, offset: int)

  /** Go accepts a numeric zone of up to 24 hours and 60 minutes. */
  const MaxZone: int := 24 * 60 + 60

  predicate IsLeap(y: int) { y % 4 == 0 && (y % 100 != 0 || y % 400 == 0) }

  function DaysIn(month: int, year: int): (n: int)
    requires 1 <= month <= 12
    ensures 28 <= n <= 31
  {
    if month == 2 then (if IsLeap(year) then 29 else 28)
    else if month == 4 || month == 6 || month == 9 || month == 11 then 30
    else 31
  }

  predicate ValidDate(year: int, month: int, day: int) {
    0 <= year <= 9999 && 1 <= month <= 12 && 1 <= day <= DaysIn(month, year)
  }

  /** Every time a four-digit-year layout can produce. */
  predicate Valid(t: DateTime) {
    ValidDate(t.year, t.month, t.day)
    && 0 <= t.hour < 24 && 0 <= t.minute < 60 && 0 <= t.second < 60
    && -MaxZone <= t.offset <= MaxZone
  }

  const DayNames: seq<string> := ["Sun", "Mon", "Tue", "Wed", "Thu", "Fri", "Sat"]
  const MonthNames: seq<string> :=
    ["Jan", "Feb", "Mar", "Apr", "May", "Jun", "Jul", "Aug", "Sep", "Oct", "Nov", "Dec"]

  /** Day of the week, 0 for Sunday (Zeller's congruence on the proleptic
      Gregorian calendar, which is the calendar Go uses). */
  function Weekday(year: int, month: int, day: int): (w: int)
    ensures 0 <= w < 7
  {
    var m := if month < 3 then month + 12 else month;
    var y := if month < 3 then year - 1 else year;
    var h := (day + 13 * (m + 1) / 5 + y + y / 4 - y / 100 + y / 400) % 7;
    (h + 6) % 7
  }

  // ---------------------------------------------------------------------
  // Parsing, one layout element at a time

  /** A number read from the front of the input, and what is left. */
  datatype Scanned = Scanned(value: int, rest: string)

  /** A literal character of the layout. */
  function Lit(s: string, c: char): Option<string> {
    if |s| > 0 && s[0] == c then Some(s[1..]) else None
  }

  function DropSpaces(s: string): (r: string)
    ensures |r| <= |s| && r == s[|s| - |r|..]
    ensures r == [] || r[0] != ' '
    decreases |s|
  {
    if |s| > 0 && s[0] == ' ' then DropSpaces(s[1..]) else s
  }

  /** A space of the layout matches a run of spaces of the input. */
  function Space(s: string): Option<string> {
    if |s| > 0 && s[0] != ' ' then None else Some(DropSpaces(s))
  }

  /** Go's `getnum`: one or two digits, exactly two when `fixed`. */
  function Num(s: string, fixed: bool): (r: Option<Scanned>)
    ensures r.Some? ==> 0 <= r.value.value < 100
  {
    if |s| == 0 || !IsDigit(s[0]) then None
    else if |s| == 1 || !IsDigit(s[1]) then
      (if fixed then None else Some(Scanned(DigitValue(s[0]), s[1..])))
    else Some(Scanned(DigitValue(s[0]) * 10 + DigitValue(s[1]), s[2..]))
  }

  /** The layout element "2006": exactly four digits. */
  function Year(s: string): (r: Option<Scanned>)
    ensures r.Some? ==> 0 <= r.value.value <= 9999
  {
    if |s| < 4 || !AllDigits(s[..4]) then None
    else
      DigitsFour(s[..4]);
      Some(Scanned(DigitsValue(s[..4]), s[4..]))
  }

  lemma DigitsFour(s: string)
    requires |s| == 4 && AllDigits(s)
    ensures DigitsValue(s) <= 9999
  {
    DigitsValueBound(s);
    assert Pow10(4) == 10000;
  }

  function DropDigits(s: string): (r: string)
    ensures |r| <= |s| && r == s[|s| - |r|..]
    ensures r == [] || !IsDigit(r[0])
    decreases |s|
  {
    if |s| > 0 && IsDigit(s[0]) then DropDigits(s[1..]) else s
  }

  /** Fractional seconds the layout does not ask for: a `.` or `,` and at
      least one digit are consumed and dropped. */
  function Frac(s: string): string {
    if |s| >= 2 && (s[0] == '.' || s[0] == ',') && IsDigit(s[1]) then DropDigits(s[2..]) else s
  }

  /** ASCII letters compare without regard to case, as Go's name lookup does. */
  function Lower(c: char): char {
    if 'A' <= c <= 'Z' then (c as int + 32) as char else c
  }

  predicate FoldEq(a: string, b: string) {
    |a| == |b| && forall k :: 0 <= k < |a| ==> Lower(a[k]) == Lower(b[k])
  }

  /** Go's `lookup`: the first name of `tab`, from index `i` on, that the
      input starts with. */
  function Lookup(tab: seq<string>, s: string, i: nat): (r: Option<Scanned>)
    ensures r.Some? ==> i <= r.value.value < |tab|
    decreases |tab| - i
  {
    if i >= |tab| then None
    else if |s| >= |tab[i]| && FoldEq(s[..|tab[i]|], tab[i]) then Some(Scanned(i, s[|tab[i]|..]))
    else Lookup(tab, s, i + 1)
  }

  /** The layout element "-0700": a sign, two digits of hours and two of
      minutes, the hours at most 24 and the minutes at most 60. */
  function Zone(s: string): (r: Option<Scanned>)
    ensures r.Some? ==> -MaxZone <= r.value.value <= MaxZone
  {
    if |s| < 5 then None
    else
      var hr :- Num(s[1..3], true);
      var mm :- Num(s[3..5], true);
      if hr.value > 24 || mm.value > 60 || (s[0] != '+' && s[0] != '-') then None
      else
        var off := hr.value * 60 + mm.value;
        Some(Scanned(if s[0] == '-' then -off else off, s[5..]))
  }

  /** Three layout elements in a row: "02 Jan 2006". */
  datatype DateScan = DateScan(year: int, month: int, day: int, rest: string)

  /** "15:04:05", with any fractional seconds that follow. */
  datatype ClockScan = ClockScan(hour: int, minute: int, second: int, rest: string)

  function DayMonthYear(s: string): (r: Option<DateScan>)
    ensures r.Some? ==> 0 <= r.value.year <= 9999 && 1 <= r.value.month <= 12
  {
    var dd :- Num(s, true);
    var s1 :- Space(dd.rest);
    var mon :- Lookup(MonthNames, s1, 0);
    var s2 :- Space(mon.rest);
    var yy :- Year(s2);
    Some(DateScan(yy.value, mon.value + 1, dd.value, yy.rest))
  }

  /** Hours of one or two digits below 24, then minutes and seconds of two
      digits below 60. */
  function ClockTime(s: string): (r: Option<ClockScan>)
    ensures r.Some? ==> 0 <= r.value.hour < 24 && 0 <= r.value.minute < 60 && 0 <= r.value.second < 60
  {
    var hh :- Num(s, false);
    if hh.value >= 24 then None
    else
      var s1 :- Lit(hh.rest, ':');
      var mi :- Num(s1, true);
      if mi.value >= 60 then None
      else
        var s2 :- Lit(mi.rest, ':');
        var ss :- Num(s2, true);
        if ss.value >= 60 then None
        else Some(ClockScan(hh.value, mi.value, ss.value, Frac(ss.rest)))
  }

  /** `time.Parse(time.RFC1123Z, s)`. The weekday name must be one of the
      seven but is not checked against the date; trailing text and a day the
      month does not have are errors. */
  function ParseRFC1123Z(s: string): (r: Option<DateTime>)
    ensures r.Some? ==> Valid(r.value)
  {
    var wd :- Lookup(DayNames, s, 0);
    var s1 :- Lit(wd.rest, ',');
    var s2 :- Space(s1);
    var d :- DayMonthYear(s2);
    var s3 :- Space(d.rest);
    var c :- ClockTime(s3);
    var s4 :- Space(c.rest);
    var zz :- Zone(s4);
    if zz.rest != [] || d.day < 1 || d.day > DaysIn(d.month, d.year) then None
    else Some(DateTime(d.year, d.month, d.day, c.hour, c.minute, c.second, zz.value))
  }

  /** Three layout elements in a row: "2006-01-02", the month from 1 to 12. */
  function YearMonthDay(s: string): (r: Option<DateScan>)
    ensures r.Some? ==> 0 <= r.value.year <= 9999 && 1 <= r.value.month <= 12
  {
    var yy :- Year(s);
    var s1 :- Lit(yy.rest, '-');
    var mo :- Num(s1, true);
    if mo.value < 1 || mo.value > 12 then None
    else
      var s2 :- Lit(mo.rest, '-');
      var dd :- Num(s2, true);
      Some(DateScan(yy.value, mo.value, dd.value, dd.rest))
  }

  /** `time.Parse("2006-01-02 15:04:05", s)`: a time in UTC. */
  function ParseDateTime(s: string): (r: Option<DateTime>)
    ensures r.Some? ==> Valid(r.value) && r.value.offset == 0
  {
    var d :- YearMonthDay(s);
    var s1 :- Space(d.rest);
    var c :- ClockTime(s1);
    if c.rest != [] || d.day < 1 || d.day > DaysIn(d.month, d.year) then None
    else Some(DateTime(d.year, d.month, d.day, c.hour, c.minute, c.second, 0))
  }

  // ---------------------------------------------------------------------
  // Formatting

  /** Layout elements "01", "02", "04", "05", "15": two digits, zero padded. */
  function Pad2(n: int): (s: string)
    requires 0 <= n < 100
    ensures |s| == 2 && AllDigits(s)
  {
    [DigitChar(n / 10), DigitChar(n % 10)]
  }

  /** Layout element "2006": four digits, zero padded. */
  function Pad4(n: int): (s: string)
    requires 0 <= n < 10000
    ensures |s| == 4 && AllDigits(s)
  {
    Pad2(n / 100) + Pad2(n % 100)
  }

  /** `t.Format("2006/01/02")`, the directory of a check-in's objects. */
  function FormatYMD(t: DateTime): string
    requires Valid(t)
  {
    Pad4(t.year) + "/" + Pad2(t.month) + "/" + Pad2(t.day)
  }

  /** The layout element "-0700": sign, hours and minutes of the offset. */
  function ZoneText(offset: int): string
    requires -MaxZone <= offset <= MaxZone
  {
    var a := if offset < 0 then -offset else offset;
    (if offset < 0 then "-" else "+") + Pad2(a / 60) + Pad2(a % 60)
  }

  /** `t.Format(time.RFC1123Z)`. */
  function FormatRFC1123Z(t: DateTime): string
    requires Valid(t)
  {
    DayNames[Weekday(t.year, t.month, t.day)]
    + (", " + (Pad2(t.day) + (" " + (MonthNames[t.month - 1] + (" " + (Pad4(t.year)
    + (" " + (Pad2(t.hour) + (":" + (Pad2(t.minute) + (":" + (Pad2(t.second)
    + (" " + ZoneText(t.offset))))))))))))))
  }

  /** `t.Format(time.RFC3339)`: "Z" for a zero offset, otherwise "+hh:mm". */
  function FormatRFC3339(t: DateTime): string
    requires Valid(t)
  {
    var a := if t.offset < 0 then -t.offset else t.offset;
    Pad4(t.year) + "-" + Pad2(t.month) + "-" + Pad2(t.day) + "T"
    + Pad2(t.hour) + ":" + Pad2(t.minute) + ":" + Pad2(t.second)
    + (if t.offset == 0 then "Z"
       else (if t.offset < 0 then "-" else "+") + Pad2(a / 60) + ":" + Pad2(a % 60))
  }

  // ---------------------------------------------------------------------
  // Parsing what was formatted

  lemma NumOfPad2(n: int, rest: string, fixed: bool)
    requires 0 <= n < 100
    ensures Num(Pad2(n) + rest, fixed) == Some(Scanned(n, rest))
  {
    var s := Pad2(n) + rest;
    assert s[..2] == Pad2(n) && s[2..] == rest;
  }

  lemma YearOfPad4(n: int, rest: string)
    requires 0 <= n < 10000
    ensures Year(Pad4(n) + rest) == Some(Scanned(n, rest))
  {
    var s := Pad4(n) + rest;
    assert s[..4] == Pad4(n) && s[4..] == rest;
    var hi, lo := Pad2(n / 100), Pad2(n % 100);
    assert Pad4(n) == hi + [lo[0]] + [lo[1]];
    assert hi == [hi[0]] + [hi[1]];
    assert [hi[0]] == [] + [hi[0]];
    DigitsValueSnoc([], hi[0]);
    DigitsValueSnoc([hi[0]], hi[1]);
    DigitsValueSnoc(hi, lo[0]);
    DigitsValueSnoc(hi + [lo[0]], lo[1]);
  }

  lemma SpaceOfOne(rest: string)
    requires rest != [] && rest[0] != ' '
    ensures Space(" " + rest) == Some(rest)
  {
    assert (" " + rest)[1..] == rest;
    assert DropSpaces(rest) == rest;
    assert DropSpaces(" " + rest) == DropSpaces(rest);
  }

  lemma LookupOfName(tab: seq<string>, k: nat, rest: string)
    requires k < |tab| && forall j :: 0 <= j < |tab| ==> |tab[j]| == 3
    requires forall j :: 0 <= j < k ==> !FoldEq(tab[k], tab[j])
    ensures Lookup(tab, tab[k] + rest, 0) == Some(Scanned(k, rest))
  {
    var s := tab[k] + rest;
    assert s[..3] == tab[k] && s[3..] == rest;
    LookupFrom(tab, k, s, 0);
  }

  lemma {:induction false} LookupFrom(tab: seq<string>, k: nat, s: string, i: nat)
    requires i <= k < |tab| && (forall j :: 0 <= j < |tab| ==> |tab[j]| == 3)
    requires |s| >= 3 && s[..3] == tab[k]
    requires forall j :: 0 <= j < k ==> !FoldEq(tab[k], tab[j])
    ensures Lookup(tab, s, i) == Some(Scanned(k, s[3..]))
    decreases k - i
  {
    if i < k {
      assert !FoldEq(s[..|tab[i]|], tab[i]);
      LookupFrom(tab, k, s, i + 1);
    }
  }

  lemma MonthNamesDistinct(k: nat)
    requires k < 12
    ensures forall j :: 0 <= j < k ==> !FoldEq(MonthNames[k], MonthNames[j])
  {
    forall j | 0 <= j < k ensures !FoldEq(MonthNames[k], MonthNames[j]) {
      assert MonthNames[k][0] != MonthNames[j][0] || MonthNames[k][1] != MonthNames[j][1]
          || MonthNames[k][2] != MonthNames[j][2];
    }
  }

  lemma DayNamesDistinct(k: nat)
    requires k < 7
    ensures forall j :: 0 <= j < k ==> !FoldEq(DayNames[k], DayNames[j])
  {
    forall j | 0 <= j < k ensures !FoldEq(DayNames[k], DayNames[j]) {
      assert DayNames[k][0] != DayNames[j][0] || DayNames[k][1] != DayNames[j][1];
    }
  }

  lemma ZoneOfZoneText(offset: int)
    requires -MaxZone < offset < MaxZone
    ensures Zone(ZoneText(offset)) == Some(Scanned(offset, []))
  {
    var a := if offset < 0 then -offset else offset;
    var z := ZoneText(offset);
    assert a / 60 <= 24 && a % 60 < 60 && a / 60 * 60 + a % 60 == a;
    assert |z| == 5 && z[5..] == [];
    assert z[1..3] == Pad2(a / 60) + [] && z[3..5] == Pad2(a % 60) + [];
    NumOfPad2(a / 60, [], true);
    NumOfPad2(a % 60, [], true);
  }

  lemma DayMonthYearOfText(t: DateTime, rest: string)
    requires Valid(t)
    ensures DayMonthYear(Pad2(t.day) + (" " + (MonthNames[t.month - 1] + (" " + (Pad4(t.year) + rest)))))
            == Some(DateScan(t.year, t.month, t.day, rest))
  {
    var p2 := " " + (Pad4(t.year) + rest);
    var p1 := MonthNames[t.month - 1] + p2;
    var p0 := " " + p1;
    NumOfPad2(t.day, p0, true);
    SpaceOfOne(p1);
    MonthNamesDistinct(t.month - 1);
    LookupOfName(MonthNames, t.month - 1, p2);
    SpaceOfOne(Pad4(t.year) + rest);
    YearOfPad4(t.year, rest);
  }

  lemma ClockTimeOfText(t: DateTime, rest: string)
    requires Valid(t) && (rest == [] || (rest[0] != '.' && rest[0] != ','))
    ensures ClockTime(Pad2(t.hour) + (":" + (Pad2(t.minute) + (":" + (Pad2(t.second) + rest)))))
            == Some(ClockScan(t.hour, t.minute, t.second, rest))
  {
    var p3 := ":" + (Pad2(t.second) + rest);
    var p2 := Pad2(t.minute) + p3;
    var p1 := ":" + p2;
    NumOfPad2(t.hour, p1, false);
    assert p1[1..] == p2;
    NumOfPad2(t.minute, p3, true);
    assert p3[1..] == Pad2(t.second) + rest;
    NumOfPad2(t.second, rest, true);
  }

  /** Reading back an RFC 1123 time with numeric zone gives the time that was
      written, for every offset except the extreme 24:60, which Go writes as
      "+2500" and then refuses to read. */
  lemma ParseOfFormatRFC1123Z(t: DateTime)
    requires Valid(t) && -MaxZone < t.offset < MaxZone
    ensures ParseRFC1123Z(FormatRFC1123Z(t)) == Some(t)
  {
    var w := Weekday(t.year, t.month, t.day);
    var z := ZoneText(t.offset);
    var c := ClockText(t, " " + z);
    var d := DateText(t, " " + c);
    var s := DayNames[w] + ("," + (" " + d));
    assert FormatRFC1123Z(t) == s;
    WeekdayOfText(w, d);
    DateOfText(t, " " + c);
    ClockOfText(t, " " + z);
    ZoneOfText(t.offset);
    ParseOfPieces(s, w, d, c, z, t);
  }

  /** "15:04:05" and what follows. */
  function ClockText(t: DateTime, rest: string): string
    requires Valid(t)
  {
    Pad2(t.hour) + (":" + (Pad2(t.minute) + (":" + (Pad2(t.second) + rest))))
  }

  /** "02 Jan 2006" and what follows. */
  function DateText(t: DateTime, rest: string): string
    requires Valid(t)
  {
    Pad2(t.day) + (" " + (MonthNames[t.month - 1] + (" " + (Pad4(t.year) + rest))))
  }

  lemma WeekdayOfText(w: nat, d: string)
    requires w < 7
    ensures Lookup(DayNames, DayNames[w] + ("," + (" " + d)), 0) == Some(Scanned(w, "," + (" " + d)))
    ensures Lit("," + (" " + d), ',') == Some(" " + d)
  {
    DayNamesDistinct(w);
    LookupOfName(DayNames, w, "," + (" " + d));
    assert ("," + (" " + d))[1..] == " " + d;
  }

  lemma DateOfText(t: DateTime, rest: string)
    requires Valid(t)
    ensures Space(" " + DateText(t, rest)) == Some(DateText(t, rest))
    ensures DayMonthYear(DateText(t, rest)) == Some(DateScan(t.year, t.month, t.day, rest))
  {
    var d := DateText(t, rest);
    assert d[0] == Pad2(t.day)[0];
    SpaceOfOne(d);
    DayMonthYearOfText(t, rest);
  }

  lemma ClockOfText(t: DateTime, rest: string)
    requires Valid(t) && (rest == [] || (rest[0] != '.' && rest[0] != ','))
    ensures Space(" " + ClockText(t, rest)) == Some(ClockText(t, rest))
    ensures ClockTime(ClockText(t, rest)) == Some(ClockScan(t.hour, t.minute, t.second, rest))
  {
    var c := ClockText(t, rest);
    assert c[0] == Pad2(t.hour)[0];
    SpaceOfOne(c);
    ClockTimeOfText(t, rest);
  }

  lemma ZoneOfText(offset: int)
    requires -MaxZone < offset < MaxZone
    ensures Space(" " + ZoneText(offset)) == Some(ZoneText(offset))
    ensures Zone(ZoneText(offset)) == Some(Scanned(offset, []))
  {
    var z := ZoneText(offset);
    assert z[0] == '-' || z[0] == '+';
    SpaceOfOne(z);
    ZoneOfZoneText(offset);
  }

  /** The parser's steps over the pieces of a formatted time. */
  lemma ParseOfPieces(s: string, w: nat, d: string, c: string, z: string, t: DateTime)
    requires Valid(t)
    requires Lookup(DayNames, s, 0) == Some(Scanned(w, "," + (" " + d)))
    requires Lit("," + (" " + d), ',') == Some(" " + d) && Space(" " + d) == Some(d)
    requires DayMonthYear(d) == Some(DateScan(t.year, t.month, t.day, " " + c))
    requires Space(" " + c) == Some(c)
    requires ClockTime(c) == Some(ClockScan(t.hour, t.minute, t.second, " " + z))
    requires Space(" " + z) == Some(z)
    requires Zone(z) == Some(Scanned(t.offset, []))
    ensures ParseRFC1123Z(s) == Some(t)
  {
  }

  /** The text "2006-01-02 15:04:05" of a time, as the check-in export writes it. */
  function DateTimeText(t: DateTime): string
    requires Valid(t)
  {
    Pad4(t.year) + ("-" + (Pad2(t.month) + ("-" + (Pad2(t.day) + (" "
    + (Pad2(t.hour) + (":" + (Pad2(t.minute) + (":" + Pad2(t.second))))))))))
  }

  lemma ClockTimeOfTextEnd(t: DateTime)
    requires Valid(t)
    ensures ClockTime(Pad2(t.hour) + (":" + (Pad2(t.minute) + (":" + Pad2(t.second)))))
            == Some(ClockScan(t.hour, t.minute, t.second, []))
  {
    assert Pad2(t.second) + [] == Pad2(t.second);
    ClockTimeOfText(t, []);
  }

  lemma YearMonthDayOfText(t: DateTime, rest: string)
    requires Valid(t)
    ensures YearMonthDay(Pad4(t.year) + ("-" + (Pad2(t.month) + ("-" + (Pad2(t.day) + rest)))))
            == Some(DateScan(t.year, t.month, t.day, rest))
  {
    var q := "-" + (Pad2(t.day) + rest);
    var p := "-" + (Pad2(t.month) + q);
    YearOfPad4(t.year, p);
    assert Lit(p, '-') == Some(Pad2(t.month) + q);
    NumOfPad2(t.month, q, true);
    assert Lit(q, '-') == Some(Pad2(t.day) + rest);
    NumOfPad2(t.day, rest, true);
  }

  /** Every valid UTC time written in that form reads back as itself. */
  lemma ParseOfDateTimeText(t: DateTime)
    requires Valid(t) && t.offset == 0
    ensures ParseDateTime(DateTimeText(t)) == Some(t)
  {
    var c := Pad2(t.hour) + (":" + (Pad2(t.minute) + (":" + Pad2(t.second))));
    YearMonthDayOfText(t, " " + c);
    SpaceOfOne(c);
    ClockTimeOfTextEnd(t);
  }

  /** The directory of a valid time is "YYYY/MM/DD": ten characters, slashes
      at positions 4 and 7, digits elsewhere. */
  lemma FormatYMDShape(t: DateTime)
    requires Valid(t)
    ensures |FormatYMD(t)| == 10 && FormatYMD(t)[4] == '/' && FormatYMD(t)[7] == '/'
    ensures FormatYMD(t)[..4] == Pad4(t.year) && FormatYMD(t)[5..7] == Pad2(t.month)
    ensures FormatYMD(t)[8..] == Pad2(t.day)
  {
  }

  /** The RFC 1123 text of 1 November 2025, midnight UTC: a Saturday. */
  lemma FormatNovember2025()
    ensures FormatRFC1123Z(DateTime(2025, 11, 1, 0, 0, 0, 0)) == "Sat, 01 Nov 2025 00:00:00 +0000"
  {
    NovemberPieces();
    NovemberText();
  }

  lemma NovemberPieces()
    ensures FormatRFC1123Z(DateTime(2025, 11, 1, 0, 0, 0, 0))
        == "Sat" + (", " + ("01" + (" " + ("Nov" + (" " + ("2025" + (" " + ("00" + (":" + ("00"
           + (":" + ("00" + (" " + "+0000")))))))))))))
  {
    assert Weekday(2025, 11, 1) == 6 && ZoneText(0) == "+0000";
    assert Pad2(0) == "00" && Pad2(1) == "01" && Pad2(20) == "20" && Pad2(25) == "25";
  }

  lemma NovemberText()
    ensures "Sat" + (", " + ("01" + (" " + ("Nov" + (" " + ("2025" + (" " + ("00" + (":" + ("00"
           + (":" + ("00" + (" " + "+0000")))))))))))))
        == "Sat, 01 Nov 2025 00:00:00 +0000"
  {
  }

  /** A check-in dated "Sat, 01 Nov 2025 00:00:00 +0000" reads back as that day. */
  lemma ParseNovember2025()
    ensures ParseRFC1123Z("Sat, 01 Nov 2025 00:00:00 +0000") == Some(DateTime(2025, 11, 1, 0, 0, 0, 0))
  {
    FormatNovember2025();
    ParseOfFormatRFC1123Z(DateTime(2025, 11, 1, 0, 0, 0, 0));
  }

  /** ... and the objects of any time on that day live under "2025/11/01". */
  lemma DirectoryNovember2025(t: DateTime)
    requires Valid(t) && t.year == 2025 && t.month == 11 && t.day == 1
    ensures FormatYMD(t) == "2025/11/01"
  {
    assert Pad2(1) == "01" && Pad2(11) == "11" && Pad2(20) == "20" && Pad2(25) == "25";
  }

  /** That time is a Sunday and is written back in RFC 1123 form in UTC. */
  lemma FormatNewYear2023()
    ensures FormatRFC1123Z(DateTime(2023, 1, 1, 12, 0, 0, 0)) == "Sun, 01 Jan 2023 12:00:00 +0000"
  {
    NewYearPieces();
    NewYearText();
  }

  lemma NewYearPieces()
    ensures FormatRFC1123Z(DateTime(2023, 1, 1, 12, 0, 0, 0))
        == "Sun" + (", " + ("01" + (" " + ("Jan" + (" " + ("2023" + (" " + ("12" + (":" + ("00"
           + (":" + ("00" + (" " + "+0000")))))))))))))
  {
    assert Weekday(2023, 1, 1) == 0 && ZoneText(0) == "+0000";
    assert Pad2(0) == "00" && Pad2(1) == "01" && Pad2(12) == "12" && Pad2(20) == "20" && Pad2(23) == "23";
  }

  lemma NewYearText()
    ensures "Sun" + (", " + ("01" + (" " + ("Jan" + (" " + ("2023" + (" " + ("12" + (":" + ("00"
           + (":" + ("00" + (" " + "+0000")))))))))))))
        == "Sun, 01 Jan 2023 12:00:00 +0000"
  {
  }
}
