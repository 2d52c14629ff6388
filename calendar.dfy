/** Timestamps in a fixed time zone, the two `DateFormatter` patterns the transaction
    window uses, and Gregorian calendar day arithmetic (`Calendar.date(byAdding: .day, ...)`).

    A pattern is a chain of segments: a numeric field of a timestamp component rendered with
    a minimum number of digits, or a literal character. Parsing is strict and fixed-width:
    every field takes exactly its width in decimal digits and every literal must match. */
module Calendar {
  import opened Wrappers

  datatype Timestamp = Timestamp(year: nat, month: nat, day: nat,
                                 hour: nat, minute: nat, second: nat, millisecond: nat)

  datatype Component = Year | Month | Day | Hour | Minute | Second | Millisecond

  datatype Pattern =
    | End
    | Field(component: Component, width: nat, next: Pattern)
    | Literal(symbol: char, next: Pattern)

  /** The wire format `yyyy-MM-dd'T'HH:mm:ss.SSS'Z'`; the `Z` is a literal, not a zone. */
  const WirePattern: Pattern :=
    Field(Year, 4, Literal('-', Field(Month, 2, Literal('-', Field(Day, 2,
    Literal('T', Field(Hour, 2, Literal(':', Field(Minute, 2, Literal(':',
    Field(Second, 2, Literal('.', Field(Millisecond, 3, Literal('Z', End))))))))))))))

  /** The short display format `dd/MM`. */
  const DayMonthPattern: Pattern := Field(Day, 2, Literal('/', Field(Month, 2, End)))

  // ---------------------------------------------------------------- decimal digits

  function Pow10(n: nat): (r: nat)
    ensures r >= 1
  {
    if n == 0 then 1 else 10 * Pow10(n - 1)
  }

  predicate IsDigit(c: char) {
    '0' <= c <= '9'
  }

  predicate AllDigits(s: string) {
    forall i :: 0 <= i < |s| ==> IsDigit(s[i])
  }

  function DigitValue(c: char): nat
    requires IsDigit(c)
  {
    c as int - '0' as int
  }

  function DigitChar(d: nat): (c: char)
    requires d < 10
    ensures IsDigit(c) && DigitValue(c) == d
  {
    ('0' as int + d) as char
  }

  /** The number a string of decimal digits denotes, most significant digit first. */
  function DigitsValue(s: string): nat
    requires AllDigits(s)
  {
    if s == [] then 0 else DigitsValue(s[..|s| - 1]) * 10 + DigitValue(s[|s| - 1])
  }

  /** `v` in decimal, left-padded with zeros to at least `width` digits, and never empty:
      how a numeric `DateFormatter` field such as `yyyy` or `dd` renders a value. */
  function Padded(v: nat, width: nat): (r: string)
    decreases v + width
  {
    (if width <= 1 && v < 10 then "" else Padded(v / 10, if width == 0 then 0 else width - 1))
    + [DigitChar(v % 10)]
  }

  lemma {:induction false} PaddedDigits(v: nat, width: nat)
    ensures AllDigits(Padded(v, width)) && |Padded(v, width)| >= 1
    decreases v + width
  {
    if !(width <= 1 && v < 10) {
      PaddedDigits(v / 10, if width == 0 then 0 else width - 1);
    }
  }

  lemma {:induction false} DigitsValueSnoc(s: string, c: char)
    requires AllDigits(s) && IsDigit(c)
    ensures AllDigits(s + [c]) && DigitsValue(s + [c]) == DigitsValue(s) * 10 + DigitValue(c)
  {
    assert (s + [c])[..|s|] == s;
  }

  /** A value below 10^width renders in exactly `width` digits that read back as the value. */
  lemma {:induction false} PaddedFixedWidth(v: nat, width: nat)
    requires 1 <= width && v < Pow10(width)
    ensures |Padded(v, width)| == width
    ensures AllDigits(Padded(v, width)) && DigitsValue(Padded(v, width)) == v
    decreases width
  {
    PaddedDigits(v, width);
    if width == 1 {
      assert Padded(v, width) == [DigitChar(v)];
      assert Padded(v, width) == [] + [DigitChar(v)];
      DigitsValueSnoc([], DigitChar(v));
    } else {
      PaddedFixedWidth(v / 10, width - 1);
      var prefix := Padded(v / 10, width - 1);
      assert Padded(v, width) == prefix + [DigitChar(v % 10)];
      DigitsValueSnoc(prefix, DigitChar(v % 10));
    }
  }

  /** `n` digits denote a value below 10^n. */
  lemma {:induction false} DigitsBound(s: string)
    requires AllDigits(s)
    ensures DigitsValue(s) < Pow10(|s|)
    decreases |s|
  {
    if s != [] {
      DigitsBound(s[..|s| - 1]);
    }
  }

  /** Decimal place value: the last digit and the rest are determined by the number. */
  lemma PlaceValue(a: nat, d: nat, b: nat, e: nat)
    requires d < 10 && e < 10 && a * 10 + d == b * 10 + e
    ensures a == b && d == e
  {
  }

  /** Two digit strings of the same length with the same value are equal. */
  lemma {:induction false} DigitsInjective(x: string, y: string)
    requires AllDigits(x) && AllDigits(y) && |x| == |y|
    requires DigitsValue(x) == DigitsValue(y)
    ensures x == y
    decreases |x|
  {
    if x != [] {
      var xi, yi := x[..|x| - 1], y[..|y| - 1];
      PlaceValue(DigitsValue(xi), DigitValue(x[|x| - 1]), DigitsValue(yi), DigitValue(y[|y| - 1]));
      DigitsInjective(xi, yi);
      assert x == xi + [x[|x| - 1]] && y == yi + [y[|y| - 1]];
    }
  }

  /** A string of digits is the padded rendering of its own value at its own width. */
  lemma PaddedOfDigits(s: string)
    requires 1 <= |s| && AllDigits(s)
    ensures Padded(DigitsValue(s), |s|) == s
  {
    DigitsBound(s);
    PaddedFixedWidth(DigitsValue(s), |s|);
    DigitsInjective(Padded(DigitsValue(s), |s|), s);
  }

  /** Equal sequences with one leading element each agree on that element and on the rest. */
  lemma ConsInjective(x: nat, xs: seq<nat>, y: nat, ys: seq<nat>)
    requires [x] + xs == [y] + ys
    ensures x == y && xs == ys
  {
    assert ([x] + xs)[0] == x && ([y] + ys)[0] == y;
    assert ([x] + xs)[1..] == xs && ([y] + ys)[1..] == ys;
  }

  // ---------------------------------------------------------------- patterns

  predicate WellFormedPattern(pattern: Pattern) {
    match pattern
    case End => true
    case Field(_, w, next) => w >= 1 && WellFormedPattern(next)
    case Literal(_, next) => WellFormedPattern(next)
  }

  function ComponentOf(t: Timestamp, c: Component): nat {
    match c
    case Year => t.year
    case Month => t.month
    case Day => t.day
    case Hour => t.hour
    case Minute => t.minute
    case Second => t.second
    case Millisecond => t.millisecond
  }

  /** Number of numeric fields of a pattern. */
  function FieldCount(pattern: Pattern): nat {
    match pattern
    case End => 0
    case Field(_, _, next) => 1 + FieldCount(next)
    case Literal(_, next) => FieldCount(next)
  }

  /** The values of the pattern's fields for `t`, in pattern order. */
  function FieldValues(pattern: Pattern, t: Timestamp): (r: seq<nat>)
    ensures |r| == FieldCount(pattern)
  {
    match pattern
    case End => []
    case Field(c, _, next) => [ComponentOf(t, c)] + FieldValues(next, t)
    case Literal(_, next) => FieldValues(next, t)
  }

  /** Every field's value fits in the field's width. */
  predicate FitsPattern(pattern: Pattern, t: Timestamp) {
    match pattern
    case End => true
    case Field(c, w, next) => ComponentOf(t, c) < Pow10(w) && FitsPattern(next, t)
    case Literal(_, next) => FitsPattern(next, t)
  }

  /** `DateFormatter.string(from:)` for a pattern. */
  function Format(pattern: Pattern, t: Timestamp): string {
    match pattern
    case End => ""
    case Field(c, w, next) => Padded(ComponentOf(t, c), w) + Format(next, t)
    case Literal(ch, next) => [ch] + Format(next, t)
  }

  /** The field values a strict `DateFormatter.date(from:)` reads from `s`, or None. */
  function ParseFields(pattern: Pattern, s: string): (r: Option<seq<nat>>)
    ensures r.Some? ==> |r.value| == FieldCount(pattern)
  {
    match pattern
    case End => if s == [] then Some([]) else None
    case Field(_, w, next) =>
      if w <= |s| && AllDigits(s[..w]) then
        match ParseFields(next, s[w..])
        case Some(rest) => Some([DigitsValue(s[..w])] + rest)
        case None => None
      else None
    case Literal(ch, next) =>
      if 1 <= |s| && s[0] == ch then ParseFields(next, s[1..]) else None
  }

  /** Parsing what was formatted gives back the field values. */
  lemma {:induction false} ParseOfFormat(pattern: Pattern, t: Timestamp)
    requires WellFormedPattern(pattern) && FitsPattern(pattern, t)
    ensures ParseFields(pattern, Format(pattern, t)) == Some(FieldValues(pattern, t))
  {
    match pattern
    case End =>
    case Field(c, w, next) =>
      ParseOfFormat(next, t);
      var head, rest := Padded(ComponentOf(t, c), w), Format(next, t);
      PaddedFixedWidth(ComponentOf(t, c), w);
      assert (head + rest)[..w] == head && (head + rest)[w..] == rest;
    case Literal(ch, next) =>
      ParseOfFormat(next, t);
      var rest := Format(next, t);
      assert ([ch] + rest)[0] == ch && ([ch] + rest)[1..] == rest;
  }

  /** Formatting what was parsed gives back the string: a strict fixed-width parse
      accepts only the canonical rendering. */
  lemma {:induction false} FormatOfParse(pattern: Pattern, s: string, t: Timestamp)
    requires WellFormedPattern(pattern)
    requires ParseFields(pattern, s) == Some(FieldValues(pattern, t))
    ensures Format(pattern, t) == s
  {
    match pattern
    case End =>
    case Field(c, w, next) =>
      var digits := s[..w];
      var rest := ParseFields(next, s[w..]).value;
      var tail := FieldValues(next, t);
      assert [DigitsValue(digits)] + rest == [ComponentOf(t, c)] + tail;
      ConsInjective(DigitsValue(digits), rest, ComponentOf(t, c), tail);
      PaddedOfDigits(digits);
      FormatOfParse(next, s[w..], t);
      assert s == digits + s[w..];
    case Literal(ch, next) =>
      FormatOfParse(next, s[1..], t);
      assert s == [ch] + s[1..];
  }

  // ---------------------------------------------------------------- the Gregorian calendar

  predicate IsLeapYear(y: nat) {
    y % 4 == 0 && (y % 100 != 0 || y % 400 == 0)
  }

  function DaysInMonth(y: nat, m: nat): (n: nat)
    requires 1 <= m <= 12
    ensures 28 <= n <= 31
  {
    if m == 2 then (if IsLeapYear(y) then 29 else 28)
    else if m == 4 || m == 6 || m == 9 || m == 11 then 30
    else 31
  }

  predicate ValidDate(t: Timestamp) {
    1 <= t.month <= 12 && 1 <= t.day <= DaysInMonth(t.year, t.month)
  }

  predicate ValidTime(t: Timestamp) {
    t.hour < 24 && t.minute < 60 && t.second < 60 && t.millisecond < 1000
  }

  predicate Valid(t: Timestamp) {
    ValidDate(t) && ValidTime(t)
  }

  predicate SameTimeOfDay(a: Timestamp, b: Timestamp) {
    a.hour == b.hour && a.minute == b.minute && a.second == b.second && a.millisecond == b.millisecond
  }

  function YearLength(y: nat): nat {
    if IsLeapYear(y) then 366 else 365
  }

  /** Days from 1 January of year 0 to 1 January of year `y` (proleptic Gregorian). */
  function DaysBeforeYear(y: nat): nat {
    if y == 0 then 0 else DaysBeforeYear(y - 1) + YearLength(y - 1)
  }

  /** Days from 1 January to the first day of month `m` in year `y`. */
  function DaysBeforeMonth(y: nat, m: nat): nat
    requires 1 <= m <= 12
  {
    if m == 1 then 0 else DaysBeforeMonth(y, m - 1) + DaysInMonth(y, m - 1)
  }

  /** The serial number of a date: an independent count of days since 1 January of year 0. */
  function DayNumber(t: Timestamp): int
    requires ValidDate(t)
  {
    DaysBeforeYear(t.year) + DaysBeforeMonth(t.year, t.month) + t.day - 1
  }

  /** The twelve months fill the year. */
  lemma MonthsFillYear(y: nat)
    ensures DaysBeforeMonth(y, 12) + DaysInMonth(y, 12) == YearLength(y)
  {
    assert DaysBeforeMonth(y, 2) == 31;
    assert DaysBeforeMonth(y, 3) == 31 + DaysInMonth(y, 2);
    assert DaysBeforeMonth(y, 4) == 62 + DaysInMonth(y, 2);
    assert DaysBeforeMonth(y, 5) == 92 + DaysInMonth(y, 2);
    assert DaysBeforeMonth(y, 6) == 123 + DaysInMonth(y, 2);
    assert DaysBeforeMonth(y, 7) == 153 + DaysInMonth(y, 2);
    assert DaysBeforeMonth(y, 8) == 184 + DaysInMonth(y, 2);
    assert DaysBeforeMonth(y, 9) == 215 + DaysInMonth(y, 2);
    assert DaysBeforeMonth(y, 10) == 245 + DaysInMonth(y, 2);
    assert DaysBeforeMonth(y, 11) == 276 + DaysInMonth(y, 2);
    assert DaysBeforeMonth(y, 12) == 306 + DaysInMonth(y, 2);
  }

  /** The day after `t`, rolling over the month and the year; the time of day is kept. */
  function NextDay(t: Timestamp): (r: Timestamp)
    requires ValidDate(t)
    ensures ValidDate(r)
  {
    if t.day < DaysInMonth(t.year, t.month) then t.(day := t.day + 1)
    else if t.month < 12 then t.(month := t.month + 1, day := 1)
    else t.(year := t.year + 1, month := 1, day := 1)
  }

  /** `Calendar.date(byAdding: .day, value: n, to: t)` in a zone without daylight saving. */
  function AddDays(t: Timestamp, n: nat): Timestamp
    requires ValidDate(t)
    decreases n
  {
    if n == 0 then t else AddDays(NextDay(t), n - 1)
  }

  /** The next day is a valid date one day number later, at the same time of day. */
  lemma NextDayNumber(t: Timestamp)
    requires ValidDate(t)
    ensures ValidDate(NextDay(t)) && SameTimeOfDay(NextDay(t), t)
    ensures DayNumber(NextDay(t)) == DayNumber(t) + 1
  {
    if t.day == DaysInMonth(t.year, t.month) && t.month == 12 {
      MonthsFillYear(t.year);
    }
  }

  /** Adding `n` days gives a valid date exactly `n` day numbers later, same time of day. */
  lemma {:induction false} AddDaysNumber(t: Timestamp, n: nat)
    requires ValidDate(t)
    ensures ValidDate(AddDays(t, n)) && SameTimeOfDay(AddDays(t, n), t)
    ensures DayNumber(AddDays(t, n)) == DayNumber(t) + n
    decreases n
  {
    if n > 0 {
      NextDayNumber(t);
      AddDaysNumber(NextDay(t), n - 1);
    }
  }

  lemma {:induction false} DaysBeforeYearGrows(a: nat, b: nat)
    requires a <= b
    ensures DaysBeforeYear(a) + 365 * (b - a) <= DaysBeforeYear(b)
    decreases b
  {
    if a < b {
      DaysBeforeYearGrows(a, b - 1);
    }
  }

  lemma {:induction false} MonthEndBound(y: nat, m: nat)
    requires 1 <= m <= 12
    ensures DaysBeforeMonth(y, m) + DaysInMonth(y, m) <= YearLength(y)
    decreases 12 - m
  {
    if m == 12 {
      MonthsFillYear(y);
    } else {
      MonthEndBound(y, m + 1);
    }
  }

  lemma {:induction false} DaysBeforeMonthGrows(y: nat, a: nat, b: nat)
    requires 1 <= a < b <= 12
    ensures DaysBeforeMonth(y, a) + DaysInMonth(y, a) <= DaysBeforeMonth(y, b)
    decreases b
  {
    if a + 1 < b {
      DaysBeforeMonthGrows(y, a, b - 1);
    }
  }

  /** A date's number lies within its own year's range of day numbers. */
  lemma DayNumberInYear(t: Timestamp)
    requires ValidDate(t)
    ensures DaysBeforeYear(t.year) <= DayNumber(t) < DaysBeforeYear(t.year + 1)
  {
    MonthEndBound(t.year, t.month);
  }

  /** Distinct valid dates have distinct day numbers, so a day number names one date. */
  lemma DayNumberInjective(a: Timestamp, b: Timestamp)
    requires ValidDate(a) && ValidDate(b) && DayNumber(a) == DayNumber(b)
    ensures a.year == b.year && a.month == b.month && a.day == b.day
  {
    DayNumberInYear(a);
    DayNumberInYear(b);
    if a.year < b.year {
      DaysBeforeYearGrows(a.year + 1, b.year);
      assert false;
    }
    if b.year < a.year {
      DaysBeforeYearGrows(b.year + 1, a.year);
      assert false;
    }
    if a.month < b.month {
      DaysBeforeMonthGrows(a.year, a.month, b.month);
      assert false;
    }
    if b.month < a.month {
      DaysBeforeMonthGrows(a.year, b.month, a.month);
      assert false;
    }
  }

  /** Within a year of day numbers at most one year boundary is crossed. */
  lemma AddDaysYearBound(t: Timestamp, n: nat)
    requires ValidDate(t) && n <= 365
    ensures AddDays(t, n).year <= t.year + 1
  {
    var r := AddDays(t, n);
    AddDaysNumber(t, n);
    DayNumberInYear(t);
    DayNumberInYear(r);
    if r.year > t.year + 1 {
      DaysBeforeYearGrows(t.year + 1, r.year);
      assert false;
    }
  }

  // ---------------------------------------------------------------- the wire timestamp

  function FromWireFields(v: seq<nat>): Timestamp
    requires |v| == 7
  {
    Timestamp(v[0], v[1], v[2], v[3], v[4], v[5], v[6])
  }

  /** The wire pattern reads and writes the seven components in calendar order. */
  lemma WirePatternFields(t: Timestamp)
    ensures WellFormedPattern(WirePattern)
    ensures FieldValues(WirePattern, t)
            == [t.year, t.month, t.day, t.hour, t.minute, t.second, t.millisecond]
    ensures Valid(t) && t.year < 10000 ==> FitsPattern(WirePattern, t)
  {
    var p13 := Literal('Z', End);
    assert FieldValues(p13, t) == [];
    var p12 := Field(Millisecond, 3, p13);
    assert FieldValues(p12, t) == [t.millisecond];
    var p11 := Literal('.', p12);
    assert FieldValues(p11, t) == [t.millisecond];
    var p10 := Field(Second, 2, p11);
    assert FieldValues(p10, t) == [t.second, t.millisecond];
    var p9 := Literal(':', p10);
    assert FieldValues(p9, t) == [t.second, t.millisecond];
    var p8 := Field(Minute, 2, p9);
    assert FieldValues(p8, t) == [t.minute, t.second, t.millisecond];
    var p7 := Literal(':', p8);
    assert FieldValues(p7, t) == [t.minute, t.second, t.millisecond];
    var p6 := Field(Hour, 2, p7);
    assert FieldValues(p6, t) == [t.hour, t.minute, t.second, t.millisecond];
    var p5 := Literal('T', p6);
    assert FieldValues(p5, t) == [t.hour, t.minute, t.second, t.millisecond];
    var p4 := Field(Day, 2, p5);
    assert FieldValues(p4, t) == [t.day, t.hour, t.minute, t.second, t.millisecond];
    var p3 := Literal('-', p4);
    assert FieldValues(p3, t) == [t.day, t.hour, t.minute, t.second, t.millisecond];
    var p2 := Field(Month, 2, p3);
    assert FieldValues(p2, t) == [t.month, t.day, t.hour, t.minute, t.second, t.millisecond];
    var p1 := Literal('-', p2);
    assert FieldValues(p1, t) == [t.month, t.day, t.hour, t.minute, t.second, t.millisecond];
    var p0 := Field(Year, 4, p1);
    assert FieldValues(p0, t) == [t.year, t.month, t.day, t.hour, t.minute, t.second, t.millisecond];
    assert p0 == WirePattern;
    assert Pow10(2) == 100 && Pow10(3) == 1000 && Pow10(4) == 10000;
    if Valid(t) && t.year < 10000 {
      assert FitsPattern(p13, t);
      assert FitsPattern(p12, t);
      assert FitsPattern(p11, t);
      assert FitsPattern(p10, t);
      assert FitsPattern(p9, t);
      assert FitsPattern(p8, t);
      assert FitsPattern(p7, t);
      assert FitsPattern(p6, t);
      assert FitsPattern(p5, t);
      assert FitsPattern(p4, t);
      assert FitsPattern(p3, t);
      assert FitsPattern(p2, t);
      assert FitsPattern(p1, t);
      assert FitsPattern(p0, t);
    }
  }

  /** `DateFormatter.date(from:)` with the wire pattern: None unless the string is exactly
      24 characters of that shape and names an existing date and time. */
  function ParseTimestamp(s: string): (r: Option<Timestamp>)
    ensures r.Some? ==> Valid(r.value)
  {
    WirePatternFields(Timestamp(0, 0, 0, 0, 0, 0, 0));
    match ParseFields(WirePattern, s)
    case None => None
    case Some(v) =>
      if Valid(FromWireFields(v)) then Some(FromWireFields(v)) else None
  }

  function FormatTimestamp(t: Timestamp): string {
    Format(WirePattern, t)
  }

  /** The wire rendering field by field: `yyyy-MM-dd'T'HH:mm:ss.SSS'Z'`. */
  lemma FormatTimestampFields(t: Timestamp)
    ensures FormatTimestamp(t)
            == Padded(t.year, 4) + ("-" + (Padded(t.month, 2) + ("-" + (Padded(t.day, 2)
               + ("T" + (Padded(t.hour, 2) + (":" + (Padded(t.minute, 2) + (":" + (Padded(t.second, 2) + ("." + (Padded(t.millisecond, 3) + "Z"))))))))))))
  {
    var p13 := Literal('Z', End);
    assert Format(p13, t) == "Z";
    var p12 := Field(Millisecond, 3, p13);
    assert Format(p12, t) == Padded(t.millisecond, 3) + Format(p13, t);
    var p11 := Literal('.', p12);
    assert Format(p11, t) == "." + Format(p12, t);
    var p10 := Field(Second, 2, p11);
    assert Format(p10, t) == Padded(t.second, 2) + Format(p11, t);
    var p9 := Literal(':', p10);
    assert Format(p9, t) == ":" + Format(p10, t);
    var p8 := Field(Minute, 2, p9);
    assert Format(p8, t) == Padded(t.minute, 2) + Format(p9, t);
    var p7 := Literal(':', p8);
    assert Format(p7, t) == ":" + Format(p8, t);
    var p6 := Field(Hour, 2, p7);
    assert Format(p6, t) == Padded(t.hour, 2) + Format(p7, t);
    var p5 := Literal('T', p6);
    assert Format(p5, t) == "T" + Format(p6, t);
    var p4 := Field(Day, 2, p5);
    assert Format(p4, t) == Padded(t.day, 2) + Format(p5, t);
    var p3 := Literal('-', p4);
    assert Format(p3, t) == "-" + Format(p4, t);
    var p2 := Field(Month, 2, p3);
    assert Format(p2, t) == Padded(t.month, 2) + Format(p3, t);
    var p1 := Literal('-', p2);
    assert Format(p1, t) == "-" + Format(p2, t);
    var p0 := Field(Year, 4, p1);
    assert Format(p0, t) == Padded(t.year, 4) + Format(p1, t);
    assert p0 == WirePattern;
  }

  /** Round trip: a valid timestamp with a four-digit year formats to a string that
      parses back to it. */
  lemma ParseOfFormatTimestamp(t: Timestamp)
    requires Valid(t) && t.year < 10000
    ensures ParseTimestamp(FormatTimestamp(t)) == Some(t)
  {
    WirePatternFields(t);
    ParseOfFormat(WirePattern, t);
  }

  /** Round trip: a string that parses is the formatting of what it parses to. */
  lemma FormatOfParseTimestamp(s: string)
    requires ParseTimestamp(s).Some?
    ensures FormatTimestamp(ParseTimestamp(s).value) == s
  {
    WirePatternFields(Timestamp(0, 0, 0, 0, 0, 0, 0));
    var v := ParseFields(WirePattern, s).value;
    var t := FromWireFields(v);
    WirePatternFields(t);
    assert FieldValues(WirePattern, t) == v;
    FormatOfParse(WirePattern, s, t);
  }
}
