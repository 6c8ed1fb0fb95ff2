/**
 * The two `java.time` parses the engine performs, `LocalDate.parse(s, "yyyy-MM-dd")`
 * and `LocalTime.parse(s, "HH:mm")`, with the formatter's default SMART resolver.
 * Dates become day numbers so that "today", "yesterday" and "a week ago" are
 * plain integer comparisons.
 */
module Dates {
  import opened Wrappers
  import opened Numbers

  /** A date as a count of days; 0001-01-01 is day 0. Only differences and order matter. */
  type Day = int

  /** A time of day in minutes after midnight. */
  type Minute = m: nat | m < 1440

  datatype Date = Date(year: int, month: int, day: int)

  predicate IsLeapYear(y: int) {
    y % 4 == 0 && (y % 100 != 0 || y % 400 == 0)
  }

  function MonthLength(y: int, m: int): (n: int)
    requires 1 <= m <= 12
    ensures 28 <= n <= 31
  {
    if m == 2 then (if IsLeapYear(y) then 29 else 28)
    else if m == 4 || m == 6 || m == 9 || m == 11 then 30
    else 31
  }

  function YearLength(y: int): int {
    if IsLeapYear(y) then 366 else 365
  }

  predicate ValidDate(d: Date) {
    d.year >= 1 && 1 <= d.month <= 12 && 1 <= d.day <= MonthLength(d.year, d.month)
  }

  /** Days in the proleptic Gregorian years before year `y`. */
  function DaysBeforeYear(y: int): int
    requires y >= 1
  {
    var p := y - 1;
    365 * p + p / 4 - p / 100 + p / 400
  }

  /** Days in year `y` before the first of month `m`. */
  function DaysBeforeMonth(y: int, m: int): int
    requires 1 <= m <= 12
  {
    var table := [0, 31, 59, 90, 120, 151, 181, 212, 243, 273, 304, 334];
    table[m - 1] + (if m > 2 && IsLeapYear(y) then 1 else 0)
  }

  function DayNumber(d: Date): Day
    requires ValidDate(d)
  {
    DaysBeforeYear(d.year) + DaysBeforeMonth(d.year, d.month) + d.day - 1
  }

  /** The closed form for whole years adds exactly one year length per year. */
  lemma YearStep(y: int)
    requires y >= 1
    ensures DaysBeforeYear(y + 1) == DaysBeforeYear(y) + YearLength(y)
  {
    CountStep(y - 1, 4);
    CountStep(y - 1, 100);
    CountStep(y - 1, 400);
    LeapCount(y);
  }

  /** The Gregorian rule as a count: one day for a multiple of 4, less one per 100, plus one per 400. */
  lemma LeapCount(y: int)
    ensures YearLength(y) == 365 + (if y % 4 == 0 then 1 else 0) - (if y % 100 == 0 then 1 else 0)
                                 + (if y % 400 == 0 then 1 else 0)
  {
    if y % 400 == 0 {
      assert y % 100 == 0 && y % 4 == 0 by { assert y == (y / 400) * 400; }
    } else if y % 100 == 0 {
      assert y % 4 == 0 by { assert y == (y / 100) * 100; }
    }
  }

  /** Moving from `p` to `p + 1` adds a multiple of `k` exactly when `p + 1` is one. */
  lemma CountStep(p: nat, k: int)
    requires k == 4 || k == 100 || k == 400
    ensures p / k + (if (p + 1) % k == 0 then 1 else 0) == (p + 1) / k
  {
    if k == 4 {
      assert p / 4 + (if (p + 1) % 4 == 0 then 1 else 0) == (p + 1) / 4;
    } else if k == 100 {
      assert p / 100 + (if (p + 1) % 100 == 0 then 1 else 0) == (p + 1) / 100;
    } else {
      assert p / 400 + (if (p + 1) % 400 == 0 then 1 else 0) == (p + 1) / 400;
    }
  }

  /** A date lies within its year: on or after its first day and before the next year's. */
  lemma WithinYear(d: Date)
    requires ValidDate(d)
    ensures DaysBeforeYear(d.year) <= DayNumber(d) < DaysBeforeYear(d.year + 1)
  {
    YearStep(d.year);
  }

  lemma {:induction false} YearsIncrease(y: int, z: int)
    requires 1 <= y <= z
    ensures DaysBeforeYear(y) <= DaysBeforeYear(z)
    decreases z - y
  {
    if y < z {
      YearStep(y);
      YearsIncrease(y + 1, z);
    }
  }

  /** Calendar order: earlier year, or same year and earlier month, or same month and earlier day. */
  predicate Before(a: Date, b: Date) {
    a.year < b.year || (a.year == b.year && (a.month < b.month || (a.month == b.month && a.day < b.day)))
  }

  lemma DayNumberMonotone(a: Date, b: Date)
    requires ValidDate(a) && ValidDate(b) && Before(a, b)
    ensures DayNumber(a) < DayNumber(b)
  {
    if a.year < b.year {
      WithinYear(a);
      WithinYear(b);
      YearsIncrease(a.year + 1, b.year);
    }
  }

  /**
   * Day numbers order dates exactly as the calendar does, so comparing day
   * numbers agrees with `LocalDate.equals` and `LocalDate.isBefore`.
   */
  lemma DayNumberOrder(a: Date, b: Date)
    requires ValidDate(a) && ValidDate(b)
    ensures Before(a, b) <==> DayNumber(a) < DayNumber(b)
    ensures a == b <==> DayNumber(a) == DayNumber(b)
  {
    if Before(a, b) {
      DayNumberMonotone(a, b);
    } else if Before(b, a) {
      DayNumberMonotone(b, a);
    }
  }

  /** Two-digit zero-padded rendering. */
  function Pad2(n: nat): (s: string)
    requires n < 100
    ensures |s| == 2 && AllDigits(s) && DigitsValue(s) == n
  {
    var s := [DigitChar(n / 10), DigitChar(n % 10)];
    assert s[..1][..0] == [];
    assert s[..1] == [DigitChar(n / 10)];
    assert DigitsValue(s[..1]) == n / 10;
    assert DigitsValue(s) == (n / 10) * 10 + n % 10;
    s
  }

  /** Four-digit zero-padded rendering. */
  function Pad4(n: nat): (s: string)
    requires n < 10000
    ensures |s| == 4 && AllDigits(s) && DigitsValue(s) == n
  {
    DigitsValueAppend(Pad2(n / 100), Pad2(n % 100));
    assert Pow10(2) == 100;
    Pad2(n / 100) + Pad2(n % 100)
  }

  /** The text `yyyy-MM-dd` for any field values that fit their widths. */
  function DateText(y: nat, m: nat, d: nat): string
    requires y < 10000 && m < 100 && d < 100
  {
    Pad4(y) + "-" + Pad2(m) + "-" + Pad2(d)
  }

  /**
   * `LocalDate.parse(s, ofPattern("yyyy-MM-dd"))`: four year digits, two month
   * digits, two day digits. Year 0 is rejected, month must be 1..12 and day
   * 1..31; the SMART resolver then moves a day past the end of its month
   * (the 30th of February, say) back to the month's last day. A failure is a
   * DateTimeParseException, modelled as None.
   */
  function ParseDate(s: string): (r: Option<Day>)
    ensures r.Some? ==> |s| == 10 && s[4] == '-' && s[7] == '-'
  {
    if |s| == 10 && s[4] == '-' && s[7] == '-' && AllDigits(s[..4]) && AllDigits(s[5..7]) && AllDigits(s[8..]) then
      var y := DigitsValue(s[..4]);
      var m := DigitsValue(s[5..7]);
      var d := DigitsValue(s[8..]);
      if y >= 1 && 1 <= m <= 12 && 1 <= d <= 31 then
        Some(DayNumber(Date(y, m, if d <= MonthLength(y, m) then d else MonthLength(y, m))))
      else None
    else None
  }

  /**
   * Every well-formed `yyyy-MM-dd` text parses to the day number of its date,
   * with the day clamped to the month's length, and is rejected exactly when a
   * field is out of range.
   */
  lemma ParseDateText(y: nat, m: nat, d: nat)
    requires y < 10000 && m < 100 && d < 100
    ensures ParseDate(DateText(y, m, d)).Some? <==> y >= 1 && 1 <= m <= 12 && 1 <= d <= 31
    ensures y >= 1 && 1 <= m <= 12 && 1 <= d <= MonthLength(y, m) ==>
              ParseDate(DateText(y, m, d)) == Some(DayNumber(Date(y, m, d)))
    ensures y >= 1 && 1 <= m <= 12 && MonthLength(y, m) < d <= 31 ==>
              ParseDate(DateText(y, m, d)) == Some(DayNumber(Date(y, m, MonthLength(y, m))))
  {
    var s := DateText(y, m, d);
    assert s[..4] == Pad4(y);
    assert s[5..7] == Pad2(m);
    assert s[8..] == Pad2(d);
  }

  /**
   * `LocalTime.parse(s, ofPattern("HH:mm"))`: exactly two hour digits, a colon
   * and two minute digits. Hours 0..23 and minutes 0..59 give that time; the
   * SMART resolver also reads `24:00` as midnight. Anything else is a
   * DateTimeParseException, modelled as None.
   */
  function ParseTime(s: string): (r: Option<Minute>)
  {
    if |s| == 5 && s[2] == ':' && AllDigits(s[..2]) && AllDigits(s[3..]) then
      var h := DigitsValue(s[..2]);
      var mi := DigitsValue(s[3..]);
      if h < 24 && mi < 60 then Some(h * 60 + mi)
      else if h == 24 && mi == 0 then Some(0)
      else None
    else None
  }

  function TimeText(h: nat, mi: nat): string
    requires h < 100 && mi < 100
  {
    Pad2(h) + ":" + Pad2(mi)
  }

  /** Every `HH:mm` text reads back as its minute of the day, and only in-range clocks are accepted. */
  lemma ParseTimeText(h: nat, mi: nat)
    requires h < 100 && mi < 100
    ensures ParseTime(TimeText(h, mi)).Some? <==> (h < 24 && mi < 60) || (h == 24 && mi == 0)
    ensures h < 24 && mi < 60 ==> ParseTime(TimeText(h, mi)) == Some(h * 60 + mi)
    ensures h == 24 && mi == 0 ==> ParseTime(TimeText(h, mi)) == Some(0)
  {
    var s := TimeText(h, mi);
    assert s[..2] == Pad2(h);
    assert s[3..] == Pad2(mi);
  }
}
