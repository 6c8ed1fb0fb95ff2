/**
 * The metrics and advisories `analyzeBabyData` derives from the final tally
 * (Main.java:476-566): per-day rates, the hours since the last feeding, the
 * age-bracketed sleep recommendation, the fever rule and the fussy/crying
 * pattern. Only the decisions are modelled, not their printing.
 */
module InfantAdvice {
  import opened Wrappers
  import opened Numbers
  import opened Dates
  import opened Rows
  import opened InfantLog

  /**
   * `ChronoUnit.DAYS.between(birthDate, today)` (Main.java:476). In the Java
   * program a profile without a birth date throws a NullPointerException
   * earlier, while the profile is displayed (Main.java:135), and `main` does
   * not catch it, so no log is analysed. Here that case is None.
   */
  function DaysSinceBirth(birth: Option<Day>, today: Day): (r: Option<int>)
    ensures r.Some? <==> birth.Some?
    ensures r.Some? ==> birth.value + r.value == today
  {
    match birth
    case None => None
    case Some(b) => Some(today - b)
  }

  /** The divisor of every per-day rate: the days since birth, but at least 1. */
  function RateDivisor(days: int): (d: int)
    ensures d >= 1
    ensures days >= 1 ==> d == days
    ensures days < 1 ==> d == 1
  {
    if days >= 1 then days else 1
  }

  /**
   * A per-day rate (Main.java:485, 507, 528): the amount spread over the days
   * since birth, or over one day when the baby was born today or the birth
   * date lies in the future.
   */
  function PerDay(amount: real, days: int): (r: real)
    ensures r * (RateDivisor(days) as real) == amount
    ensures days <= 1 ==> r == amount
  {
    amount / (RateDivisor(days) as real)
  }

  /** Minutes between two moments, each a day number and a minute of that day. */
  function ElapsedMinutes(fromDay: Day, fromMinute: Minute, toDay: Day, toMinute: Minute): int
  {
    (toDay - fromDay) * 1440 + toMinute - fromMinute
  }

  /**
   * `ChronoUnit.HOURS.between(last feeding, now)` (Main.java:493-497):
   * whole hours, truncated toward zero.
   */
  function HoursSinceFeeding(f: FeedingStats, nowDay: Day, nowMinute: Minute): (r: Option<int>)
    ensures r.Some? <==> f.lastDate.Some? && f.lastTime.Some?
    ensures r.Some? ==>
      var m := ElapsedMinutes(f.lastDate.value, f.lastTime.value, nowDay, nowMinute);
      (m >= 0 ==> r.value * 60 <= m < r.value * 60 + 60) && (m < 0 ==> r.value * 60 - 60 < m <= r.value * 60)
  {
    if f.lastDate.Some? && f.lastTime.Some? then
      Some(JavaDiv(ElapsedMinutes(f.lastDate.value, f.lastTime.value, nowDay, nowMinute), 60))
    else None
  }

  /** The "over 4 hours since last feeding" warning (Main.java:499-501). */
  predicate FeedingOverdue(f: FeedingStats, nowDay: Day, nowMinute: Minute) {
    var h := HoursSinceFeeding(f, nowDay, nowMinute);
    h.Some? && h.value > 4
  }

  /** The warning fires exactly when five full hours (300 minutes) have passed since the last feeding. */
  lemma FeedingOverdueIff(f: FeedingStats, nowDay: Day, nowMinute: Minute)
    requires f.lastDate.Some? && f.lastTime.Some?
    ensures FeedingOverdue(f, nowDay, nowMinute) <==>
              ElapsedMinutes(f.lastDate.value, f.lastTime.value, nowDay, nowMinute) >= 300
  {
    var m := ElapsedMinutes(f.lastDate.value, f.lastTime.value, nowDay, nowMinute);
    var h := HoursSinceFeeding(f, nowDay, nowMinute).value;
    if m >= 300 {
      assert h * 60 + 60 > 300;
    }
  }

  /** Recommended daily sleep hours by age in 30-day months: 16 under 3 months, 14 under 12, else 13 (Main.java:516-518). */
  function RecommendedSleepHours(days: int): (h: int)
    ensures h == 16 || h == 14 || h == 13
  {
    var ageMonths := JavaDiv(days, 30);
    if ageMonths < 3 then 16 else if ageMonths < 12 then 14 else 13
  }

  /** The age brackets in days: under 90 days, 90 to 359 days, and 360 days on. */
  lemma RecommendedSleepBrackets(days: int)
    ensures RecommendedSleepHours(days) == 16 <==> days < 90
    ensures RecommendedSleepHours(days) == 14 <==> 90 <= days < 360
    ensures RecommendedSleepHours(days) == 13 <==> days >= 360
  {
    var q := JavaDiv(days, 30);
    if days >= 0 {
      assert q * 30 <= days < q * 30 + 30;
      if days < 90 { assert q < 3; }
      if days >= 90 { assert q >= 3; }
      if days < 360 { assert q < 12; }
      if days >= 360 { assert q >= 12; }
    }
  }

  /** The under-sleeping warning (Main.java:519-522): the daily average is below the recommendation. */
  predicate SleepingTooLittle(s: SleepStats, days: int) {
    PerDay(s.totalMinutes as real / 60.0, days) < RecommendedSleepHours(days) as real
  }

  /** The warning is the same as: fewer total minutes than the recommendation over all the days. */
  lemma SleepingTooLittleIff(s: SleepStats, days: int)
    ensures SleepingTooLittle(s, days) <==>
              s.totalMinutes < RecommendedSleepHours(days) * 60 * RateDivisor(days)
  {
    var bound := RecommendedSleepHours(days) * 60 * RateDivisor(days);
    AverageBelow(s.totalMinutes as real, RateDivisor(days) as real, RecommendedSleepHours(days) as real);
    assert bound as real == (RecommendedSleepHours(days) as real) * 60.0 * (RateDivisor(days) as real);
  }

  /** An hourly average over `d` days is below `rec` exactly when the minutes are below `rec * 60 * d`. */
  lemma AverageBelow(minutes: real, d: real, rec: real)
    requires d >= 1.0
    ensures minutes / 60.0 / d < rec <==> minutes < rec * 60.0 * d
  {
    var avg := minutes / 60.0 / d;
    assert avg * d * 60.0 == minutes;
    ScaleLess(avg, rec, d * 60.0);
    assert avg * (d * 60.0) == minutes;
    assert rec * (d * 60.0) == rec * 60.0 * d;
  }

  /** The temperature section's verdict (Main.java:536-547). */
  datatype TemperatureAlert = NoReadings | Fever | Elevated | Normal

  /**
   * No verdict without readings; a fever when the highest reading reaches
   * 38; otherwise elevated when the average reaches 37.5.
   */
  function TemperatureAlertOf(ts: TemperatureStats): (a: TemperatureAlert)
    ensures a == NoReadings <==> ts.count == 0
    ensures a == Fever <==> ts.count > 0 && ts.max >= 38.0
    ensures a == Elevated <==> ts.count > 0 && ts.max < 38.0 && ts.total >= 37.5 * (ts.count as real)
  {
    if ts.count == 0 then NoReadings
    else if ts.max >= 38.0 then Fever
    else
      var avg := ts.total / (ts.count as real);
      assert avg >= 37.5 <==> ts.total >= 37.5 * (ts.count as real) by {
        assert ts.total == avg * (ts.count as real);
      }
      if avg >= 37.5 then Elevated else Normal
  }

  /** The fever alert of a whole log fires exactly when some reading in it is 38 or more. */
  lemma FeverIffSomeReading(lines: seq<string>, today: Day)
    ensures var xs := Temperatures(lines);
      TemperatureAlertOf(InfantLines(InitialInfantTally, lines, today).temperature) == Fever <==>
        exists i :: 0 <= i < |xs| && xs[i] >= 38.0
    ensures TemperatureAlertOf(InfantLines(InitialInfantTally, lines, today).temperature) == NoReadings <==>
              Temperatures(lines) == []
  {
    TemperaturesOfLog(lines, today);
    MaxOfAtLeast(0.0, Temperatures(lines), 38.0);
  }

  /**
   * The fussy/crying pattern (Main.java:554-566), shown only when some mood
   * was logged: fussy and crying together are more than 40% of all mood
   * entries, as the exact rational `5 * (fussy + crying) > 2 * total`.
   */
  predicate FussyPattern(moods: multiset<string>) {
    |moods| > 0 && 5 * (moods["fussy"] + moods["crying"]) > 2 * |moods|
  }

  /** The integer test is the 40% share Main.java computes with `total * 0.4`. */
  lemma FussyPatternIsShare(moods: multiset<string>)
    ensures FussyPattern(moods) <==>
              |moods| > 0 && (moods["fussy"] + moods["crying"]) as real > (|moods| as real) * 0.4
  {
  }

  /** The latest recorded weight minus the birth weight, when any weight was recorded (Main.java:568-574). */
  function WeightGain(g: GrowthStats, birthWeight: real): (r: Option<real>)
    ensures r.Some? <==> g.weights != []
    ensures r.Some? ==> r.value + birthWeight == g.weights[|g.weights| - 1]
  {
    if g.weights == [] then None else Some(g.weights[|g.weights| - 1] - birthWeight)
  }
}
