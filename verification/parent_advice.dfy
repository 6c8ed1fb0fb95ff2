/**
 * The decisions `displayMamaProfile` and `analyzeMamaData` derive from the
 * parent profile and the final tally (Main.java:255-283 and 796-972): the
 * pregnancy progress, the BMI-based weight-gain advice, the mood, sleep,
 * pumping, exercise and hydration verdicts, and the symptom and contraction
 * tips. Only the decisions are modelled, not their printing.
 */
module ParentAdvice {
  import opened Wrappers
  import opened Numbers
  import opened Dates
  import opened Rows
  import opened Profiles
  import opened ParentLog

  // ---------------------------------------------------------------------
  // Pregnancy progress

  /** The trimester of a pregnancy week: first through week 13, second through week 27, then third (Main.java:274). */
  function Trimester(weeks: int): (t: int)
    ensures 1 <= t <= 3
  {
    if weeks <= 13 then 1 else if weeks <= 27 then 2 else 3
  }

  /**
   * In days since the last menstrual period: the first trimester is the
   * first 98 days (weeks 0 to 13), the second the next 98, the third the rest.
   */
  lemma TrimesterByDays(days: int)
    ensures Trimester(JavaDiv(days, 7)) == 1 <==> days < 98
    ensures Trimester(JavaDiv(days, 7)) == 2 <==> 98 <= days < 196
    ensures Trimester(JavaDiv(days, 7)) == 3 <==> days >= 196
  {
    var q := JavaDiv(days, 7);
    if days >= 0 {
      assert q * 7 <= days < q * 7 + 7;
      if days < 98 { assert q <= 13; }
      if days >= 98 { assert q >= 14; }
      if days < 196 { assert q <= 27; }
      if days >= 196 { assert q >= 28; }
    }
  }

  /** What the profile display reports: time since delivery, or the pregnancy's progress. */
  datatype Progress =
    | Postpartum(days: int, weeks: int)
    | Pregnant(weeks: int, extraDays: int, trimester: int, daysUntilDue: Option<int>)

  /**
   * Main.java:262-281. With a delivery date, the days and whole weeks since
   * it. Otherwise the days since the last menstrual period as whole weeks and
   * remaining days (Java's truncating `/` and `%`), the trimester, and the
   * days until the due date. In the Java program a missing last menstrual
   * period (Main.java:271) or a missing due date (Main.java:278) throws a
   * NullPointerException while the profile is displayed, before either log
   * is analysed, and `main` does not catch it. Here the first is None and the
   * second leaves `daysUntilDue` None.
   */
  function ProgressOf(p: MamaProfile, today: Day): (r: Option<Progress>)
    ensures p.deliveryDate.Some? ==> r.Some? && r.value.Postpartum? && p.deliveryDate.value + r.value.days == today
    ensures r.Some? && r.value.Postpartum? && r.value.days >= 0 ==>
              r.value.weeks * 7 <= r.value.days < r.value.weeks * 7 + 7
    ensures r.Some? && r.value.Postpartum? && r.value.days < 0 ==>
              r.value.weeks * 7 - 7 < r.value.days <= r.value.weeks * 7
    ensures p.deliveryDate.None? ==> (r.Some? <==> p.lastMenstrualPeriod.Some?)
    ensures r.Some? && r.value.Pregnant? ==>
              var since := today - p.lastMenstrualPeriod.value;
              && r.value.weeks * 7 + r.value.extraDays == since
              && -7 < r.value.extraDays < 7
              && (since >= 0 ==> r.value.extraDays >= 0)
              && (since <= 0 ==> r.value.extraDays <= 0)
              && r.value.trimester == Trimester(r.value.weeks)
              && (r.value.trimester == 1 <==> since < 98)
              && (r.value.trimester == 3 <==> since >= 196)
              && (r.value.daysUntilDue.Some? <==> p.expectedDueDate.Some?)
              && (r.value.daysUntilDue.Some? ==> today + r.value.daysUntilDue.value == p.expectedDueDate.value)
  {
    match p.deliveryDate
    case Some(delivered) =>
      var days := today - delivered;
      Some(Postpartum(days, JavaDiv(days, 7)))
    case None =>
      match p.lastMenstrualPeriod
      case None => None
      case Some(lmp) =>
        var since := today - lmp;
        var weeks := JavaDiv(since, 7);
        TrimesterByDays(since);
        var due := if p.expectedDueDate.Some? then Some(p.expectedDueDate.value - today) else None;
        Some(Pregnant(weeks, JavaRem(since, 7), Trimester(weeks), due))
  }

  // ---------------------------------------------------------------------
  // Weight gain against the BMI recommendation (Main.java:796-813)

  /** The recommended total gain in kg for a pre-pregnancy BMI: 18 below 18.5, 15 below 25, 11 below 30, else 9 (Main.java:804). */
  function GainForBmi(bmi: real): (g: real)
    ensures g == 18.0 || g == 15.0 || g == 11.0 || g == 9.0
  {
    if bmi < 18.5 then 18.0 else if bmi < 25.0 then 15.0 else if bmi < 30.0 then 11.0 else 9.0
  }

  /**
   * The recommended gain for `bmi = preWeight / (height / 100)^2`
   * (Main.java:803-804), the square's division written as two divisions by
   * the height in metres. A height of 0 divides by zero: Java gives negative
   * infinity for a negative weight (so 18) and positive infinity or NaN
   * otherwise (so 9, as every comparison with NaN is false).
   */
  function RecommendedGain(preWeight: real, height: real): (g: real)
    ensures g == 18.0 || g == 15.0 || g == 11.0 || g == 9.0
    ensures height == 0.0 ==> (g == 18.0 <==> preWeight < 0.0)
  {
    if height == 0.0 then (if preWeight < 0.0 then 18.0 else 9.0)
    else GainForBmi(preWeight / (height / 100.0) / (height / 100.0))
  }

  /** The BMI bands as bounds on the weight: 18.5, 25 and 30 times the squared height in metres. */
  lemma RecommendedGainBands(preWeight: real, height: real)
    requires height != 0.0
    ensures var sq := (height / 100.0) * (height / 100.0);
      && (RecommendedGain(preWeight, height) == 18.0 <==> preWeight < 18.5 * sq)
      && (RecommendedGain(preWeight, height) == 15.0 <==> 18.5 * sq <= preWeight < 25.0 * sq)
      && (RecommendedGain(preWeight, height) == 11.0 <==> 25.0 * sq <= preWeight < 30.0 * sq)
      && (RecommendedGain(preWeight, height) == 9.0 <==> 30.0 * sq <= preWeight)
  {
    var m := height / 100.0;
    TwiceQuotientBelow(preWeight, m, 18.5);
    TwiceQuotientBelow(preWeight, m, 25.0);
    TwiceQuotientBelow(preWeight, m, 30.0);
  }

  datatype GainVerdict = AboveRecommended | BelowRecommended | WithinRecommended

  /**
   * The warning, shown only when some weight gain was logged: the heaviest
   * weight minus the pre-pregnancy weight, against the recommendation with a
   * margin of 3 kg either side.
   */
  function GainVerdictOf(w: WeightStats, p: MamaProfile): (r: Option<GainVerdict>)
    ensures r.None? <==> w.gainCount == 0
  {
    if w.gainCount == 0 then None
    else
      var recommended := RecommendedGain(p.prePregnancyWeight, p.height);
      var current := w.max - p.prePregnancyWeight;
      if current > recommended + 3.0 then Some(AboveRecommended)
      else if current < recommended - 3.0 then Some(BelowRecommended)
      else Some(WithinRecommended)
  }

  /** The verdict is within range exactly when the gain is no more than 3 kg from the recommendation. */
  lemma GainVerdictMargins(w: WeightStats, p: MamaProfile)
    requires w.gainCount > 0
    ensures var g := w.max - p.prePregnancyWeight;
      var rec := RecommendedGain(p.prePregnancyWeight, p.height);
      && (GainVerdictOf(w, p) == Some(WithinRecommended) <==> rec - 3.0 <= g <= rec + 3.0)
      && (GainVerdictOf(w, p) == Some(AboveRecommended) <==> g > rec + 3.0)
      && (GainVerdictOf(w, p) == Some(BelowRecommended) <==> g < rec - 3.0)
  {
  }

  /** 88 kg at 200 cm is a BMI of 22, so 15 kg is recommended, and a 20 kg gain is too much. */
  lemma GainVerdictExample(w: WeightStats, p: MamaProfile)
    requires p.prePregnancyWeight == 88.0 && p.height == 200.0
    requires w.gainCount > 0 && w.max == 108.0
    ensures RecommendedGain(p.prePregnancyWeight, p.height) == 15.0
    ensures GainVerdictOf(w, p) == Some(AboveRecommended)
  {
    RecommendedGainBands(88.0, 200.0);
    assert (200.0 / 100.0) * (200.0 / 100.0) == 4.0;
  }

  /**
   * Gains logged without any weight leave the maximum at its sentinel 0, so
   * the "gain" is minus the pre-pregnancy weight and the advice is always
   * that the gain is too low.
   */
  lemma GainWithoutWeightsReadsLow(w: WeightStats, p: MamaProfile)
    requires w.gainCount > 0 && w.max == 0.0 && p.prePregnancyWeight >= 0.0
    ensures GainVerdictOf(w, p) == Some(BelowRecommended)
  {
  }

  // ---------------------------------------------------------------------
  // Mood (Main.java:826-855)

  datatype MoodBand = Good | Fair | Challenging | Alert

  /** The mood verdict, shown only when some score was logged: bands of the average at 7, 5 and 3. */
  function MoodBandOf(m: MoodStats): (r: Option<MoodBand>)
    ensures r.None? <==> m.scoreCount == 0
  {
    if m.scoreCount == 0 then None
    else
      var avg := m.scoreTotal / (m.scoreCount as real);
      if avg >= 7.0 then Some(Good)
      else if avg >= 5.0 then Some(Fair)
      else if avg >= 3.0 then Some(Challenging)
      else Some(Alert)
  }

  /** The low-mood warning: some score was logged and the average is below 5. */
  predicate LowMoodWarning(m: MoodStats) {
    m.scoreCount > 0 && m.scoreTotal / (m.scoreCount as real) < 5.0
  }

  /**
   * The bands as bounds on the score sum, and the warning fires exactly in
   * the two lowest bands.
   */
  lemma MoodBands(m: MoodStats)
    requires m.scoreCount > 0
    ensures var n := m.scoreCount as real;
      && (MoodBandOf(m) == Some(Good) <==> m.scoreTotal >= 7.0 * n)
      && (MoodBandOf(m) == Some(Fair) <==> 5.0 * n <= m.scoreTotal < 7.0 * n)
      && (MoodBandOf(m) == Some(Challenging) <==> 3.0 * n <= m.scoreTotal < 5.0 * n)
      && (MoodBandOf(m) == Some(Alert) <==> m.scoreTotal < 3.0 * n)
    ensures LowMoodWarning(m) <==> MoodBandOf(m) == Some(Challenging) || MoodBandOf(m) == Some(Alert)
  {
    var n := m.scoreCount as real;
    QuotientBelow(m.scoreTotal, n, 7.0);
    QuotientBelow(m.scoreTotal, n, 5.0);
    QuotientBelow(m.scoreTotal, n, 3.0);
  }

  /** The band of a list of scores, from their mean. */
  function ScoreBand(xs: seq<real>): Option<MoodBand>
  {
    if xs == [] then None
    else
      var mean := SumOf(xs) / (|xs| as real);
      Some(if mean >= 7.0 then Good else if mean >= 5.0 then Fair else if mean >= 3.0 then Challenging else Alert)
  }

  /** The mood verdict of a log is the band of the mean of the scores it contains. */
  lemma MoodBandOfLog(lines: seq<string>)
    ensures MoodBandOf(ParentLines(InitialParentTally, lines).mood) == ScoreBand(MoodScores(lines))
  {
    MoodFold(InitialParentTally, lines);
  }

  /** Scores 8, 9 and 7 average 8, which is good; scores 2 and 3 average 2.5, which is an alert. */
  lemma ScoreBandExamples()
    ensures ScoreBand([8.0, 9.0, 7.0]) == Some(Good)
    ensures ScoreBand([2.0, 3.0]) == Some(Alert)
  {
    assert [8.0, 9.0, 7.0][..2] == [8.0, 9.0];
    assert [8.0, 9.0][..1] == [8.0];
    assert [8.0][..0] == [];
    assert SumOf([8.0, 9.0, 7.0]) == 24.0;
    assert [2.0, 3.0][..1] == [2.0];
    assert [2.0][..0] == [];
    assert SumOf([2.0, 3.0]) == 5.0;
  }

  // ---------------------------------------------------------------------
  // Sleep (Main.java:857-878)

  datatype SleepVerdict = Deprived(debtHours: real) | BelowSeven | Rested

  /**
   * The sleep verdict, shown only when some night was logged: an average
   * below 6 hours is deprivation, with a debt of 7 hours a night minus the
   * average, times the nights; below 7 hours is short of the recommendation.
   */
  function SleepVerdictOf(s: RestStats): (r: Option<SleepVerdict>)
    ensures r.None? <==> s.nights == 0
  {
    if s.nights == 0 then None
    else
      var avg := (s.totalMinutes as real / 60.0) / (s.nights as real);
      if avg < 6.0 then Some(Deprived((7.0 - avg) * (s.nights as real)))
      else if avg < 7.0 then Some(BelowSeven)
      else Some(Rested)
  }

  /**
   * In minutes: deprivation below 360 a night, short below 420 a night; the
   * debt is 7 hours a night less the hours slept.
   */
  lemma SleepBands(s: RestStats)
    requires s.nights > 0
    ensures var n := s.nights as real;
      var total := s.totalMinutes as real;
      && (SleepVerdictOf(s).value.Deprived? <==> total < 360.0 * n)
      && (SleepVerdictOf(s) == Some(BelowSeven) <==> 360.0 * n <= total < 420.0 * n)
      && (SleepVerdictOf(s) == Some(Rested) <==> 420.0 * n <= total)
      && (SleepVerdictOf(s).value.Deprived? ==> SleepVerdictOf(s).value.debtHours == 7.0 * n - total / 60.0)
  {
    var n := s.nights as real;
    var total := s.totalMinutes as real;
    var avg := (total / 60.0) / n;
    QuotientBelow(total / 60.0, n, 6.0);
    QuotientBelow(total / 60.0, n, 7.0);
    assert avg * n == total / 60.0;
    assert (7.0 - avg) * n == 7.0 * n - avg * n;
  }

  // ---------------------------------------------------------------------
  // Pumping (Main.java:880-895)

  /**
   * The low-production hint: the total spread over the sessions divided by
   * four, but at least one (four sessions counted as a day), is below 500 ml.
   */
  predicate PumpingLow(p: PumpingStats) {
    p.count > 0 && p.totalMl / Max(1.0, p.count as real / 4.0) < 500.0
  }

  /** Up to four sessions, the hint fires below 500 ml in all; beyond, below 125 ml a session. */
  lemma PumpingLowIff(p: PumpingStats)
    requires p.count > 0
    ensures p.count <= 4 ==> (PumpingLow(p) <==> p.totalMl < 500.0)
    ensures p.count >= 4 ==> (PumpingLow(p) <==> p.totalMl < 125.0 * (p.count as real))
  {
    var d := Max(1.0, p.count as real / 4.0);
    QuotientBelow(p.totalMl, d, 500.0);
    if p.count >= 4 {
      assert d == p.count as real / 4.0;
    }
  }

  // ---------------------------------------------------------------------
  // Exercise (Main.java:897-919)

  /** The minutes per session with Java's `int` division, truncated toward zero. */
  function MinutesPerSession(e: ExerciseStats): (r: int)
    requires e.count > 0
    ensures e.totalMinutes >= 0 ==> r * e.count <= e.totalMinutes < r * e.count + e.count
    ensures e.totalMinutes < 0 ==> r * e.count - e.count < e.totalMinutes <= r * e.count
  {
    JavaDiv(e.totalMinutes, e.count)
  }

  /** The weekly average: the mean minutes per session, times 7. */
  function WeeklyMinutes(e: ExerciseStats): real
    requires e.count > 0
  {
    (e.totalMinutes as real / e.count as real) * 7.0
  }

  /** The 150-minutes-a-week goal of Main.java:912-918. */
  predicate ExerciseGoalMet(e: ExerciseStats) {
    e.count > 0 && WeeklyMinutes(e) >= 150.0
  }

  /** The goal is met exactly when seven times the minutes reach 150 times the sessions. */
  lemma ExerciseGoalIff(e: ExerciseStats)
    requires e.count > 0
    ensures ExerciseGoalMet(e) <==> 7 * e.totalMinutes >= 150 * e.count
  {
    var n := e.count as real;
    QuotientBelow(e.totalMinutes as real, n, 150.0 / 7.0);
    assert WeeklyMinutes(e) == (e.totalMinutes as real / n) * 7.0;
    assert (7 * e.totalMinutes) as real == 7.0 * (e.totalMinutes as real);
    assert (150 * e.count) as real == 150.0 * n;
  }

  // ---------------------------------------------------------------------
  // Hydration (Main.java:921-931)

  datatype Hydration = BelowTwoLitres | Adequate | Excellent

  /** The hydration verdict, shown only when some day was logged: below 2 litres, or 2.5 litres and more. */
  function HydrationOf(w: WaterStats): (r: Option<Hydration>)
    ensures r.None? <==> w.days == 0
  {
    if w.days == 0 then None
    else
      var avg := w.totalLiters / (w.days as real);
      if avg < 2.0 then Some(BelowTwoLitres)
      else if avg >= 2.5 then Some(Excellent)
      else Some(Adequate)
  }

  /** The verdict as bounds on the total: 2 litres and 2.5 litres a day. */
  lemma HydrationBands(w: WaterStats)
    requires w.days > 0
    ensures var n := w.days as real;
      && (HydrationOf(w) == Some(BelowTwoLitres) <==> w.totalLiters < 2.0 * n)
      && (HydrationOf(w) == Some(Excellent) <==> w.totalLiters >= 2.5 * n)
      && (HydrationOf(w) == Some(Adequate) <==> 2.0 * n <= w.totalLiters < 2.5 * n)
  {
    var n := w.days as real;
    QuotientBelow(w.totalLiters, n, 2.0);
    QuotientBelow(w.totalLiters, n, 2.5);
  }

  // ---------------------------------------------------------------------
  // Symptom and contraction tips (Main.java:939-966)

  /** The nausea tip: more than 10 nausea entries. */
  predicate NauseaTip(symptoms: multiset<string>) {
    |symptoms| > 0 && symptoms["nausea"] > 10
  }

  /** The back-pain tip: more than 15 back-pain entries. */
  predicate BackPainTip(symptoms: multiset<string>) {
    |symptoms| > 0 && symptoms["back_pain"] > 15
  }

  /** The praise for tracking contractions: more than 10 of them. */
  predicate ContractionPraise(contractions: nat) {
    contractions > 10
  }

  /**
   * Over a whole log, each tip fires exactly when more than its threshold of
   * lines report that symptom, and the praise when more than 10 lines are
   * contraction rows.
   */
  lemma TipsOfLog(lines: seq<string>)
    ensures var r := ParentLines(InitialParentTally, lines);
      var reported := multiset(Symptoms(lines));
      && (NauseaTip(r.symptoms) <==> reported["nausea"] > 10)
      && (BackPainTip(r.symptoms) <==> reported["back_pain"] > 15)
      && (ContractionPraise(r.contractions) <==> ActivityCount(lines, "contractions") > 10)
  {
    SymptomFold(InitialParentTally, lines);
    ContractionsFold(InitialParentTally, lines);
  }
}
