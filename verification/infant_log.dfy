/**
 * The infant event-log pass of `analyzeBabyData` (Main.java:312-473): an
 * immutable tally folded over the lines of the log, one pure step per line.
 * The wall-clock date `LocalDate.now()` is the parameter `today`.
 *
 * Each `case` of the `switch` in Main.java updates its own group of local
 * variables and no other; the tally mirrors that with one record per group,
 * so that "this row changed only its own group" is visible in the types.
 */
module InfantLog {
  import opened Wrappers
  import opened JavaText
  import opened Numbers
  import opened Dates
  import opened Csv
  import opened Rows

  /** The activity names the `switch` of the infant loop recognises. */
  datatype InfantActivity =
    | Feeding | Sleep | Diaper | Temperature | Mood | Milestone
    | Memory | Pumping | Vaccine | DoctorVisit | Growth
    | UnknownActivity

  function InfantActivityName(a: InfantActivity): string
  {
    match a
    case Feeding => "feeding"
    case Sleep => "sleep"
    case Diaper => "diaper"
    case Temperature => "temperature"
    case Mood => "mood"
    case Milestone => "milestone"
    case Memory => "memory"
    case Pumping => "pumping"
    case Vaccine => "vaccine"
    case DoctorVisit => "doctor_visit"
    case Growth => "growth"
    case UnknownActivity => ""
  }

  const InfantActivityNames: set<string> :=
    {"feeding", "sleep", "diaper", "temperature", "mood", "milestone",
     "memory", "pumping", "vaccine", "doctor_visit", "growth"}

  /** The activities of the `case` labels, in the order the `switch` lists them. */
  const InfantCases: seq<InfantActivity> :=
    [Feeding, Sleep, Diaper, Temperature, Mood, Milestone, Memory, Pumping, Vaccine, DoctorVisit, Growth]

  /** The first `case` label from position `i` on whose name is exactly `name`; UnknownActivity when none is. */
  function FirstInfantCase(name: string, i: nat): (a: InfantActivity)
    requires i <= |InfantCases|
    ensures a != UnknownActivity ==> InfantActivityName(a) == name
    ensures a == UnknownActivity ==> forall j :: i <= j < |InfantCases| ==> InfantActivityName(InfantCases[j]) != name
    decreases |InfantCases| - i
  {
    if i == |InfantCases| then UnknownActivity
    else if InfantActivityName(InfantCases[i]) == name then InfantCases[i]
    else FirstInfantCase(name, i + 1)
  }

  /** The `switch (activity)` dispatch: exact string match, anything else matches no case. */
  function InfantActivityOf(name: string): (a: InfantActivity)
    ensures a != UnknownActivity ==> InfantActivityName(a) == name
  {
    FirstInfantCase(name, 0)
  }

  /** The lookup stops at the first label from position `i` on with that name. */
  lemma {:induction false} FirstInfantCaseAt(name: string, i: nat, k: nat)
    requires i <= k < |InfantCases| && InfantActivityName(InfantCases[k]) == name
    requires forall j :: i <= j < k ==> InfantActivityName(InfantCases[j]) != name
    ensures FirstInfantCase(name, i) == InfantCases[k]
    decreases k - i
  {
    if i < k {
      FirstInfantCaseAt(name, i + 1, k);
    }
  }

  /** Where each known activity sits among the `case` labels; the eleven names are distinct. */
  function InfantCaseIndex(a: InfantActivity): (k: nat)
    requires a != UnknownActivity
    ensures k < |InfantCases| && InfantCases[k] == a
    ensures forall j :: 0 <= j < k ==> InfantActivityName(InfantCases[j]) != InfantActivityName(a)
  {
    match a
    case Feeding => 0
    case Sleep => 1
    case Diaper => 2
    case Temperature => 3
    case Mood => 4
    case Milestone => 5
    case Memory => 6
    case Pumping => 7
    case Vaccine => 8
    case DoctorVisit => 9
    case Growth => 10
  }

  /** Naming a known activity and dispatching on the name gives the activity back. */
  lemma InfantActivityRoundTrip(a: InfantActivity)
    requires a != UnknownActivity
    ensures InfantActivityOf(InfantActivityName(a)) == a
  {
    FirstInfantCaseAt(InfantActivityName(a), 0, InfantCaseIndex(a));
  }

  /** The names the dispatch recognises are exactly the eleven activity names. */
  lemma InfantActivityNamesKnown(name: string)
    ensures InfantActivityOf(name) == UnknownActivity <==> name !in InfantActivityNames
  {
    if name in InfantActivityNames {
      var a := if name == "feeding" then Feeding else if name == "sleep" then Sleep
        else if name == "diaper" then Diaper else if name == "temperature" then Temperature
        else if name == "mood" then Mood else if name == "milestone" then Milestone
        else if name == "memory" then Memory else if name == "pumping" then Pumping
        else if name == "vaccine" then Vaccine else if name == "doctor_visit" then DoctorVisit
        else Growth;
      assert InfantActivityName(a) == name;
      InfantActivityRoundTrip(a);
    } else {
      InfantNamesListed();
    }
  }

  /** Every known activity's name is one of the eleven. */
  lemma InfantNamesListed()
    ensures forall a :: a != UnknownActivity ==> InfantActivityName(a) in InfantActivityNames
  {
  }

  /** A name dispatches to a known activity exactly when it is that activity's name. */
  lemma InfantActivityIs(name: string, a: InfantActivity)
    requires a != UnknownActivity
    ensures InfantActivityOf(name) == a <==> name == InfantActivityName(a)
  {
    InfantActivityRoundTrip(a);
  }

  // ---------------------------------------------------------------------
  // The tally (the local variables of Main.java:317-339)

  /** Feeding counters, the feeding-type table and the last feeding moment. */
  datatype FeedingStats = FeedingStats(
    total: nat, today: nat, yesterday: nat, week: nat,
    types: multiset<string>,
    lastTime: Option<Minute>, lastDate: Option<Day>)

  /** Sleep minutes are Java `int` sums; the quality table counts each label. */
  datatype SleepStats = SleepStats(totalMinutes: Int32, todayMinutes: Int32, quality: multiset<string>)

  datatype DiaperStats = DiaperStats(total: nat, today: nat, types: multiset<string>)

  /** Temperature sum, count and extrema; the extrema start at the sentinels 0 and 100. */
  datatype TemperatureStats = TemperatureStats(total: real, count: nat, max: real, min: real)

  datatype GrowthStats = GrowthStats(weights: seq<real>, heights: seq<real>)

  datatype InfantTally = InfantTally(
    feeding: FeedingStats,
    sleep: SleepStats,
    diapers: DiaperStats,
    temperature: TemperatureStats,
    moods: multiset<string>,
    milestones: Notes,
    memories: Notes,
    vaccines: Notes,
    doctorVisits: nat,
    pumping: PumpingStats,
    growth: GrowthStats)

  /** The initial values, including the sentinels `maxTemp = 0` and `minTemp = 100` (Main.java:322). */
  const InitialInfantTally: InfantTally := InfantTally(
    FeedingStats(0, 0, 0, 0, multiset{}, None, None),
    SleepStats(0, 0, multiset{}),
    DiaperStats(0, 0, multiset{}),
    TemperatureStats(0.0, 0, 0.0, 100.0),
    multiset{},
    Notes(0, []),
    Notes(0, []),
    Notes(0, []),
    0,
    PumpingStats(0, 0.0),
    GrowthStats([], []))

  /** The row's date text and how its day relates to `today`. */
  datatype RowDate = RowDate(text: string, day: Day, isToday: bool, isYesterday: bool, isThisWeek: bool)

  /** Whether a row dated `day` falls today, yesterday, or within the last seven days (the week-ago day included). */
  function DateRelativeTo(text: string, day: Day, today: Day): (d: RowDate)
    ensures d.day == day && d.text == text
    ensures d.isToday <==> day == today
    ensures d.isYesterday <==> day == today - 1
    ensures d.isThisWeek <==> today - 7 <= day
  {
    RowDate(text, day, day == today, day == today - 1, day >= today - 7)
  }

  // ---------------------------------------------------------------------
  // One function per `case`; those that can throw return a `Try`.

  /** `case "feeding"` (Main.java:362-376): the counts first, then the last-feeding moment. */
  function FeedingStep(f: FeedingStats, cols: seq<string>, timeText: string, d: RowDate): Try<FeedingStats, FeedingStats>
  {
    var f1 := f.(total := f.total + 1,
                 today := f.today + Flag(d.isToday),
                 yesterday := f.yesterday + Flag(d.isYesterday),
                 week := f.week + Flag(d.isThisWeek));
    var f2 := if Present(cols, 3) then f1.(types := Note(f1.types, Trim(cols[3]))) else f1;
    if timeText == [] then Continue(f2)
    else
      var f3 := f2.(lastDate := Some(d.day));
      var time :- Attempt(ParseTime(timeText), f3);
      Continue(f3.(lastTime := Some(time)))
  }

  /** `case "sleep"` (Main.java:379-391): only an exact `end` marker records anything. */
  function SleepStep(s: SleepStats, cols: seq<string>, d: RowDate): Try<SleepStats, SleepStats>
  {
    if |cols| > 4 && cols[4] == "end" then
      var minutes :- if Present(cols, 5) then Attempt(ParseInt(Trim(cols[5])), s) else Continue(0);
      var s1 := s.(totalMinutes := AddInt32(s.totalMinutes, minutes),
                   todayMinutes := if d.isToday then AddInt32(s.todayMinutes, minutes) else s.todayMinutes);
      Continue(if Present(cols, 7) then s1.(quality := Note(s1.quality, Trim(cols[7]))) else s1)
    else Continue(s)
  }

  /** `case "diaper"` (Main.java:393-400): every row counts, and a present type column is tallied. */
  function DiaperStep(ds: DiaperStats, cols: seq<string>, d: RowDate): (r: DiaperStats)
    ensures r.total == ds.total + 1
    ensures r.today == ds.today + (if d.isToday then 1 else 0)
    ensures r.types == ds.types + (if Present(cols, 3) then multiset{Trim(cols[3])} else multiset{})
  {
    var d1 := ds.(total := ds.total + 1, today := ds.today + Flag(d.isToday));
    if Present(cols, 3) then d1.(types := Note(d1.types, Trim(cols[3]))) else d1
  }

  /** One more reading in the temperature statistics. */
  function Record(ts: TemperatureStats, x: real): (r: TemperatureStats)
    ensures r.count == ts.count + 1 && r.total == ts.total + x
    ensures r.max >= x && r.min <= x
  {
    TemperatureStats(ts.total + x, ts.count + 1, Max(ts.max, x), Min(ts.min, x))
  }

  /** The reading in `cols[5]`, if the field is non-empty and parses. */
  function TemperatureField(cols: seq<string>): Option<real> {
    if Present(cols, 5) then ReadDouble(cols[5]) else None
  }

  /** `case "temperature"` (Main.java:402-410): the statistics take the reading, or stay as they were. */
  function TemperatureStep(ts: TemperatureStats, cols: seq<string>): (r: Try<TemperatureStats, TemperatureStats>)
    ensures TemperatureField(cols).Some? ==> Settle(r) == Record(ts, TemperatureField(cols).value)
    ensures TemperatureField(cols).None? ==> Settle(r) == ts
  {
    if Present(cols, 5) then
      var x :- Attempt(ReadDouble(cols[5]), ts);
      Continue(Record(ts, x))
    else Continue(ts)
  }

  /** `case "mood"` (Main.java:412-417): a present mood column is tallied, and nothing else is. */
  function MoodStep(moods: multiset<string>, cols: seq<string>): (r: multiset<string>)
    ensures |r| == |moods| + (if Present(cols, 3) then 1 else 0)
    ensures r == moods + (if Present(cols, 3) then multiset{Trim(cols[3])} else multiset{})
  {
    if Present(cols, 3) then Note(moods, Trim(cols[3])) else moods
  }

  /** `case "vaccine"` (Main.java:444-448): a missing name column reads as `Unknown`. */
  function VaccineStep(n: Notes, cols: seq<string>, d: RowDate): (r: Notes)
    ensures r.count == n.count + 1 && |r.entries| == |n.entries| + 1
    ensures r.entries[..|n.entries|] == n.entries
    ensures |cols| > 3 ==> r.entries[|n.entries|] == d.text + ": " + Trim(cols[3])
    ensures |cols| <= 3 ==> r.entries[|n.entries|] == d.text + ": Unknown"
  {
    var name := if |cols| > 3 then Trim(cols[3]) else "Unknown";
    Notes(n.count + 1, n.entries + [d.text + ": " + name])
  }

  /**
   * The growth reading a row carries for `kind`: the raw `cols[3]` is exactly
   * `kind`, and `cols[5]`, trimmed and stripped of every `unit`, is non-empty
   * and parses.
   */
  function GrowthReading(cols: seq<string>, kind: string, unit: string): Option<real>
    requires unit != []
  {
    if |cols| > 5 && cols[3] == kind && RemoveAll(Trim(cols[5]), unit) != [] then ParseDouble(RemoveAll(Trim(cols[5]), unit))
    else None
  }

  function AsList(x: Option<real>): seq<real> {
    if x.Some? then [x.value] else []
  }

  /** A growth measurement in `cols[5]`, recorded only when the raw `cols[3]` is exactly `kind`. */
  function GrowthMeasurement(g: GrowthStats, cols: seq<string>, kind: string, unit: string): (r: Try<Option<real>, GrowthStats>)
    requires unit != []
    ensures r.Continue? ==> r.value == GrowthReading(cols, kind, unit)
    ensures r.Threw? ==> r.state == g && GrowthReading(cols, kind, unit).None?
    ensures r.Threw? ==> |cols| > 5 && cols[3] == kind
  {
    if |cols| > 3 && cols[3] == kind && |cols| > 5 then
      var text := RemoveAll(Trim(cols[5]), unit);
      if text != [] then
        var x :- Attempt(ParseDouble(text), g);
        Continue(Some(x))
      else Continue(None)
    else Continue(None)
  }

  /** `case "growth"` (Main.java:454-467): the weight test, then the height test. */
  function GrowthStep(g: GrowthStats, cols: seq<string>): Try<GrowthStats, GrowthStats>
  {
    var weight :- GrowthMeasurement(g, cols, "weight", "kg");
    var g1 := g.(weights := g.weights + AsList(weight));
    var height :- GrowthMeasurement(g1, cols, "height", "cm");
    Continue(g1.(heights := g1.heights + AsList(height)))
  }

  /** A row carries a reading for at most one of the two kinds. */
  lemma OneGrowthKind(cols: seq<string>)
    ensures GrowthReading(cols, "weight", "kg").None? || GrowthReading(cols, "height", "cm").None?
    ensures |cols| > 3 && cols[3] == "weight" ==> GrowthReading(cols, "height", "cm").None?
  {
    assert "weight"[0] != "height"[0];
  }

  /** The growth statistics with each list extended by the reading the row carries for it. */
  function WithReadings(g: GrowthStats, cols: seq<string>): GrowthStats {
    g.(weights := g.weights + AsList(GrowthReading(cols, "weight", "kg")),
       heights := g.heights + AsList(GrowthReading(cols, "height", "cm")))
  }

  /**
   * Each list gains exactly the reading the row carries for it: a throw
   * happens only where that reading is missing, and after the weight throws
   * there is no height reading to lose.
   */
  lemma GrowthStepReadings(g: GrowthStats, cols: seq<string>)
    ensures Settle(GrowthStep(g, cols)) == WithReadings(g, cols)
    ensures Settle(GrowthStep(g, cols)).weights == g.weights + AsList(GrowthReading(cols, "weight", "kg"))
    ensures Settle(GrowthStep(g, cols)).heights == g.heights + AsList(GrowthReading(cols, "height", "cm"))
  {
    if GrowthMeasurement(g, cols, "weight", "kg").Threw? {
      WeightThrows(g, cols);
    } else if GrowthMeasurement(WeightRecorded(g, cols), cols, "height", "cm").Threw? {
      HeightThrows(g, cols);
    } else {
      BothMeasured(g, cols);
    }
  }

  /** The statistics once the weight test has passed. */
  function WeightRecorded(g: GrowthStats, cols: seq<string>): GrowthStats {
    g.(weights := g.weights + AsList(GrowthReading(cols, "weight", "kg")))
  }

  /** A weight that does not parse ends the `case` with nothing recorded, and the row has no height. */
  lemma WeightThrows(g: GrowthStats, cols: seq<string>)
    requires GrowthMeasurement(g, cols, "weight", "kg").Threw?
    ensures Settle(GrowthStep(g, cols)) == WithReadings(g, cols)
  {
    OneGrowthKind(cols);
    assert Settle(GrowthStep(g, cols)) == g;
  }

  /** A height that does not parse ends the `case` after the weight test. */
  lemma HeightThrows(g: GrowthStats, cols: seq<string>)
    requires GrowthMeasurement(g, cols, "weight", "kg").Continue?
    requires GrowthMeasurement(WeightRecorded(g, cols), cols, "height", "cm").Threw?
    ensures Settle(GrowthStep(g, cols)) == WithReadings(g, cols)
  {
    assert Settle(GrowthStep(g, cols)) == WeightRecorded(g, cols);
  }

  lemma BothMeasured(g: GrowthStats, cols: seq<string>)
    requires GrowthMeasurement(g, cols, "weight", "kg").Continue?
    requires GrowthMeasurement(WeightRecorded(g, cols), cols, "height", "cm").Continue?
    ensures Settle(GrowthStep(g, cols)) == WithReadings(g, cols)
  {
  }

  // ---------------------------------------------------------------------
  // Rows, lines and the loop

  /** The day of a row: None when the trimmed date field is blank or `LocalDate.parse` throws. */
  function RowDay(cols: seq<string>): (r: Option<Day>)
    requires |cols| >= 1
    ensures r.Some? ==> Trim(cols[0]) != [] && ParseDate(Trim(cols[0])) == r
    ensures r.None? <==> Trim(cols[0]) == [] || ParseDate(Trim(cols[0])).None?
  {
    var dateText := Trim(cols[0]);
    if dateText == [] then None else ParseDate(dateText)
  }

  /**
   * The `switch (activity)` of a dated row: each `case` changes only its own
   * group, keeping what it updated before a throw; an unknown activity
   * changes nothing.
   */
  function Dispatch(t: InfantTally, cols: seq<string>, d: RowDate, activity: InfantActivity): (r: InfantTally)
    requires |cols| >= 3
    ensures activity == UnknownActivity ==> r == t
    ensures activity != Temperature ==> r.temperature == t.temperature
  {
    match activity
    case Feeding => t.(feeding := Settle(FeedingStep(t.feeding, cols, Trim(cols[1]), d)))
    case Sleep => t.(sleep := Settle(SleepStep(t.sleep, cols, d)))
    case Diaper => t.(diapers := DiaperStep(t.diapers, cols, d))
    case Temperature => t.(temperature := Settle(TemperatureStep(t.temperature, cols)))
    case Mood => t.(moods := MoodStep(t.moods, cols))
    // `case "milestone"` and `case "memory"` (Main.java:419-431)
    case Milestone => t.(milestones := NoteStep(t.milestones, cols, 19, d.text))
    case Memory => t.(memories := NoteStep(t.memories, cols, 20, d.text))
    // `case "pumping"` (Main.java:433-442)
    case Pumping => t.(pumping := Settle(PumpingStep(t.pumping, cols, 5)))
    case Vaccine => t.(vaccines := VaccineStep(t.vaccines, cols, d))
    case DoctorVisit => t.(doctorVisits := t.doctorVisits + 1)
    case Growth => t.(growth := Settle(GrowthStep(t.growth, cols)))
    case UnknownActivity => t
  }

  /**
   * One row of at least three fields (Main.java:349-472). A blank or
   * unparsable date leaves the tally as it was; otherwise the row is
   * dispatched on its trimmed activity.
   */
  function InfantRow(t: InfantTally, cols: seq<string>, today: Day): (r: InfantTally)
    requires |cols| >= 3
    ensures InfantActivityOf(Trim(cols[2])) == UnknownActivity ==> r == t
    ensures RowDay(cols).None? ==> r == t
  {
    match RowDay(cols)
    case None => t
    case Some(day) => Dispatch(t, cols, DateRelativeTo(Trim(cols[0]), day, today), InfantActivityOf(Trim(cols[2])))
  }

  /**
   * One raw line (Main.java:343-347): trimmed, skipped when blank, tokenized,
   * and skipped when it has fewer than three fields, that is, fewer than two
   * commas outside quotes.
   */
  function InfantLine(t: InfantTally, raw: string, today: Day): (r: InfantTally)
    ensures Trim(raw) == [] || UnquotedCommas(Trim(raw)) < 2 ==> r == t
    ensures RowColumns(raw).Some? ==> r == InfantRow(t, RowColumns(raw).value, today)
  {
    match RowColumns(raw)
    case None => t
    case Some(cols) => InfantRow(t, cols, today)
  }

  /** The `for` loop over the data lines, in file order: the last line is folded in last. */
  function InfantLines(t: InfantTally, lines: seq<string>, today: Day): InfantTally
    decreases |lines|
  {
    if lines == [] then t
    else InfantLine(InfantLines(t, lines[..|lines| - 1], today), lines[|lines| - 1], today)
  }

  /**
   * The whole pass: the text is split into lines, a file of fewer than two
   * lines has no data (None), and the header line is skipped.
   */
  function AnalyzeInfantLog(text: string, today: Day): (r: Option<InfantTally>)
    ensures r.None? <==> |SplitLines(text)| < 2
  {
    var lines := SplitLines(text);
    if |lines| < 2 then None else Some(InfantLines(InitialInfantTally, lines[1..], today))
  }

  // ---------------------------------------------------------------------
  // Properties of single rows

  /** A row of at least three fields whose trimmed date field parses to `day`. */
  predicate DatedRow(cols: seq<string>, day: Day) {
    |cols| >= 3 && RowDay(cols) == Some(day)
  }

  /** A dated row naming a known activity goes to that activity's `case`. */
  lemma RowDispatch(t: InfantTally, cols: seq<string>, today: Day, day: Day, a: InfantActivity)
    requires DatedRow(cols, day) && a != UnknownActivity && Trim(cols[2]) == InfantActivityName(a)
    ensures InfantRow(t, cols, today) == Dispatch(t, cols, DateRelativeTo(Trim(cols[0]), day, today), a)
  {
    InfantActivityIs(Trim(cols[2]), a);
  }

  // The `case` of each activity below changes its own group and no other.

  /** A dated `sleep` row changes the sleep statistics by `case "sleep"` and nothing else. */
  lemma SleepRoute(t: InfantTally, cols: seq<string>, today: Day, day: Day)
    requires DatedRow(cols, day) && Trim(cols[2]) == "sleep"
    ensures InfantRow(t, cols, today) == t.(sleep := Settle(SleepStep(t.sleep, cols, DateRelativeTo(Trim(cols[0]), day, today))))
  {
    RowDispatch(t, cols, today, day, Sleep);
  }

  /** A dated `feeding` row changes the feeding statistics by `case "feeding"` and nothing else. */
  lemma FeedingRoute(t: InfantTally, cols: seq<string>, today: Day, day: Day)
    requires DatedRow(cols, day) && Trim(cols[2]) == "feeding"
    ensures InfantRow(t, cols, today) ==
              t.(feeding := Settle(FeedingStep(t.feeding, cols, Trim(cols[1]), DateRelativeTo(Trim(cols[0]), day, today))))
  {
    RowDispatch(t, cols, today, day, Feeding);
  }

  /** A dated `pumping` row changes the pumping statistics by `case "pumping"` and nothing else. */
  lemma PumpingRoute(t: InfantTally, cols: seq<string>, today: Day, day: Day)
    requires DatedRow(cols, day) && Trim(cols[2]) == "pumping"
    ensures InfantRow(t, cols, today) == t.(pumping := Settle(PumpingStep(t.pumping, cols, 5)))
  {
    RowDispatch(t, cols, today, day, Pumping);
  }

  /** A dated `pumping` row counts one session and adds the amount it carries, if any. */
  lemma PumpingRow(t: InfantTally, cols: seq<string>, today: Day, day: Day)
    requires DatedRow(cols, day) && Trim(cols[2]) == "pumping"
    ensures InfantRow(t, cols, today).pumping.count == t.pumping.count + 1
    ensures InfantRow(t, cols, today).pumping.totalMl == t.pumping.totalMl + ValueOrZero(UnitReading(cols, 5, "ml"))
  {
    PumpingRoute(t, cols, today, day);
  }

  /** A dated `growth` row changes the growth lists by `case "growth"` and nothing else. */
  lemma GrowthRoute(t: InfantTally, cols: seq<string>, today: Day, day: Day)
    requires DatedRow(cols, day) && Trim(cols[2]) == "growth"
    ensures InfantRow(t, cols, today) == t.(growth := Settle(GrowthStep(t.growth, cols)))
  {
    RowDispatch(t, cols, today, day, Growth);
  }

  /**
   * `case "sleep"` records nothing for a row whose raw `cols[4]` is not
   * exactly `end`, nor for an `end` row whose duration does not parse.
   */
  lemma SleepStepUnchanged(s: SleepStats, cols: seq<string>, d: RowDate)
    requires !(|cols| > 4 && cols[4] == "end") || (|cols| > 5 && cols[4] == "end" && cols[5] != [] && ParseInt(Trim(cols[5])) == None)
    ensures Settle(SleepStep(s, cols, d)) == s
  {
  }

  /** A `sleep` row whose raw `cols[4]` is not exactly `end` (a start row, or `" end"`) changes nothing. */
  lemma SleepWithoutEndIsNoOp(t: InfantTally, cols: seq<string>, today: Day)
    requires |cols| >= 3 && Trim(cols[2]) == "sleep"
    requires !(|cols| > 4 && cols[4] == "end")
    ensures InfantRow(t, cols, today) == t
  {
    if RowDay(cols).Some? {
      var day := RowDay(cols).value;
      SleepStepUnchanged(t.sleep, cols, DateRelativeTo(Trim(cols[0]), day, today));
      SleepRoute(t, cols, today, day);
    }
  }

  /** An `end` row without a duration adds no minutes but still records its quality. */
  lemma SleepEndWithoutDuration(t: InfantTally, cols: seq<string>, today: Day, day: Day)
    requires DatedRow(cols, day) && Trim(cols[2]) == "sleep"
    requires |cols| > 4 && cols[4] == "end" && !Present(cols, 5)
    ensures InfantRow(t, cols, today).sleep.totalMinutes == t.sleep.totalMinutes
    ensures InfantRow(t, cols, today).sleep.todayMinutes == t.sleep.todayMinutes
    ensures InfantRow(t, cols, today).sleep.quality ==
              if Present(cols, 7) then Note(t.sleep.quality, Trim(cols[7])) else t.sleep.quality
  {
    SleepRoute(t, cols, today, day);
    SleepEndStep(t.sleep, cols, DateRelativeTo(Trim(cols[0]), day, today), 0);
  }

  /** `case "sleep"` on an `end` row whose duration is `minutes`, or absent and so 0. */
  lemma SleepEndStep(s: SleepStats, cols: seq<string>, d: RowDate, minutes: Int32)
    requires |cols| > 4 && cols[4] == "end"
    requires if Present(cols, 5) then ParseInt(Trim(cols[5])) == Some(minutes) else minutes == 0
    ensures Settle(SleepStep(s, cols, d)).totalMinutes == AddInt32(s.totalMinutes, minutes)
    ensures Settle(SleepStep(s, cols, d)).todayMinutes ==
              if d.isToday then AddInt32(s.todayMinutes, minutes) else s.todayMinutes
    ensures Settle(SleepStep(s, cols, d)).quality ==
              if Present(cols, 7) then Note(s.quality, Trim(cols[7])) else s.quality
  {
  }

  /**
   * An `end` row with a readable duration adds it to the total, and to today's
   * total exactly when the row is dated today (with `int` wrap-around).
   */
  lemma SleepEndWithDuration(t: InfantTally, cols: seq<string>, today: Day, day: Day, minutes: Int32)
    requires DatedRow(cols, day) && Trim(cols[2]) == "sleep"
    requires |cols| > 5 && cols[4] == "end" && cols[5] != [] && ParseInt(Trim(cols[5])) == Some(minutes)
    ensures InfantRow(t, cols, today).sleep.totalMinutes == AddInt32(t.sleep.totalMinutes, minutes)
    ensures InfantRow(t, cols, today).sleep.todayMinutes ==
              if day == today then AddInt32(t.sleep.todayMinutes, minutes) else t.sleep.todayMinutes
  {
    SleepRoute(t, cols, today, day);
    SleepEndStep(t.sleep, cols, DateRelativeTo(Trim(cols[0]), day, today), minutes);
  }

  /** An unreadable sleep duration abandons the row before anything is recorded. */
  lemma SleepBadDurationIsNoOp(t: InfantTally, cols: seq<string>, today: Day)
    requires |cols| > 5 && Trim(cols[2]) == "sleep" && cols[4] == "end"
    requires cols[5] != [] && ParseInt(Trim(cols[5])) == None
    ensures InfantRow(t, cols, today) == t
  {
    if RowDay(cols).Some? {
      var day := RowDay(cols).value;
      SleepStepUnchanged(t.sleep, cols, DateRelativeTo(Trim(cols[0]), day, today));
      SleepRoute(t, cols, today, day);
    }
  }

  /**
   * A feeding whose time does not parse is still counted, with its type, and
   * its date is still remembered as the last feeding date; only the last
   * feeding time keeps its old value.
   */
  lemma FeedingBadTimeKeepsCount(t: InfantTally, cols: seq<string>, today: Day, day: Day)
    requires DatedRow(cols, day) && Trim(cols[2]) == "feeding"
    requires Trim(cols[1]) != [] && ParseTime(Trim(cols[1])) == None
    ensures InfantRow(t, cols, today).feeding.total == t.feeding.total + 1
    ensures InfantRow(t, cols, today).feeding.today == t.feeding.today + Flag(day == today)
    ensures InfantRow(t, cols, today).feeding.lastDate == Some(day)
    ensures InfantRow(t, cols, today).feeding.lastTime == t.feeding.lastTime
    ensures InfantRow(t, cols, today).feeding.types ==
              if Present(cols, 3) then Note(t.feeding.types, Trim(cols[3])) else t.feeding.types
  {
    FeedingRoute(t, cols, today, day);
  }

  /** A feeding with a readable time records both its date and its time. */
  lemma FeedingGoodTime(t: InfantTally, cols: seq<string>, today: Day, day: Day, time: Minute)
    requires DatedRow(cols, day) && Trim(cols[2]) == "feeding"
    requires Trim(cols[1]) != [] && ParseTime(Trim(cols[1])) == Some(time)
    ensures InfantRow(t, cols, today).feeding.total == t.feeding.total + 1
    ensures InfantRow(t, cols, today).feeding.lastDate == Some(day)
    ensures InfantRow(t, cols, today).feeding.lastTime == Some(time)
  {
    FeedingRoute(t, cols, today, day);
  }

  /**
   * A pumping amount written as a number followed by `ml` adds that number;
   * the session is counted either way.
   */
  lemma PumpingWithUnit(t: InfantTally, cols: seq<string>, today: Day, day: Day, n: nat)
    requires DatedRow(cols, day) && Trim(cols[2]) == "pumping"
    requires |cols| > 5 && cols[5] == DecimalDigits(n) + "ml"
    ensures InfantRow(t, cols, today).pumping.count == t.pumping.count + 1
    ensures InfantRow(t, cols, today).pumping.totalMl == t.pumping.totalMl + n as real
  {
    PumpingRow(t, cols, today, day);
    NumberWithUnit(cols, 5, n, "ml");
  }

  /** A pumping amount that is nothing but units (`ml`, `mlml`) adds nothing, yet the session is counted. */
  lemma PumpingUnitOnly(t: InfantTally, cols: seq<string>, today: Day, day: Day)
    requires DatedRow(cols, day) && Trim(cols[2]) == "pumping"
    requires |cols| > 5 && RemoveAll(Trim(cols[5]), "ml") == []
    ensures InfantRow(t, cols, today).pumping.count == t.pumping.count + 1
    ensures InfantRow(t, cols, today).pumping.totalMl == t.pumping.totalMl
  {
    PumpingRow(t, cols, today, day);
    UnitOnlyReadsNothing(cols, 5, "ml");
  }

  /**
   * A growth row appends its weight reading to the weights and its height
   * reading to the heights, and nothing when the stripped text is empty or
   * does not parse.
   */
  lemma GrowthAppendsOnlyReadings(t: InfantTally, cols: seq<string>, today: Day, day: Day)
    requires DatedRow(cols, day) && Trim(cols[2]) == "growth"
    ensures InfantRow(t, cols, today).growth.weights == t.growth.weights + AsList(GrowthReading(cols, "weight", "kg"))
    ensures InfantRow(t, cols, today).growth.heights == t.growth.heights + AsList(GrowthReading(cols, "height", "cm"))
  {
    GrowthStepReadings(t.growth, cols);
    GrowthRoute(t, cols, today, day);
  }

  // ---------------------------------------------------------------------
  // Properties of the whole loop

  /** Folding two runs of lines one after the other is folding their concatenation. */
  lemma {:induction false} InfantLinesAppend(t: InfantTally, a: seq<string>, b: seq<string>, today: Day)
    ensures InfantLines(t, a + b, today) == InfantLines(InfantLines(t, a, today), b, today)
    decreases |b|
  {
    if b == [] {
      assert a + b == a;
    } else {
      var b' := b[..|b| - 1];
      assert (a + b)[..|a + b| - 1] == a + b';
      assert (a + b)[|a + b| - 1] == b[|b| - 1];
      InfantLinesAppend(t, a, b', today);
    }
  }

  /**
   * A line the loop passes over: blank, fewer than three fields, a blank or
   * unparsable date, or an activity no `case` names.
   */
  predicate InfantSkipped(raw: string) {
    match RowColumns(raw)
    case None => true
    case Some(cols) => RowDay(cols).None? || InfantActivityOf(Trim(cols[2])) == UnknownActivity
  }

  /** A skipped line leaves every counter, sum, extremum, table and list as it was. */
  lemma InfantSkippedIsNoOp(t: InfantTally, raw: string, today: Day)
    requires InfantSkipped(raw)
    ensures InfantLine(t, raw, today) == t
  {
  }

  /** Deleting a skipped line from anywhere in the log does not change the result. */
  lemma {:induction false} InfantSkippedErasable(t: InfantTally, a: seq<string>, raw: string, b: seq<string>, today: Day)
    requires InfantSkipped(raw)
    ensures InfantLines(t, a + [raw] + b, today) == InfantLines(t, a + b, today)
  {
    InfantLinesAppend(t, a + [raw], b, today);
    InfantLinesAppend(t, a, b, today);
    assert (a + [raw])[..|a + [raw]| - 1] == a;
    assert (a + [raw])[|a + [raw]| - 1] == raw;
    InfantSkippedIsNoOp(InfantLines(t, a, today), raw, today);
  }

  // ---------------------------------------------------------------------
  // The temperature statistics against an independent definition

  /** The temperature a row contributes: a dated `temperature` row with a readable `cols[5]`. */
  function RowTemperature(cols: seq<string>): Option<real>
    requires |cols| >= 3
  {
    if RowDay(cols).None? || Trim(cols[2]) != "temperature" then None
    else TemperatureField(cols)
  }

  /** The temperature a line contributes, if it is a row at all. */
  function TemperatureReading(raw: string): Option<real>
  {
    match RowColumns(raw)
    case None => None
    case Some(cols) => RowTemperature(cols)
  }

  /** The readings of a log, in file order. */
  function Temperatures(lines: seq<string>): seq<real>
  {
    if lines == [] then []
    else
      var last := TemperatureReading(lines[|lines| - 1]);
      Temperatures(lines[..|lines| - 1]) + (if last.Some? then [last.value] else [])
  }

  /** A row of another activity leaves the temperature statistics alone. */
  lemma OtherRowKeepsTemperature(t: InfantTally, cols: seq<string>, today: Day)
    requires |cols| >= 3 && Trim(cols[2]) != "temperature"
    ensures InfantRow(t, cols, today).temperature == t.temperature
  {
    InfantActivityIs(Trim(cols[2]), Temperature);
    assert InfantActivityOf(Trim(cols[2])) != Temperature;
  }

  /** A dated `temperature` row goes through `case "temperature"`. */
  lemma TemperatureRowStep(t: InfantTally, cols: seq<string>, today: Day, day: Day)
    requires DatedRow(cols, day) && Trim(cols[2]) == "temperature"
    ensures InfantRow(t, cols, today).temperature == Settle(TemperatureStep(t.temperature, cols))
  {
    RowDispatch(t, cols, today, day, Temperature);
  }

  /** One row moves the temperature statistics exactly by the reading it contributes. */
  lemma TemperatureRow(t: InfantTally, cols: seq<string>, today: Day)
    requires |cols| >= 3
    ensures var x := RowTemperature(cols);
      InfantRow(t, cols, today).temperature == if x.Some? then Record(t.temperature, x.value) else t.temperature
  {
    if Trim(cols[2]) != "temperature" {
      OtherRowKeepsTemperature(t, cols, today);
    } else if RowDay(cols).Some? {
      TemperatureRowStep(t, cols, today, RowDay(cols).value);
    }
  }

  /** The same for a raw line: a skipped line contributes no reading. */
  lemma TemperatureLine(t: InfantTally, raw: string, today: Day)
    ensures var x := TemperatureReading(raw);
      InfantLine(t, raw, today).temperature == if x.Some? then Record(t.temperature, x.value) else t.temperature
  {
    match RowColumns(raw)
    case None =>
    case Some(cols) => TemperatureRow(t, cols, today);
  }

  /**
   * The loop's temperature statistics are the count, sum, maximum and minimum
   * of the readings, the extrema starting from whatever the tally held.
   */
  lemma {:induction false} TemperatureFold(t: InfantTally, lines: seq<string>, today: Day)
    ensures var r := InfantLines(t, lines, today).temperature;
      var xs := Temperatures(lines);
      && r.count == t.temperature.count + |xs|
      && r.total == t.temperature.total + SumOf(xs)
      && r.max == MaxOf(t.temperature.max, xs)
      && r.min == MinOf(t.temperature.min, xs)
    decreases |lines|
  {
    if lines != [] {
      var front := lines[..|lines| - 1];
      var raw := lines[|lines| - 1];
      TemperatureFold(t, front, today);
      TemperatureLine(InfantLines(t, front, today), raw, today);
      var xs := Temperatures(lines);
      if TemperatureReading(raw).Some? {
        assert xs[..|xs| - 1] == Temperatures(front);
      } else {
        assert xs == Temperatures(front);
      }
    }
  }

  /**
   * From the initial tally, the temperature statistics of a log are exactly
   * those of its readings, with the sentinels 0 and 100 as starting extrema.
   */
  lemma TemperaturesOfLog(lines: seq<string>, today: Day)
    ensures var r := InfantLines(InitialInfantTally, lines, today).temperature;
      var xs := Temperatures(lines);
      && r.count == |xs|
      && r.total == SumOf(xs)
      && r.max == MaxOf(0.0, xs)
      && r.min == MinOf(100.0, xs)
  {
    TemperatureFold(InitialInfantTally, lines, today);
  }
}
