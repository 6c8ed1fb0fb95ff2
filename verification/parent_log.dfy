/**
 * The parent event-log pass of `analyzeMamaData` (Main.java:620-793): an
 * immutable tally folded over the lines of the log, one pure step per line.
 * Unlike the infant pass, rows are not dated: the date field is only copied
 * into list entries, untrimmed.
 *
 * As in the infant pass, each `case` of the `switch` updates its own group of
 * local variables, and the tally has one field per group.
 */
module ParentLog {
  import opened Wrappers
  import opened JavaText
  import opened Numbers
  import opened Csv
  import opened Rows

  /** The activity names the `switch` of the parent loop recognises. */
  datatype ParentActivity =
    | Weight | PregnancyWeek | DoctorAppointment | MedicalTest | ParentMood
    | ParentSleep | Breastfeeding | ParentPumping | Exercise | FetalMovements
    | Contractions | Nutrition | Symptom | PostpartumCheckup | PelvicFloor
    | ParentMilestone
    | UnknownParentActivity

  function ParentActivityName(a: ParentActivity): string
  {
    match a
    case Weight => "weight"
    case PregnancyWeek => "pregnancy_week"
    case DoctorAppointment => "doctor_appointment"
    case MedicalTest => "test"
    case ParentMood => "mood"
    case ParentSleep => "mama_sleep"
    case Breastfeeding => "breastfeeding"
    case ParentPumping => "pumping"
    case Exercise => "exercise"
    case FetalMovements => "fetal_movements"
    case Contractions => "contractions"
    case Nutrition => "nutrition"
    case Symptom => "symptom"
    case PostpartumCheckup => "postpartum_checkup"
    case PelvicFloor => "pelvic_floor"
    case ParentMilestone => "mama_milestone"
    case UnknownParentActivity => ""
  }

  const ParentActivityNames: set<string> :=
    {"weight", "pregnancy_week", "doctor_appointment", "test", "mood", "mama_sleep",
     "breastfeeding", "pumping", "exercise", "fetal_movements", "contractions",
     "nutrition", "symptom", "postpartum_checkup", "pelvic_floor", "mama_milestone"}

  /** The activities of the `case` labels, in the order the `switch` lists them. */
  const ParentCases: seq<ParentActivity> :=
    [Weight, PregnancyWeek, DoctorAppointment, MedicalTest, ParentMood, ParentSleep, Breastfeeding,
     ParentPumping, Exercise, FetalMovements, Contractions, Nutrition, Symptom, PostpartumCheckup,
     PelvicFloor, ParentMilestone]

  /** The first `case` label from position `i` on whose name is exactly `name`; UnknownParentActivity when none is. */
  function FirstParentCase(name: string, i: nat): (a: ParentActivity)
    requires i <= |ParentCases|
    ensures a != UnknownParentActivity ==> ParentActivityName(a) == name
    ensures a == UnknownParentActivity ==> forall j :: i <= j < |ParentCases| ==> ParentActivityName(ParentCases[j]) != name
    decreases |ParentCases| - i
  {
    if i == |ParentCases| then UnknownParentActivity
    else if ParentActivityName(ParentCases[i]) == name then ParentCases[i]
    else FirstParentCase(name, i + 1)
  }

  /** The `switch (activity)` dispatch: exact string match, anything else matches no case. */
  function ParentActivityOf(name: string): (a: ParentActivity)
    ensures a != UnknownParentActivity ==> ParentActivityName(a) == name
  {
    FirstParentCase(name, 0)
  }

  /** The lookup stops at the first label from position `i` on with that name. */
  lemma {:induction false} FirstParentCaseAt(name: string, i: nat, k: nat)
    requires i <= k < |ParentCases| && ParentActivityName(ParentCases[k]) == name
    requires forall j :: i <= j < k ==> ParentActivityName(ParentCases[j]) != name
    ensures FirstParentCase(name, i) == ParentCases[k]
    decreases k - i
  {
    if i < k {
      FirstParentCaseAt(name, i + 1, k);
    }
  }

  /** Where each known activity sits among the `case` labels; the sixteen names are distinct. */
  function ParentCaseIndex(a: ParentActivity): (k: nat)
    requires a != UnknownParentActivity
    ensures k < |ParentCases| && ParentCases[k] == a
    ensures forall j :: 0 <= j < k ==> ParentActivityName(ParentCases[j]) != ParentActivityName(a)
  {
    match a
    case Weight => 0
    case PregnancyWeek => 1
    case DoctorAppointment => 2
    case MedicalTest => 3
    case ParentMood => 4
    case ParentSleep => 5
    case Breastfeeding => 6
    case ParentPumping => 7
    case Exercise => 8
    case FetalMovements => 9
    case Contractions => 10
    case Nutrition => 11
    case Symptom => 12
    case PostpartumCheckup => 13
    case PelvicFloor => 14
    case ParentMilestone => 15
  }

  /** Naming a known activity and dispatching on the name gives the activity back. */
  lemma ParentActivityRoundTrip(a: ParentActivity)
    requires a != UnknownParentActivity
    ensures ParentActivityOf(ParentActivityName(a)) == a
  {
    FirstParentCaseAt(ParentActivityName(a), 0, ParentCaseIndex(a));
  }

  /** The names the dispatch recognises are exactly the sixteen activity names. */
  lemma ParentActivityNamesKnown(name: string)
    ensures ParentActivityOf(name) == UnknownParentActivity <==> name !in ParentActivityNames
  {
    if name in ParentActivityNames {
      var a := if name == "weight" then Weight else if name == "pregnancy_week" then PregnancyWeek
        else if name == "doctor_appointment" then DoctorAppointment else if name == "test" then MedicalTest
        else if name == "mood" then ParentMood else if name == "mama_sleep" then ParentSleep
        else if name == "breastfeeding" then Breastfeeding else if name == "pumping" then ParentPumping
        else if name == "exercise" then Exercise else if name == "fetal_movements" then FetalMovements
        else if name == "contractions" then Contractions else if name == "nutrition" then Nutrition
        else if name == "symptom" then Symptom else if name == "postpartum_checkup" then PostpartumCheckup
        else if name == "pelvic_floor" then PelvicFloor
        else ParentMilestone;
      assert ParentActivityName(a) == name;
      ParentActivityRoundTrip(a);
    } else {
      ParentNamesListed();
    }
  }

  /** Every known activity's name is one of the sixteen. */
  lemma ParentNamesListed()
    ensures forall a :: a != UnknownParentActivity ==> ParentActivityName(a) in ParentActivityNames
  {
  }

  /** A name dispatches to a known activity exactly when it is that activity's name. */
  lemma ParentActivityIs(name: string, a: ParentActivity)
    requires a != UnknownParentActivity
    ensures ParentActivityOf(name) == a <==> name == ParentActivityName(a)
  {
    ParentActivityRoundTrip(a);
  }

  // ---------------------------------------------------------------------
  // The tally (the local variables of Main.java:641-663)

  /**
   * The weight-gain sum and its count, and the weight extrema, which start at
   * the sentinels `maxWeight = 0` and `minWeight = 1000`.
   */
  datatype WeightStats = WeightStats(gainTotal: real, gainCount: nat, max: real, min: real)

  /** Mood scores with their count, and the mood-type table. */
  datatype MoodStats = MoodStats(scoreTotal: real, scoreCount: nat, types: multiset<string>)

  /** Sleep minutes are a Java `int` sum; every readable entry is one night. */
  datatype RestStats = RestStats(totalMinutes: Int32, nights: nat)

  /** Exercise sessions, their minutes (a Java `int` sum) and the exercise-type table. */
  datatype ExerciseStats = ExerciseStats(count: nat, totalMinutes: Int32, types: multiset<string>)

  /** Litres of water and the number of readable entries. */
  datatype WaterStats = WaterStats(totalLiters: real, days: nat)

  datatype ParentTally = ParentTally(
    weight: WeightStats,
    appointments: Notes,
    tests: Notes,
    mood: MoodStats,
    sleep: RestStats,
    breastfeeding: nat,
    pumping: PumpingStats,
    exercise: ExerciseStats,
    fetalMovements: nat,
    contractions: nat,
    water: WaterStats,
    symptoms: multiset<string>,
    postpartumCheckups: nat,
    kegelSessions: nat,
    milestones: Notes)

  const InitialParentTally: ParentTally := ParentTally(
    WeightStats(0.0, 0, 0.0, 1000.0),
    Notes(0, []),
    Notes(0, []),
    MoodStats(0.0, 0, multiset{}),
    RestStats(0, 0),
    0,
    PumpingStats(0, 0.0),
    ExerciseStats(0, 0, multiset{}),
    0,
    0,
    WaterStats(0.0, 0),
    multiset{},
    0,
    0,
    Notes(0, []))

  // ---------------------------------------------------------------------
  // One function per `case`; those that can throw return a `Try`.

  /** The gain a weight row carries: a present `cols[8]` that parses. */
  function GainOf(cols: seq<string>): Option<real>
  {
    if Present(cols, 8) then ReadDouble(cols[8]) else None
  }

  /** The gain statistics after adding `g`, if there is one. */
  function AddGain(w: WeightStats, g: Option<real>): (r: WeightStats)
    ensures r.max == w.max && r.min == w.min
    ensures g.Some? ==> r.gainTotal == w.gainTotal + g.value && r.gainCount == w.gainCount + 1
    ensures g.None? ==> r == w
  {
    if g.Some? then w.(gainTotal := w.gainTotal + g.value, gainCount := w.gainCount + 1) else w
  }

  /** The weight-gain half of `case "weight"` (Main.java:680-684): it throws exactly on a present, unreadable gain. */
  function GainStep(w: WeightStats, cols: seq<string>): (r: Try<WeightStats, WeightStats>)
    ensures r.Threw? <==> Present(cols, 8) && GainOf(cols).None?
    ensures r.Threw? ==> r.state == w
    ensures r.Continue? ==> r.value == AddGain(w, GainOf(cols))
  {
    if Present(cols, 8) then
      var gain :- Attempt(ReadDouble(cols[8]), w);
      Continue(w.(gainTotal := w.gainTotal + gain, gainCount := w.gainCount + 1))
    else Continue(w)
  }

  /** One weight in the extrema: every weight may raise the maximum, only a positive one may lower the minimum. */
  function Weigh(w: WeightStats, x: real): (r: WeightStats)
    ensures r.gainTotal == w.gainTotal && r.gainCount == w.gainCount
    ensures r.max >= x && r.max >= w.max && (r.max == x || r.max == w.max)
    ensures x > 0.0 ==> r.min <= x && r.min <= w.min && (r.min == x || r.min == w.min)
    ensures x <= 0.0 ==> r.min == w.min
  {
    w.(max := Max(w.max, x), min := if x > 0.0 then Min(w.min, x) else w.min)
  }

  /** The weight half of `case "weight"` (Main.java:685-689): a readable weight enters the extrema. */
  function ExtremaStep(w: WeightStats, cols: seq<string>): (r: Try<WeightStats, WeightStats>)
    ensures Present(cols, 7) && ReadDouble(cols[7]).Some? ==> Settle(r) == Weigh(w, ReadDouble(cols[7]).value)
    ensures !(Present(cols, 7) && ReadDouble(cols[7]).Some?) ==> Settle(r) == w
  {
    if Present(cols, 7) then
      var x :- Attempt(ReadDouble(cols[7]), w);
      Continue(Weigh(w, x))
    else Continue(w)
  }

  /**
   * `case "weight"` and `case "pregnancy_week"` (Main.java:678-690): the gain
   * first, so a gain that throws also skips the weight, and a weight that
   * throws keeps the gain already added.
   */
  function WeightStep(w: WeightStats, cols: seq<string>): Try<WeightStats, WeightStats>
  {
    var w1 :- GainStep(w, cols);
    ExtremaStep(w1, cols)
  }

  /** The mood score in `cols[26]`, if the field is non-empty and parses. */
  function ScoreField(cols: seq<string>): Option<real> {
    if Present(cols, 26) then ReadDouble(cols[26]) else None
  }

  /** The score half of `case "mood"` (Main.java:708-711): a readable score enters the sum and count. */
  function ScoreStep(m: MoodStats, cols: seq<string>): (r: Try<MoodStats, MoodStats>)
    ensures ScoreField(cols).Some? ==>
      r == Continue(m.(scoreTotal := m.scoreTotal + ScoreField(cols).value, scoreCount := m.scoreCount + 1))
    ensures ScoreField(cols).None? ==> r == Continue(m) || r == Threw(m)
  {
    if Present(cols, 26) then
      var score :- Attempt(ReadDouble(cols[26]), m);
      Continue(m.(scoreTotal := m.scoreTotal + score, scoreCount := m.scoreCount + 1))
    else Continue(m)
  }

  /** `case "mood"` (Main.java:706-716): the score, then the mood type. */
  function MoodStep(m: MoodStats, cols: seq<string>): Try<MoodStats, MoodStats>
  {
    var m1 :- ScoreStep(m, cols);
    Continue(if Present(cols, 27) then m1.(types := Note(m1.types, Trim(cols[27]))) else m1)
  }

  /** The minutes slept in `cols[70]`, if the field is non-empty and parses as an `int`. */
  function RestField(cols: seq<string>): Option<Int32> {
    if Present(cols, 70) then ParseInt(Trim(cols[70])) else None
  }

  /** `case "mama_sleep"` (Main.java:718-724): a readable night enters the total and the count, or nothing changes. */
  function RestStep(s: RestStats, cols: seq<string>): (r: Try<RestStats, RestStats>)
    ensures RestField(cols).Some? ==> Settle(r) == RestStats(AddInt32(s.totalMinutes, RestField(cols).value), s.nights + 1)
    ensures RestField(cols).None? ==> Settle(r) == s
    ensures r.Threw? <==> Present(cols, 70) && RestField(cols).None?
  {
    if Present(cols, 70) then
      var minutes :- Attempt(ParseInt(Trim(cols[70])), s);
      Continue(RestStats(AddInt32(s.totalMinutes, minutes), s.nights + 1))
    else Continue(s)
  }

  /** The minutes of exercise in `cols[95]`, if the field is non-empty and parses as an `int`. */
  function ExerciseMinutesField(cols: seq<string>): Option<Int32> {
    if Present(cols, 95) then ParseInt(Trim(cols[95])) else None
  }

  /**
   * `case "exercise"` (Main.java:740-750): the session counts first, then the
   * minutes, then the type. A bad minutes field throws before the type is noted.
   */
  function ExerciseStep(e: ExerciseStats, cols: seq<string>): (r: Try<ExerciseStats, ExerciseStats>)
    ensures Settle(r).count == e.count + 1
    ensures ExerciseMinutesField(cols).Some? ==> Settle(r).totalMinutes == AddInt32(e.totalMinutes, ExerciseMinutesField(cols).value)
    ensures ExerciseMinutesField(cols).None? ==> Settle(r).totalMinutes == e.totalMinutes
    ensures r.Threw? <==> Present(cols, 95) && ExerciseMinutesField(cols).None?
    ensures Settle(r).types == e.types + (if r.Continue? && Present(cols, 94) then multiset{Trim(cols[94])} else multiset{})
  {
    var e1 := e.(count := e.count + 1);
    var e2 :- if Present(cols, 95) then
        var minutes :- Attempt(ParseInt(Trim(cols[95])), e1);
        Continue(e1.(totalMinutes := AddInt32(e1.totalMinutes, minutes)))
      else Continue(e1);
    Continue(if Present(cols, 94) then e2.(types := Note(e2.types, Trim(cols[94]))) else e2)
  }

  /** The litres drunk in `cols[92]`, if the field is non-empty and parses. */
  function WaterField(cols: seq<string>): Option<real> {
    if Present(cols, 92) then ReadDouble(cols[92]) else None
  }

  /** `case "nutrition"` (Main.java:760-766): a readable amount enters the total and the day count, or nothing changes. */
  function WaterStep(w: WaterStats, cols: seq<string>): (r: Try<WaterStats, WaterStats>)
    ensures WaterField(cols).Some? ==> Settle(r) == WaterStats(w.totalLiters + WaterField(cols).value, w.days + 1)
    ensures WaterField(cols).None? ==> Settle(r) == w
    ensures r.Threw? <==> Present(cols, 92) && WaterField(cols).None?
  {
    if Present(cols, 92) then
      var liters :- Attempt(ReadDouble(cols[92]), w);
      Continue(WaterStats(w.totalLiters + liters, w.days + 1))
    else Continue(w)
  }

  /** `case "symptom"` (Main.java:768-773). */
  function SymptomStep(symptoms: multiset<string>, cols: seq<string>): multiset<string>
  {
    if Present(cols, 31) then Note(symptoms, Trim(cols[31])) else symptoms
  }

  // ---------------------------------------------------------------------
  // Rows, lines and the loop

  /**
   * The `switch (activity)` of a row, written group by group: each group
   * changes only under its own `case`, keeping what that case updated before
   * a throw; an unknown activity changes nothing. List entries are prefixed
   * with the raw date field `cols[0]`.
   */
  function ParentDispatch(t: ParentTally, cols: seq<string>, activity: ParentActivity): (r: ParentTally)
    requires |cols| >= 3
    ensures activity == UnknownParentActivity ==> r == t
  {
    ParentTally(
      weight := if activity == Weight || activity == PregnancyWeek then Settle(WeightStep(t.weight, cols)) else t.weight,
      // `case "doctor_appointment"` and `case "test"` (Main.java:692-704)
      appointments := if activity == DoctorAppointment then NoteStep(t.appointments, cols, 16, cols[0]) else t.appointments,
      tests := if activity == MedicalTest then NoteStep(t.tests, cols, 22, cols[0]) else t.tests,
      mood := if activity == ParentMood then Settle(MoodStep(t.mood, cols)) else t.mood,
      sleep := if activity == ParentSleep then Settle(RestStep(t.sleep, cols)) else t.sleep,
      breastfeeding := if activity == Breastfeeding then t.breastfeeding + 1 else t.breastfeeding,
      // `case "pumping"` (Main.java:730-738)
      pumping := if activity == ParentPumping then Settle(PumpingStep(t.pumping, cols, 63)) else t.pumping,
      exercise := if activity == Exercise then Settle(ExerciseStep(t.exercise, cols)) else t.exercise,
      fetalMovements := if activity == FetalMovements then t.fetalMovements + 1 else t.fetalMovements,
      contractions := if activity == Contractions then t.contractions + 1 else t.contractions,
      water := if activity == Nutrition then Settle(WaterStep(t.water, cols)) else t.water,
      symptoms := if activity == Symptom then SymptomStep(t.symptoms, cols) else t.symptoms,
      postpartumCheckups := if activity == PostpartumCheckup then t.postpartumCheckups + 1 else t.postpartumCheckups,
      kegelSessions := if activity == PelvicFloor then t.kegelSessions + 1 else t.kegelSessions,
      // `case "mama_milestone"` (Main.java:783-788)
      milestones := if activity == ParentMilestone then NoteStep(t.milestones, cols, 142, cols[0]) else t.milestones)
  }

  /** One row of at least three fields (Main.java:672-790), dispatched on its trimmed activity field. */
  function ParentRow(t: ParentTally, cols: seq<string>): (r: ParentTally)
    requires |cols| >= 3
    ensures ParentActivityOf(Trim(cols[2])) == UnknownParentActivity ==> r == t
  {
    ParentDispatch(t, cols, ParentActivityOf(Trim(cols[2])))
  }

  /** One raw line (Main.java:667-671): a row, unless the loop skips it as blank or short. */
  function ParentLine(t: ParentTally, raw: string): (r: ParentTally)
    ensures RowColumns(raw).None? ==> r == t
    ensures RowColumns(raw).Some? ==> r == ParentRow(t, RowColumns(raw).value)
  {
    match RowColumns(raw)
    case None => t
    case Some(cols) => ParentRow(t, cols)
  }

  /** The `for` loop over the data lines, in file order: the last line is folded in last. */
  function ParentLines(t: ParentTally, lines: seq<string>): ParentTally
    decreases |lines|
  {
    if lines == [] then t
    else ParentLine(ParentLines(t, lines[..|lines| - 1]), lines[|lines| - 1])
  }

  /**
   * The whole pass: the text is split into lines, a file of fewer than two
   * lines has no data (None), and the header line is skipped.
   */
  function AnalyzeParentLog(text: string): (r: Option<ParentTally>)
    ensures r.None? <==> |SplitLines(text)| < 2
  {
    var lines := SplitLines(text);
    if |lines| < 2 then None else Some(ParentLines(InitialParentTally, lines[1..]))
  }

  // ---------------------------------------------------------------------
  // Properties of single rows

  /** A row of at least three fields whose trimmed activity is `name`. */
  predicate RowOf(cols: seq<string>, name: string) {
    |cols| >= 3 && Trim(cols[2]) == name
  }

  predicate IsWeightName(name: string) {
    name == "weight" || name == "pregnancy_week"
  }

  /** A row naming a known activity goes to that activity's `case`. */
  lemma RowDispatch(t: ParentTally, cols: seq<string>, a: ParentActivity)
    requires |cols| >= 3 && a != UnknownParentActivity && Trim(cols[2]) == ParentActivityName(a)
    ensures ParentRow(t, cols) == ParentDispatch(t, cols, a)
  {
    ParentActivityIs(Trim(cols[2]), a);
  }

  /** A row of the weight activities goes to `case "weight"`, shared by both names. */
  lemma WeightRowDispatch(t: ParentTally, cols: seq<string>)
    requires |cols| >= 3 && IsWeightName(Trim(cols[2]))
    ensures ParentRow(t, cols).weight == Settle(WeightStep(t.weight, cols))
  {
    if Trim(cols[2]) == "weight" {
      RowDispatch(t, cols, Weight);
    } else {
      RowDispatch(t, cols, PregnancyWeek);
    }
  }

  /** A row of any other activity leaves the weight statistics alone. */
  lemma OtherRowKeepsWeight(t: ParentTally, cols: seq<string>)
    requires |cols| >= 3 && !IsWeightName(Trim(cols[2]))
    ensures ParentRow(t, cols).weight == t.weight
  {
    ParentActivityIs(Trim(cols[2]), Weight);
    ParentActivityIs(Trim(cols[2]), PregnancyWeek);
  }

  /** The weight a weight row records: a present `cols[7]` that parses, after a gain that did not throw. */
  function WeightOf(cols: seq<string>): Option<real>
  {
    if !Present(cols, 7) || (Present(cols, 8) && GainOf(cols).None?) then None
    else ReadDouble(cols[7])
  }

  /** The effect of a weight row: its gain, if readable, then its weight, if readable and not preceded by a throw. */
  lemma WeightStepEffect(w: WeightStats, cols: seq<string>)
    ensures var w1 := AddGain(w, GainOf(cols));
      Settle(WeightStep(w, cols)) == if WeightOf(cols).Some? then Weigh(w1, WeightOf(cols).value) else w1
  {
    var g := GainStep(w, cols);
    if g.Continue? {
      assert WeightStep(w, cols) == ExtremaStep(g.value, cols);
    }
  }

  /**
   * A weight row whose gain parses but whose weight does not keeps the gain:
   * the sum and count move, the extrema do not.
   */
  lemma GainSurvivesBadWeight(t: ParentTally, cols: seq<string>, gain: real)
    requires |cols| >= 3 && IsWeightName(Trim(cols[2]))
    requires Present(cols, 8) && ReadDouble(cols[8]) == Some(gain)
    requires Present(cols, 7) && ReadDouble(cols[7]) == None
    ensures ParentRow(t, cols).weight ==
              t.weight.(gainTotal := t.weight.gainTotal + gain, gainCount := t.weight.gainCount + 1)
  {
    WeightRowDispatch(t, cols);
    WeightStepEffect(t.weight, cols);
  }

  /** A weight row whose gain does not parse records nothing, not even a readable weight. */
  lemma BadGainSkipsWeight(t: ParentTally, cols: seq<string>)
    requires |cols| >= 3 && IsWeightName(Trim(cols[2]))
    requires Present(cols, 8) && ReadDouble(cols[8]) == None
    ensures ParentRow(t, cols) == t
  {
    if Trim(cols[2]) == "weight" {
      RowDispatch(t, cols, Weight);
    } else {
      RowDispatch(t, cols, PregnancyWeek);
    }
    WeightStepEffect(t.weight, cols);
    assert ParentRow(t, cols).weight == t.weight;
  }

  /** A `pumping` row counts one session and adds the amount it carries, if any. */
  lemma ParentPumpingRow(t: ParentTally, cols: seq<string>)
    requires RowOf(cols, "pumping")
    ensures ParentRow(t, cols).pumping.count == t.pumping.count + 1
    ensures ParentRow(t, cols).pumping.totalMl == t.pumping.totalMl + ValueOrZero(UnitReading(cols, 63, "ml"))
  {
    RowDispatch(t, cols, ParentPumping);
  }

  /** A pumping amount written as a number followed by `ml` adds that number; the session counts either way. */
  lemma ParentPumpingWithUnit(t: ParentTally, cols: seq<string>, n: nat)
    requires RowOf(cols, "pumping")
    requires |cols| > 63 && cols[63] == DecimalDigits(n) + "ml"
    ensures ParentRow(t, cols).pumping == PumpingStats(t.pumping.count + 1, t.pumping.totalMl + n as real)
  {
    ParentPumpingRow(t, cols);
    NumberWithUnit(cols, 63, n, "ml");
  }

  /**
   * An exercise row whose minutes do not parse still counts as a session,
   * but adds no minutes and, since the type is read after the minutes, no type.
   */
  lemma ExerciseBadMinutesCountsSession(t: ParentTally, cols: seq<string>)
    requires RowOf(cols, "exercise")
    requires Present(cols, 95) && ParseInt(Trim(cols[95])) == None
    ensures ParentRow(t, cols).exercise == t.exercise.(count := t.exercise.count + 1)
  {
    RowDispatch(t, cols, Exercise);
  }

  /** An appointment row appends `date: note` with the date field exactly as written, untrimmed. */
  lemma AppointmentEntry(t: ParentTally, cols: seq<string>)
    requires RowOf(cols, "doctor_appointment") && Present(cols, 16)
    ensures ParentRow(t, cols).appointments.count == t.appointments.count + 1
    ensures ParentRow(t, cols).appointments.entries == t.appointments.entries + [cols[0] + ": " + Trim(cols[16])]
  {
    RowDispatch(t, cols, DoctorAppointment);
  }

  // ---------------------------------------------------------------------
  // Properties of the whole loop

  /** Folding two runs of lines one after the other is folding their concatenation. */
  lemma {:induction false} ParentLinesAppend(t: ParentTally, a: seq<string>, b: seq<string>)
    ensures ParentLines(t, a + b) == ParentLines(ParentLines(t, a), b)
    decreases |b|
  {
    if b == [] {
      assert a + b == a;
    } else {
      var b' := b[..|b| - 1];
      assert (a + b)[..|a + b| - 1] == a + b';
      assert (a + b)[|a + b| - 1] == b[|b| - 1];
      ParentLinesAppend(t, a, b');
    }
  }

  /** A line the loop passes over: blank, fewer than three fields, or an activity no `case` names. */
  predicate ParentSkipped(raw: string) {
    match RowColumns(raw)
    case None => true
    case Some(cols) => ParentActivityOf(Trim(cols[2])) == UnknownParentActivity
  }

  /** A skipped line leaves every counter, sum, extremum, table and list as it was. */
  lemma ParentSkippedIsNoOp(t: ParentTally, raw: string)
    requires ParentSkipped(raw)
    ensures ParentLine(t, raw) == t
  {
  }

  /** Deleting a skipped line from anywhere in the log does not change the result. */
  lemma {:induction false} ParentSkippedErasable(t: ParentTally, a: seq<string>, raw: string, b: seq<string>)
    requires ParentSkipped(raw)
    ensures ParentLines(t, a + [raw] + b) == ParentLines(t, a + b)
  {
    ParentLinesAppend(t, a + [raw], b);
    ParentLinesAppend(t, a, b);
    assert (a + [raw])[..|a + [raw]| - 1] == a;
    assert (a + [raw])[|a + [raw]| - 1] == raw;
    ParentSkippedIsNoOp(ParentLines(t, a), raw);
  }

  // ---------------------------------------------------------------------
  // The mood scores against an independent definition

  /** The mood score a line contributes: a `mood` row with a readable `cols[26]`. */
  function MoodScore(raw: string): Option<real>
  {
    match RowColumns(raw)
    case None => None
    case Some(cols) => if Trim(cols[2]) != "mood" then None else ScoreField(cols)
  }

  /** The mood scores of a log, in file order. */
  function MoodScores(lines: seq<string>): seq<real>
  {
    if lines == [] then []
    else
      var last := MoodScore(lines[|lines| - 1]);
      MoodScores(lines[..|lines| - 1]) + (if last.Some? then [last.value] else [])
  }

  /** `case "mood"` moves the score sum and count by the readable score, if any. */
  lemma MoodStepScore(m: MoodStats, cols: seq<string>)
    ensures var x := ScoreField(cols);
      var m1 := Settle(MoodStep(m, cols));
      && m1.scoreCount == m.scoreCount + (if x.Some? then 1 else 0)
      && m1.scoreTotal == m.scoreTotal + (if x.Some? then x.value else 0.0)
  {
    var r := ScoreStep(m, cols);
    if r.Continue? {
      var m1 := r.value;
      assert Settle(MoodStep(m, cols)) == if Present(cols, 27) then m1.(types := Note(m1.types, Trim(cols[27]))) else m1;
    }
  }

  /** A row of any other activity leaves the mood statistics alone. */
  lemma OtherRowKeepsMood(t: ParentTally, cols: seq<string>)
    requires |cols| >= 3 && Trim(cols[2]) != "mood"
    ensures ParentRow(t, cols).mood == t.mood
  {
    ParentActivityIs(Trim(cols[2]), ParentMood);
  }

  /** One line moves the score sum and count exactly by the score it contributes. */
  lemma MoodLine(t: ParentTally, raw: string)
    ensures var x := MoodScore(raw);
      var m := ParentLine(t, raw).mood;
      && m.scoreCount == t.mood.scoreCount + (if x.Some? then 1 else 0)
      && m.scoreTotal == t.mood.scoreTotal + (if x.Some? then x.value else 0.0)
  {
    match RowColumns(raw)
    case None =>
    case Some(cols) =>
      if Trim(cols[2]) == "mood" {
        RowDispatch(t, cols, ParentMood);
        MoodStepScore(t.mood, cols);
      } else {
        OtherRowKeepsMood(t, cols);
      }
  }

  /** The loop's mood score sum and count are the sum and number of the scores in the log. */
  lemma {:induction false} MoodFold(t: ParentTally, lines: seq<string>)
    ensures var m := ParentLines(t, lines).mood;
      var xs := MoodScores(lines);
      m.scoreCount == t.mood.scoreCount + |xs| && m.scoreTotal == t.mood.scoreTotal + SumOf(xs)
    decreases |lines|
  {
    if lines != [] {
      var front := lines[..|lines| - 1];
      var raw := lines[|lines| - 1];
      MoodFold(t, front);
      MoodLine(ParentLines(t, front), raw);
      var xs := MoodScores(lines);
      if MoodScore(raw).Some? {
        assert xs[..|xs| - 1] == MoodScores(front);
      } else {
        assert xs == MoodScores(front);
      }
    }
  }

  // ---------------------------------------------------------------------
  // The weight statistics against an independent definition

  /** The gain a line contributes: a weight row with a readable `cols[8]`. */
  function GainReading(raw: string): Option<real>
  {
    match RowColumns(raw)
    case None => None
    case Some(cols) => if IsWeightName(Trim(cols[2])) then GainOf(cols) else None
  }

  /**
   * The weight a line contributes: a weight row with a readable `cols[7]`
   * whose gain field, when present, is readable too.
   */
  function WeightReading(raw: string): Option<real>
  {
    match RowColumns(raw)
    case None => None
    case Some(cols) => if IsWeightName(Trim(cols[2])) then WeightOf(cols) else None
  }

  /** The readings of a log, in file order. */
  function Readings(lines: seq<string>, reading: string -> Option<real>): seq<real>
  {
    if lines == [] then []
    else
      var last := reading(lines[|lines| - 1]);
      Readings(lines[..|lines| - 1], reading) + (if last.Some? then [last.value] else [])
  }

  /** The positive values of `xs`, in order: the only ones that may lower the minimum weight. */
  function Positives(xs: seq<real>): (ys: seq<real>)
    ensures forall i :: 0 <= i < |ys| ==> ys[i] > 0.0
    ensures |ys| <= |xs|
  {
    if xs == [] then []
    else Positives(xs[..|xs| - 1]) + (if xs[|xs| - 1] > 0.0 then [xs[|xs| - 1]] else [])
  }

  /** One line moves the weight statistics exactly by the gain and the weight it contributes. */
  lemma WeightLine(t: ParentTally, raw: string)
    ensures var g := GainReading(raw);
      var x := WeightReading(raw);
      var w := AddGain(t.weight, g);
      ParentLine(t, raw).weight == if x.Some? then Weigh(w, x.value) else w
  {
    match RowColumns(raw)
    case None =>
    case Some(cols) =>
      if IsWeightName(Trim(cols[2])) {
        WeightRowDispatch(t, cols);
        WeightStepEffect(t.weight, cols);
      } else {
        OtherRowKeepsWeight(t, cols);
      }
  }

  /** The loop's gain sum and count are the sum and number of the gains in the log. */
  lemma {:induction false} GainFold(t: ParentTally, lines: seq<string>)
    ensures var w := ParentLines(t, lines).weight;
      var gs := Readings(lines, GainReading);
      w.gainCount == t.weight.gainCount + |gs| && w.gainTotal == t.weight.gainTotal + SumOf(gs)
    decreases |lines|
  {
    if lines != [] {
      var front := lines[..|lines| - 1];
      var raw := lines[|lines| - 1];
      GainFold(t, front);
      WeightLine(ParentLines(t, front), raw);
      var gs := Readings(lines, GainReading);
      if GainReading(raw).Some? {
        assert gs[..|gs| - 1] == Readings(front, GainReading);
      } else {
        assert gs == Readings(front, GainReading);
      }
    }
  }

  /**
   * The loop's weight extrema are the maximum of the weights and the minimum
   * of the positive weights, starting from whatever the tally held.
   */
  lemma {:induction false} ExtremaFold(t: ParentTally, lines: seq<string>)
    ensures var w := ParentLines(t, lines).weight;
      var xs := Readings(lines, WeightReading);
      w.max == MaxOf(t.weight.max, xs) && w.min == MinOf(t.weight.min, Positives(xs))
    decreases |lines|
  {
    if lines != [] {
      var front := lines[..|lines| - 1];
      var raw := lines[|lines| - 1];
      ExtremaFold(t, front);
      WeightLine(ParentLines(t, front), raw);
      var xs := Readings(lines, WeightReading);
      if WeightReading(raw).Some? {
        assert xs[..|xs| - 1] == Readings(front, WeightReading);
        var ps := Positives(xs);
        if WeightReading(raw).value > 0.0 {
          assert ps[..|ps| - 1] == Positives(Readings(front, WeightReading));
        } else {
          assert ps == Positives(Readings(front, WeightReading));
        }
      } else {
        assert xs == Readings(front, WeightReading);
      }
    }
  }

  /**
   * The loop's weight statistics are the sum and number of the gains, the
   * maximum of the weights and the minimum of the positive weights, the
   * extrema starting from whatever the tally held.
   */
  lemma WeightFold(t: ParentTally, lines: seq<string>)
    ensures var w := ParentLines(t, lines).weight;
      var gs := Readings(lines, GainReading);
      var xs := Readings(lines, WeightReading);
      && w.gainCount == t.weight.gainCount + |gs|
      && w.gainTotal == t.weight.gainTotal + SumOf(gs)
      && w.max == MaxOf(t.weight.max, xs)
      && w.min == MinOf(t.weight.min, Positives(xs))
  {
    GainFold(t, lines);
    ExtremaFold(t, lines);
  }

  // ---------------------------------------------------------------------
  // The symptom table and the contraction count against the rows

  /** The symptom a row reports: a `symptom` row with a non-empty `cols[31]`, trimmed. */
  function RowSymptom(cols: seq<string>): Option<string>
    requires |cols| >= 3
  {
    if Trim(cols[2]) != "symptom" || !Present(cols, 31) then None
    else Some(Trim(cols[31]))
  }

  /** The symptom a line reports, if it is a row at all. */
  function SymptomOf(raw: string): Option<string>
  {
    match RowColumns(raw)
    case None => None
    case Some(cols) => RowSymptom(cols)
  }

  /** The symptoms reported in a log, in file order. */
  function Symptoms(lines: seq<string>): seq<string>
  {
    if lines == [] then []
    else
      var last := SymptomOf(lines[|lines| - 1]);
      Symptoms(lines[..|lines| - 1]) + (if last.Some? then [last.value] else [])
  }

  /** One row adds the symptom it reports to the table, and nothing else. */
  lemma SymptomRow(t: ParentTally, cols: seq<string>)
    requires |cols| >= 3
    ensures var s := RowSymptom(cols);
      ParentRow(t, cols).symptoms == t.symptoms + (if s.Some? then multiset{s.value} else multiset{})
  {
    if Trim(cols[2]) == "symptom" {
      RowDispatch(t, cols, Symptom);
    } else {
      ParentActivityIs(Trim(cols[2]), Symptom);
    }
  }

  /** The same for a raw line: a skipped line reports no symptom. */
  lemma SymptomLine(t: ParentTally, raw: string)
    ensures var s := SymptomOf(raw);
      ParentLine(t, raw).symptoms == t.symptoms + (if s.Some? then multiset{s.value} else multiset{})
  {
    match RowColumns(raw)
    case None =>
    case Some(cols) => SymptomRow(t, cols);
  }

  /** The symptom table counts every reported symptom once per reporting line. */
  lemma {:induction false} SymptomFold(t: ParentTally, lines: seq<string>)
    ensures ParentLines(t, lines).symptoms == t.symptoms + multiset(Symptoms(lines))
    decreases |lines|
  {
    if lines != [] {
      var front := lines[..|lines| - 1];
      var raw := lines[|lines| - 1];
      SymptomFold(t, front);
      SymptomLine(ParentLines(t, front), raw);
      var last := SymptomOf(raw);
      assert Symptoms(lines) == Symptoms(front) + (if last.Some? then [last.value] else []);
      assert multiset(Symptoms(lines)) == multiset(Symptoms(front)) + multiset(if last.Some? then [last.value] else []);
    }
  }

  /** Whether a line is a row of activity `name` (at least three fields). */
  predicate IsActivityLine(raw: string, name: string) {
    RowColumns(raw).Some? && Trim(RowColumns(raw).value[2]) == name
  }

  /** The number of lines of activity `name`. */
  function ActivityCount(lines: seq<string>, name: string): nat
  {
    if lines == [] then 0
    else ActivityCount(lines[..|lines| - 1], name) + (if IsActivityLine(lines[|lines| - 1], name) then 1 else 0)
  }

  /** A row moves the contraction counter by one exactly when it is a `contractions` row. */
  lemma ContractionsRow(t: ParentTally, cols: seq<string>)
    requires |cols| >= 3
    ensures ParentRow(t, cols).contractions == t.contractions + (if Trim(cols[2]) == "contractions" then 1 else 0)
  {
    if Trim(cols[2]) == "contractions" {
      RowDispatch(t, cols, Contractions);
    } else {
      OtherRowKeepsContractions(t, cols);
    }
  }

  /** A row of any other activity leaves the contraction count alone. */
  lemma OtherRowKeepsContractions(t: ParentTally, cols: seq<string>)
    requires |cols| >= 3 && Trim(cols[2]) != "contractions"
    ensures ParentRow(t, cols).contractions == t.contractions
  {
    ParentActivityIs(Trim(cols[2]), Contractions);
    ContractionsDispatch(t, cols, ParentActivityOf(Trim(cols[2])));
  }

  /** Only `case "contractions"` counts a contraction. */
  lemma ContractionsDispatch(t: ParentTally, cols: seq<string>, a: ParentActivity)
    requires |cols| >= 3
    ensures ParentDispatch(t, cols, a).contractions == t.contractions + (if a == Contractions then 1 else 0)
  {
  }

  /** The contraction counter is the number of `contractions` rows. */
  lemma {:induction false} ContractionsFold(t: ParentTally, lines: seq<string>)
    ensures ParentLines(t, lines).contractions == t.contractions + ActivityCount(lines, "contractions")
    decreases |lines|
  {
    if lines != [] {
      var front := lines[..|lines| - 1];
      var raw := lines[|lines| - 1];
      ContractionsFold(t, front);
      match RowColumns(raw)
      case None =>
      case Some(cols) => ContractionsRow(ParentLines(t, front), cols);
    }
  }
}
