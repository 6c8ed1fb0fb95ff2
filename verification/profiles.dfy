/**
 * The two profile loaders `loadBabyProfile` and `loadMamaProfile`
 * (Main.java:71-126 and 176-254). A profile file is a header line followed by
 * `field,value` lines; each known field sets one property of the profile.
 *
 * Properties the file never sets keep Java's defaults: `null` (None) for
 * strings and dates, `0.0` for numbers. A date or number that does not parse
 * throws out of the loader and ends the program; that is an `Err` here.
 */
module Profiles {
  import opened Wrappers
  import opened JavaText
  import opened Numbers
  import opened Dates

  datatype BabyProfile = BabyProfile(
    name: Option<string>,
    birthDate: Option<Day>,
    birthWeight: real,
    birthHeight: real,
    birthHeadCircumference: real,
    bloodType: Option<string>,
    gender: Option<string>,
    notes: Option<string>)

  const EmptyBabyProfile: BabyProfile := BabyProfile(None, None, 0.0, 0.0, 0.0, None, None, None)

  datatype MamaProfile = MamaProfile(
    name: Option<string>,
    lastMenstrualPeriod: Option<Day>,
    expectedDueDate: Option<Day>,
    prePregnancyWeight: real,
    bloodType: Option<string>,
    height: real,
    doctorName: Option<string>,
    doctorPhone: Option<string>,
    hospital: Option<string>,
    allergies: Option<string>,
    chronicConditions: Option<string>,
    deliveryDate: Option<Day>,
    deliveryType: Option<string>,
    babyName: Option<string>,
    notes: Option<string>)

  const EmptyMamaProfile: MamaProfile :=
    MamaProfile(None, None, None, 0.0, None, 0.0, None, None, None, None, None, None, None, None, None)

  /** Why a load stopped: a date or a number the field requires did not parse. */
  datatype ProfileError = BadDate(field: string, value: string) | BadNumber(field: string, value: string)

  /** A parse the loader cannot recover from: its value, or the error it stops with. */
  function Need<T>(parsed: Option<T>, err: ProfileError): (r: Result<T, ProfileError>)
    ensures r.Ok? <==> parsed.Some?
    ensures r.Ok? ==> r.value == parsed.value
    ensures r.Err? ==> r.error == err
  {
    match parsed
    case Some(v) => Ok(v)
    case None => Err(err)
  }

  /**
   * A profile line as a trimmed field and a trimmed value, split at the first
   * comma (Main.java:88-95). A blank line, or one without a comma, is None.
   */
  function ProfileEntry(raw: string): (r: Option<(string, string)>)
    ensures r.None? <==> ',' !in Trim(raw)
  {
    var line := Trim(raw);
    SplitAtFirstSpec(line, ',');
    match SplitAtFirst(line, ',')
    case None => None
    case Some(parts) => Some((Trim(parts.0), Trim(parts.1)))
  }

  /** Text that trimming leaves alone: empty, or starting and ending with a visible char. */
  predicate Untrimmed(s: string) {
    s == [] || (!IsTrimmable(s[0]) && !IsTrimmable(s[|s| - 1]))
  }

  /** Gluing a field and a value with a comma keeps the ends of the line visible. */
  lemma JoinedUntrimmed(field: string, value: string)
    requires Untrimmed(field) && Untrimmed(value)
    ensures Untrimmed(field + [','] + value)
  {
    var line := field + [','] + value;
    assert line[0] == if field == [] then ',' else field[0];
    assert line[|line| - 1] == if value == [] then ',' else value[|value| - 1];
  }

  /** A line written as `field,value` reads back as that field and that value. */
  lemma EntryOfLine(field: string, value: string)
    requires Untrimmed(field) && ',' !in field
    requires Untrimmed(value)
    ensures ProfileEntry(field + "," + value) == Some((field, value))
  {
    var line := field + [','] + value;
    assert field + "," + value == line;
    JoinedUntrimmed(field, value);
    assert Trim(line) == line;
    SplitAtFirstUnique(field, value, ',');
    assert Trim(field) == field && Trim(value) == value;
  }

  /** The field names the line lemmas below write out carry no comma and no blank ends. */
  lemma PlainFieldNames()
    ensures Untrimmed("birth_date") && ',' !in "birth_date"
    ensures Untrimmed("birth_weight_kg") && ',' !in "birth_weight_kg"
    ensures Untrimmed("pre_pregnancy_weight_kg") && ',' !in "pre_pregnancy_weight_kg"
  {
  }

  lemma DateTextUntrimmed(y: nat, m: nat, d: nat)
    requires y < 10000 && m < 100 && d < 100
    ensures Untrimmed(DateText(y, m, d))
  {
    var s := DateText(y, m, d);
    assert s[0] == Pad4(y)[0] && s[|s| - 1] == Pad2(d)[1];
  }

  lemma DigitsUntrimmed(n: nat)
    ensures Untrimmed(DecimalDigits(n))
  {
    var s := DecimalDigits(n);
    assert IsDigit(s[0]) && IsDigit(s[|s| - 1]);
  }

  // ---------------------------------------------------------------------
  // The baby profile

  const BabyFields: set<string> :=
    {"baby_name", "birth_date", "birth_weight_kg", "birth_height_cm",
     "birth_head_circumference_cm", "blood_type", "gender", "notes"}

  /** The baby fields whose value must parse as a date, those that must parse as a number, and those that keep the text. */
  const BabyDateFields: set<string> := {"birth_date"}
  const BabyNumberFields: set<string> := {"birth_weight_kg", "birth_height_cm", "birth_head_circumference_cm"}
  const BabyTextFields: set<string> := {"baby_name", "blood_type", "gender", "notes"}

  /** Every baby field takes exactly one kind of value. */
  lemma BabyFieldKinds()
    ensures BabyTextFields !! BabyDateFields && BabyTextFields !! BabyNumberFields && BabyDateFields !! BabyNumberFields
    ensures BabyFields == BabyTextFields + BabyDateFields + BabyNumberFields
  {
  }

  /** The text property a text field names; None for any other field. */
  function BabyTextOf(q: BabyProfile, field: string): (t: Option<string>) {
    if field == "baby_name" then q.name
    else if field == "blood_type" then q.bloodType
    else if field == "gender" then q.gender
    else if field == "notes" then q.notes
    else None
  }

  /** The measurement a number field names; zero for any other field. */
  function BabyNumberOf(q: BabyProfile, field: string): (x: real) {
    if field == "birth_weight_kg" then q.birthWeight
    else if field == "birth_height_cm" then q.birthHeight
    else if field == "birth_head_circumference_cm" then q.birthHeadCircumference
    else 0.0
  }

  /** A baby field line whose value does not parse as the field's type requires. */
  predicate BabyValueRejected(field: string, value: string) {
    (field in BabyDateFields && ParseDate(value).None?) ||
    (field in BabyNumberFields && ParseDouble(value).None?)
  }

  /** `q` agrees with `p` on every property except the one `field` names. */
  predicate BabyAgreeExcept(p: BabyProfile, q: BabyProfile, field: string) {
    (field != "baby_name" ==> q.name == p.name) &&
    (field != "birth_date" ==> q.birthDate == p.birthDate) &&
    (field != "birth_weight_kg" ==> q.birthWeight == p.birthWeight) &&
    (field != "birth_height_cm" ==> q.birthHeight == p.birthHeight) &&
    (field != "birth_head_circumference_cm" ==> q.birthHeadCircumference == p.birthHeadCircumference) &&
    (field != "blood_type" ==> q.bloodType == p.bloodType) &&
    (field != "gender" ==> q.gender == p.gender) &&
    (field != "notes" ==> q.notes == p.notes)
  }

  /**
   * The `switch (field)` of `loadBabyProfile` (Main.java:97-122). An empty
   * value is not skipped: it sets a text field to the empty text, and makes
   * a date or number field fail.
   */
  function BabyField(p: BabyProfile, field: string, value: string): (r: Result<BabyProfile, ProfileError>)
    ensures field !in BabyFields ==> r == Ok(p)
    ensures r.Err? <==> BabyValueRejected(field, value)
    ensures r.Err? ==> r.error.field == field && r.error.value == value
    ensures r.Err? ==> (r.error.BadDate? <==> field in BabyDateFields)
    ensures r.Ok? ==> BabyAgreeExcept(p, r.value, field)
    ensures r.Ok? && field in BabyTextFields ==> BabyTextOf(r.value, field) == Some(value)
    ensures r.Ok? && field in BabyDateFields ==> r.value.birthDate == ParseDate(value)
    ensures r.Ok? && field in BabyNumberFields ==> ParseDouble(value) == Some(BabyNumberOf(r.value, field))
  {
    BabyFieldKinds();
    if field in BabyDateFields then
      var d :- Need(ParseDate(value), BadDate(field, value));
      Ok(p.(birthDate := Some(d)))
    else if field in BabyNumberFields then
      var x :- Need(ParseDouble(value), BadNumber(field, value));
      Ok(SetBabyNumber(p, field, x))
    else Ok(SetBabyText(p, field, value))
  }

  /** The number cases of the switch: store the parsed number in the measurement the field names. */
  function SetBabyNumber(p: BabyProfile, field: string, x: real): (q: BabyProfile)
    requires field in BabyNumberFields
    ensures BabyAgreeExcept(p, q, field)
    ensures BabyNumberOf(q, field) == x
  {
    if field == "birth_weight_kg" then p.(birthWeight := x)
    else if field == "birth_height_cm" then p.(birthHeight := x)
    else p.(birthHeadCircumference := x)
  }

  /** The text cases of the switch; a field the switch does not name leaves the profile as it was. */
  function SetBabyText(p: BabyProfile, field: string, value: string): (q: BabyProfile)
    ensures BabyAgreeExcept(p, q, field)
    ensures field in BabyTextFields ==> BabyTextOf(q, field) == Some(value)
    ensures field !in BabyFields ==> q == p
  {
    if field == "baby_name" then p.(name := Some(value))
    else if field == "blood_type" then p.(bloodType := Some(value))
    else if field == "gender" then p.(gender := Some(value))
    else if field == "notes" then p.(notes := Some(value))
    else p
  }

  function BabyLine(p: BabyProfile, raw: string): (r: Result<BabyProfile, ProfileError>)
    ensures ProfileEntry(raw).None? ==> r == Ok(p)
  {
    match ProfileEntry(raw)
    case None => Ok(p)
    case Some(entry) => BabyField(p, entry.0, entry.1)
  }

  /** The loop over the profile lines, in file order; the first line that fails ends the load. */
  function BabyLines(p: BabyProfile, lines: seq<string>): (r: Result<BabyProfile, ProfileError>)
    ensures r.Err? ==> r.error.field in BabyDateFields + BabyNumberFields
    ensures r.Err? ==> exists k :: 0 <= k < |lines| && ProfileEntry(lines[k]) == Some((r.error.field, r.error.value))
    decreases |lines|
  {
    if lines == [] then Ok(p)
    else
      var q :- BabyLines(p, lines[..|lines| - 1]);
      BabyLine(q, lines[|lines| - 1])
  }

  /** The lines after the header: none when the file has at most one line. */
  function AfterHeader(lines: seq<string>): (r: seq<string>)
    ensures |lines| >= 1 ==> r == lines[1..]
    ensures |lines| == 0 ==> r == []
  {
    if |lines| <= 1 then [] else lines[1..]
  }

  /** `loadBabyProfile` on the text of the file. */
  function LoadBabyProfile(text: string): (r: Result<BabyProfile, ProfileError>)
    ensures |SplitLines(text)| <= 1 ==> r == Ok(EmptyBabyProfile)
    ensures r.Err? ==> r.error.field in BabyDateFields + BabyNumberFields
  {
    BabyLines(EmptyBabyProfile, AfterHeader(SplitLines(text)))
  }

  /**
   * Loading two runs of lines one after the other is loading their
   * concatenation, and an error in the first run is the error of the whole.
   */
  lemma {:induction false} BabyLinesAppend(p: BabyProfile, a: seq<string>, b: seq<string>)
    ensures BabyLines(p, a + b) ==
              match BabyLines(p, a)
              case Err(e) => Err(e)
              case Ok(q) => BabyLines(q, b)
    decreases |b|
  {
    if b == [] {
      assert a + b == a;
    } else {
      var b' := b[..|b| - 1];
      assert (a + b)[..|a + b| - 1] == a + b';
      assert (a + b)[|a + b| - 1] == b[|b| - 1];
      BabyLinesAppend(p, a, b');
    }
  }

  /** A line that cannot change the profile: blank, without a comma, or naming an unknown field. */
  predicate BabyInert(raw: string) {
    ProfileEntry(raw).None? || ProfileEntry(raw).value.0 !in BabyFields
  }

  /** Deleting an inert line from anywhere in the file does not change the loaded profile. */
  lemma BabyInertErasable(p: BabyProfile, a: seq<string>, raw: string, b: seq<string>)
    requires BabyInert(raw)
    ensures BabyLines(p, a + [raw] + b) == BabyLines(p, a + b)
  {
    BabyLinesAppend(p, a + [raw], b);
    BabyLinesAppend(p, a, b);
    BabyLinesAppend(p, a, [raw]);
    assert (a + [raw])[..|a + [raw]| - 1] == a;
  }

  /** A line that fails aborts the load: whatever follows, the result is its error. */
  lemma BabyFailureAborts(p: BabyProfile, a: seq<string>, raw: string, b: seq<string>, q: BabyProfile)
    requires BabyLines(p, a) == Ok(q) && BabyLine(q, raw).Err?
    ensures BabyLines(p, a + [raw] + b) == BabyLine(q, raw)
  {
    BabyLinesAppend(p, a + [raw], b);
    BabyLinesAppend(p, a, [raw]);
    assert [raw][..0] == [];
  }

  /** A `field,value` line applies that field with that value. */
  lemma BabyLineOf(p: BabyProfile, field: string, value: string)
    requires Untrimmed(field) && ',' !in field && Untrimmed(value)
    ensures BabyLine(p, field + "," + value) == BabyField(p, field, value)
  {
    EntryOfLine(field, value);
  }

  /** A text field with an empty value is set to the empty text, not skipped. */
  lemma BabyEmptyTextIsKept(p: BabyProfile)
    ensures BabyLine(p, "baby_name" + "," + "") == Ok(p.(name := Some("")))
  {
    BabyLineOf(p, "baby_name", "");
  }

  /** A number field with an empty value fails the load. */
  lemma BabyEmptyNumberFails(p: BabyProfile)
    ensures BabyLine(p, "birth_weight_kg" + "," + "") == Err(BadNumber("birth_weight_kg", ""))
  {
    BabyLineOf(p, "birth_weight_kg", "");
  }

  /** A well-formed birth-date line sets the birth date to the day it names. */
  lemma BirthDateLine(p: BabyProfile, y: nat, m: nat, d: nat)
    requires 1 <= y < 10000 && 1 <= m <= 12 && 1 <= d <= MonthLength(y, m)
    ensures BabyLine(p, "birth_date" + "," + DateText(y, m, d)) == Ok(p.(birthDate := Some(DayNumber(Date(y, m, d)))))
  {
    var s := DateText(y, m, d);
    ParseDateText(y, m, d);
    BirthDateField(p, s, DayNumber(Date(y, m, d)));
    DateTextUntrimmed(y, m, d);
    PlainFieldNames();
    BabyLineOf(p, "birth_date", s);
  }

  /** A birth-date field whose value parses sets the birth date. */
  lemma BirthDateField(p: BabyProfile, value: string, day: Day)
    requires ParseDate(value) == Some(day)
    ensures BabyField(p, "birth_date", value) == Ok(p.(birthDate := Some(day)))
  {
  }

  /** A birth-date line with a month outside 1..12 stops the load with that line's field and value. */
  lemma BirthDateBadMonth(p: BabyProfile, y: nat, m: nat, d: nat)
    requires y < 10000 && 12 < m < 100 && d < 100
    ensures BabyLine(p, "birth_date" + "," + DateText(y, m, d)) == Err(BadDate("birth_date", DateText(y, m, d)))
  {
    var s := DateText(y, m, d);
    DateTextUntrimmed(y, m, d);
    BabyLineOf(p, "birth_date", s);
    ParseDateText(y, m, d);
  }

  /** A birth-weight field whose value parses sets the birth weight. */
  lemma BirthWeightField(p: BabyProfile, value: string, x: real)
    requires ParseDouble(value) == Some(x)
    ensures BabyField(p, "birth_weight_kg", value) == Ok(p.(birthWeight := x))
  {
  }

  /** A birth weight written in decimal digits sets the birth weight to that number. */
  lemma BirthWeightLine(p: BabyProfile, n: nat)
    ensures BabyLine(p, "birth_weight_kg" + "," + DecimalDigits(n)) == Ok(p.(birthWeight := n as real))
  {
    var s := DecimalDigits(n);
    ParseDoubleDecimal(n);
    BirthWeightField(p, s, n as real);
    DigitsUntrimmed(n);
    PlainFieldNames();
    BabyLineOf(p, "birth_weight_kg", s);
  }

  // ---------------------------------------------------------------------
  // The parent profile

  const MamaFields: set<string> :=
    {"mama_name", "last_menstrual_period", "expected_due_date", "pre_pregnancy_weight_kg",
     "blood_type", "height_cm", "doctor_name", "doctor_phone", "hospital", "allergies",
     "chronic_conditions", "delivery_date", "delivery_type", "baby_name", "notes"}

  /** The parent fields whose value must parse as a date, those that must parse as a number, and those that keep the text. */
  const MamaDateFields: set<string> := {"last_menstrual_period", "expected_due_date", "delivery_date"}
  const MamaNumberFields: set<string> := {"pre_pregnancy_weight_kg", "height_cm"}
  const MamaTextFields: set<string> :=
    {"mama_name", "blood_type", "doctor_name", "doctor_phone", "hospital", "allergies",
     "chronic_conditions", "delivery_type", "baby_name", "notes"}

  /** Every parent field takes exactly one kind of value. */
  lemma MamaFieldKinds()
    ensures MamaTextFields !! MamaDateFields && MamaTextFields !! MamaNumberFields && MamaDateFields !! MamaNumberFields
    ensures MamaFields == MamaTextFields + MamaDateFields + MamaNumberFields
  {
  }

  /** The date property a date field names; None for any other field. */
  function MamaDateOf(q: MamaProfile, field: string): (d: Option<Day>) {
    if field == "last_menstrual_period" then q.lastMenstrualPeriod
    else if field == "expected_due_date" then q.expectedDueDate
    else if field == "delivery_date" then q.deliveryDate
    else None
  }

  /** The measurement a number field names; zero for any other field. */
  function MamaNumberOf(q: MamaProfile, field: string): (x: real) {
    if field == "pre_pregnancy_weight_kg" then q.prePregnancyWeight
    else if field == "height_cm" then q.height
    else 0.0
  }

  /** The text property a text field names; None for any other field. */
  function MamaTextOf(q: MamaProfile, field: string): (t: Option<string>) {
    if field == "mama_name" then q.name
    else if field == "blood_type" then q.bloodType
    else if field == "doctor_name" then q.doctorName
    else if field == "doctor_phone" then q.doctorPhone
    else if field == "hospital" then q.hospital
    else if field == "allergies" then q.allergies
    else if field == "chronic_conditions" then q.chronicConditions
    else if field == "delivery_type" then q.deliveryType
    else if field == "baby_name" then q.babyName
    else if field == "notes" then q.notes
    else None
  }

  /** A non-empty parent field value that does not parse as the field's type requires. */
  predicate MamaValueRejected(field: string, value: string) {
    value != [] &&
    ((field in MamaDateFields && ParseDate(value).None?) ||
     (field in MamaNumberFields && ParseDouble(value).None?))
  }

  /** `q` agrees with `p` on every property except the one `field` names. */
  predicate MamaAgreeExcept(p: MamaProfile, q: MamaProfile, field: string) {
    (field != "mama_name" ==> q.name == p.name) &&
    (field != "last_menstrual_period" ==> q.lastMenstrualPeriod == p.lastMenstrualPeriod) &&
    (field != "expected_due_date" ==> q.expectedDueDate == p.expectedDueDate) &&
    (field != "pre_pregnancy_weight_kg" ==> q.prePregnancyWeight == p.prePregnancyWeight) &&
    (field != "blood_type" ==> q.bloodType == p.bloodType) &&
    (field != "height_cm" ==> q.height == p.height) &&
    (field != "doctor_name" ==> q.doctorName == p.doctorName) &&
    (field != "doctor_phone" ==> q.doctorPhone == p.doctorPhone) &&
    (field != "hospital" ==> q.hospital == p.hospital) &&
    (field != "allergies" ==> q.allergies == p.allergies) &&
    (field != "chronic_conditions" ==> q.chronicConditions == p.chronicConditions) &&
    (field != "delivery_date" ==> q.deliveryDate == p.deliveryDate) &&
    (field != "delivery_type" ==> q.deliveryType == p.deliveryType) &&
    (field != "baby_name" ==> q.babyName == p.babyName) &&
    (field != "notes" ==> q.notes == p.notes)
  }

  /**
   * The `switch (field)` of `loadMamaProfile` (Main.java:202-250), after the
   * check that skips a line whose value is empty, grouped by the type of
   * value each field takes.
   */
  function MamaField(p: MamaProfile, field: string, value: string): (r: Result<MamaProfile, ProfileError>)
    ensures field !in MamaFields ==> r == Ok(p)
    ensures value == [] ==> r == Ok(p)
    ensures r.Err? <==> MamaValueRejected(field, value)
    ensures r.Err? ==> r.error.field == field && r.error.value == value
    ensures r.Err? ==> (r.error.BadDate? <==> field in MamaDateFields)
    ensures r.Ok? ==> MamaAgreeExcept(p, r.value, field)
    ensures r.Ok? && value != [] && field in MamaTextFields ==> MamaTextOf(r.value, field) == Some(value)
    ensures r.Ok? && value != [] && field in MamaDateFields ==> MamaDateOf(r.value, field) == ParseDate(value)
    ensures r.Ok? && value != [] && field in MamaNumberFields ==> ParseDouble(value) == Some(MamaNumberOf(r.value, field))
  {
    MamaFieldKinds();
    if value == [] then Ok(p)
    else if field in MamaDateFields then
      var d :- Need(ParseDate(value), BadDate(field, value));
      Ok(SetMamaDate(p, field, d))
    else if field in MamaNumberFields then
      var x :- Need(ParseDouble(value), BadNumber(field, value));
      Ok(SetMamaNumber(p, field, x))
    else Ok(SetMamaText(p, field, value))
  }

  /** The date cases of the switch: store the parsed day in the property the field names. */
  function SetMamaDate(p: MamaProfile, field: string, d: Day): (q: MamaProfile)
    requires field in MamaDateFields
    ensures MamaAgreeExcept(p, q, field)
    ensures MamaDateOf(q, field) == Some(d)
  {
    if field == "last_menstrual_period" then p.(lastMenstrualPeriod := Some(d))
    else if field == "expected_due_date" then p.(expectedDueDate := Some(d))
    else p.(deliveryDate := Some(d))
  }

  /** The number cases of the switch. */
  function SetMamaNumber(p: MamaProfile, field: string, x: real): (q: MamaProfile)
    requires field in MamaNumberFields
    ensures MamaAgreeExcept(p, q, field)
    ensures MamaNumberOf(q, field) == x
  {
    if field == "pre_pregnancy_weight_kg" then p.(prePregnancyWeight := x)
    else p.(height := x)
  }

  /** The text cases of the switch; a field the switch does not name leaves the profile as it was. */
  function SetMamaText(p: MamaProfile, field: string, value: string): (q: MamaProfile)
    ensures MamaAgreeExcept(p, q, field)
    ensures field in MamaTextFields ==> MamaTextOf(q, field) == Some(value)
    ensures field !in MamaFields ==> q == p
  {
    if field == "mama_name" then p.(name := Some(value))
    else if field == "blood_type" then p.(bloodType := Some(value))
    else if field == "doctor_name" then p.(doctorName := Some(value))
    else if field == "doctor_phone" then p.(doctorPhone := Some(value))
    else if field == "hospital" then p.(hospital := Some(value))
    else if field == "allergies" then p.(allergies := Some(value))
    else if field == "chronic_conditions" then p.(chronicConditions := Some(value))
    else if field == "delivery_type" then p.(deliveryType := Some(value))
    else if field == "baby_name" then p.(babyName := Some(value))
    else if field == "notes" then p.(notes := Some(value))
    else p
  }

  function MamaLine(p: MamaProfile, raw: string): (r: Result<MamaProfile, ProfileError>)
    ensures ProfileEntry(raw).None? ==> r == Ok(p)
  {
    match ProfileEntry(raw)
    case None => Ok(p)
    case Some(entry) => MamaField(p, entry.0, entry.1)
  }

  /** The loop over the profile lines, in file order; the first line that fails ends the load. */
  function MamaLines(p: MamaProfile, lines: seq<string>): (r: Result<MamaProfile, ProfileError>)
    ensures r.Err? ==> r.error.field in MamaDateFields + MamaNumberFields && r.error.value != []
    ensures r.Err? ==> exists k :: 0 <= k < |lines| && ProfileEntry(lines[k]) == Some((r.error.field, r.error.value))
    decreases |lines|
  {
    if lines == [] then Ok(p)
    else
      var q :- MamaLines(p, lines[..|lines| - 1]);
      MamaLine(q, lines[|lines| - 1])
  }

  /** `loadMamaProfile` on the text of the file. */
  function LoadMamaProfile(text: string): (r: Result<MamaProfile, ProfileError>)
    ensures |SplitLines(text)| <= 1 ==> r == Ok(EmptyMamaProfile)
    ensures r.Err? ==> r.error.field in MamaDateFields + MamaNumberFields && r.error.value != []
  {
    MamaLines(EmptyMamaProfile, AfterHeader(SplitLines(text)))
  }

  /**
   * Loading two runs of lines one after the other is loading their
   * concatenation, and an error in the first run is the error of the whole.
   */
  lemma {:induction false} MamaLinesAppend(p: MamaProfile, a: seq<string>, b: seq<string>)
    ensures MamaLines(p, a + b) ==
              match MamaLines(p, a)
              case Err(e) => Err(e)
              case Ok(q) => MamaLines(q, b)
    decreases |b|
  {
    if b == [] {
      assert a + b == a;
    } else {
      var b' := b[..|b| - 1];
      assert (a + b)[..|a + b| - 1] == a + b';
      assert (a + b)[|a + b| - 1] == b[|b| - 1];
      MamaLinesAppend(p, a, b');
    }
  }

  /**
   * A line that cannot change the profile: blank, without a comma, naming
   * an unknown field, or with an empty value.
   */
  predicate MamaInert(raw: string) {
    ProfileEntry(raw).None? || ProfileEntry(raw).value.0 !in MamaFields || ProfileEntry(raw).value.1 == []
  }

  /** Deleting an inert line from anywhere in the file does not change the loaded profile. */
  lemma MamaInertErasable(p: MamaProfile, a: seq<string>, raw: string, b: seq<string>)
    requires MamaInert(raw)
    ensures MamaLines(p, a + [raw] + b) == MamaLines(p, a + b)
  {
    MamaLinesAppend(p, a + [raw], b);
    MamaLinesAppend(p, a, b);
    MamaLinesAppend(p, a, [raw]);
    assert (a + [raw])[..|a + [raw]| - 1] == a;
  }

  /** A line that fails aborts the load: whatever follows, the result is its error. */
  lemma MamaFailureAborts(p: MamaProfile, a: seq<string>, raw: string, b: seq<string>, q: MamaProfile)
    requires MamaLines(p, a) == Ok(q) && MamaLine(q, raw).Err?
    ensures MamaLines(p, a + [raw] + b) == MamaLine(q, raw)
  {
    MamaLinesAppend(p, a + [raw], b);
    MamaLinesAppend(p, a, [raw]);
    assert [raw][..0] == [];
  }

  /** A `field,value` line applies that field with that value. */
  lemma MamaLineOf(p: MamaProfile, field: string, value: string)
    requires Untrimmed(field) && ',' !in field && Untrimmed(value)
    ensures MamaLine(p, field + "," + value) == MamaField(p, field, value)
  {
    EntryOfLine(field, value);
  }

  /** Unlike the baby loader, an empty value is skipped, even for a number or date field. */
  lemma MamaEmptyValueSkipped(p: MamaProfile, field: string)
    requires Untrimmed(field) && ',' !in field
    ensures MamaLine(p, field + "," + "") == Ok(p)
  {
    MamaLineOf(p, field, "");
  }

  /** A pre-pregnancy-weight field whose value parses sets that weight. */
  lemma PrePregnancyWeightField(p: MamaProfile, value: string, x: real)
    requires ParseDouble(value) == Some(x)
    ensures MamaField(p, "pre_pregnancy_weight_kg", value) == Ok(p.(prePregnancyWeight := x))
  {
  }

  /** A pre-pregnancy weight written in decimal digits sets that weight. */
  lemma PrePregnancyWeightLine(p: MamaProfile, n: nat)
    ensures MamaLine(p, "pre_pregnancy_weight_kg" + "," + DecimalDigits(n)) == Ok(p.(prePregnancyWeight := n as real))
  {
    var s := DecimalDigits(n);
    ParseDoubleDecimal(n);
    PrePregnancyWeightField(p, s, n as real);
    DigitsUntrimmed(n);
    PlainFieldNames();
    MamaLineOf(p, "pre_pregnancy_weight_kg", s);
  }
}
