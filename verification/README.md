# Baby and mama tracker: a Dafny model of the log-analysis engine

`Main.java` is a console program for a newborn and the parent who gave birth.
It reads two profile files and two event logs (CSV), tallies the logs row by
row, and prints statistics and advisories. This project models the engine
behind that output in Dafny:

- `csv.dfy` (`Csv`): the quote-aware line tokenizer `parseCSVLine`. It is
  proved equal to an independent reference split: cut the line at every comma
  outside quotes, then delete the quotes.
- `javatext.dfy`, `numbers.dfy`, `dates.dfy`: the library calls the engine
  depends on, namely `String.trim`, `replace`, `split`, `Integer.parseInt`,
  `Double.parseDouble`, `LocalDate.parse` with the pattern `yyyy-MM-dd` and
  `LocalTime.parse` with `HH:mm`. Dates are day numbers and times are minutes
  of the day.
- `rows.dfy` (`Rows`): what the two row loops share. This covers the per-row
  `try`/`catch` (a `Try` value: updates made before a failing parse persist,
  and the rest of the row is abandoned), the "present and non-empty" column
  test, frequency tables as multisets, and unit stripping.
- `infant_log.dfy` (`InfantLog`) and `parent_log.dfy` (`ParentLog`): the row
  loops of `analyzeBabyData` and `analyzeMamaData`. Each is an immutable
  tally with one pure step per line and one function per `case`. The
  properties cover no-op rows (blank, short, undated, unknown activity), the
  route each activity takes, and what a row keeps when it throws. Folds
  connect the final tally to independent definitions over the whole log:
  readings lists, symptom multisets and activity counts.
- `infant_advice.dfy` (`InfantAdvice`) and `parent_advice.dfy`
  (`ParentAdvice`): the derived metrics and advisory rules. Each rule is a
  classifier, with both directions of every band stated as inequalities on
  the tally.
- `profiles.dfy` (`Profiles`): the two profile loaders. A load is a `Result`.
  A date or number that does not parse aborts the whole load, and exactly the
  fields that hold a date or number can do so.

The clock is a parameter: `today` is a day number, and "now" is a day number
plus a minute of the day.

## Model

| member | source | states |
|---|---|---|
| JavaText.Trim | Main.java:88 | The trimmed string has no character at or below U+0020 at either end and is no longer than the input; a string whose ends are already non-blank comes back unchanged |
| JavaText.TrimStartDropsBlanks | Main.java:88 | Everything `trim` removes from the front of a string is a blank or control character |
| JavaText.TrimEndDropsBlanks | Main.java:88 | Everything `trim` removes from the end of a string is a blank or control character |
| JavaText.TrimEmptyIff | Main.java:343-344 | A log line is skipped as blank exactly when every character in it is at or below U+0020 |
| JavaText.TrimIdempotent | Main.java:343-352 | Trimming an already trimmed line or field again changes nothing |
| JavaText.RemoveAll | Main.java:437 | `replace(unit, "")` never lengthens a string and leaves a string that lacks the unit's first character untouched |
| JavaText.RemoveAllEmptyIff | Main.java:437-438 | After the unit is removed, the amount is empty exactly when the field was the unit repeated zero or more times ("", "ml", "mlml", ...) |
| JavaText.RemoveAllTrailingUnit | Main.java:437 | A text that does not contain the unit's first character, followed by the unit, reads back as that text |
| JavaText.SplitAtFirstSpec | Main.java:91-92 | `split(",", 2)` has no second part exactly when the line has no comma; otherwise the line is the first part, a comma and the rest, and the first part contains no comma |
| JavaText.SplitAtFirstUnique | Main.java:91 | Splitting `name,value` with a comma-free name gives back that name and the whole value, even when the value contains commas |
| JavaText.SplitOn | Main.java:83 | The pieces rejoined with the separator give back the text, no piece contains the separator, and the last piece is empty exactly when the text is empty or ends with the separator |
| JavaText.DropTrailingEmpty | Main.java:83 | `split` drops only trailing empty pieces: the result is a prefix of the pieces, every dropped piece is empty, and the result does not end with an empty piece |
| JavaText.SplitLines | Main.java:83 | No line contains a newline, a text without a newline is one line, and a text that does not end in a newline is the lines rejoined with newlines |
| Numbers.AddInt32 | Main.java:383 | Java `int` addition equals the true sum when that fits in 32 bits, and otherwise differs from it by a multiple of 2^32 |
| Numbers.JavaDiv | Main.java:517 | Java integer division truncates toward zero: the quotient of a non-negative dividend is rounded down, and that of a negative dividend is rounded up |
| Numbers.JavaRem | Main.java:273 | The remainder completes the division (dividend = quotient * divisor + remainder) and takes the dividend's sign |
| Numbers.ParseInt | Main.java:382 | A string `Integer.parseInt` accepts is non-empty and consists of ASCII digits with at most one leading sign |
| Numbers.ParseIntDecimal | Main.java:382 | The decimal digits of n parse exactly when n fits in a Java `int`, and then they parse back to n |
| Numbers.ParseIntNegative | Main.java:382 | A minus sign followed by the digits of n parses exactly when n <= 2^31, to -n |
| Numbers.ParseDouble | Main.java:405 | `Double.parseDouble` accepts a text exactly when, once trimmed and after an optional sign, it is a non-empty run of ASCII digits with at most one point, and not a lone point. A blank text is rejected |
| Numbers.ParseDoubleRejectsExamples | Main.java:405 | `.`, `1.2.3` and `+-5` are rejected |
| Numbers.ReadDoubleTrims | Main.java:405 | Reading a column parses the column after trimming it |
| Numbers.ParseDoubleDecimal | Main.java:439 | The decimal digits of n parse to n |
| Numbers.ParseDoubleWithFraction | Main.java:405 | `w.f`, with w a non-empty run of digits and f a run of digits, reads as the value of w plus f over ten to the power of its length. That value is at least w and below w + 1 |
| Numbers.ParseDoubleNegativeFraction | Main.java:405 | `-w.f` reads as the negation of the value `w.f` reads as |
| Numbers.ParseDoubleExample | Main.java:405 | The temperature `37.5` reads as 37.5 |
| Numbers.ParseDoubleNegativeExample | Main.java:405 | `-0.25` reads as -0.25 |
| Numbers.Fraction | Main.java:405 | The digits after the point, as their value over ten to the power of their count, lie in [0, 1) |
| Numbers.LeadingBlank | Main.java:382-405 | A leading blank is ignored by `Double.parseDouble` but makes `Integer.parseInt` fail |
| Dates.DayNumberOrder | Main.java:357-359 | Comparing two valid dates, with `equals` or `isBefore`, is the same as comparing their day numbers, in both directions |
| Dates.ParseDate | Main.java:356 | A text the `yyyy-MM-dd` pattern accepts has ten characters, with dashes at positions 4 and 7 |
| Dates.ParseDateText | Main.java:356 | `yyyy-MM-dd` parses exactly when the year is at least 1, the month is 1 to 12 and the day is 1 to 31. A real date gives its own day number; a day 29 to 31 past the end of its month gives the month's last day |
| Dates.ParseTimeText | Main.java:375 | `HH:mm` parses exactly for hours 0-23 with minutes 0-59, or for 24:00. The first give hour * 60 + minute; 24:00 gives midnight |
| Csv.Scan | Main.java:982-994 | From every state the loop can reach, the rest of the loop returns one field per comma outside quotes plus one. The fields rejoined with commas are the line with its quotes deleted, and no field contains a quote |
| Csv.ScanAdvance | Main.java:985-992 | One character moves the loop along one of three branches: a quote toggles quoting, a comma outside quotes closes the field, and any other character is appended. None of these changes what the loop finally returns |
| Csv.SplitStateNext | Main.java:985-992 | Each of the three branches keeps the loop's fields and its current field in step with the reference split of the prefix read so far |
| Csv.ScanSplits | Main.java:982-994 | A loop state that matches the reference split of its prefix finishes with the reference split of the whole line |
| Csv.ParseLine | Main.java:977-997 | The field count is 1 plus the number of commas outside quotes. The fields rejoined with commas are the line with every quote removed, and no field contains a quote |
| Csv.ParseLineIsSplit | Main.java:977-997 | For every line, `parseCSVLine` equals the reference split: cut at each comma outside quotes, then delete the quotes in each piece. This holds with unbalanced quotes too |
| Csv.QuotedCommaExample | Main.java:985-991 | `a,"b,c",d` gives `a`, `b,c`, `d`: a comma inside quotes stays in its field, and the quotes are dropped |
| Csv.EmptyLineIsOneField | Main.java:994 | The empty line gives one empty field, because the final field is always added |
| Rows.Attempt | Main.java:469-472 | A parse inside the row's `try` continues exactly when it succeeds, with the parsed value. A failed parse freezes the row at the state it had reached |
| Rows.Note | Main.java:370 | Counting a key with `getOrDefault(key, 0) + 1` raises that key's count by one and leaves every other key's count alone |
| Rows.UnitOnlyReadsNothing | Main.java:436-439 | An amount column that is only the unit, possibly repeated, contributes nothing |
| Rows.NumberWithUnit | Main.java:436-439 | An amount column such as `120ml` contributes the number before the unit |
| Rows.StripUnit | Main.java:437 | Digits followed by the unit survive trimming, and removing the unit leaves exactly the digits |
| Rows.Max | Main.java:408 | `Math.max` is at least both arguments and equals one of them |
| Rows.Min | Main.java:409 | `Math.min` is at most both arguments and equals one of them |
| Rows.MaxOf | Main.java:408 | A running maximum from a sentinel is at least the sentinel and every reading, and it is the sentinel or one of the readings |
| Rows.MinOf | Main.java:409 | A running minimum from a sentinel is at most the sentinel and every reading, and it is the sentinel or one of the readings |
| Rows.MaxOfAtLeast | Main.java:542 | A running maximum reaches a bound exactly when the sentinel or some reading reaches it |
| Rows.PumpingStep | Main.java:434-441 | A pumping session counts even when its amount fails to parse; the total grows by the amount read, or by nothing |
| Rows.RowColumns | Main.java:343-347 | A log line reaches the `switch` exactly when it is not blank after trimming and has at least two commas outside quotes. Its columns are the tokenizer's fields of the trimmed line |
| InfantLog.InfantActivityOf | Main.java:361 | An activity the `switch` recognises is the one whose case label equals the activity field |
| InfantLog.InfantActivityRoundTrip | Main.java:361-467 | Each case label selects its own case |
| InfantLog.InfantActivityNamesKnown | Main.java:361-468 | An activity falls through the `switch` exactly when it is none of the eleven case labels |
| InfantLog.InfantActivityIs | Main.java:361 | A row selects an activity's case exactly when its trimmed activity field is that case's label |
| InfantLog.Record | Main.java:406-409 | A temperature reading raises the count by one and the sum by the reading, and the maximum and minimum then bracket it |
| InfantLog.TemperatureStep | Main.java:403-410 | A readable temperature enters all four statistics together. Otherwise none of them changes, since the parse comes before every update |
| InfantLog.DiaperStep | Main.java:393-400 | Every diaper row adds one to the total, and one to today's count exactly when dated today. The trimmed type column is tallied exactly when it is present |
| InfantLog.MoodStep | Main.java:412-417 | A mood row tallies its trimmed mood column exactly when it is present, and adds nothing else |
| InfantLog.VaccineStep | Main.java:444-448 | Every vaccine row adds one to the count and appends exactly one entry, keeping the earlier entries. The entry is the row date, `: ` and the trimmed name column, or `Unknown` when the row has no name column |
| InfantLog.GrowthMeasurement | Main.java:455-466 | A growth measurement throws only when the row's kind matches, column 5 exists and its value does not parse. A throw leaves the growth lists as they were |
| InfantLog.OneGrowthKind | Main.java:455-461 | A growth row yields a weight or a height, never both |
| InfantLog.GrowthStepReadings | Main.java:454-467 | A growth row appends exactly its readable weight to the weights and its readable height to the heights, whether or not it throws |
| InfantLog.RowDay | Main.java:350-356 | A row has no date exactly when its trimmed date field is empty or does not parse; otherwise the date is that parse |
| InfantLog.Dispatch | Main.java:361-468 | An unrecognised activity changes nothing, and no case but `temperature` touches the temperature statistics |
| InfantLog.InfantRow | Main.java:349-472 | A row with an unrecognised activity, a blank date or an unparseable date leaves the whole tally unchanged |
| InfantLog.InfantLine | Main.java:343-347 | A blank line, or one with fewer than three fields, leaves the tally unchanged; any other line is processed as its row |
| InfantLog.AnalyzeInfantLog | Main.java:305-310 | The analysis yields no tally exactly when the file splits into fewer than two lines |
| InfantLog.RowDispatch | Main.java:356-361 | A dated row with a recognised activity runs that activity's case, with the today, yesterday and this-week flags of its date |
| InfantLog.SleepRoute | Main.java:379-391 | A dated sleep row changes only the sleep statistics |
| InfantLog.FeedingRoute | Main.java:362-377 | A dated feeding row changes only the feeding statistics |
| InfantLog.PumpingRoute | Main.java:434-442 | A dated pumping row changes only the pumping statistics |
| InfantLog.GrowthRoute | Main.java:454-467 | A dated growth row changes only the growth lists |
| InfantLog.PumpingRow | Main.java:434-441 | A dated pumping row adds one session, and its readable amount or nothing |
| InfantLog.SleepStepUnchanged | Main.java:380-382 | A sleep row without the exact `end` marker, or with a duration that does not parse, changes no sleep statistic |
| InfantLog.SleepWithoutEndIsNoOp | Main.java:380 | A sleep row whose column 4 is not exactly `end` changes nothing, whatever its date |
| InfantLog.SleepEndWithoutDuration | Main.java:381-389 | An `end` row with no duration adds 0 minutes but still counts its quality |
| InfantLog.SleepEndStep | Main.java:380-389 | An `end` row adds its duration, with 32-bit wrap-around, to the total and to today's minutes when dated today, and counts its quality when present |
| InfantLog.SleepEndWithDuration | Main.java:381-384 | A dated `end` row with a readable duration adds it to the total, and to today's minutes exactly when the row is dated today |
| InfantLog.SleepBadDurationIsNoOp | Main.java:381-386 | An `end` row whose duration does not parse throws before any update, so its quality is not counted either |
| InfantLog.FeedingBadTimeKeepsCount | Main.java:363-375 | A feeding whose time does not parse is still counted, typed and dated, but the time of the last feeding keeps its old value |
| InfantLog.FeedingGoodTime | Main.java:363-375 | A feeding with a readable time counts once and becomes the last feeding, with its date and time |
| InfantLog.PumpingWithUnit | Main.java:434-441 | A pumping row whose amount is `<n>ml` adds one session and n millilitres |
| InfantLog.PumpingUnitOnly | Main.java:436-438 | A pumping row whose amount is only the unit adds one session and no millilitres |
| InfantLog.GrowthAppendsOnlyReadings | Main.java:454-467 | A dated growth row appends its readable weight or height and nothing else |
| InfantLog.InfantLinesAppend | Main.java:342-473 | Processing two runs of lines one after the other is processing their concatenation |
| InfantLog.InfantSkippedIsNoOp | Main.java:343-347 | A line the loop skips, blank or with fewer than three fields, leaves the tally unchanged |
| InfantLog.InfantSkippedErasable | Main.java:342-347 | Deleting a skipped line anywhere in the log does not change the final tally |
| InfantLog.OtherRowKeepsTemperature | Main.java:361-468 | A row whose activity is not `temperature` leaves the temperature statistics unchanged, even when it throws |
| InfantLog.TemperatureRowStep | Main.java:403-410 | A dated temperature row applies the temperature case to the statistics |
| InfantLog.TemperatureRow | Main.java:349-410 | A row adds its own reading to the temperature statistics when it has one, and otherwise leaves them alone |
| InfantLog.TemperatureLine | Main.java:343-410 | The same holds for a raw log line |
| InfantLog.TemperatureFold | Main.java:342-473 | After any run of lines, the temperature count, sum, maximum and minimum are those of the run's list of readable readings, which is defined independently of the loop |
| InfantLog.TemperaturesOfLog | Main.java:320-473 | Over a whole log, with the sentinels 0 and 100, the statistics are the count, sum, maximum and minimum of the log's readings |
| InfantAdvice.DaysSinceBirth | Main.java:476 | The birth date plus the days since birth is today. Without a birth date there is no value; the Java program has already stopped with a `NullPointerException` while displaying the profile (Main.java:135) |
| InfantAdvice.PerDay | Main.java:485 | Each of the feeding, sleep and diaper rates times `max(1, days)` gives back the amount, so a rate is defined even on the day of birth |
| InfantAdvice.HoursSinceFeeding | Main.java:493-497 | The hours since the last feeding exist exactly when a feeding date and time were recorded. They are the elapsed minutes divided by 60, truncated toward zero |
| InfantAdvice.FeedingOverdueIff | Main.java:499-501 | The "over 4 hours" warning fires exactly when at least 300 minutes have passed since the last feeding |
| InfantAdvice.RecommendedSleepHours | Main.java:517-518 | The recommendation is always 16, 14 or 13 hours |
| InfantAdvice.RecommendedSleepBrackets | Main.java:517-518 | The recommendation is 16 hours exactly under 90 days, 14 exactly from 90 to 359 days, and 13 exactly from 360 days on |
| InfantAdvice.SleepingTooLittleIff | Main.java:516-519 | The under-sleeping warning fires exactly when the total minutes are below recommendation * 60 * `max(1, days)` |
| InfantAdvice.TemperatureAlertOf | Main.java:536-547 | The section is absent exactly without readings. It reports fever exactly when the maximum is at least 38, and an elevated temperature exactly when the maximum is below 38 and the average at least 37.5 |
| InfantAdvice.FeverIffSomeReading | Main.java:542 | Over a whole log, fever is reported exactly when some readable reading is at least 38, and the section is absent exactly when the log has no readable reading |
| InfantAdvice.FussyPatternIsShare | Main.java:559-563 | The fussy/crying pattern fires exactly when fussy plus crying moods make up more than 40% of all moods |
| InfantAdvice.WeightGain | Main.java:569-572 | A weight gain exists exactly when some weight was recorded. It is the latest recorded weight minus the birth weight |
| Profiles.ProfileEntry | Main.java:88-95 | A profile line yields no entry exactly when its trimmed text has no comma |
| Profiles.EntryOfLine | Main.java:91-95 | `field,value` with a comma-free field and untrimmed parts yields exactly that field and value |
| Profiles.BabyField | Main.java:97-122 | An unknown field leaves the profile unchanged. A field fails exactly when it is `birth_date` and the value is not a date, or one of the three measurement fields and the value is not a number; the error names that field and value. A success changes only the property the field names, and gives it the value: the text itself for a text field, the parsed date for `birth_date`, the parsed number for a measurement |
| Profiles.SetBabyNumber | Main.java:104-112 | Setting a measurement field stores the number in the measurement that field names and changes nothing else |
| Profiles.SetBabyText | Main.java:98-121 | Setting a text field stores the text in the property that field names and changes nothing else; an unknown field changes nothing |
| Profiles.BabyLine | Main.java:88-122 | A blank line, or one without a comma, leaves the profile unchanged |
| Profiles.BabyLines | Main.java:87-123 | A failed load names a date or measurement field, and some line of the file carries exactly that field and value |
| Profiles.LoadBabyProfile | Main.java:83-125 | A file of at most one line loads the default profile, and a failed load names a date or measurement field |
| Profiles.BabyLinesAppend | Main.java:87-123 | Loading two runs of lines is loading the first and then the second from its result; a failure in the first run ends the load |
| Profiles.BabyInertErasable | Main.java:89-97 | Deleting a blank line, a comma-free line or a line naming an unknown field, anywhere in the file, does not change the load |
| Profiles.BabyFailureAborts | Main.java:101-111 | A line that fails aborts the whole load with that line's error, whatever lines follow |
| Profiles.BabyLineOf | Main.java:91-97 | A `field,value` line sets the field to the value exactly as the field switch does |
| Profiles.BabyEmptyTextIsKept | Main.java:98-99 | The infant loader does not skip an empty value: `baby_name,` sets the name to the empty string |
| Profiles.BabyEmptyNumberFails | Main.java:104-105 | `birth_weight_kg,` with an empty value aborts the infant load |
| Profiles.BirthDateLine | Main.java:101-102 | A `birth_date` line holding a real date sets the birth date to that date's day number |
| Profiles.BirthDateField | Main.java:101-102 | A parseable `birth_date` value sets the birth date and nothing else |
| Profiles.BirthDateBadMonth | Main.java:101-102 | A `birth_date` whose month is above 12 aborts the load with a date error for that line |
| Profiles.BirthWeightField | Main.java:104-105 | A parseable `birth_weight_kg` value sets the birth weight and nothing else |
| Profiles.BirthWeightLine | Main.java:104-105 | A `birth_weight_kg` line of decimal digits sets the birth weight to their value |
| Profiles.MamaField | Main.java:202-250 | An empty value or an unknown field leaves the profile unchanged. A non-empty value fails exactly when its field is one of the three date fields and it is not a date, or one of the two number fields and it is not a number; the error names that field and value. A success changes only the property the field names, and gives a non-empty value to it: the text itself for a text field, the parsed date for a date field, the parsed number for a number field |
| Profiles.SetMamaDate | Main.java:208-239 | Setting a date field stores the day in the property that field names and changes nothing else |
| Profiles.SetMamaNumber | Main.java:214-222 | Setting a number field stores the number in the property that field names and changes nothing else |
| Profiles.SetMamaText | Main.java:204-249 | Setting a text field stores the text in the property that field names and changes nothing else; an unknown field changes nothing |
| Profiles.MamaLine | Main.java:193-250 | A blank line, or one without a comma, leaves the profile unchanged |
| Profiles.MamaLines | Main.java:192-251 | A failed load names a date or number field and a non-empty value, and some line of the file carries exactly that field and value |
| Profiles.LoadMamaProfile | Main.java:188-253 | A file of at most one line loads the default profile, and a failed load names a date or number field with a non-empty value |
| Profiles.MamaLinesAppend | Main.java:192-251 | Loading two runs of lines is loading the first and then the second from its result; a failure in the first run ends the load |
| Profiles.MamaInertErasable | Main.java:194-204 | Deleting a blank line, a comma-free line, a line naming an unknown field or a line with an empty value, anywhere in the file, does not change the load |
| Profiles.MamaFailureAborts | Main.java:208-239 | A line that fails aborts the whole load with that line's error, whatever lines follow |
| Profiles.MamaLineOf | Main.java:196-204 | A `field,value` line sets the field to the value exactly as the field switch does |
| Profiles.MamaEmptyValueSkipped | Main.java:202 | The parent loader skips a line with an empty value, whatever its field |
| Profiles.PrePregnancyWeightField | Main.java:214-215 | A parseable `pre_pregnancy_weight_kg` value sets that weight and nothing else |
| Profiles.PrePregnancyWeightLine | Main.java:214-215 | A `pre_pregnancy_weight_kg` line of decimal digits sets that weight to their value |
| ParentLog.ParentActivityOf | Main.java:677 | An activity the `switch` recognises is the one whose case label equals the activity field |
| ParentLog.ParentActivityRoundTrip | Main.java:677-788 | Each case label selects its own case |
| ParentLog.ParentActivityNamesKnown | Main.java:677-789 | An activity falls through the `switch` exactly when it is none of the sixteen case labels |
| ParentLog.ParentActivityIs | Main.java:675-677 | A row selects an activity's case exactly when its trimmed activity field is that case's label |
| ParentLog.AddGain | Main.java:680-684 | A readable gain enters the gain sum and count and leaves the weight extrema alone; no gain changes nothing |
| ParentLog.GainStep | Main.java:680-684 | The gain half of a weight row throws exactly when column 8 is present and does not parse, and then changes nothing |
| ParentLog.Weigh | Main.java:687-688 | The maximum takes every weight. The minimum takes only positive weights and ignores the rest |
| ParentLog.ExtremaStep | Main.java:685-689 | A present, readable weight enters the extrema; otherwise they stay as they were |
| ParentLog.ScoreStep | Main.java:707-711 | A readable mood score enters the sum and the count. An absent or unreadable score changes neither |
| ParentLog.ParentDispatch | Main.java:677-789 | An unrecognised activity changes nothing |
| ParentLog.ParentRow | Main.java:672-790 | A row whose trimmed activity matches no case label leaves the whole tally unchanged |
| ParentLog.ParentLine | Main.java:668-672 | A blank line, or one with fewer than three fields, leaves the tally unchanged; any other line is processed as its row |
| ParentLog.AnalyzeParentLog | Main.java:632-637 | The analysis yields no tally exactly when the file splits into fewer than two lines |
| ParentLog.RowDispatch | Main.java:675-677 | A row with a recognised activity runs that activity's case |
| ParentLog.WeightRowDispatch | Main.java:678-690 | `weight` and `pregnancy_week` rows share one case, which decides the new weight statistics |
| ParentLog.OtherRowKeepsWeight | Main.java:677-789 | No other activity touches the weight statistics |
| ParentLog.WeightStepEffect | Main.java:678-690 | A weight row adds its gain first and then weighs its readable weight; a throw keeps what was done before it |
| ParentLog.GainSurvivesBadWeight | Main.java:680-689 | When the weight fails to parse, the gain added just before it stays in the sum and count |
| ParentLog.BadGainSkipsWeight | Main.java:680-681 | An unreadable gain throws before the weight is read, so the row changes nothing |
| ParentLog.ParentPumpingRow | Main.java:730-738 | A pumping row adds one session, and its readable amount from column 63 or nothing |
| ParentLog.ParentPumpingWithUnit | Main.java:730-738 | A pumping row whose column 63 is `<n>ml` adds one session and n millilitres |
| ParentLog.ExerciseBadMinutesCountsSession | Main.java:741-743 | An exercise row whose minutes do not parse counts the session but adds no minutes and no exercise type |
| ParentLog.RestStep | Main.java:718-724 | A readable minutes column adds those minutes (with `int` wrap-around) and one night; an absent one changes nothing; an unreadable one throws and changes nothing |
| ParentLog.ExerciseStep | Main.java:740-750 | Every exercise row counts a session. Readable minutes are added with `int` wrap-around. Unreadable minutes throw, and then the type is not tallied; otherwise a present type column is tallied |
| ParentLog.WaterStep | Main.java:760-766 | A readable litres column adds those litres and one day; an absent one changes nothing; an unreadable one throws and changes nothing |
| ParentLog.AppointmentEntry | Main.java:692-696 | A doctor appointment with a note adds one visit and one entry: the untrimmed date, a colon and the trimmed note |
| ParentLog.ParentLinesAppend | Main.java:667-793 | Processing two runs of lines one after the other is processing their concatenation |
| ParentLog.ParentSkippedIsNoOp | Main.java:668-672 | A line the loop skips leaves the tally unchanged |
| ParentLog.ParentSkippedErasable | Main.java:667-672 | Deleting a skipped line anywhere in the log does not change the final tally |
| ParentLog.MoodStepScore | Main.java:706-711 | A mood row adds its readable score to the sum and one to the count; otherwise it adds nothing |
| ParentLog.OtherRowKeepsMood | Main.java:677-789 | No activity but `mood` touches the mood statistics |
| ParentLog.MoodLine | Main.java:668-711 | A log line adds its readable mood score, if it has one, and nothing else to the score sum and count |
| ParentLog.MoodFold | Main.java:667-793 | After any run of lines, the score count and sum are the length and sum of the run's list of readable scores |
| ParentLog.Positives | Main.java:688 | The weights kept for the minimum are all positive and no more numerous than the weights read |
| ParentLog.WeightLine | Main.java:668-690 | A log line adds its readable gain and then weighs its readable weight |
| ParentLog.GainFold | Main.java:667-793 | After any run of lines, the gain count and sum are the length and sum of the run's list of readable gains |
| ParentLog.ExtremaFold | Main.java:667-793 | After any run of lines, the maximum weight is the running maximum of the readable weights, and the minimum is the running minimum of the positive ones |
| ParentLog.WeightFold | Main.java:643-793 | The gain and extrema statistics of a run of lines together, stated against its readings lists |
| ParentLog.SymptomRow | Main.java:768-773 | A row adds its symptom to the symptom table exactly when it is a symptom row with a present symptom column |
| ParentLog.SymptomLine | Main.java:668-773 | The same holds for a raw log line |
| ParentLog.SymptomFold | Main.java:667-793 | After any run of lines, the symptom table has grown by the multiset of the run's reported symptoms |
| ParentLog.ContractionsRow | Main.java:756-758 | A row adds one contraction exactly when its trimmed activity is `contractions` |
| ParentLog.OtherRowKeepsContractions | Main.java:677-789 | No other activity touches the contraction count |
| ParentLog.ContractionsDispatch | Main.java:756-758 | The contractions case adds one, and every other case adds nothing |
| ParentLog.ContractionsFold | Main.java:653-793 | After any run of lines, the contraction count has grown by the number of `contractions` lines in the run |
| ParentAdvice.Trimester | Main.java:274 | The trimester is always 1, 2 or 3 |
| ParentAdvice.TrimesterByDays | Main.java:271-274 | Counting whole weeks with Java's truncating division, the trimester is 1 exactly before day 98, 2 exactly from day 98 to day 195, and 3 exactly from day 196 on |
| ParentAdvice.ProgressOf | Main.java:262-281 | After a delivery, the delivery date plus the days postpartum is today, and the weeks are those days divided by 7 with truncation toward zero. Before it, progress exists exactly when a last period is recorded. Then weeks * 7 + extra days is the time since it, and the extra days lie strictly between -7 and 7 with the sign of that time. The trimester is the one of those weeks: 1 exactly when under 98 days have passed, 3 exactly when at least 196 have. The days until due exist exactly when a due date is recorded, with today + days until due = due date |
| ParentAdvice.GainForBmi | Main.java:804 | The recommended gain is always 18, 15, 11 or 9 kg |
| ParentAdvice.RecommendedGain | Main.java:803-804 | The recommendation is one of 18, 15, 11 or 9 kg. With height 0 the BMI is infinite or undefined, and the recommendation is 18 exactly when the pre-pregnancy weight is negative |
| ParentAdvice.RecommendedGainBands | Main.java:803-804 | For a non-zero height, the bands stated on the weight itself: 18 kg exactly below 18.5 times the squared height in metres, 15 up to 25 times it, 11 up to 30 times it, and 9 from there on |
| ParentAdvice.GainVerdictOf | Main.java:796 | There is a weight verdict exactly when some gain was recorded |
| ParentAdvice.GainVerdictMargins | Main.java:805-811 | With current gain = maximum weight minus pre-pregnancy weight, the verdict is "above" exactly when the gain exceeds the recommendation by more than 3 kg, "below" exactly when it falls short by more than 3 kg, and within range otherwise |
| ParentAdvice.GainVerdictExample | Main.java:803-811 | 88 kg at 200 cm (BMI 22) is recommended 15 kg, so a maximum of 108 kg reads as above the recommendation |
| ParentAdvice.GainWithoutWeightsReadsLow | Main.java:805-810 | When gains were recorded but no weight was, the maximum stays at its sentinel 0 from the start of the pass. For any non-negative pre-pregnancy weight the gain then reads as below the recommendation |
| ParentAdvice.MoodBandOf | Main.java:827-846 | There is a mood band exactly when some score was recorded |
| ParentAdvice.MoodBands | Main.java:834-854 | The average score gives Good exactly from 7, Fair exactly from 5 up to 7, Challenging exactly from 3 up to 5, and the alert exactly below 3; the low-mood warning fires exactly in the last two bands |
| ParentAdvice.MoodBandOfLog | Main.java:827-846 | Over a whole log, the mood band is the band of the average of the log's readable scores |
| ParentAdvice.ScoreBandExamples | Main.java:834-846 | Scores 8, 9, 7 read as Good; scores 2, 3 read as the alert |
| ParentAdvice.SleepVerdictOf | Main.java:863 | There is a sleep verdict exactly when some night was recorded |
| ParentAdvice.SleepBands | Main.java:864-877 | An average below 6 hours a night is deprivation, with a debt of (7 - average) * nights hours. An average from 6 up to 7 hours is below the recommendation, and 7 or more meets it |
| ParentAdvice.PumpingLowIff | Main.java:890-893 | Production is flagged low exactly when the total is below 500 ml for up to 4 sessions, and below 125 ml a session for 4 or more |
| ParentAdvice.MinutesPerSession | Main.java:901-902 | The minutes per session are the total divided by the sessions, truncated toward zero: for a non-negative total, the largest r with r * sessions <= total; for a negative one, the smallest r with total <= r * sessions |
| ParentAdvice.ExerciseGoalIff | Main.java:912-918 | The 150-minute weekly goal is met exactly when 7 times the total minutes is at least 150 times the sessions |
| ParentAdvice.HydrationOf | Main.java:921 | There is a hydration verdict exactly when some water intake was recorded |
| ParentAdvice.HydrationBands | Main.java:922-930 | The average intake is low exactly below 2 litres a day, excellent exactly from 2.5, and adequate in between |
| ParentAdvice.TipsOfLog | Main.java:939-966 | Over a whole log, the nausea tip fires exactly when more than 10 nausea symptoms were reported, the back-pain tip exactly when more than 15 back-pain symptoms were, and the contraction praise exactly when more than 10 contraction lines were logged |

## Left out

- Numbers.ParseDouble: reads only an optional sign, digits and an optional fraction after trimming. Exponents, `NaN`, `Infinity`, hexadecimal floats and a `d`/`f` suffix, all of which `Double.parseDouble` accepts, are rejected. A temperature row holding `3.75e1` is therefore abandoned, where Java records 37.5, and a profile line `birth_weight_kg,3.2e0` fails with a number error, where Java loads it. Values are exact reals, so IEEE rounding is not modelled: the 0.4, 4.0 and 60.0 factors become exact rationals.
- Numbers.ParseInt: accepts ASCII digits only; `Integer.parseInt` also accepts the decimal digits of other Unicode scripts.
- Dates.ParseDate: requires exactly four year digits; `LocalDate.parse` with `yyyy-MM-dd` also accepts a signed year of five or more digits such as `+10000-01-01`.
- InfantAdvice.HoursSinceFeeding: takes "now" in whole minutes, with seconds dropped. With a feeding at 10:00 and now at 09:00:30 the same day, Java's `HOURS.between` gives 0 and the model gives -1. The overdue warning, which needs more than 4 hours, agrees either way.
- Csv.ParseLine: `parseCSVLine` deletes quote characters rather than keeping them in the field (Main.java:985-986), and the model does the same. A field such as `"a,b"` therefore comes back as `a,b`.
- InfantLog.InfantLinesAppend: the tallies are proved to compose over concatenation of line runs, and skipped lines are proved removable. Independence from the order of the lines is not proved.
- File discovery and reading (`Files.exists`, `readString`, the fallback file names) and the error printout of `main`: these are I/O. The model starts from the file's text.
- Printing: all console output, emoji, `printf` formatting, the display-only caps (10 memories, 3 appointments) and the symptom sort. The advisories are modelled as the decisions behind the printed lines. The height gain and the weight-gain percentage are printed arithmetic and are left out too.
- The wall clock: `LocalDate.now()` and `LocalTime.now()` are the parameters `today`, `nowDay` and `nowMinute`.
- `HashMap` iteration order: the frequency tables are multisets, so the order in which they print is not modelled.
- InfantAdvice.DaysSinceBirth: a profile without a birth date makes the Java program throw a `NullPointerException` while it displays the baby profile (Main.java:135). This happens before either log is analysed, and `main` catches only `IOException` (Main.java:48), so the program ends there. The model has no such stop: the days since birth are None and both logs are still analysed.
- ParentAdvice.ProgressOf: without a delivery date, a missing last menstrual period (Main.java:271) or a missing due date (Main.java:278) throws the same uncaught `NullPointerException` while the parent profile is displayed, before either log is analysed. The model instead returns None, or a progress whose `daysUntilDue` is None, and both logs are still analysed.
- Counters that only ever go up by one are unbounded naturals. Overflowing a Java `int` that way would need more lines than a Java string can hold. Sums of parsed integers (sleep and exercise minutes) do wrap at 32 bits.
- The BMI divides the weight by the squared height in metres, with `Math.pow` written as a product. A height of 0, where Java's BMI is infinite or `NaN`, is handled as its own case.
