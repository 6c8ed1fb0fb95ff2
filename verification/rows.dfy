/**
 * Building blocks shared by the two row loops of Main.java: the per-row
 * exception boundary, the "field present and non-empty" test, frequency
 * tables and "date: text" list entries.
 */
module Rows {
  import opened Wrappers
  import opened JavaText
  import opened Numbers
  import opened Csv

  /**
   * Where the statements of one row's `try` block got to: still running with
   * a `value`, or an exception was thrown and `state` is what the row had
   * updated before the throw.
   */
  datatype Try<+T, S> = Continue(value: T) | Threw(state: S) {

    predicate IsFailure() {
      Threw?
    }

    function PropagateFailure<U>(): Try<U, S>
      requires Threw?
    {
      Threw(state)
    }

    function Extract(): T
      requires Continue?
    {
      value
    }
  }

  /** A parse inside the `try`: its value, or an exception that freezes the row at `state`. */
  function Attempt<T, S>(parsed: Option<T>, state: S): (r: Try<T, S>)
    ensures r.Continue? <==> parsed.Some?
    ensures r.Continue? ==> r.value == parsed.value
    ensures r.Threw? ==> r.state == state
  {
    match parsed
    case Some(v) => Continue(v)
    case None => Threw(state)
  }

  /**
   * The row loop's exception handler: a row that threw keeps the updates
   * it made before the throw, and the loop goes on with the next row.
   */
  function Settle<S>(r: Try<S, S>): S
  {
    match r
    case Continue(s) => s
    case Threw(s) => s
  }

  /** Column `k` exists and is not empty, tested on the raw, untrimmed field. */
  predicate Present(cols: seq<string>, k: nat) {
    k < |cols| && cols[k] != []
  }

  /** One more occurrence of `key` in a frequency table; a key not yet present starts from 0. */
  function Note(counts: multiset<string>, key: string): (r: multiset<string>)
    ensures r[key] == counts[key] + 1
    ensures forall k :: k != key ==> r[k] == counts[k]
    ensures |r| == |counts| + 1
  {
    counts + multiset{key}
  }

  /**
   * The measurement in field `k` once trimmed and stripped of every `unit`:
   * None when the field is absent or empty, when nothing is left after
   * stripping, or when the rest does not parse.
   */
  function UnitReading(cols: seq<string>, k: nat, unit: string): Option<real>
    requires unit != []
  {
    if Present(cols, k) && RemoveAll(Trim(cols[k]), unit) != [] then ParseDouble(RemoveAll(Trim(cols[k]), unit))
    else None
  }

  /** A field that is nothing but copies of the unit carries no reading. */
  lemma UnitOnlyReadsNothing(cols: seq<string>, k: nat, unit: string)
    requires unit != [] && k < |cols| && RemoveAll(Trim(cols[k]), unit) == []
    ensures UnitReading(cols, k, unit) == None
  {
  }

  /** A number followed by its unit reads as the number. */
  lemma NumberWithUnit(cols: seq<string>, k: nat, n: nat, unit: string)
    requires unit != [] && !IsDigit(unit[0]) && !IsTrimmable(unit[|unit| - 1])
    requires k < |cols| && cols[k] == DecimalDigits(n) + unit
    ensures UnitReading(cols, k, unit) == Some(n as real)
  {
    var digits := DecimalDigits(n);
    StripUnit(digits, unit);
    ParseDoubleDecimal(n);
  }

  lemma StripUnit(digits: string, unit: string)
    requires digits != [] && AllDigits(digits)
    requires unit != [] && !IsDigit(unit[0]) && !IsTrimmable(unit[|unit| - 1])
    ensures Trim(digits + unit) == digits + unit
    ensures RemoveAll(digits + unit, unit) == digits
  {
    var text := digits + unit;
    assert text[0] == digits[0] && IsDigit(digits[0]);
    assert text[|text| - 1] == unit[|unit| - 1];
    assert forall i :: 0 <= i < |digits| ==> digits[i] != unit[0] by {
      forall i | 0 <= i < |digits| ensures digits[i] != unit[0] {
        assert IsDigit(digits[i]);
      }
    }
    RemoveAllTrailingUnit(digits, unit);
  }

  /** The reading, or zero when there is none. */
  function ValueOrZero(x: Option<real>): real {
    if x.Some? then x.value else 0.0
  }

  /** A list entry: the prefix, a colon and a space, then the trimmed text. */
  function Entry(prefix: string, text: string): string
  {
    prefix + ": " + Trim(text)
  }

  function Flag(b: bool): nat {
    if b then 1 else 0
  }

  /** `Math.max` on two measurements. */
  function Max(a: real, b: real): (m: real)
    ensures m >= a && m >= b && (m == a || m == b)
  {
    if a >= b then a else b
  }

  /** `Math.min` on two measurements. */
  function Min(a: real, b: real): (m: real)
    ensures m <= a && m <= b && (m == a || m == b)
  {
    if a <= b then a else b
  }

  /** The sum of a list of measurements, added up from the front as the loops do. */
  function SumOf(xs: seq<real>): real
  {
    if xs == [] then 0.0 else SumOf(xs[..|xs| - 1]) + xs[|xs| - 1]
  }

  /** `Math.max` folded over `xs`, starting from the sentinel `init`. */
  function MaxOf(init: real, xs: seq<real>): (m: real)
    ensures m >= init && forall i :: 0 <= i < |xs| ==> m >= xs[i]
    ensures m == init || exists i :: 0 <= i < |xs| && m == xs[i]
  {
    if xs == [] then init else Max(MaxOf(init, xs[..|xs| - 1]), xs[|xs| - 1])
  }

  /** `Math.min` folded over `xs`, starting from the sentinel `init`. */
  function MinOf(init: real, xs: seq<real>): (m: real)
    ensures m <= init && forall i :: 0 <= i < |xs| ==> m <= xs[i]
    ensures m == init || exists i :: 0 <= i < |xs| && m == xs[i]
  {
    if xs == [] then init else Min(MinOf(init, xs[..|xs| - 1]), xs[|xs| - 1])
  }

  /** The running maximum reaches a bound exactly when the sentinel or some element does. */
  lemma MaxOfAtLeast(init: real, xs: seq<real>, bound: real)
    ensures MaxOf(init, xs) >= bound <==> init >= bound || exists i :: 0 <= i < |xs| && xs[i] >= bound
  {
  }

  /** A counter with its list of "date: text" entries (milestones, memories, vaccines, appointments, tests). */
  datatype Notes = Notes(count: nat, entries: seq<string>)

  /** Count one more row, and keep `prefix: text` when field `k` is present and non-empty. */
  function NoteStep(n: Notes, cols: seq<string>, k: nat, prefix: string): (r: Notes)
    ensures r.count == n.count + 1
    ensures r.entries == n.entries + (if Present(cols, k) then [Entry(prefix, cols[k])] else [])
  {
    var n1 := n.(count := n.count + 1);
    if Present(cols, k) then n1.(entries := n1.entries + [Entry(prefix, cols[k])]) else n1
  }

  /** Pumping sessions and the millilitres pumped. */
  datatype PumpingStats = PumpingStats(count: nat, totalMl: real)

  /**
   * A pumping row, the amount in field `k`: the session is counted before the
   * amount is read, so it counts even when the amount does not parse.
   */
  function PumpingStep(p: PumpingStats, cols: seq<string>, k: nat): (r: Try<PumpingStats, PumpingStats>)
    ensures Settle(r).count == p.count + 1
    ensures Settle(r).totalMl == p.totalMl + ValueOrZero(UnitReading(cols, k, "ml"))
  {
    var p1 := p.(count := p.count + 1);
    if Present(cols, k) then
      var amount := RemoveAll(Trim(cols[k]), "ml");
      if amount != [] then
        var ml :- Attempt(ParseDouble(amount), p1);
        Continue(p1.(totalMl := p1.totalMl + ml))
      else Continue(p1)
    else Continue(p1)
  }

  /**
   * The fields of a raw log line that reaches a loop's `switch`: the line is
   * trimmed, skipped when blank, tokenized, and skipped when it has fewer
   * than three fields, that is, fewer than two commas outside quotes.
   */
  function RowColumns(raw: string): (r: Option<seq<string>>)
    ensures r.None? <==> Trim(raw) == [] || UnquotedCommas(Trim(raw)) < 2
    ensures r.Some? ==> r.value == ParseLine(Trim(raw)) && |r.value| >= 3
  {
    var line := Trim(raw);
    if line == [] then None
    else
      var cols := ParseLine(line);
      if |cols| < 3 then None else Some(cols)
  }
}
