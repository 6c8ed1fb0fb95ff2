/**
 * The quote-aware line tokenizer `parseCSVLine` (Main.java:977-997): one
 * left-to-right pass with a single "inside quotes" flag. A `"` flips the flag
 * and is dropped; a `,` outside quotes ends the current field; every other
 * char is kept. Unbalanced quotes are not an error.
 */
module Csv {
  import opened JavaText

  /** Number of `"` chars in `s`. */
  function QuoteCount(s: string): nat
  {
    if s == [] then 0 else QuoteCount(s[..|s| - 1]) + (if s[|s| - 1] == '"' then 1 else 0)
  }

  /** After reading `s`, the tokenizer is inside quotes exactly when it has seen an odd number of them. */
  predicate InQuotesAfter(s: string) {
    QuoteCount(s) % 2 == 1
  }

  /** `s` with every `"` deleted. */
  function WithoutQuotes(s: string): string
  {
    if s == [] then [] else WithoutQuotes(s[..|s| - 1]) + (if s[|s| - 1] == '"' then [] else [s[|s| - 1]])
  }

  /** The commas of `s` that are not inside a quoted span: the field separators. */
  function UnquotedCommas(s: string): nat
  {
    if s == [] then 0
    else UnquotedCommas(s[..|s| - 1]) + (if s[|s| - 1] == ',' && !InQuotesAfter(s[..|s| - 1]) then 1 else 0)
  }

  predicate NoQuotes(fields: seq<string>) {
    forall k :: 0 <= k < |fields| ==> '"' !in fields[k]
  }

  /**
   * The invariant of the loop of `parseCSVLine` at position `i`, with `done`
   * the fields already emitted, `current` the field being built and
   * `inQuotes` the flag, all in terms of the prefix `line[..i]` already read.
   */
  predicate ScanState(line: string, i: nat, inQuotes: bool, current: string, done: seq<string>) {
    i <= |line|
    && inQuotes == InQuotesAfter(line[..i])
    && |done| == UnquotedCommas(line[..i])
    && JoinWith(done + [current], ',') == WithoutQuotes(line[..i])
    && NoQuotes(done) && '"' !in current
  }

  /** The loop of `parseCSVLine` from position `i` on. */
  function Scan(line: string, i: nat, inQuotes: bool, current: string, done: seq<string>): (fields: seq<string>)
    requires ScanState(line, i, inQuotes, current, done)
    ensures |fields| == 1 + UnquotedCommas(line)
    ensures JoinWith(fields, ',') == WithoutQuotes(line)
    ensures NoQuotes(fields)
    decreases |line| - i
  {
    if i == |line| then
      assert line[..i] == line;
      done + [current]
    else
      var c := line[i];
      ScanStateNext(line, i, inQuotes, current, done);
      if c == '"' then
        Scan(line, i + 1, !inQuotes, current, done)
      else if c == ',' && !inQuotes then
        Scan(line, i + 1, inQuotes, [], done + [current])
      else
        Scan(line, i + 1, inQuotes, current + [c], done)
  }

  /** The loop keeps its invariant on each of its three branches. */
  lemma ScanStateNext(line: string, i: nat, inQuotes: bool, current: string, done: seq<string>)
    requires ScanState(line, i, inQuotes, current, done) && i < |line|
    ensures line[i] == '"' ==> ScanState(line, i + 1, !inQuotes, current, done)
    ensures line[i] == ',' && !inQuotes ==> ScanState(line, i + 1, inQuotes, [], done + [current])
    ensures line[i] != '"' && (line[i] != ',' || inQuotes) ==>
              ScanState(line, i + 1, inQuotes, current + [line[i]], done)
  {
    var c := line[i];
    assert line[..i + 1][..i] == line[..i];
    assert line[..i + 1][i] == c;
    if c == ',' && !inQuotes {
      JoinStartNext(done, current, ',');
    } else if c != '"' {
      JoinExtendLast(done, current, c, ',');
    }
  }

  /** One turn of the loop: a quote flips the flag, an unquoted comma ends the field, any other char is kept. */
  lemma ScanAdvance(line: string, i: nat, inQuotes: bool, current: string, done: seq<string>)
    requires ScanState(line, i, inQuotes, current, done) && i < |line|
    ensures line[i] == '"' ==>
              ScanState(line, i + 1, !inQuotes, current, done)
              && Scan(line, i, inQuotes, current, done) == Scan(line, i + 1, !inQuotes, current, done)
    ensures line[i] == ',' && !inQuotes ==>
              ScanState(line, i + 1, inQuotes, [], done + [current])
              && Scan(line, i, inQuotes, current, done) == Scan(line, i + 1, inQuotes, [], done + [current])
    ensures line[i] != '"' && (line[i] != ',' || inQuotes) ==>
              ScanState(line, i + 1, inQuotes, current + [line[i]], done)
              && Scan(line, i, inQuotes, current, done) == Scan(line, i + 1, inQuotes, current + [line[i]], done)
  {
    ScanStateNext(line, i, inQuotes, current, done);
  }

  /**
   * `parseCSVLine`: one field more than there are unquoted commas; gluing the
   * fields back with commas gives the line without its quote chars; no field
   * holds a quote char.
   */
  function ParseLine(line: string): (fields: seq<string>)
    ensures |fields| == 1 + UnquotedCommas(line)
    ensures JoinWith(fields, ',') == WithoutQuotes(line)
    ensures NoQuotes(fields)
  {
    assert line[..0] == [];
    assert JoinWith([[]], ',') == [];
    Scan(line, 0, false, [], [])
  }

  // ---------------------------------------------------------------------
  // The split, stated without the loop

  /**
   * The raw pieces of `s` between its unquoted commas, quote chars still in
   * place: each unquoted comma opens a new piece, every other char extends
   * the last one.
   */
  function Pieces(s: string): (ps: seq<string>)
    ensures |ps| == 1 + UnquotedCommas(s)
  {
    if s == [] then [[]]
    else
      var init := s[..|s| - 1];
      var c := s[|s| - 1];
      var ps := Pieces(init);
      if c == ',' && !InQuotesAfter(init) then ps + [[]]
      else ps[..|ps| - 1] + [ps[|ps| - 1] + [c]]
  }

  /** Each piece with its quote chars deleted. */
  function Unquoted(ps: seq<string>): (r: seq<string>)
    ensures |r| == |ps|
  {
    if ps == [] then [] else Unquoted(ps[..|ps| - 1]) + [WithoutQuotes(ps[|ps| - 1])]
  }

  /** The fields of a line: its pieces between unquoted commas, without quote chars. */
  function Fields(line: string): seq<string> {
    Unquoted(Pieces(line))
  }

  lemma UnquotedSnoc(ps: seq<string>, p: string)
    ensures Unquoted(ps + [p]) == Unquoted(ps) + [WithoutQuotes(p)]
  {
    assert (ps + [p])[..|ps|] == ps;
  }

  lemma WithoutQuotesSnoc(p: string, c: char)
    ensures WithoutQuotes(p + [c]) == WithoutQuotes(p) + (if c == '"' then [] else [c])
  {
    assert (p + [c])[..|p|] == p;
  }

  /**
   * The loop's `done` holds the finished pieces of the prefix read so far and
   * `current` the open one, each without quotes.
   */
  predicate SplitState(line: string, i: nat, current: string, done: seq<string>)
    requires i <= |line|
  {
    var ps := Pieces(line[..i]);
    done == Unquoted(ps[..|ps| - 1]) && current == WithoutQuotes(ps[|ps| - 1])
  }

  /** One more char of the line extends the pieces as `Pieces` says. */
  lemma PiecesNext(line: string, i: nat)
    requires i < |line|
    ensures var ps := Pieces(line[..i]);
      var c := line[i];
      Pieces(line[..i + 1]) ==
        if c == ',' && !InQuotesAfter(line[..i]) then ps + [[]]
        else ps[..|ps| - 1] + [ps[|ps| - 1] + [c]]
  {
    assert line[..i + 1][..i] == line[..i];
    assert line[..i + 1][i] == line[i];
  }

  /** The loop keeps `SplitState` on each of its three branches. */
  lemma SplitStateNext(line: string, i: nat, inQuotes: bool, current: string, done: seq<string>)
    requires ScanState(line, i, inQuotes, current, done) && i < |line|
    requires SplitState(line, i, current, done)
    ensures line[i] == '"' ==> SplitState(line, i + 1, current, done)
    ensures line[i] == ',' && !inQuotes ==> SplitState(line, i + 1, [], done + [current])
    ensures line[i] != '"' && (line[i] != ',' || inQuotes) ==> SplitState(line, i + 1, current + [line[i]], done)
  {
    var ps := Pieces(line[..i]);
    var n := |ps|;
    var c := line[i];
    PiecesNext(line, i);
    if c == ',' && !inQuotes {
      assert (ps + [[]])[..n] == ps;
      assert ps == ps[..n - 1] + [ps[n - 1]];
      UnquotedSnoc(ps[..n - 1], ps[n - 1]);
    } else {
      var ps' := ps[..n - 1] + [ps[n - 1] + [c]];
      assert ps'[..n - 1] == ps[..n - 1];
      WithoutQuotesSnoc(ps[n - 1], c);
    }
  }

  /** From any state of the loop, the fields it returns are the line's `Fields`. */
  lemma {:induction false} ScanSplits(line: string, i: nat, inQuotes: bool, current: string, done: seq<string>)
    requires ScanState(line, i, inQuotes, current, done)
    requires SplitState(line, i, current, done)
    ensures Scan(line, i, inQuotes, current, done) == Fields(line)
    decreases |line| - i
  {
    if i == |line| {
      assert line[..i] == line;
      var ps := Pieces(line);
      assert ps == ps[..|ps| - 1] + [ps[|ps| - 1]];
      UnquotedSnoc(ps[..|ps| - 1], ps[|ps| - 1]);
    } else {
      var c := line[i];
      ScanAdvance(line, i, inQuotes, current, done);
      SplitStateNext(line, i, inQuotes, current, done);
      if c == '"' {
        ScanSplits(line, i + 1, !inQuotes, current, done);
      } else if c == ',' && !inQuotes {
        ScanSplits(line, i + 1, inQuotes, [], done + [current]);
      } else {
        ScanSplits(line, i + 1, inQuotes, current + [c], done);
      }
    }
  }

  /** `parseCSVLine` returns exactly the pieces between unquoted commas, without their quote chars. */
  lemma ParseLineIsSplit(line: string)
    ensures ParseLine(line) == Fields(line)
  {
    assert line[..0] == [];
    assert JoinWith([[]], ',') == [];
    assert Pieces(line[..0]) == [[]];
    ScanSplits(line, 0, false, [], []);
  }

  const ExampleLine: string := "a,\"b,c\",d"

  /** The example line up to its opening quote: the field `a` is emitted. */
  lemma ExampleOpening()
    ensures ScanState(ExampleLine, 3, true, "", ["a"])
    ensures ParseLine(ExampleLine) == Scan(ExampleLine, 3, true, "", ["a"])
  {
    var line := ExampleLine;
    assert line[..0] == [] && JoinWith([[]], ',') == [];
    ScanAdvance(line, 0, false, "", []);
    assert [] + ['a'] == "a";
    ScanAdvance(line, 1, false, "a", []);
    assert [] + ["a"] == ["a"];
    ScanAdvance(line, 2, false, "", ["a"]);
  }

  /** Inside the quotes the comma is kept as content. */
  lemma ExampleQuoted()
    requires ScanState(ExampleLine, 3, true, "", ["a"])
    ensures ScanState(ExampleLine, 5, true, "b,", ["a"])
    ensures Scan(ExampleLine, 3, true, "", ["a"]) == Scan(ExampleLine, 5, true, "b,", ["a"])
  {
    var line := ExampleLine;
    ScanAdvance(line, 3, true, "", ["a"]);
    assert [] + ['b'] == "b";
    ScanAdvance(line, 4, true, "b", ["a"]);
    assert "b" + [','] == "b,";
  }

  /** The closing quote ends the quoted span without adding to the field. */
  lemma ExampleUnquoted()
    requires ScanState(ExampleLine, 5, true, "b,", ["a"])
    ensures ScanState(ExampleLine, 7, false, "b,c", ["a"])
    ensures Scan(ExampleLine, 5, true, "b,", ["a"]) == Scan(ExampleLine, 7, false, "b,c", ["a"])
  {
    var line := ExampleLine;
    ScanAdvance(line, 5, true, "b,", ["a"]);
    assert "b," + ['c'] == "b,c";
    ScanAdvance(line, 6, true, "b,c", ["a"]);
  }

  /** After the closing quote the next comma ends `b,c` and `d` is the last field. */
  lemma ExampleClosing()
    requires ScanState(ExampleLine, 7, false, "b,c", ["a"])
    ensures Scan(ExampleLine, 7, false, "b,c", ["a"]) == ["a", "b,c", "d"]
  {
    var line := ExampleLine;
    ScanAdvance(line, 7, false, "b,c", ["a"]);
    assert ["a"] + ["b,c"] == ["a", "b,c"];
    ScanAdvance(line, 8, false, "", ["a", "b,c"]);
    assert [] + ['d'] == "d";
    assert ["a", "b,c"] + ["d"] == ["a", "b,c", "d"];
  }

  /** A comma inside quotes is kept as content and the quotes themselves are dropped. */
  lemma QuotedCommaExample()
    ensures ParseLine(ExampleLine) == ["a", "b,c", "d"]
  {
    ExampleOpening();
    ExampleQuoted();
    ExampleUnquoted();
    ExampleClosing();
  }

  /** An empty line is one empty field, so every row has a field 0. */
  lemma EmptyLineIsOneField()
    ensures ParseLine("") == [""]
  {
  }
}
