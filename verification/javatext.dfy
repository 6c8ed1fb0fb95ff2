/**
 * The handful of java.lang.String operations the analysis engine relies on:
 * `trim()`, `replace(target, "")`, `split(",", 2)` and `split("\n")`.
 */
module JavaText {
  import opened Wrappers

  /** `String.trim()` removes every leading and trailing char whose code is at most U+0020. */
  predicate IsTrimmable(c: char) {
    c <= ' '
  }

  function TrimStart(s: string): (r: string)
    ensures |r| <= |s|
    ensures r == [] || !IsTrimmable(r[0])
  {
    if s != [] && IsTrimmable(s[0]) then TrimStart(s[1..]) else s
  }

  function TrimEnd(s: string): (r: string)
    ensures |r| <= |s|
    ensures r == [] || !IsTrimmable(r[|r| - 1])
  {
    if s != [] && IsTrimmable(s[|s| - 1]) then TrimEnd(s[..|s| - 1]) else s
  }

  /** `TrimStart` keeps a suffix of its argument. */
  lemma {:induction false} TrimStartSuffix(s: string)
    ensures TrimStart(s) == s[|s| - |TrimStart(s)|..]
    decreases |s|
  {
    if s != [] && IsTrimmable(s[0]) {
      TrimStartSuffix(s[1..]);
    }
  }

  /** `TrimEnd` keeps a prefix of its argument. */
  lemma {:induction false} TrimEndPrefix(s: string)
    ensures TrimEnd(s) == s[..|TrimEnd(s)|]
    decreases |s|
  {
    if s != [] && IsTrimmable(s[|s| - 1]) {
      TrimEndPrefix(s[..|s| - 1]);
    }
  }

  /** Java's `String.trim()`. */
  function Trim(s: string): (r: string)
    ensures |r| <= |s|
    ensures r != [] ==> !IsTrimmable(r[0]) && !IsTrimmable(r[|r| - 1])
    ensures s == [] || (!IsTrimmable(s[0]) && !IsTrimmable(s[|s| - 1])) ==> r == s
  {
    var front := TrimStart(s);
    TrimEndPrefix(front);
    TrimEnd(front)
  }

  /** What `TrimStart` drops is trimmable. */
  lemma {:induction false} TrimStartDropsBlanks(s: string)
    ensures forall i :: 0 <= i < |s| - |TrimStart(s)| ==> IsTrimmable(s[i])
    decreases |s|
  {
    if s != [] && IsTrimmable(s[0]) {
      TrimStartDropsBlanks(s[1..]);
    }
  }

  /** What `TrimEnd` drops is trimmable. */
  lemma {:induction false} TrimEndDropsBlanks(s: string)
    ensures forall i :: |TrimEnd(s)| <= i < |s| ==> IsTrimmable(s[i])
    decreases |s|
  {
    if s != [] && IsTrimmable(s[|s| - 1]) {
      TrimEndDropsBlanks(s[..|s| - 1]);
    }
  }

  /** A text trims to nothing exactly when every char of it is trimmable. */
  lemma TrimEmptyIff(s: string)
    ensures Trim(s) == [] <==> forall i :: 0 <= i < |s| ==> IsTrimmable(s[i])
  {
    TrimStartDropsBlanks(s);
    TrimEndDropsBlanks(TrimStart(s));
    TrimStartSuffix(s);
  }

  /** Trimming is idempotent. */
  lemma TrimIdempotent(s: string)
    ensures Trim(Trim(s)) == Trim(s)
  {
  }

  /**
   * Java's `s.replace(pat, "")`: scans left to right and deletes every
   * non-overlapping occurrence of `pat`, wherever it appears in `s`.
   */
  function RemoveAll(s: string, pat: string): (r: string)
    requires pat != []
    ensures |r| <= |s|
    ensures (forall i :: 0 <= i < |s| ==> s[i] != pat[0]) ==> r == s
    decreases |s|
  {
    if |s| < |pat| then s
    else if s[..|pat|] == pat then RemoveAll(s[|pat|..], pat)
    else [s[0]] + RemoveAll(s[1..], pat)
  }

  /** `s` is `pat` written zero or more times in a row. */
  predicate IsRepetition(s: string, pat: string)
    requires pat != []
    decreases |s|
  {
    s == [] || (|pat| <= |s| && s[..|pat|] == pat && IsRepetition(s[|pat|..], pat))
  }

  /** Deleting `pat` leaves nothing exactly when the text was copies of `pat` only. */
  lemma {:induction false} RemoveAllEmptyIff(s: string, pat: string)
    requires pat != []
    ensures RemoveAll(s, pat) == [] <==> IsRepetition(s, pat)
    decreases |s|
  {
    if |s| < |pat| {
    } else if s[..|pat|] == pat {
      RemoveAllEmptyIff(s[|pat|..], pat);
    } else {
    }
  }

  /** A trailing unit is removed and the rest is kept, when the rest never starts the unit. */
  lemma {:induction false} RemoveAllTrailingUnit(t: string, pat: string)
    requires pat != []
    requires forall i :: 0 <= i < |t| ==> t[i] != pat[0]
    ensures RemoveAll(t + pat, pat) == t
    decreases |t|
  {
    if t == [] {
      assert t + pat == pat;
      assert pat[|pat|..] == [];
    } else {
      var s := t + pat;
      assert s[..|pat|] != pat by {
        assert s[0] == t[0];
      }
      assert s[1..] == t[1..] + pat;
      RemoveAllTrailingUnit(t[1..], pat);
      assert [t[0]] + t[1..] == t;
    }
  }

  /** Java's `s.split(",", 2)`: the text before the first separator and everything after it. */
  function SplitAtFirst(s: string, sep: char): (r: Option<(string, string)>)
  {
    if s == [] then None
    else if s[0] == sep then Some(([], s[1..]))
    else
      match SplitAtFirst(s[1..], sep)
      case None => None
      case Some(parts) => Some(([s[0]] + parts.0, parts.1))
  }

  /** The split fails exactly when there is no separator, and otherwise cuts at the first one. */
  lemma {:induction false} SplitAtFirstSpec(s: string, sep: char)
    ensures SplitAtFirst(s, sep).None? <==> sep !in s
    ensures SplitAtFirst(s, sep).Some? ==>
              var (a, b) := SplitAtFirst(s, sep).value;
              s == a + [sep] + b && sep !in a
  {
    if s != [] && s[0] != sep {
      SplitAtFirstSpec(s[1..], sep);
      assert s == [s[0]] + s[1..];
      if SplitAtFirst(s[1..], sep).Some? {
        var (a, b) := SplitAtFirst(s[1..], sep).value;
        assert s == ([s[0]] + a) + [sep] + b;
      }
    } else if s != [] {
      assert s == [] + [sep] + s[1..];
    }
  }

  /** Splitting at the first separator finds the first one. */
  lemma {:induction false} SplitAtFirstUnique(a: string, b: string, sep: char)
    requires sep !in a
    ensures SplitAtFirst(a + [sep] + b, sep) == Some((a, b))
  {
    var s := a + [sep] + b;
    if a == [] {
      assert s[0] == sep && s[1..] == b;
    } else {
      assert s[0] == a[0] && s[1..] == a[1..] + [sep] + b;
      SplitAtFirstUnique(a[1..], b, sep);
      assert [a[0]] + a[1..] == a;
    }
  }

  /** `parts` glued together with `sep` between neighbours. */
  function JoinWith(parts: seq<string>, sep: char): (r: string)
  {
    if |parts| == 0 then []
    else if |parts| == 1 then parts[0]
    else JoinWith(parts[..|parts| - 1], sep) + [sep] + parts[|parts| - 1]
  }

  lemma JoinExtendLast(done: seq<string>, cur: string, c: char, sep: char)
    ensures JoinWith(done + [cur + [c]], sep) == JoinWith(done + [cur], sep) + [c]
  {
    assert (done + [cur + [c]])[..|done|] == done;
    assert (done + [cur])[..|done|] == done;
  }

  lemma JoinStartNext(done: seq<string>, cur: string, sep: char)
    ensures JoinWith(done + [cur] + [[]], sep) == JoinWith(done + [cur], sep) + [sep]
  {
    assert (done + [cur] + [[]])[..|done| + 1] == done + [cur];
  }

  /** Splits at every `sep`; interior and trailing empty pieces are kept. */
  function SplitOn(s: string, sep: char): (r: seq<string>)
    ensures |r| >= 1
    ensures JoinWith(r, sep) == s
    ensures forall k :: 0 <= k < |r| ==> sep !in r[k]
    ensures r[|r| - 1] == [] <==> s == [] || s[|s| - 1] == sep
  {
    if s == [] then [[]]
    else
      var init := SplitOn(s[..|s| - 1], sep);
      var c := s[|s| - 1];
      var done := init[..|init| - 1];
      var cur := init[|init| - 1];
      assert init == done + [cur];
      assert s == s[..|s| - 1] + [c];
      if c == sep then
        JoinStartNext(done, cur, sep);
        init + [[]]
      else
        JoinExtendLast(done, cur, c, sep);
        done + [cur + [c]]
  }

  function DropTrailingEmpty(parts: seq<string>): (r: seq<string>)
    ensures |r| <= |parts| && r == parts[..|r|]
    ensures forall k :: |r| <= k < |parts| ==> parts[k] == []
    ensures r == [] || r[|r| - 1] != []
  {
    if parts != [] && parts[|parts| - 1] == [] then DropTrailingEmpty(parts[..|parts| - 1]) else parts
  }

  /**
   * Java's `text.split("\n")`: a text without a newline is returned whole
   * (even when empty); otherwise the pieces between newlines, with trailing
   * empty pieces removed.
   */
  function SplitLines(text: string): (r: seq<string>)
    ensures forall k :: 0 <= k < |r| ==> '\n' !in r[k]
    ensures '\n' !in text ==> r == [text]
    ensures text != [] && text[|text| - 1] != '\n' ==> JoinWith(r, '\n') == text
  {
    if '\n' !in text then [text]
    else
      var pieces := SplitOn(text, '\n');
      DropTrailingEmpty(pieces)
  }
}
