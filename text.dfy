/** The Foundation string operations the app relies on: trimming whitespace,
    splitting on a separator and joining, case-insensitive containment and
    the ordering `<` on strings. */
module Text {
  import opened Sequences

  // ---------------------------------------------------------------------------
  // Substrings
  // ---------------------------------------------------------------------------

  /** `needle` occurs in `hay` as a contiguous run (the empty string occurs
      everywhere). */
  predicate IsInfix(needle: string, hay: string) {
    exists i :: 0 <= i <= |hay| - |needle| && OccursAt(needle, hay, i)
  }

  predicate OccursAt(needle: string, hay: string, i: int) {
    0 <= i <= |hay| - |needle| && hay[i..i + |needle|] == needle
  }

  /** An occurrence stays an occurrence when text is put in front. */
  lemma InfixAfterPrefix(needle: string, hay: string, prefix: string)
    requires IsInfix(needle, hay)
    ensures IsInfix(needle, prefix + hay)
  {
    var i :| 0 <= i <= |hay| - |needle| && OccursAt(needle, hay, i);
    assert (prefix + hay)[|prefix| + i..|prefix| + i + |needle|] == hay[i..i + |needle|];
    assert OccursAt(needle, prefix + hay, |prefix| + i);
  }

  /** `s` ends with `suffix`. */
  predicate IsSuffix(suffix: string, s: string) {
    |suffix| <= |s| && s[|s| - |suffix|..] == suffix
  }

  // ---------------------------------------------------------------------------
  // Case-insensitive containment
  // ---------------------------------------------------------------------------

  function LowerChar(ch: char): char {
    if 'A' <= ch <= 'Z' then (ch as int + 32) as char else ch
  }

  function Lower(s: string): (r: string)
    ensures |r| == |s|
    ensures forall i :: 0 <= i < |s| ==> r[i] == LowerChar(s[i])
  {
    seq(|s|, i requires 0 <= i < |s| => LowerChar(s[i]))
  }

  /** `hay.localizedCaseInsensitiveContains(query)`, folded to ASCII case. */
  predicate ContainsIgnoringCase(hay: string, query: string) {
    IsInfix(Lower(query), Lower(hay))
  }

  // ---------------------------------------------------------------------------
  // Trimming
  // ---------------------------------------------------------------------------

  /** Foundation's `whitespacesAndNewlines`: the Unicode space separators,
      the line and paragraph separators, U+0009 to U+000D and U+0085. */
  predicate IsWhitespace(ch: char) {
    || ('\t' <= ch <= '\r')
    || ch == ' '
    || ch == '\U{0085}'
    || ch == '\U{00A0}'
    || ch == '\U{1680}'
    || ('\U{2000}' <= ch <= '\U{200A}')
    || ch == '\U{2028}'
    || ch == '\U{2029}'
    || ch == '\U{202F}'
    || ch == '\U{205F}'
    || ch == '\U{3000}'
  }

  predicate IsBlank(s: string) {
    forall i :: 0 <= i < |s| ==> IsWhitespace(s[i])
  }

  /** Drops leading whitespace. */
  function TrimStart(s: string): string {
    if s != [] && IsWhitespace(s[0]) then TrimStart(s[1..]) else s
  }

  /** Drops trailing whitespace. */
  function TrimEnd(s: string): string {
    if s != [] && IsWhitespace(s[|s| - 1]) then TrimEnd(s[..|s| - 1]) else s
  }

  /** `s.trimmingCharacters(in: .whitespacesAndNewlines)` */
  function Trim(s: string): string {
    TrimEnd(TrimStart(s))
  }

  /** `TrimStart` leaves a suffix that is empty or starts with a
      non-whitespace character, and what it drops is all whitespace. */
  lemma {:induction false} TrimStartSpec(s: string)
    ensures |TrimStart(s)| <= |s| && TrimStart(s) == s[|s| - |TrimStart(s)|..]
    ensures TrimStart(s) == [] || !IsWhitespace(TrimStart(s)[0])
    ensures IsBlank(s[..|s| - |TrimStart(s)|])
  {
    if s != [] && IsWhitespace(s[0]) {
      TrimStartSpec(s[1..]);
      var r := TrimStart(s[1..]);
      assert s[..|s| - |r|] == [s[0]] + s[1..][..|s| - 1 - |r|];
    }
  }

  /** `TrimEnd` leaves a prefix that is empty or ends with a non-whitespace
      character, and what it drops is all whitespace. */
  lemma {:induction false} TrimEndSpec(s: string)
    ensures |TrimEnd(s)| <= |s| && TrimEnd(s) == s[..|TrimEnd(s)|]
    ensures TrimEnd(s) == [] || !IsWhitespace(TrimEnd(s)[|TrimEnd(s)| - 1])
    ensures IsBlank(s[|TrimEnd(s)|..])
  {
    if s != [] && IsWhitespace(s[|s| - 1]) {
      TrimEndSpec(s[..|s| - 1]);
      var r := TrimEnd(s[..|s| - 1]);
      assert s[|r|..] == s[..|s| - 1][|r|..] + [s[|s| - 1]];
    }
  }
  /** A string trims to nothing exactly when it is all whitespace. */
  lemma TrimEmptyIffBlank(s: string)
    ensures Trim(s) == [] <==> IsBlank(s)
  {
    var t := TrimStart(s);
    TrimStartSpec(s);
    TrimEndSpec(t);
    if Trim(s) == [] {
      assert IsBlank(t[|TrimEnd(t)|..]);
      assert t == [];
      assert s[..|s| - |t|] == s;
    }
  }

  // ---------------------------------------------------------------------------
  // components(separatedBy:) and joined(separator:)
  // ---------------------------------------------------------------------------

  /** `s.components(separatedBy: String(sep))`: the pieces between the
      occurrences of `sep`, with an empty piece wherever two separators
      meet or the string starts or ends with one. */
  function Split(s: string, sep: char): (parts: seq<string>)
    ensures |parts| >= 1
    ensures forall k :: 0 <= k < |parts| ==> sep !in parts[k]
  {
    if s == [] then [""]
    else
      var rest := Split(s[1..], sep);
      if s[0] == sep then [""] + rest
      else [[s[0]] + rest[0]] + rest[1..]
  }

  /** `parts.joined(separator: sep)` */
  function Join(parts: seq<string>, sep: string): string {
    if parts == [] then ""
    else if |parts| == 1 then parts[0]
    else parts[0] + sep + Join(parts[1..], sep)
  }

  /** Parts that start with a non-empty part followed by an empty one join
      to a string opening with the first part and two separators. */
  lemma JoinOpensWith(parts: seq<string>, sep: string)
    requires |parts| >= 3 && parts[1] == ""
    ensures parts[0] + sep + sep <= Join(parts, sep)
  {
    var rest := Join(parts[2..], sep);
    assert parts[1..][1..] == parts[2..];
    assert Join(parts[1..], sep) == sep + rest;
    assert Join(parts, sep) == (parts[0] + sep + sep) + rest;
  }

  /** Joining two non-empty runs of parts: the join of each, with the
      separator between them. */
  lemma {:induction false} JoinAppend(xs: seq<string>, ys: seq<string>, sep: string)
    requires xs != [] && ys != []
    ensures Join(xs + ys, sep) == Join(xs, sep) + sep + Join(ys, sep)
  {
    if |xs| == 1 {
      assert (xs + ys)[1..] == ys;
    } else {
      JoinAppend(xs[1..], ys, sep);
      assert (xs + ys)[1..] == xs[1..] + ys;
    }
  }

  /** Joining around an empty part puts two separators between the halves. */
  lemma JoinAroundEmpty(xs: seq<string>, ys: seq<string>, sep: string)
    requires xs != [] && ys != []
    ensures Join(xs + [""] + ys, sep) == Join(xs, sep) + sep + sep + Join(ys, sep)
  {
    JoinAppend(xs + [""], ys, sep);
    JoinAppend(xs, [""], sep);
    assert Join([""], sep) == "";
  }

  /** Every part occurs in the joined string. */
  lemma {:induction false} JoinContainsParts(parts: seq<string>, sep: string, k: nat)
    requires k < |parts|
    ensures IsInfix(parts[k], Join(parts, sep))
  {
    var j := Join(parts, sep);
    if |parts| == 1 {
      assert OccursAt(parts[0], j, 0);
    } else if k == 0 {
      assert j == parts[0] + (sep + Join(parts[1..], sep));
      assert OccursAt(parts[0], j, 0);
    } else {
      JoinContainsParts(parts[1..], sep, k - 1);
      assert parts[1..][k - 1] == parts[k];
      assert j == (parts[0] + sep) + Join(parts[1..], sep);
      InfixAfterPrefix(parts[k], Join(parts[1..], sep), parts[0] + sep);
    }
  }

  /** A string without the separator is a single piece. */
  lemma {:induction false} SplitWithoutSeparator(s: string, sep: char)
    requires sep !in s
    ensures Split(s, sep) == [s]
  {
    if s != [] {
      assert forall x :: x in s[1..] ==> x in s;
      SplitWithoutSeparator(s[1..], sep);
      assert [s[0]] + s[1..] == s;
    }
  }

  /** The pieces around one separator are the pieces of either side. */
  lemma {:induction false} SplitAround(a: string, b: string, sep: char)
    ensures Split(a + [sep] + b, sep) == Split(a, sep) + Split(b, sep)
  {
    if a == [] {
      assert a + [sep] + b == [sep] + b;
      assert ([sep] + b)[1..] == b;
    } else {
      var s := a + [sep] + b;
      assert s[0] == a[0] && s[1..] == a[1..] + [sep] + b;
      SplitAround(a[1..], b, sep);
    }
  }

  /** Joining pieces free of the separator and splitting again gives back
      the pieces. */
  lemma {:induction false} SplitJoin(parts: seq<string>, sep: char)
    requires parts != []
    requires forall k :: 0 <= k < |parts| ==> sep !in parts[k]
    ensures Split(Join(parts, [sep]), sep) == parts
  {
    SplitWithoutSeparator(parts[0], sep);
    if |parts| > 1 {
      SplitJoin(parts[1..], sep);
      SplitAround(parts[0], Join(parts[1..], [sep]), sep);
      assert parts == [parts[0]] + parts[1..];
    }
  }

  /** Splitting the join of `xs + ys` gives back the parts of `xs` first
      when none of them holds the separator, whatever `ys` holds. */
  lemma SplitJoinPrefix(xs: seq<string>, ys: seq<string>, sep: char)
    requires xs != [] && ys != []
    requires forall k :: 0 <= k < |xs| ==> sep !in xs[k]
    ensures var parts := Split(Join(xs + ys, [sep]), sep);
            |parts| > |xs| && parts[..|xs|] == xs
  {
    JoinAppend(xs, ys, [sep]);
    SplitJoin(xs, sep);
    SplitAround(Join(xs, [sep]), Join(ys, [sep]), sep);
  }

  /** Each piece trimmed. */
  function TrimEach(parts: seq<string>): (r: seq<string>)
    ensures |r| == |parts|
    ensures forall k :: 0 <= k < |parts| ==> r[k] == Trim(parts[k])
  {
    seq(|parts|, k requires 0 <= k < |parts| => Trim(parts[k]))
  }

  /** A leading space makes no difference once trimmed. */
  lemma TrimAfterSpace(s: string)
    ensures Trim(" " + s) == Trim(s)
  {
    assert (" " + s)[1..] == s;
  }

  lemma TrimEachCons(x: string, ys: seq<string>)
    ensures TrimEach([x] + ys) == [Trim(x)] + TrimEach(ys)
  {
  }

  /** Trimming the pieces ignores a space put in front of the first. */
  lemma TrimEachSpaced(pieces: seq<string>)
    requires pieces != []
    ensures TrimEach([" " + pieces[0]] + pieces[1..]) == TrimEach(pieces)
  {
    TrimEachCons(" " + pieces[0], pieces[1..]);
    TrimEachCons(pieces[0], pieces[1..]);
    TrimAfterSpace(pieces[0]);
    assert [pieces[0]] + pieces[1..] == pieces;
  }

  /** Pieces without the separator character and without surrounding
      whitespace, joined by the separator and a space, are read back by
      splitting at the separator and trimming each piece. */
  lemma {:induction false} SplitJoinList(parts: seq<string>, sep: char)
    requires parts != [] && sep != ' '
    requires forall k :: 0 <= k < |parts| ==> sep !in parts[k] && Trim(parts[k]) == parts[k]
    ensures TrimEach(Split(Join(parts, [sep] + " "), sep)) == parts
  {
    SplitWithoutSeparator(parts[0], sep);
    if |parts| > 1 {
      var tail := Join(parts[1..], [sep] + " ");
      var rest := Split(tail, sep);
      assert TrimEach(Split(" " + tail, sep)) == parts[1..] by {
        assert (" " + tail)[1..] == tail;
        assert Split(" " + tail, sep) == [" " + rest[0]] + rest[1..];
        TrimEachSpaced(rest);
        SplitJoinList(parts[1..], sep);
      }
      assert Join(parts, [sep] + " ") == parts[0] + [sep] + (" " + tail);
      SplitAround(parts[0], " " + tail, sep);
      TrimEachCons(parts[0], Split(" " + tail, sep));
      assert [parts[0]] + parts[1..] == parts;
    }
  }

  // ---------------------------------------------------------------------------
  // String ordering
  // ---------------------------------------------------------------------------

  /** Swift's `<` on strings, modelled as lexicographic order on characters. */
  predicate StrLess(a: string, b: string) {
    if a == [] then b != []
    else if b == [] then false
    else a[0] < b[0] || (a[0] == b[0] && StrLess(a[1..], b[1..]))
  }

  lemma {:induction false} StrLessIrreflexive(a: string)
    ensures !StrLess(a, a)
  {
    if a != [] {
      StrLessIrreflexive(a[1..]);
    }
  }

  lemma {:induction false} StrLessTransitive(a: string, b: string, c: string)
    requires StrLess(a, b) && StrLess(b, c)
    ensures StrLess(a, c)
  {
    if a != [] && a[0] == b[0] && b[0] == c[0] {
      StrLessTransitive(a[1..], b[1..], c[1..]);
    }
  }

  lemma {:induction false} StrLessConnected(a: string, b: string)
    requires a != b
    ensures StrLess(a, b) || StrLess(b, a)
  {
    if a != [] && b != [] && a[0] == b[0] {
      assert a == [a[0]] + a[1..] && b == [b[0]] + b[1..];
      StrLessConnected(a[1..], b[1..]);
    }
  }

  lemma StrLessAsymmetric(a: string, b: string)
    requires StrLess(a, b)
    ensures !StrLess(b, a)
  {
    if StrLess(b, a) {
      StrLessTransitive(a, b, a);
      StrLessIrreflexive(a);
    }
  }
  /** `a` does not sort after `b`: the order a sort with `<` leaves behind. */
  predicate StrLessEq(a: string, b: string) {
    !StrLess(b, a)
  }

  lemma StrLessEqTotalPreorder()
    ensures Transitive(StrLessEq) && Total(StrLessEq)
  {
    forall a, b, c | StrLessEq(a, b) && StrLessEq(b, c) ensures StrLessEq(a, c) {
      if StrLess(c, a) && a != b {
        StrLessConnected(a, b);
        StrLessTransitive(c, a, b);
      }
    }
    forall a, b ensures StrLessEq(a, b) || StrLessEq(b, a) {
      if StrLess(a, b) {
        StrLessAsymmetric(a, b);
      }
    }
  }
}
