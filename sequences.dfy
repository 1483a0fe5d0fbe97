/** The Swift collection operations the app relies on (`filter`, `sorted`,
    `remove(atOffsets:)`, conditional appends), stated once over sequences. */
module Sequences {

  // ---------------------------------------------------------------------------
  // Order-preserving subsequences
  // ---------------------------------------------------------------------------

  /** `idx` sends every position of `r` to a position of `s` holding the same
      element, and does so strictly increasingly: `r` is `s` with some
      elements dropped and the rest kept in their original order. */
  ghost predicate IsEmbedding<T>(idx: seq<nat>, r: seq<T>, s: seq<T>) {
    && |idx| == |r|
    && (forall k :: 0 <= k < |idx| ==> idx[k] < |s| && r[k] == s[idx[k]])
    && (forall k, l :: 0 <= k < l < |idx| ==> idx[k] < idx[l])
  }

  ghost predicate SubseqOf<T>(r: seq<T>, s: seq<T>) {
    exists idx :: IsEmbedding(idx, r, s)
  }

  /** `r` is what `s.filter(p)` returns: an order-preserving subsequence of
      `s` that holds every element satisfying `p` as often as `s` does, and
      nothing else. */
  ghost predicate Selects<T(!new)>(r: seq<T>, s: seq<T>, p: T -> bool) {
    && SubseqOf(r, s)
    && forall x :: multiset(r)[x] == if p(x) then multiset(s)[x] else 0
  }

  predicate Distinct<T(==)>(s: seq<T>) {
    forall i, j :: 0 <= i < j < |s| ==> s[i] != s[j]
  }

  // ---------------------------------------------------------------------------
  // filter
  // ---------------------------------------------------------------------------

  /** Swift's `filter`, defined from the back so that a loop appending to a
      result meets it step by step. */
  function Filter<T(==)>(s: seq<T>, p: T -> bool): (r: seq<T>)
    ensures |r| <= |s|
    ensures forall k :: 0 <= k < |r| ==> r[k] in s && p(r[k])
  {
    if s == [] then []
    else
      var init, last := s[..|s| - 1], s[|s| - 1];
      assert forall k :: 0 <= k < |init| ==> init[k] == s[k];
      Filter(init, p) + (if p(last) then [last] else [])
  }

  /** The positions of `s` that `Filter` keeps. */
  function FilterIndices<T>(s: seq<T>, p: T -> bool): seq<nat> {
    if s == [] then []
    else FilterIndices(s[..|s| - 1], p) + (if p(s[|s| - 1]) then [|s| - 1] else [])
  }

  lemma {:induction false} FilterEmbeds<T>(s: seq<T>, p: T -> bool)
    ensures IsEmbedding(FilterIndices(s, p), Filter(s, p), s)
  {
    if s != [] {
      var init, last := s[..|s| - 1], s[|s| - 1];
      FilterEmbeds(init, p);
      var idx', r' := FilterIndices(init, p), Filter(init, p);
      var idx, r := FilterIndices(s, p), Filter(s, p);
      assert idx == idx' + (if p(last) then [|s| - 1] else []);
      assert r == r' + (if p(last) then [last] else []);
      forall k | 0 <= k < |idx'| ensures idx'[k] < |s| - 1 && r[k] == s[idx[k]] {
        assert init[idx'[k]] == s[idx'[k]];
      }
    }
  }

  lemma {:induction false} FilterCounts<T(!new)>(s: seq<T>, p: T -> bool)
    ensures forall x :: multiset(Filter(s, p))[x] == if p(x) then multiset(s)[x] else 0
  {
    if s != [] {
      var init, last := s[..|s| - 1], s[|s| - 1];
      FilterCounts(init, p);
      assert s == init + [last];
      assert multiset(s) == multiset(init) + multiset{last};
    }
  }

  lemma FilterSelects<T(!new)>(s: seq<T>, p: T -> bool)
    ensures Selects(Filter(s, p), s, p)
    ensures forall x :: x in Filter(s, p) <==> x in s && p(x)
  {
    FilterEmbeds(s, p);
    FilterCounts(s, p);
    var r := Filter(s, p);
    forall x ensures x in r <==> x in s && p(x) {
      assert x in r <==> x in multiset(r);
      assert x in s <==> x in multiset(s);
    }
  }

  /** Filtering with a predicate that holds everywhere keeps the sequence. */
  lemma {:induction false} FilterAll<T>(s: seq<T>, p: T -> bool)
    requires forall x :: x in s ==> p(x)
    ensures Filter(s, p) == s
  {
    if s != [] {
      var init, last := s[..|s| - 1], s[|s| - 1];
      assert Filter(init, p) == init by {
        assert forall x :: x in init ==> x in s;
        FilterAll(init, p);
      }
      assert p(last) by {
        assert last in s;
      }
      assert s == init + [last];
    }
  }

  /** Filtering with a predicate that holds nowhere keeps nothing. */
  lemma {:induction false} FilterNone<T>(s: seq<T>, p: T -> bool)
    requires forall x :: x in s ==> !p(x)
    ensures Filter(s, p) == []
  {
    if s != [] {
      var init := s[..|s| - 1];
      assert forall x :: x in init ==> x in s;
      FilterNone(init, p);
    }
  }

  /** Filtering by `p` and by its negation splits a sequence in two. */
  lemma {:induction false} FilterPartition<T>(s: seq<T>, p: T -> bool, q: T -> bool)
    requires forall x :: q(x) == !p(x)
    ensures multiset(Filter(s, p)) + multiset(Filter(s, q)) == multiset(s)
    ensures forall x :: !(x in Filter(s, p) && x in Filter(s, q))
  {
    if s != [] {
      var init, last := s[..|s| - 1], s[|s| - 1];
      FilterPartition(init, p, q);
      assert multiset(s) == multiset(init) + multiset{last} by {
        assert s == init + [last];
      }
      if p(last) {
        assert Filter(s, q) == Filter(init, q);
      } else {
        assert Filter(s, p) == Filter(init, p);
      }
    }
  }

  // ---------------------------------------------------------------------------
  // Collecting into a set
  // ---------------------------------------------------------------------------

  /** The union of `g(y)` over the elements `y` of `s`: what a loop that
      inserts `g(y)` into a set for each `y` in turn ends with. */
  function UnionOf<T, X>(s: seq<T>, g: T -> set<X>): set<X> {
    if s == [] then {}
    else UnionOf(s[..|s| - 1], g) + g(s[|s| - 1])
  }

  /** One more loop iteration adds the next element's contribution. */
  lemma UnionOfStep<T, X>(s: seq<T>, g: T -> set<X>, i: nat)
    requires i < |s|
    ensures UnionOf(s[..i + 1], g) == UnionOf(s[..i], g) + g(s[i])
  {
    assert s[..i + 1][..i] == s[..i];
  }

  /** An element is in the union exactly when some element of `s`
      contributes it. */
  lemma {:induction false} UnionOfSpec<T, X>(s: seq<T>, g: T -> set<X>)
    ensures forall y, x :: y in s && x in g(y) ==> x in UnionOf(s, g)
    ensures forall x :: x in UnionOf(s, g) ==> exists y :: y in s && x in g(y)
  {
    if s != [] {
      var n := |s| - 1;
      var init := s[..n];
      UnionOfSpec(init, g);
      assert s == init + [s[n]];
      forall y, x | y in s && x in g(y) ensures x in UnionOf(s, g) {
        if y != s[n] {
          assert y in init;
        }
      }
      forall x | x in UnionOf(s, g) ensures exists y :: y in s && x in g(y) {
        if x in UnionOf(init, g) {
          var y :| y in init && x in g(y);
          assert y in s;
        } else {
          assert s[n] in s;
        }
      }
    }
  }

  // ---------------------------------------------------------------------------
  // Conditional appends of a fixed list of entries
  // ---------------------------------------------------------------------------

  function CountTrue(flags: seq<bool>): (n: nat)
    ensures n <= |flags|
  {
    if flags == [] then 0
    else CountTrue(flags[..|flags| - 1]) + (if flags[|flags| - 1] then 1 else 0)
  }

  /** `acc`, with `x` appended when `cond` holds: one `if cond { append }`. */
  function AppendIf<T>(acc: seq<T>, cond: bool, x: T): seq<T> {
    if cond then acc + [x] else acc
  }

  /** The entries whose flag is set, in entry order: the result of a run of
      `if flag_i { out.append(entry_i) }`. */
  function Select<T>(entries: seq<T>, flags: seq<bool>): seq<T>
    requires |entries| == |flags|
  {
    if flags == [] then []
    else
      var n := |flags| - 1;
      AppendIf(Select(entries[..n], flags[..n]), flags[n], entries[n])
  }

  /** The positions whose flag is set, increasingly. */
  function TrueIndices(flags: seq<bool>): seq<nat> {
    if flags == [] then []
    else
      var n := |flags| - 1;
      TrueIndices(flags[..n]) + (if flags[n] then [n] else [])
  }

  /** One more conditional append extends `Select` by one entry. */
  lemma SelectStep<T>(entries: seq<T>, flags: seq<bool>, k: nat)
    requires |entries| == |flags| && k < |flags|
    ensures Select(entries[..k + 1], flags[..k + 1])
         == AppendIf(Select(entries[..k], flags[..k]), flags[k], entries[k])
  {
    assert entries[..k + 1][..k] == entries[..k];
    assert flags[..k + 1][..k] == flags[..k];
  }

  /** Four conditional appends in a row. */
  lemma SelectOfFour<T>(e: seq<T>, f: seq<bool>)
    requires |e| == 4 && |f| == 4
    ensures Select(e, f) == AppendIf(AppendIf(AppendIf(AppendIf([], f[0], e[0]), f[1], e[1]), f[2], e[2]), f[3], e[3])
  {
    assert Select(e[..0], f[..0]) == [];
    SelectStep(e, f, 0);
    SelectStep(e, f, 1);
    SelectStep(e, f, 2);
    SelectStep(e, f, 3);
    assert e[..4] == e && f[..4] == f;
  }

  /** Seven conditional appends in a row. */
  lemma SelectOfSeven<T>(e: seq<T>, f: seq<bool>)
    requires |e| == 7 && |f| == 7
    ensures Select(e, f) == AppendIf(AppendIf(AppendIf(AppendIf(AppendIf(AppendIf(AppendIf(
              [], f[0], e[0]), f[1], e[1]), f[2], e[2]), f[3], e[3]), f[4], e[4]), f[5], e[5]), f[6], e[6])
  {
    SelectOfFour(e[..4], f[..4]);
    SelectStep(e, f, 4);
    SelectStep(e, f, 5);
    SelectStep(e, f, 6);
    assert e[..7] == e && f[..7] == f;
  }

  lemma {:induction false} TrueIndicesSpec(flags: seq<bool>)
    ensures |TrueIndices(flags)| == CountTrue(flags)
    ensures forall k :: 0 <= k < |TrueIndices(flags)| ==>
              TrueIndices(flags)[k] < |flags| && flags[TrueIndices(flags)[k]]
    ensures forall i :: 0 <= i < |flags| && flags[i] ==> i in TrueIndices(flags)
    ensures forall k, l :: 0 <= k < l < |TrueIndices(flags)| ==>
              TrueIndices(flags)[k] < TrueIndices(flags)[l]
  {
    if flags != [] {
      var n := |flags| - 1;
      TrueIndicesSpec(flags[..n]);
    }
  }

  /** `Select` keeps exactly the flagged entries, in order: its result embeds
      in `entries` at precisely the flagged positions. */
  lemma {:induction false} SelectSpec<T>(entries: seq<T>, flags: seq<bool>)
    requires |entries| == |flags|
    ensures IsEmbedding(TrueIndices(flags), Select(entries, flags), entries)
    ensures |Select(entries, flags)| == CountTrue(flags)
    ensures Select(entries, flags) == [] <==> forall i :: 0 <= i < |flags| ==> !flags[i]
  {
    TrueIndicesSpec(flags);
    if flags != [] {
      var n := |flags| - 1;
      SelectSpec(entries[..n], flags[..n]);
      var idx, r := TrueIndices(flags), Select(entries, flags);
      assert IsEmbedding(idx, r, entries);
    }
  }

  /** With pairwise distinct entries, an entry is in the result exactly when
      its flag is set. */
  lemma SelectMembership<T>(entries: seq<T>, flags: seq<bool>, i: nat)
    requires |entries| == |flags| && i < |flags| && Distinct(entries)
    ensures entries[i] in Select(entries, flags) <==> flags[i]
  {
    SelectSpec(entries, flags);
    TrueIndicesSpec(flags);
    var idx, r := TrueIndices(flags), Select(entries, flags);
    if flags[i] {
      assert i in idx;
      var k :| 0 <= k < |idx| && idx[k] == i;
      assert r[k] == entries[i];
    }
  }

  /** Selecting from entries without duplicates gives a result without
      duplicates that holds each entry exactly when its flag is set. */
  lemma SelectFromDistinct<T>(entries: seq<T>, flags: seq<bool>)
    requires |entries| == |flags|
    ensures Distinct(entries) ==> Distinct(Select(entries, flags))
    ensures Distinct(entries) ==>
              forall k :: 0 <= k < |flags| ==> (entries[k] in Select(entries, flags) <==> flags[k])
  {
    if Distinct(entries) {
      SelectSpec(entries, flags);
      EmbeddingKeepsDistinct(TrueIndices(flags), Select(entries, flags), entries);
      forall k | 0 <= k < |flags| ensures entries[k] in Select(entries, flags) <==> flags[k] {
        SelectMembership(entries, flags, k);
      }
    }
  }

  // ---------------------------------------------------------------------------
  // remove(atOffsets:)
  // ---------------------------------------------------------------------------

  /** The positions below `n` that are not among `offsets`, increasingly. */
  function Survivors(n: nat, offsets: set<nat>): seq<nat> {
    if n == 0 then []
    else Survivors(n - 1, offsets) + (if n - 1 in offsets then [] else [n - 1])
  }

  /** The survivors are exactly the positions below `n` outside `offsets`. */
  lemma {:induction false} SurvivorsSpec(n: nat, offsets: set<nat>)
    ensures forall k :: 0 <= k < |Survivors(n, offsets)| ==>
              Survivors(n, offsets)[k] < n && Survivors(n, offsets)[k] !in offsets
    ensures forall i :: 0 <= i < n && i !in offsets ==> i in Survivors(n, offsets)
    ensures forall k, l :: 0 <= k < l < |Survivors(n, offsets)| ==>
              Survivors(n, offsets)[k] < Survivors(n, offsets)[l]
  {
    if n > 0 {
      SurvivorsSpec(n - 1, offsets);
    }
  }

  /** Swift's `remove(atOffsets:)`: the elements at the surviving positions,
      in their original order. */
  function RemoveAtOffsets<T>(s: seq<T>, offsets: set<nat>): (r: seq<T>)
    ensures IsEmbedding(Survivors(|s|, offsets), r, s)
  {
    SurvivorsSpec(|s|, offsets);
    var idx := Survivors(|s|, offsets);
    seq(|idx|, k requires 0 <= k < |idx| => s[idx[k]])
  }

  lemma {:induction false} SurvivorsIgnore(n: nat, offsets: set<nat>, j: nat)
    requires n <= j
    ensures Survivors(n, offsets) == Survivors(n, offsets - {j})
  {
    if n > 0 {
      SurvivorsIgnore(n - 1, offsets, j);
    }
  }

  /** Removing valid offsets removes exactly as many elements as there are
      offsets. */
  lemma {:induction false} SurvivorsCount(n: nat, offsets: set<nat>)
    requires forall i :: i in offsets ==> i < n
    ensures |Survivors(n, offsets)| == n - |offsets|
  {
    if n == 0 {
      assert offsets == {};
    } else {
      var rest := offsets - {n - 1};
      SurvivorsIgnore(n - 1, offsets, n - 1);
      SurvivorsCount(n - 1, rest);
      if n - 1 in offsets {
        assert offsets == rest + {n - 1};
      } else {
        assert offsets == rest;
      }
    }
  }

  lemma RemoveAtOffsetsLength<T>(s: seq<T>, offsets: set<nat>)
    requires forall i :: i in offsets ==> i < |s|
    ensures |RemoveAtOffsets(s, offsets)| == |s| - |offsets|
  {
    SurvivorsCount(|s|, offsets);
  }

  /** Dropping elements never creates a duplicate. */
  lemma EmbeddingKeepsDistinct<T>(idx: seq<nat>, r: seq<T>, s: seq<T>)
    requires IsEmbedding(idx, r, s) && Distinct(s)
    ensures Distinct(r)
  {
    forall i, j | 0 <= i < j < |r| ensures r[i] != r[j] {
      assert idx[i] < idx[j];
    }
  }

  /** In a sequence without duplicates every element occurs once. */
  lemma {:induction false} DistinctCounts<T>(s: seq<T>)
    requires Distinct(s)
    ensures forall x :: multiset(s)[x] <= 1
  {
    if s != [] {
      var n := |s| - 1;
      assert s == s[..n] + [s[n]];
      DistinctCounts(s[..n]);
      assert s[n] !in s[..n];
    }
  }

  /** A repeated element occurs at least twice. */
  lemma RepeatCounts<T>(t: seq<T>, i: nat, j: nat)
    requires i < j < |t| && t[i] == t[j]
    ensures multiset(t)[t[i]] >= 2
  {
    assert t == t[..j] + t[j..];
    assert t[i] in t[..j];
    assert t[j] in t[j..];
  }

  /** Rearranging a sequence without duplicates creates none. */
  lemma DistinctPermutation<T>(s: seq<T>, t: seq<T>)
    requires Distinct(s) && multiset(s) == multiset(t)
    ensures Distinct(t)
  {
    DistinctCounts(s);
    forall i, j | 0 <= i < j < |t| ensures t[i] != t[j] {
      if t[i] == t[j] {
        RepeatCounts(t, i, j);
      }
    }
  }

  // ---------------------------------------------------------------------------
  // sort(by:) / sorted(by:)
  // ---------------------------------------------------------------------------

  /** Every earlier element is `le` every later one. */
  ghost predicate SortedBy<T>(s: seq<T>, le: (T, T) -> bool) {
    forall i, j :: 0 <= i < j < |s| ==> le(s[i], s[j])
  }

  ghost predicate Transitive<T(!new)>(le: (T, T) -> bool) {
    forall a, b, c :: le(a, b) && le(b, c) ==> le(a, c)
  }

  ghost predicate Total<T(!new)>(le: (T, T) -> bool) {
    forall a, b :: le(a, b) || le(b, a)
  }

  /** Inserts `x` in front of the first element it is `le`. */
  function InsertBy<T>(s: seq<T>, x: T, le: (T, T) -> bool): (r: seq<T>)
    ensures multiset(r) == multiset(s) + multiset{x}
  {
    if s == [] then [x]
    else if le(x, s[0]) then [x] + s
    else
      assert s == [s[0]] + s[1..];
      [s[0]] + InsertBy(s[1..], x, le)
  }

  /** Insertion sort: the reference for Swift's `sorted(by:)`. */
  function SortBy<T>(s: seq<T>, le: (T, T) -> bool): (r: seq<T>)
    ensures multiset(r) == multiset(s)
  {
    if s == [] then []
    else
      assert s == s[..|s| - 1] + [s[|s| - 1]];
      InsertBy(SortBy(s[..|s| - 1], le), s[|s| - 1], le)
  }

  /** Inserting an element comparable with every element keeps a sorted
      sequence sorted. */
  lemma {:induction false} InsertBySorted<T(!new)>(s: seq<T>, x: T, le: (T, T) -> bool)
    requires Transitive(le)
    requires forall y :: y in s ==> le(x, y) || le(y, x)
    requires SortedBy(s, le)
    ensures SortedBy(InsertBy(s, x, le), le)
  {
    if s != [] && !le(x, s[0]) {
      var tail := s[1..];
      assert forall y :: y in tail ==> y in s;
      InsertBySorted(tail, x, le);
      var rest := InsertBy(tail, x, le);
      forall k | 0 <= k < |rest| ensures le(s[0], rest[k]) {
        assert rest[k] in multiset(rest);
        if rest[k] != x {
          assert rest[k] in tail;
          var j :| 0 <= j < |tail| && tail[j] == rest[k];
          assert s[j + 1] == rest[k];
        }
      }
    }
  }

  lemma {:induction false} SortBySorted<T(!new)>(s: seq<T>, le: (T, T) -> bool)
    requires Transitive(le) && Total(le)
    ensures SortedBy(SortBy(s, le), le)
  {
    if s != [] {
      SortBySorted(s[..|s| - 1], le);
      InsertBySorted(SortBy(s[..|s| - 1], le), s[|s| - 1], le);
    }
  }

  /** The first `n` elements of a sorted sequence are `le` all the others. */
  lemma PrefixDominates<T>(s: seq<T>, le: (T, T) -> bool, n: nat)
    requires SortedBy(s, le) && n <= |s|
    ensures forall x, y :: x in s[..n] && y in s[n..] ==> le(x, y)
  {
    forall x, y | x in s[..n] && y in s[n..] ensures le(x, y) {
      var i :| 0 <= i < n && s[..n][i] == x;
      var j :| 0 <= j < |s| - n && s[n..][j] == y;
      assert s[i] == x && s[n + j] == y;
    }
  }
}
