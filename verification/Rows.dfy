/** Bags of indexed rows, and reading a window of them through a cache (src/indexer/pull.rs:109-146, 167-197).

    Rows have no order: a query may return its rows in any order. The schema does not make indices unique
    either (migrations/0_schema.sql:2-15), so uniqueness is a property to be proved: `Dense`. */
module Rows {
  import opened Types

  datatype Row = Row(idx: nat, content: Blob)

  function Min(a: nat, b: nat): nat { if a <= b then a else b }

  /** The rows that hold `xs` at the indices 0, 1, 2, ... */
  function Image(xs: seq<Blob>): seq<Row> {
    seq(|xs|, i requires 0 <= i < |xs| => Row(i, xs[i]))
  }

  /** The bag holds each index 0..|xs|-1 exactly once, with content `xs`, and nothing else. */
  ghost predicate Dense(rows: seq<Row>, xs: seq<Blob>) {
    multiset(rows) == multiset(Image(xs))
  }

  predicate HasIdx(rows: seq<Row>, i: nat) {
    exists r :: r in rows && r.idx == i
  }

  /** SELECT ... WHERE idx IN (want), in table order. */
  function Matching(rows: seq<Row>, want: seq<nat>): seq<Row> {
    if rows == [] then []
    else
      var last := rows[|rows| - 1];
      Matching(rows[..|rows| - 1], want) + (if last.idx in want then [last] else [])
  }

  function Values(rows: seq<Row>): seq<Blob> {
    seq(|rows|, i requires 0 <= i < |rows| => rows[i].content)
  }

  /** How many rows carry index i. */
  function CountIdx(rows: seq<Row>, i: nat): nat {
    if rows == [] then 0 else CountIdx(rows[..|rows| - 1], i) + (if rows[|rows| - 1].idx == i then 1 else 0)
  }

  // ---- bags ----

  lemma Snoc<T>(xs: seq<T>)
    requires xs != []
    ensures xs == xs[..|xs| - 1] + [xs[|xs| - 1]]
    ensures multiset(xs) == multiset(xs[..|xs| - 1]) + multiset{xs[|xs| - 1]}
  {
    assert xs == xs[..|xs| - 1] + [xs[|xs| - 1]];
  }

  lemma Cancel<T>(a: multiset<T>, b: multiset<T>, x: T)
    requires a + multiset{x} == b + multiset{x}
    ensures a == b
  {
    assert a == (a + multiset{x}) - multiset{x} && b == (b + multiset{x}) - multiset{x};
  }

  lemma {:induction false} MatchingCount(rows: seq<Row>, want: seq<nat>, r: Row)
    ensures multiset(Matching(rows, want))[r] == if r.idx in want then multiset(rows)[r] else 0
  {
    if rows != [] {
      MatchingCount(rows[..|rows| - 1], want, r);
      Snoc(rows);
    }
  }

  /** A query sees only the bag. */
  lemma MatchingBag(rows: seq<Row>, rows': seq<Row>, want: seq<nat>)
    requires multiset(rows) == multiset(rows')
    ensures multiset(Matching(rows, want)) == multiset(Matching(rows', want))
  {
    forall r ensures multiset(Matching(rows, want))[r] == multiset(Matching(rows', want))[r] {
      MatchingCount(rows, want, r);
      MatchingCount(rows', want, r);
    }
  }

  lemma TakeOut(rows: seq<Row>, k: nat, rest: seq<Row>)
    requires k < |rows| && rest == rows[..k] + rows[k + 1..]
    ensures multiset(rows) == multiset(rest) + multiset{rows[k]}
    ensures multiset(Values(rows)) == multiset(Values(rest)) + multiset{rows[k].content}
  {
    assert rows == rows[..k] + [rows[k]] + rows[k + 1..];
    assert Values(rows) == Values(rows[..k]) + [rows[k].content] + Values(rows[k + 1..]);
    assert Values(rest) == Values(rows[..k]) + Values(rows[k + 1..]);
  }

  /** The values depend only on the bag of rows. */
  lemma {:induction false} ValuesBag(rows: seq<Row>, rows': seq<Row>)
    requires multiset(rows) == multiset(rows')
    ensures multiset(Values(rows)) == multiset(Values(rows'))
  {
    if rows == [] {
      assert |multiset(rows')| == 0;
    } else {
      var n := |rows| - 1;
      TakeOut(rows, n, rows[..n]);
      assert rows[n] in multiset(rows');
      var k :| 0 <= k < |rows'| && rows'[k] == rows[n];
      var rest := rows'[..k] + rows'[k + 1..];
      TakeOut(rows', k, rest);
      Cancel(multiset(rows[..n]), multiset(rest), rows[n]);
      ValuesBag(rows[..n], rest);
    }
  }

  lemma {:induction false} CountIdxBag(rows: seq<Row>, rows': seq<Row>, i: nat)
    requires multiset(rows) == multiset(rows')
    ensures CountIdx(rows, i) == CountIdx(rows', i)
  {
    CountIsMatching(rows, i);
    CountIsMatching(rows', i);
    MatchingBag(rows, rows', [i]);
    assert |multiset(Matching(rows, [i]))| == |multiset(Matching(rows', [i]))|;
  }

  lemma CountSnoc(rows: seq<Row>, r: Row, i: nat)
    ensures CountIdx(rows + [r], i) == CountIdx(rows, i) + (if r.idx == i then 1 else 0)
  {
    assert (rows + [r])[..|rows|] == rows;
  }

  lemma {:induction false} CountIsMatching(rows: seq<Row>, i: nat)
    ensures CountIdx(rows, i) == |Matching(rows, [i])|
  {
    if rows != [] { CountIsMatching(rows[..|rows| - 1], i); }
  }

  // ---- dense bags ----

  lemma {:induction false} ImageCount(xs: seq<Blob>, i: nat)
    ensures CountIdx(Image(xs), i) == if i < |xs| then 1 else 0
  {
    if xs != [] {
      assert Image(xs)[..|xs| - 1] == Image(xs[..|xs| - 1]);
      ImageCount(xs[..|xs| - 1], i);
    }
  }

  /** Dense means: as many rows as items, and every index below that exactly once, no other index at all. */
  lemma DenseExactlyOnce(rows: seq<Row>, xs: seq<Blob>, i: nat)
    requires Dense(rows, xs)
    ensures |rows| == |xs|
    ensures CountIdx(rows, i) == if i < |xs| then 1 else 0
    ensures HasIdx(rows, i) <==> i < |xs|
  {
    assert |rows| == |multiset(rows)| == |multiset(Image(xs))| == |xs|;
    CountIdxBag(rows, Image(xs), i);
    ImageCount(xs, i);
    if i < |xs| {
      assert Image(xs)[i] in multiset(rows);
    }
    if HasIdx(rows, i) {
      var r :| r in rows && r.idx == i;
      assert r in multiset(Image(xs));
    }
  }

  // ---- reading a window through a cache ----

  /** What a pull of [start, start + amount) delivers of a sequence. */
  function Slice<T>(xs: seq<T>, start: nat, amount: nat): seq<T> {
    xs[Min(start, |xs|)..Min(start + amount, |xs|)]
  }

  /** The values the cache had, in index order. */
  function Hits(cached: seq<Option<Blob>>): seq<Blob> {
    if cached == [] then []
    else
      var last := cached[|cached| - 1];
      Hits(cached[..|cached| - 1]) + (if last.Some? then [last.value] else [])
  }

  /** The indices the cache did not have; the window starts at `start`. */
  function Misses(cached: seq<Option<Blob>>, start: nat): seq<nat> {
    if cached == [] then []
    else
      var last := |cached| - 1;
      Misses(cached[..last], start) + (if cached[last].None? then [start + last] else [])
  }

  /** The stored row at index i, if there is one. */
  function RowAt(xs: seq<Blob>, i: nat): seq<Row> {
    if i < |xs| then [Row(i, xs[i])] else []
  }

  /** The stored rows that the cache did not have, in index order. */
  function MissRows(cached: seq<Option<Blob>>, start: nat, xs: seq<Blob>): seq<Row> {
    if cached == [] then []
    else
      var last := |cached| - 1;
      MissRows(cached[..last], start, xs) + (if cached[last].None? then RowAt(xs, start + last) else [])
  }

  /** The window as the cache and the table together show it: the cache first, index by index. */
  function Overlay(cached: seq<Option<Blob>>, start: nat, xs: seq<Blob>): seq<Blob> {
    if cached == [] then []
    else
      var last := |cached| - 1;
      Overlay(cached[..last], start, xs)
        + (if cached[last].Some? then [cached[last].value] else Values(RowAt(xs, start + last)))
  }

  /** What the cache had for the window is what the bag holds there. */
  ghost predicate Agrees(cached: seq<Option<Blob>>, start: nat, xs: seq<Blob>) {
    forall k :: 0 <= k < |cached| && cached[k].Some? ==> start + k < |xs| && cached[k].value == xs[start + k]
  }

  lemma {:induction false} MissesMember(cached: seq<Option<Blob>>, start: nat, i: nat)
    ensures i in Misses(cached, start) <==> start <= i < start + |cached| && cached[i - start].None?
  {
    if cached != [] { MissesMember(cached[..|cached| - 1], start, i); }
  }

  /** Asking for one more index, past the others, adds its row at the end. */
  lemma {:induction false} MatchingSnoc(xs: seq<Blob>, want: seq<nat>, i: nat)
    requires forall w :: w in want ==> w < i
    ensures Matching(Image(xs), want + [i]) == Matching(Image(xs), want) + RowAt(xs, i)
  {
    if xs != [] {
      var n := |xs| - 1;
      assert Image(xs)[..n] == Image(xs[..n]);
      MatchingSnoc(xs[..n], want, i);
    }
  }

  /** A query that returns its rows in ascending order returns the missed rows in index order. */
  lemma {:induction false} MissesMatch(cached: seq<Option<Blob>>, start: nat, xs: seq<Blob>)
    ensures Matching(Image(xs), Misses(cached, start)) == MissRows(cached, start, xs)
  {
    if cached == [] {
      NothingMatches(Image(xs));
    } else {
      var last := |cached| - 1;
      var want := Misses(cached[..last], start);
      MissesMatch(cached[..last], start, xs);
      forall w | w in want ensures w < start + last { MissesMember(cached[..last], start, w); }
      MatchingSnoc(xs, want, start + last);
      assert want + [] == want && MissRows(cached[..last], start, xs) + [] == MissRows(cached[..last], start, xs);
    }
  }

  lemma {:induction false} NothingMatches(rows: seq<Row>)
    ensures Matching(rows, []) == []
  {
    if rows != [] { NothingMatches(rows[..|rows| - 1]); }
  }

  lemma ValuesConcat(a: seq<Row>, b: seq<Row>)
    ensures Values(a + b) == Values(a) + Values(b)
  {
  }

  lemma BagSnoc<T>(a: seq<T>, b: seq<T>, all: seq<T>, x: seq<T>)
    requires multiset(a) + multiset(b) == multiset(all)
    ensures multiset(a + x) + multiset(b) == multiset(all + x) && multiset(a) + multiset(b + x) == multiset(all + x)
  {
  }

  /** Hits and missed rows together are the overlay. */
  lemma {:induction false} OverlayParts(cached: seq<Option<Blob>>, start: nat, xs: seq<Blob>)
    ensures multiset(Hits(cached)) + multiset(Values(MissRows(cached, start, xs)))
            == multiset(Overlay(cached, start, xs))
  {
    if cached != [] {
      var last := |cached| - 1;
      var front := cached[..last];
      OverlayParts(front, start, xs);
      var hits, misses, all := Hits(front), Values(MissRows(front, start, xs)), Overlay(front, start, xs);
      if cached[last].Some? {
        BagSnoc(hits, misses, all, [cached[last].value]);
        assert MissRows(cached, start, xs) == MissRows(front, start, xs);
      } else {
        ValuesConcat(MissRows(front, start, xs), RowAt(xs, start + last));
        BagSnoc(hits, misses, all, Values(RowAt(xs, start + last)));
        assert Hits(cached) == hits;
      }
    }
  }

  /** Reading through the cache delivers the overlay, whatever the cache had and in whatever order the query
      returned its rows. */
  lemma ReadThrough(cached: seq<Option<Blob>>, start: nat, rows: seq<Row>, xs: seq<Blob>, found: seq<Row>,
                    values: seq<Blob>)
    requires Dense(rows, xs) && multiset(found) == multiset(Matching(rows, Misses(cached, start)))
    requires values == Hits(cached) + Values(found)
    ensures multiset(values) == multiset(Overlay(cached, start, xs))
  {
    MatchingBag(rows, Image(xs), Misses(cached, start));
    MissesMatch(cached, start, xs);
    ValuesBag(found, MissRows(cached, start, xs));
    OverlayParts(cached, start, xs);
  }

  lemma SliceSnoc<T>(xs: seq<T>, start: nat, n: nat)
    ensures Slice(xs, start, n + 1) == Slice(xs, start, n) + (if start + n < |xs| then [xs[start + n]] else [])
  {
  }

  /** When the cache agrees with the table, the overlay is the window. */
  lemma {:induction false} OverlayWindow(cached: seq<Option<Blob>>, start: nat, xs: seq<Blob>)
    requires Agrees(cached, start, xs)
    ensures Overlay(cached, start, xs) == Slice(xs, start, |cached|)
  {
    if cached != [] {
      var last := |cached| - 1;
      OverlayWindow(cached[..last], start, xs);
      SliceSnoc(xs, start, last);
      ValuesRow(xs, start + last);
      var tail := if cached[last].Some? then [cached[last].value] else Values(RowAt(xs, start + last));
      assert tail == if start + last < |xs| then [xs[start + last]] else [];
    }
  }

  /** Whatever the cache had, nothing that is stored is left out, and each index gives one value at most. */
  lemma {:induction false} OverlayLength(cached: seq<Option<Blob>>, start: nat, xs: seq<Blob>)
    ensures |Slice(xs, start, |cached|)| <= |Overlay(cached, start, xs)| <= |cached|
  {
    if cached != [] {
      OverlayLength(cached[..|cached| - 1], start, xs);
      SliceSnoc(xs, start, |cached| - 1);
    }
  }

  function Range(lo: nat, n: nat): seq<nat> {
    seq(n, i requires 0 <= i => lo + i)
  }

  lemma RangeSnoc(lo: nat, n: nat)
    ensures Range(lo, n + 1) == Range(lo, n) + [lo + n] && forall w :: w in Range(lo, n) ==> w < lo + n
  {
  }

  lemma ValuesRow(xs: seq<Blob>, i: nat)
    ensures Values(RowAt(xs, i)) == if i < |xs| then [xs[i]] else []
  {
  }

  /** The plain range query. */
  lemma {:induction false} PlainRange(xs: seq<Blob>, start: nat, n: nat)
    ensures Values(Matching(Image(xs), Range(start, n))) == Slice(xs, start, n)
  {
    if n == 0 {
      NothingMatches(Image(xs));
      assert Range(start, n) == [] && Slice(xs, start, n) == [];
    } else {
      var want, i := Range(start, n - 1), start + (n - 1);
      PlainRange(xs, start, n - 1);
      RangeSnoc(start, n - 1);
      MatchingSnoc(xs, want, i);
      ValuesConcat(Matching(Image(xs), want), RowAt(xs, i));
      ValuesRow(xs, i);
      SliceSnoc(xs, start, n - 1);
    }
  }

  /** Reading through a cache that agrees with the table refines the plain range query. */
  lemma ReadThroughIsRangeQuery(cached: seq<Option<Blob>>, start: nat, rows: seq<Row>, xs: seq<Blob>,
                                found: seq<Row>, values: seq<Blob>)
    requires Dense(rows, xs) && Agrees(cached, start, xs)
    requires multiset(found) == multiset(Matching(rows, Misses(cached, start)))
    requires values == Hits(cached) + Values(found)
    ensures multiset(values) == multiset(Values(Matching(rows, Range(start, |cached|))))
  {
    ReadThrough(cached, start, rows, xs, found, values);
    OverlayWindow(cached, start, xs);
    MatchingBag(rows, Image(xs), Range(start, |cached|));
    ValuesBag(Matching(rows, Range(start, |cached|)), Matching(Image(xs), Range(start, |cached|)));
    PlainRange(xs, start, |cached|);
  }

  /** What one read of a window saw: the answers of the cache, and the rows of the query for what it missed. */
  datatype Look = Look(cached: seq<Option<Blob>>, rows: seq<Row>)

  // ---- the order of delivery ----

  /** Rows as a query that orders by index returns them. */
  ghost predicate AscendingRows(rows: seq<Row>) {
    forall i, j :: 0 <= i < j < |rows| ==> rows[i].idx < rows[j].idx
  }

  lemma {:induction false} MissRowsAscend(cached: seq<Option<Blob>>, start: nat, xs: seq<Blob>)
    ensures AscendingRows(MissRows(cached, start, xs))
    ensures forall i :: 0 <= i < |MissRows(cached, start, xs)| ==>
              start <= MissRows(cached, start, xs)[i].idx < start + |cached|
  {
    if cached != [] { MissRowsAscend(cached[..|cached| - 1], start, xs); }
  }

  lemma LastIsLargest(a: seq<Row>, b: seq<Row>)
    requires AscendingRows(a) && AscendingRows(b) && multiset(a) == multiset(b) && a != [] && b != []
    ensures a[|a| - 1] == b[|b| - 1]
  {
    var x, y := a[|a| - 1], b[|b| - 1];
    assert x in multiset(b) && y in multiset(a);
    var i :| 0 <= i < |b| && b[i] == x;
    var j :| 0 <= j < |a| && a[j] == y;
  }

  /** Ascending rows are determined by their bag. */
  lemma {:induction false} SameAscending(a: seq<Row>, b: seq<Row>)
    requires AscendingRows(a) && AscendingRows(b) && multiset(a) == multiset(b)
    ensures a == b
  {
    assert |multiset(a)| == |multiset(b)|;
    if a != [] {
      var front, front' := a[..|a| - 1], b[..|b| - 1];
      LastIsLargest(a, b);
      Snoc(a);
      Snoc(b);
      Cancel(multiset(front), multiset(front'), a[|a| - 1]);
      SameAscending(front, front');
    }
  }

  /** An index that the cache missed, with a row, stands before one that it had. */
  ghost predicate MissBeforeHit(cached: seq<Option<Blob>>, start: nat, n: nat) {
    exists j, k :: 0 <= j < k < |cached| && cached[j].None? && start + j < n && cached[k].Some?
  }

  lemma {:induction false} NoMissRows(cached: seq<Option<Blob>>, start: nat, xs: seq<Blob>)
    requires forall k :: 0 <= k < |cached| && cached[k].None? ==> |xs| <= start + k
    ensures MissRows(cached, start, xs) == []
  {
    if cached != [] { NoMissRows(cached[..|cached| - 1], start, xs); }
  }

  lemma NoMissBelowHit(cached: seq<Option<Blob>>, start: nat, n: nat)
    requires cached != [] && !MissBeforeHit(cached, start, n)
    ensures var last := |cached| - 1;
            && !MissBeforeHit(cached[..last], start, n)
            && (cached[last].Some? ==> forall k :: 0 <= k < last && cached[k].None? ==> n <= start + k)
  {
  }

  lemma AppendTail<T>(hits: seq<T>, misses: seq<T>, all: seq<T>, x: seq<T>)
    requires hits + misses == all
    ensures hits + (misses + x) == all + x
    ensures misses == [] ==> (hits + x) + misses == all + x
  {
  }

  /** Hits, then missed rows: the order of the window, when no miss precedes a hit. */
  lemma {:induction false} InOrder(cached: seq<Option<Blob>>, start: nat, xs: seq<Blob>)
    requires !MissBeforeHit(cached, start, |xs|)
    ensures Hits(cached) + Values(MissRows(cached, start, xs)) == Overlay(cached, start, xs)
  {
    if cached != [] {
      var last := |cached| - 1;
      var front := cached[..last];
      NoMissBelowHit(cached, start, |xs|);
      InOrder(front, start, xs);
      var hits, misses, all := Hits(front), Values(MissRows(front, start, xs)), Overlay(front, start, xs);
      if cached[last].Some? {
        NoMissRows(front, start, xs);
        AppendTail(hits, misses, all, [cached[last].value]);
      } else {
        ValuesConcat(MissRows(front, start, xs), RowAt(xs, start + last));
        AppendTail(hits, misses, all, Values(RowAt(xs, start + last)));
      }
    }
  }

  lemma {:induction false} HitsLength(cached: seq<Option<Blob>>, p: nat)
    requires p <= |cached| && forall k :: 0 <= k < |cached| ==> (cached[k].Some? <==> k < p)
    ensures |Hits(cached)| == p
  {
    if cached != [] { HitsLength(cached[..|cached| - 1], Min(p, |cached| - 1)); }
  }

  /** After p hits and a miss, the next hit is delivered in the place of the miss. */
  lemma {:induction false} HitAfterMiss(cached: seq<Option<Blob>>, p: nat, k: nat) returns (k': nat)
    requires p < k < |cached| && cached[p].None? && cached[k].Some? && forall i :: 0 <= i < p ==> cached[i].Some?
    ensures p < k' < |cached| && cached[k'].Some? && p < |Hits(cached)| && Hits(cached)[p] == cached[k'].value
  {
    var n := |cached| - 1;
    if j :| p < j < n && cached[j].Some? {
      k' := HitAfterMiss(cached[..n], p, j);
    } else {
      k' := n;
      HitsLength(cached[..n], p);
    }
  }

  function LeadingHits(cached: seq<Option<Blob>>): (p: nat)
    ensures p <= |cached| && (forall k :: 0 <= k < p ==> cached[k].Some?) && (p < |cached| ==> cached[p].None?)
  {
    if cached == [] || cached[0].None? then 0 else 1 + LeadingHits(cached[1..])
  }

  ghost predicate Different<T(!new)>(ys: seq<T>) {
    forall i, j :: 0 <= i < j < |ys| ==> ys[i] != ys[j]
  }

  /** A missed row before a cached one: the place of the first miss is taken by a later item. */
  lemma PlaceTaken(cached: seq<Option<Blob>>, j: nat, k: nat) returns (p: nat, k': nat)
    requires j < k < |cached| && cached[j].None? && cached[k].Some?
    ensures p <= j && p < k' < |cached| && cached[k'].Some? && p < |Hits(cached)| && Hits(cached)[p] == cached[k'].value
  {
    p := LeadingHits(cached);
    k' := HitAfterMiss(cached, p, k);
  }

  lemma OutOfOrder(cached: seq<Option<Blob>>, start: nat, xs: seq<Blob>, rest: seq<Blob>)
    requires Agrees(cached, start, xs) && MissBeforeHit(cached, start, |xs|) && Different(Slice(xs, start, |cached|))
    ensures Hits(cached) + rest != Slice(xs, start, |cached|)
  {
    var j, k :| 0 <= j < k < |cached| && cached[j].None? && start + j < |xs| && cached[k].Some?;
    var p, k' := PlaceTaken(cached, j, k);
    Misplaced(xs, start, |cached|, p, k', Hits(cached) + rest);
  }

  lemma Misplaced(xs: seq<Blob>, start: nat, n: nat, p: nat, k: nat, values: seq<Blob>)
    requires p < k < n && start + k < |xs| && Different(Slice(xs, start, n))
    requires p < |values| && values[p] == xs[start + k]
    ensures values != Slice(xs, start, n)
  {
    var window := Slice(xs, start, n);
    assert window[p] == xs[start + p] && window[k] == xs[start + k];
  }

  /** The order of what is delivered when the query returns its rows in ascending order: ledger order if no missed row
      precedes a cached one, and, for items that differ from each other, only then. */
  lemma LedgerOrder(cached: seq<Option<Blob>>, start: nat, xs: seq<Blob>, values: seq<Blob>)
    requires Agrees(cached, start, xs)
    requires values == Hits(cached) + Values(Matching(Image(xs), Misses(cached, start)))
    ensures !MissBeforeHit(cached, start, |xs|) ==> values == Slice(xs, start, |cached|)
    ensures Different(Slice(xs, start, |cached|)) ==>
              (values == Slice(xs, start, |cached|) <==> !MissBeforeHit(cached, start, |xs|))
  {
    MissesMatch(cached, start, xs);
    if MissBeforeHit(cached, start, |xs|) {
      if Different(Slice(xs, start, |cached|)) {
        OutOfOrder(cached, start, xs, Values(MissRows(cached, start, xs)));
      }
    } else {
      InOrder(cached, start, xs);
      OverlayWindow(cached, start, xs);
    }
  }

  /** It does happen: of two items the second is cached, and comes first. */
  lemma SecondComesFirst(xs: seq<Blob>, cached: seq<Option<Blob>>)
    requires |xs| == 2 && cached == [None, Some(xs[1])]
    ensures Agrees(cached, 0, xs)
    ensures Hits(cached) + Values(Matching(Image(xs), Misses(cached, 0))) == [xs[1], xs[0]]
  {
    MissesMatch(cached, 0, xs);
    var first := cached[..1];
    assert first == [None] && first[..0] == [];
    assert Hits(first) == [] && MissRows(first, 0, xs) == [Row(0, xs[0])];
  }

  /** The same for what a read delivers, when its query ordered its rows. */
  lemma ReadInOrder(rd: Look, start: nat, rows: seq<Row>, xs: seq<Blob>, values: seq<Blob>)
    requires Dense(rows, xs) && Agrees(rd.cached, start, xs) && AscendingRows(rd.rows)
    requires multiset(rd.rows) == multiset(Matching(rows, Misses(rd.cached, start)))
    requires values == Hits(rd.cached) + Values(rd.rows)
    ensures !MissBeforeHit(rd.cached, start, |xs|) ==> values == Slice(xs, start, |rd.cached|)
    ensures Different(Slice(xs, start, |rd.cached|)) ==>
              (values == Slice(xs, start, |rd.cached|) <==> !MissBeforeHit(rd.cached, start, |xs|))
  {
    var found := Matching(Image(xs), Misses(rd.cached, start));
    MatchingBag(rows, Image(xs), Misses(rd.cached, start));
    MissesMatch(rd.cached, start, xs);
    MissRowsAscend(rd.cached, start, xs);
    SameAscending(rd.rows, found);
    LedgerOrder(rd.cached, start, xs, values);
  }
}
