/** Greedy batching across shards in closed form: how much of each shard a pull with a given limit takes, and what
    following the returned cursor amounts to (src/indexer/pull.rs:57-92). `n` are the shard sizes, `c` the cursors. */
module Greedy {
  import opened Types
  import opened Rows
  import opened Partition

  /** Items of shard s at or past its cursor. */
  function Left(n: Cursors, c: Cursors, s: Shard): nat {
    if c[s] < n[s] then n[s] - c[s] else 0
  }

  /** Items left in the shards below s. */
  function Before(n: Cursors, c: Cursors, s: nat): nat
    requires s <= FOREST_WIDTH
  {
    if s == 0 then 0 else Before(n, c, s - 1) + Left(n, c, s - 1)
  }

  function TotalLeft(n: Cursors, c: Cursors): nat { Before(n, c, FOREST_WIDTH) }

  /** What a pull with this limit takes from shard s: the lower shards come first. */
  function Taken(n: Cursors, c: Cursors, limit: nat, s: Shard): nat {
    Min(Left(n, c, s), limit - Min(limit, Before(n, c, s)))
  }

  function NextIndex(n: Cursors, c: Cursors, limit: nat, s: Shard): nat { c[s] + Taken(n, c, limit, s) }

  /** The cursors after a pull with this limit. */
  function Next(n: Cursors, c: Cursors, limit: nat): Cursors {
    seq(FOREST_WIDTH, s requires 0 <= s < FOREST_WIDTH => NextIndex(n, c, limit, s))
  }

  /** The limit falls strictly inside shard s. */
  ghost predicate InsideAt(n: Cursors, c: Cursors, limit: nat, s: Shard) {
    Before(n, c, s) < limit < Before(n, c, s + 1)
  }

  /** The limit falls strictly inside what is left of some shard. */
  ghost predicate Inside(n: Cursors, c: Cursors, limit: nat) {
    exists s: Shard :: InsideAt(n, c, limit, s)
  }

  /** The continue flag: the limit falls strictly inside a shard, or it is zero and something is left. */
  ghost predicate More(n: Cursors, c: Cursors, limit: nat) {
    Inside(n, c, limit) || (limit == 0 && TotalLeft(n, c) > 0)
  }

  lemma {:induction false} BeforeMonotone(n: Cursors, c: Cursors, s: nat, s': nat)
    requires s <= s' <= FOREST_WIDTH
    ensures Before(n, c, s) <= Before(n, c, s')
  {
    if s < s' { BeforeMonotone(n, c, s, s' - 1); }
  }

  /** A set flag means that more is left than the limit; but the converse fails. */
  lemma MoreMeansLeft(n: Cursors, c: Cursors, limit: nat)
    requires More(n, c, limit)
    ensures limit < TotalLeft(n, c)
  {
    if Inside(n, c, limit) {
      var s: Shard :| InsideAt(n, c, limit, s);
      BeforeMonotone(n, c, s + 1, FOREST_WIDTH);
    }
  }

  lemma {:induction false} TakenBelow(n: Cursors, c: Cursors, limit: nat, s: nat)
    requires s <= FOREST_WIDTH
    ensures Sum(Next(n, c, limit)[..s]) == Sum(c[..s]) + Min(limit, Before(n, c, s))
  {
    if s > 0 {
      TakenBelow(n, c, limit, s - 1);
      assert Next(n, c, limit)[..s][..s - 1] == Next(n, c, limit)[..s - 1] && c[..s][..s - 1] == c[..s - 1];
    }
  }

  /** Conservation: the cursors together move by exactly min(limit, everything left). */
  lemma Conservation(n: Cursors, c: Cursors, limit: nat)
    ensures Sum(Next(n, c, limit)) == Sum(c) + Min(limit, TotalLeft(n, c))
  {
    TakenBelow(n, c, limit, FOREST_WIDTH);
    assert Next(n, c, limit)[..FOREST_WIDTH] == Next(n, c, limit) && c[..FOREST_WIDTH] == c;
  }

  // ---- following the cursor ----

  /** After taking d items, what is left below shard s is what was left there less d. */
  lemma {:induction false} BeforeAfter(n: Cursors, c: Cursors, d: nat, s: nat)
    requires s <= FOREST_WIDTH
    ensures Before(n, Next(n, c, d), s) == Before(n, c, s) - Min(d, Before(n, c, s))
  {
    if s > 0 { BeforeAfter(n, c, d, s - 1); }
  }

  /** Two pulls in a row are one pull with the sum of the limits. */
  lemma NextCompose(n: Cursors, c: Cursors, d: nat, limit: nat)
    ensures Next(n, Next(n, c, d), limit) == Next(n, c, d + limit)
  {
    forall s: Shard ensures Next(n, Next(n, c, d), limit)[s] == Next(n, c, d + limit)[s] {
      BeforeAfter(n, c, d, s);
    }
  }

  /** ... and the second one's flag is that of the sum, seen from the first cursor. */
  lemma InsideCompose(n: Cursors, c: Cursors, d: nat, limit: nat)
    requires limit > 0
    ensures More(n, Next(n, c, d), limit) <==> Inside(n, c, d + limit)
  {
    var c' := Next(n, c, d);
    forall s: Shard ensures InsideAt(n, c', limit, s) <==> InsideAt(n, c, d + limit, s) {
      BeforeAfter(n, c, d, s);
      BeforeAfter(n, c, d, s + 1);
    }
    if Inside(n, c', limit) {
      var s: Shard :| InsideAt(n, c', limit, s);
      assert InsideAt(n, c, d + limit, s);
    }
    if Inside(n, c, d + limit) {
      var s: Shard :| InsideAt(n, c, d + limit, s);
      assert InsideAt(n, c', limit, s);
    }
  }

  /** The distance reaches the end of a shard exactly. */
  ghost predicate Boundary(n: Cursors, c: Cursors, d: nat) {
    exists s: Shard :: Before(n, c, s) == d
  }

  /** A non-zero distance that is below everything left and not strictly inside a shard ends a shard exactly. */
  lemma {:induction false} NotInsideIsBoundary(n: Cursors, c: Cursors, d: nat, s: nat)
    requires s <= FOREST_WIDTH && 0 < d < Before(n, c, s)
    ensures Inside(n, c, d) || Boundary(n, c, d)
  {
    if Before(n, c, s - 1) == d {
      var t: Shard := s - 1;
      assert Before(n, c, t) == d;
    } else if d < Before(n, c, s - 1) {
      NotInsideIsBoundary(n, c, d, s - 1);
    } else {
      var t: Shard := s - 1;
      assert InsideAt(n, c, d, t);
    }
  }

  // ---- the loop over the shards ----

  /** The limit falls strictly inside one of the first `upto` shards. */
  predicate InsideBelow(n: Cursors, c: Cursors, limit: nat, upto: nat)
    requires upto <= FOREST_WIDTH
  {
    upto > 0 && (InsideBelow(n, c, limit, upto - 1) || Before(n, c, upto - 1) < limit < Before(n, c, upto))
  }

  function PartialNext(n: Cursors, c: Cursors, limit: nat, upto: nat): Cursors
    requires upto <= FOREST_WIDTH
  {
    seq(FOREST_WIDTH, s requires 0 <= s < FOREST_WIDTH => if s < upto then NextIndex(n, c, limit, s) else c[s])
  }

  /** The loop's variables after the first `upto` shards: cursors, batch length and flag. */
  function LoopAt(n: Cursors, c: Cursors, limit: nat, upto: nat): (Cursors, nat, bool)
    requires upto <= FOREST_WIDTH
  {
    (PartialNext(n, c, limit, upto), Min(limit, Before(n, c, upto)),
     InsideBelow(n, c, limit, upto) || (limit == 0 && Before(n, c, upto) > 0))
  }

  lemma LoopStart(n: Cursors, c: Cursors, limit: nat)
    ensures LoopAt(n, c, limit, 0) == (c, 0, false)
  {
    assert PartialNext(n, c, limit, 0) == c;
  }

  /** A shard with nothing left changes nothing. */
  lemma LoopSkip(n: Cursors, c: Cursors, limit: nat, s: Shard)
    requires Left(n, c, s) == 0
    ensures LoopAt(n, c, limit, s + 1) == LoopAt(n, c, limit, s) && Before(n, c, s + 1) == Before(n, c, s)
  {
    assert PartialNext(n, c, limit, s + 1) == PartialNext(n, c, limit, s);
  }

  lemma {:induction false} InsideBelowBefore(n: Cursors, c: Cursors, limit: nat, upto: nat)
    requires upto <= FOREST_WIDTH && Before(n, c, upto) <= limit
    ensures !InsideBelow(n, c, limit, upto)
  {
    if upto > 0 { InsideBelowBefore(n, c, limit, upto - 1); }
  }

  /** A shard with something left gives what the remaining budget allows. */
  lemma LoopTake(n: Cursors, c: Cursors, limit: nat, s: Shard, next: Cursors, got: nat, more: bool)
    requires LoopAt(n, c, limit, s) == (next, got, more) && Left(n, c, s) > 0
    requires got < limit || Before(n, c, s) == 0
    ensures LoopAt(n, c, limit, s + 1)
         == (next[s := c[s] + Min(limit - got, Left(n, c, s))], got + Min(limit - got, Left(n, c, s)),
             more || c[s] + (limit - got) < n[s])
    ensures Before(n, c, s + 1) > 0
  {
    assert PartialNext(n, c, limit, s + 1) == next[s := c[s] + Min(limit - got, Left(n, c, s))];
    InsideBelowBefore(n, c, limit, s);
  }

  lemma {:induction false} InsideBelowMeaning(n: Cursors, c: Cursors, limit: nat, upto: nat)
    requires upto <= FOREST_WIDTH
    ensures InsideBelow(n, c, limit, upto) <==> exists s: Shard :: s < upto && InsideAt(n, c, limit, s)
  {
    if upto > 0 {
      InsideBelowMeaning(n, c, limit, upto - 1);
      var s: Shard := upto - 1;
      assert InsideBelow(n, c, limit, upto) <==> InsideBelow(n, c, limit, upto - 1) || InsideAt(n, c, limit, s);
    }
  }

  /** Once every shard was seen, or the limit was reached, the loop's variables are the closed form. */
  lemma LoopDone(n: Cursors, c: Cursors, limit: nat, upto: nat, next: Cursors, got: nat, more: bool)
    requires upto <= FOREST_WIDTH && LoopAt(n, c, limit, upto) == (next, got, more)
    requires upto == FOREST_WIDTH || (got == limit && Before(n, c, upto) > 0)
    ensures next == Next(n, c, limit) && got == Min(limit, TotalLeft(n, c)) && (more <==> More(n, c, limit))
  {
    BeforeMonotone(n, c, upto, FOREST_WIDTH);
    forall s: Shard | upto <= s ensures Before(n, c, upto) <= Before(n, c, s) {
      BeforeMonotone(n, c, upto, s);
    }
    InsideBelowMeaning(n, c, limit, upto);
    assert next == Next(n, c, limit);
    if Inside(n, c, limit) {
      var s: Shard :| InsideAt(n, c, limit, s);
      assert s < upto;
    }
  }
}
