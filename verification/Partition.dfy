/** Grouping receivers by shard and moving cursors (src/indexer/sync.rs:64-89, 303-314; src/indexer/pull.rs:31-47). */
module Partition {
  import opened Types

  /** The receivers whose UTXO hashes to shard s, in order. */
  function GroupOf(rs: seq<Receiver>, s: Shard): (g: seq<Receiver>)
    ensures |g| <= |rs|
  {
    if rs == [] then []
    else
      var last := rs[|rs| - 1];
      GroupOf(rs[..|rs| - 1], s) + (if last.utxo.tree == Some(s) then [last] else [])
  }

  ghost predicate AllPlaced(rs: seq<Receiver>) {
    forall i :: 0 <= i < |rs| ==> rs[i].utxo.tree.Some?
  }

  type Groups = map<Shard, seq<Receiver>>

  /** The hash map holds the non-empty groups. */
  ghost predicate IsPartition(groups: Groups, rs: seq<Receiver>) {
    forall s: Shard :: (s in groups <==> GroupOf(rs, s) != []) && (s in groups ==> groups[s] == GroupOf(rs, s))
  }

  /** The grouping loop: order-preserving, and an error exactly when some UTXO cannot be placed. */
  method ReconstructShards(rs: seq<Receiver>) returns (r: Result<Groups>)
    ensures r.Ok? <==> AllPlaced(rs)
    ensures r.Ok? ==> IsPartition(r.value, rs)
    ensures r.Err? ==> r.error == BadUtxo
  {
    var groups: Groups := map[];
    for i := 0 to |rs|
      invariant AllPlaced(rs[..i]) && IsPartition(groups, rs[..i])
    {
      assert rs[..i + 1][..i] == rs[..i];
      match rs[i].utxo.tree
      case None =>
        return Err(BadUtxo);
      case Some(s) =>
        groups := groups[s := (if s in groups then groups[s] else []) + [rs[i]]];
    }
    assert rs[..|rs|] == rs;
    r := Ok(groups);
  }

  // ---- sums of cursors ----

  function Sum(c: seq<nat>): nat {
    if c == [] then 0 else Sum(c[..|c| - 1]) + c[|c| - 1]
  }

  lemma {:induction false} SumUpdate(c: seq<nat>, i: nat, v: nat)
    requires i < |c|
    ensures Sum(c[i := v]) == Sum(c) - c[i] + v
  {
    var last := |c| - 1;
    if i < last {
      assert c[i := v][..last] == c[..last][i := v];
      SumUpdate(c[..last], i, v);
    } else {
      assert c[i := v][..last] == c[..last];
    }
  }

  lemma {:induction false} SumAdd(a: seq<nat>, b: seq<nat>, c: seq<nat>)
    requires |a| == |b| == |c| && forall i :: 0 <= i < |a| ==> c[i] == a[i] + b[i]
    ensures Sum(c) == Sum(a) + Sum(b)
  {
    if a != [] { SumAdd(a[..|a| - 1], b[..|a| - 1], c[..|a| - 1]); }
  }

  lemma {:induction false} SumMonotone(a: seq<nat>, b: seq<nat>)
    requires |a| == |b| && forall i :: 0 <= i < |a| ==> a[i] <= b[i]
    ensures Sum(a) <= Sum(b)
    ensures Sum(a) == Sum(b) ==> a == b
  {
    if a != [] { SumMonotone(a[..|a| - 1], b[..|a| - 1]); }
  }

  function GroupLens(rs: seq<Receiver>): Cursors {
    seq(FOREST_WIDTH, s requires 0 <= s < FOREST_WIDTH => |GroupOf(rs, s)|)
  }

  lemma {:induction false} SumZero(c: seq<nat>)
    requires forall i :: 0 <= i < |c| ==> c[i] == 0
    ensures Sum(c) == 0
  {
    if c != [] { SumZero(c[..|c| - 1]); }
  }

  /** The groups' lengths add up to the input's: nothing is lost and nothing is counted twice. */
  lemma {:induction false} GroupLensSum(rs: seq<Receiver>)
    requires AllPlaced(rs)
    ensures Sum(GroupLens(rs)) == |rs|
  {
    if rs == [] {
      SumZero(GroupLens(rs));
    } else {
      var front, s := rs[..|rs| - 1], rs[|rs| - 1].utxo.tree.value;
      GroupLensSum(front);
      SumUpdate(GroupLens(front), s, |GroupOf(rs, s)|);
      assert GroupLens(rs) == GroupLens(front)[s := |GroupOf(rs, s)|];
    }
  }

  lemma {:induction false} GroupOfConcat(a: seq<Receiver>, b: seq<Receiver>, s: Shard)
    ensures GroupOf(a + b, s) == GroupOf(a, s) + GroupOf(b, s)
  {
    if b == [] {
      assert a + b == a;
    } else {
      var front := b[..|b| - 1];
      GroupOfConcat(a, front, s);
      assert (a + b)[..|a + b| - 1] == a + front;
    }
  }

  /** A group of one shard's receivers is all of them; of another shard's, none. */
  lemma {:induction false} GroupOfUniform(rs: seq<Receiver>, s: Shard, s': Shard)
    requires forall i :: 0 <= i < |rs| ==> rs[i].utxo.tree == Some(s)
    ensures GroupOf(rs, s') == if s == s' then rs else []
  {
    if rs != [] {
      GroupOfUniform(rs[..|rs| - 1], s, s');
      assert rs == rs[..|rs| - 1] + [rs[|rs| - 1]];
    }
  }

  // ---- moving a cursor ----

  function Moved(cp: Checkpoint, rs: seq<Receiver>, s: Shard): nat {
    cp.receiverIndex[s] + |GroupOf(rs, s)|
  }

  /** The cursor after a batch. */
  function Advance(cp: Checkpoint, rs: seq<Receiver>, senders: nat): Checkpoint {
    Checkpoint(seq(FOREST_WIDTH, s requires 0 <= s < FOREST_WIDTH => Moved(cp, rs, s)), cp.senderIndex + senders)
  }

  /** The cursor moves by as many positions as the batch has items. */
  lemma AdvanceSum(cp: Checkpoint, rs: seq<Receiver>, senders: nat)
    requires AllPlaced(rs)
    ensures Sum(Advance(cp, rs, senders).receiverIndex) == Sum(cp.receiverIndex) + |rs|
  {
    GroupLensSum(rs);
    SumAdd(cp.receiverIndex, GroupLens(rs), Advance(cp, rs, senders).receiverIndex);
  }

  /** A checkpoint that is updated in place. */
  class Cursor {
    const receiverIndex: array<nat>
    var senderIndex: nat

    constructor (cp: Checkpoint)
      ensures fresh(receiverIndex) && receiverIndex.Length == FOREST_WIDTH && Value() == cp
    {
      receiverIndex := new nat[FOREST_WIDTH](i requires 0 <= i < FOREST_WIDTH => cp.receiverIndex[i]);
      senderIndex := cp.senderIndex;
    }

    ghost function Value(): Checkpoint
      requires receiverIndex.Length == FOREST_WIDTH
      reads this, receiverIndex
    {
      Checkpoint(receiverIndex[..], senderIndex)
    }

    method Get() returns (cp: Checkpoint)
      requires receiverIndex.Length == FOREST_WIDTH
      ensures cp == Value()
    {
      cp := Checkpoint(receiverIndex[..], senderIndex);
    }
  }

  /** `increasing_checkpoint`: the groups are visited in any order. */
  method IncreasingCheckpoint(cp: Cursor, senders: nat, groups: Groups, ghost rs: seq<Receiver>)
    requires cp.receiverIndex.Length == FOREST_WIDTH && IsPartition(groups, rs)
    modifies cp, cp.receiverIndex
    ensures cp.Value() == Advance(old(cp.Value()), rs, senders)
  {
    cp.senderIndex := cp.senderIndex + senders;
    var todo := groups.Keys;
    while todo != {}
      invariant todo <= groups.Keys && cp.senderIndex == old(cp.senderIndex) + senders
      invariant forall s: Shard ::
        cp.receiverIndex[s] == old(cp.receiverIndex[s]) + (if s in todo then 0 else |GroupOf(rs, s)|)
      decreases |todo|
    {
      var s :| s in todo;
      cp.receiverIndex[s] := cp.receiverIndex[s] + |groups[s]|;
      todo := todo - {s};
    }
    assert cp.Value().receiverIndex == Advance(old(cp.Value()), rs, senders).receiverIndex;
  }

  /** Where `calculate_next_checkpoint` leaves its second checkpoint. */
  function Recalculated(prev: Checkpoint, next: Checkpoint, rs: seq<Receiver>, senders: nat): Checkpoint {
    Checkpoint(seq(FOREST_WIDTH, s requires 0 <= s < FOREST_WIDTH =>
                 if GroupOf(rs, s) == [] then next.receiverIndex[s] else Moved(prev, rs, s)),
               next.senderIndex + senders)
  }

  /** `calculate_next_checkpoint`: overwrites the visited shards, starting from the previous checkpoint. */
  method CalculateNextCheckpoint(groups: Groups, prev: Checkpoint, next: Cursor, senders: nat, ghost rs: seq<Receiver>)
    requires next.receiverIndex.Length == FOREST_WIDTH && IsPartition(groups, rs)
    modifies next, next.receiverIndex
    ensures next.Value() == Recalculated(prev, old(next.Value()), rs, senders)
  {
    next.senderIndex := next.senderIndex + senders;
    var todo := groups.Keys;
    while todo != {}
      invariant todo <= groups.Keys && next.senderIndex == old(next.senderIndex) + senders
      invariant forall s: Shard ::
        next.receiverIndex[s] == if s in groups && s !in todo then prev.receiverIndex[s] + |GroupOf(rs, s)|
                                 else old(next.receiverIndex[s])
      decreases |todo|
    {
      var s :| s in todo;
      next.receiverIndex[s] := prev.receiverIndex[s] + |groups[s]|;
      todo := todo - {s};
    }
    assert next.Value().receiverIndex == Recalculated(prev, old(next.Value()), rs, senders).receiverIndex;
  }

  /** The two ways of moving a cursor agree exactly when the two checkpoints agree on every shard of the batch. */
  lemma RecalculatedIsAdvance(prev: Checkpoint, next: Checkpoint, rs: seq<Receiver>, senders: nat)
    ensures Recalculated(prev, next, rs, senders) == Advance(next, rs, senders)
       <==> forall s: Shard :: GroupOf(rs, s) != [] ==> prev.receiverIndex[s] == next.receiverIndex[s]
  {
    var a, b := Recalculated(prev, next, rs, senders), Advance(next, rs, senders);
    forall s: Shard ensures a.receiverIndex[s] == b.receiverIndex[s]
      <==> (GroupOf(rs, s) != [] ==> prev.receiverIndex[s] == next.receiverIndex[s]) {
    }
    if forall s: Shard :: GroupOf(rs, s) != [] ==> prev.receiverIndex[s] == next.receiverIndex[s] {
      assert a.receiverIndex == b.receiverIndex;
    }
  }
}
