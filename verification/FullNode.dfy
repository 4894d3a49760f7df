/** The surroundings of the sync writer: the full node, what may fail, and the course of a sync run as it follows from
    them (src/indexer/sync.rs:98-206). */
module FullNode {
  import opened Types
  import opened Partition
  import opened Db
  import opened Rows
  import opened Pull
  import opened Commit

  /** The writer's surroundings at each moment: the full node's ledger, what it answers to a checkpoint and two
      limits (`None` for a failed request), and whether a transaction goes through. */
  datatype World = World(ledger: nat -> Ledger, answer: (nat, Checkpoint, nat, nat) -> Option<PullResponse>,
                         commits: nat -> bool) {
    /** The ledger is append-only and fits the cache's keys. */
    ghost predicate AppendOnly() {
      && (forall i: nat :: ledger(i).Valid() && Fits(ledger(i), 0))
      && (forall i: nat, j: nat :: i <= j ==> ledger(i).PrefixOf(ledger(j)))
    }

    /** Answers are the next items of the ledger, whatever the limits; an answer that says continue is not empty. */
    ghost predicate Honest() {
      forall i: nat, cp: Checkpoint, a: nat, b: nat :: answer(i, cp, a, b).Some? ==>
        Serves(ledger(i), cp, answer(i, cp, a, b).value) && NotEmpty(answer(i, cp, a, b).value)
    }

    /** An answer that says stop leaves nothing behind. */
    ghost predicate Conclusive() {
      forall i: nat, cp: Checkpoint, a: nat, b: nat ::
        answer(i, cp, a, b).Some? && !answer(i, cp, a, b).value.shouldContinue ==>
          Exhausts(ledger(i), cp, answer(i, cp, a, b).value)
    }

    /** The ledger never holds more than `bound` items. */
    ghost predicate Finite(bound: nat) {
      forall i: nat :: |ledger(i).shards| == FOREST_WIDTH && Items(ledger(i)) <= bound
    }
  }

  predicate NotEmpty(resp: PullResponse) {
    resp.shouldContinue ==> |resp.receivers| + |resp.senders| > 0
  }

  ghost predicate Exhausts(l: Ledger, cp: Checkpoint, resp: PullResponse) {
    && |l.shards| == FOREST_WIDTH
    && (forall s: Shard :: |l.shards[s]| <= cp.receiverIndex[s] + |GroupOf(resp.receivers, s)|)
    && |l.senders| <= cp.senderIndex + |resp.senders|
  }

  /** How many items a ledger has. */
  function Items(l: Ledger): nat
    requires |l.shards| == FOREST_WIDTH
  {
    Sum(CursorOf(l).receiverIndex) + |l.senders|
  }

  lemma PrefixItems(l: Ledger, l': Ledger)
    requires l.PrefixOf(l')
    ensures Items(l) <= Items(l')
  {
    SumMonotone(CursorOf(l).receiverIndex, CursorOf(l').receiverIndex);
  }

  lemma WithinBound(l: Ledger, world: World, now: nat, bound: nat)
    requires world.Finite(bound) && l.PrefixOf(world.ledger(now))
    ensures Items(l) <= bound
  {
    PrefixItems(l, world.ledger(now));
  }

  lemma ExtendedItems(l: Ledger, rs: seq<Receiver>, ss: seq<Sender>)
    requires |l.shards| == FOREST_WIDTH && AllPlaced(rs)
    ensures Items(Extended(l, rs, ss)) == Items(l) + |rs| + |ss|
  {
    ExtendedCursor(l, rs, ss);
    AdvanceSum(CursorOf(l), rs, |ss|);
  }

  /** A prefix that is as long as the whole is the whole. */
  lemma ExhaustedIsEqual(l: Ledger, node: Ledger, resp: PullResponse)
    requires l.PrefixOf(node) && Serves(node, CursorOf(l), resp) && Exhausts(node, CursorOf(l), resp)
    ensures Extended(l, resp.receivers, resp.senders) == node
  {
    ExtendedIsPrefix(l, node, resp);
    var l' := Extended(l, resp.receivers, resp.senders);
    forall s: Shard ensures l'.shards[s] == node.shards[s] {
      assert l'.shards[s] == l.shards[s] + GroupOf(resp.receivers, s);
    }
    assert l'.shards == node.shards;
  }

  /** A part of a valid, small enough ledger is valid and small enough. */
  lemma PrefixFits(l: Ledger, node: Ledger)
    requires l.PrefixOf(node) && node.Valid() && Fits(node, 0)
    ensures l.Valid() && Fits(l, 0)
  {
    forall s: Shard, i: nat | i < |l.shards[s]| ensures l.shards[s][i].utxo.tree == Some(s) {
      assert l.shards[s][i] == node.shards[s][i];
    }
  }

  lemma PrefixTransitive(a: Ledger, b: Ledger, c: Ledger)
    requires a.PrefixOf(b) && b.PrefixOf(c)
    ensures a.PrefixOf(c)
  {
  }

  // ---- the course of a run ----

  /** The answer to the request at a moment; both limits are capped, and the sender limit goes first. */
  function Asked(world: World, now: nat, cp: Checkpoint, maxCount: (nat, nat)): Option<PullResponse> {
    world.answer(now, cp, Min(maxCount.0, MAX_SENDERS), Min(maxCount.1, MAX_RECEIVERS))
  }

  /** The node does not answer, or some UTXO cannot be placed, or the transaction does not go through. */
  ghost predicate FailsAt(world: World, now: nat, cp: Checkpoint, maxCount: (nat, nat)) {
    var answer := world.answer(now, cp, AtMost4096(maxCount.0), AtMost4096(maxCount.1));
    || answer.None?
    || (exists i :: 0 <= i < |answer.value.receivers| && answer.value.receivers[i].utxo.tree.None?)
    || !world.commits(now)
  }

  lemma FailsUnless(world: World, now: nat, cp: Checkpoint, maxCount: (nat, nat))
    ensures var asked := Asked(world, now, cp, maxCount);
      !FailsAt(world, now, cp, maxCount) <==> asked.Some? && AllPlaced(asked.value.receivers) && world.commits(now)
  {
  }

  /** Nothing ever fails. */
  ghost predicate Reliable(world: World, maxCount: (nat, nat)) {
    forall i: nat, cp: Checkpoint :: !FailsAt(world, i, cp, maxCount)
  }

  /** What is replicated after k rounds, one at each moment after `now`, that start with l. */
  ghost function Replicated(world: World, maxCount: (nat, nat), l: Ledger, now: nat, k: nat): (l': Ledger)
    requires |l.shards| == FOREST_WIDTH
    ensures |l'.shards| == FOREST_WIDTH
  {
    if k == 0 then l
    else
      var before := Replicated(world, maxCount, l, now, k - 1);
      match Asked(world, now + k, CursorOf(before), maxCount)
      case Some(resp) => Extended(before, resp.receivers, resp.senders)
      case None => before
  }

  /** The k-th of those rounds goes through. */
  ghost predicate RoundAt(world: World, maxCount: (nat, nat), l: Ledger, now: nat, k: nat)
    requires |l.shards| == FOREST_WIDTH && k > 0
  {
    !FailsAt(world, now + k, CursorOf(Replicated(world, maxCount, l, now, k - 1)), maxCount)
  }

  /** ... and its answer says stop. */
  ghost predicate StopAt(world: World, maxCount: (nat, nat), l: Ledger, now: nat, k: nat)
    requires |l.shards| == FOREST_WIDTH && k > 0 && RoundAt(world, maxCount, l, now, k)
  {
    !Asked(world, now + k, CursorOf(Replicated(world, maxCount, l, now, k - 1)), maxCount).value.shouldContinue
  }

  /** From `now` to `later` there was a round at each moment, all went through, only the last may have been answered
      with a stop, and l' is what was l before. */
  ghost predicate Course(world: World, maxCount: (nat, nat), l: Ledger, now: nat, l': Ledger, later: nat, goOn: bool) {
    && |l.shards| == FOREST_WIDTH && now <= later && l' == Replicated(world, maxCount, l, now, later - now)
    && (forall k: nat :: 0 < k <= later - now ==>
          && RoundAt(world, maxCount, l, now, k)
          && (StopAt(world, maxCount, l, now, k) <==> !goOn && k == later - now))
    && (!goOn ==> now < later)
  }

  lemma CourseOn(world: World, maxCount: (nat, nat), l: Ledger, now: nat, l': Ledger, later: nat, resp: PullResponse)
    requires Course(world, maxCount, l, now, l', later, true) && |l'.shards| == FOREST_WIDTH
    requires !FailsAt(world, later + 1, CursorOf(l'), maxCount)
    requires Asked(world, later + 1, CursorOf(l'), maxCount) == Some(resp)
    ensures Course(world, maxCount, l, now, Extended(l', resp.receivers, resp.senders), later + 1, resp.shouldContinue)
  {
    assert RoundAt(world, maxCount, l, now, later - now + 1);
  }

  /** How a run ended: when, with what in the tables, and whether it reached the end. */
  datatype RunEnd = RunEnd(at: nat, held: Ledger, ok: bool)

  /** A run of rounds from l and `now` on that ends as e says: with an answer that says stop, or with a failure. */
  ghost predicate RunOf(world: World, maxCount: (nat, nat), l: Ledger, now: nat, e: RunEnd) {
    && now < e.at
    && if e.ok then Course(world, maxCount, l, now, e.held, e.at, false)
       else Course(world, maxCount, l, now, e.held, e.at - 1, true) && FailsAt(world, e.at, CursorOf(e.held), maxCount)
  }

  /** What is held, and when, after some runs. */
  function HeldAfter(l: Ledger, ends: seq<RunEnd>): Ledger { if ends == [] then l else ends[|ends| - 1].held }

  function TimeAfter(now: nat, ends: seq<RunEnd>): nat { if ends == [] then now else ends[|ends| - 1].at }

  /** A job is run after run, each from where the one before ended. */
  ghost predicate JobOf(world: World, maxCount: (nat, nat), l: Ledger, now: nat, ends: seq<RunEnd>) {
    ends != [] ==>
      var front, last := ends[..|ends| - 1], ends[|ends| - 1];
      JobOf(world, maxCount, l, now, front) && RunOf(world, maxCount, HeldAfter(l, front), TimeAfter(now, front), last)
  }

  function Failures(ends: seq<RunEnd>): nat {
    if ends == [] then 0 else Failures(ends[..|ends| - 1]) + if ends[|ends| - 1].ok then 0 else 1
  }

  lemma JobOn(world: World, maxCount: (nat, nat), l: Ledger, now: nat, ends: seq<RunEnd>, e: RunEnd)
    requires JobOf(world, maxCount, l, now, ends)
    requires RunOf(world, maxCount, HeldAfter(l, ends), TimeAfter(now, ends), e)
    ensures JobOf(world, maxCount, l, now, ends + [e])
    ensures Failures(ends + [e]) == Failures(ends) + if e.ok then 0 else 1
  {
    assert (ends + [e])[..|ends|] == ends;
  }
}
