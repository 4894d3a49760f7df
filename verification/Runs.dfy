/** What holds in every run of the indexer, whatever the interleaving of node, sync job, cache and pull requests. */
module Runs {
  import opened Types
  import opened Keys
  import opened Rows
  import opened Db
  import opened Coherence
  import opened Partition
  import opened Pull
  import FullNode
  import opened Serving
  import opened System
  import Order
  import Quiet

  /** The state after a list of actions; an action that is not possible does nothing. */
  ghost function Exec(actions: seq<Action>): (st: State)
    ensures |st.replica.shards| == FOREST_WIDTH
  {
    if actions == [] then Init()
    else
      var before := Exec(actions[..|actions| - 1]);
      if Enabled(before, actions[|actions| - 1]) then After(before, actions[|actions| - 1]) else before
  }

  lemma {:induction false} EveryRun(actions: seq<Action>)
    ensures Inv(Exec(actions))
  {
    if actions == [] {
      InitOk();
    } else {
      var before, a := Exec(actions[..|actions| - 1]), actions[|actions| - 1];
      EveryRun(actions[..|actions| - 1]);
      if Enabled(before, a) { StepKeepsInv(before, a); }
    }
  }

  /** Committed items never change or go away, crashes included. */
  lemma {:induction false} RunsOnlyAppend(actions: seq<Action>, i: nat)
    requires i <= |actions|
    ensures Exec(actions[..i]).replica.PrefixOf(Exec(actions).replica)
    decreases |actions|
  {
    if i == |actions| {
      assert actions[..i] == actions;
    } else {
      var front, a := actions[..|actions| - 1], actions[|actions| - 1];
      RunsOnlyAppend(front, i);
      assert front[..i] == actions[..i];
      EveryRun(front);
      if Enabled(Exec(front), a) { StepAppends(Exec(front), a); }
      FullNode.PrefixTransitive(Exec(front[..i]).replica, Exec(front).replica, Exec(actions).replica);
    }
  }

  lemma StepAppends(st: State, a: Action)
    requires Inv(st) && Enabled(st, a)
    ensures st.replica.PrefixOf(After(st, a).replica)
  {
    if a.CommitTx? { CommitData(st, a.order); }
  }

  /** In every run the tables hold each index 0..n-1 of each shard exactly once, with the node's item at that index,
      and the nullifier table likewise. */
  lemma TablesAreDense(actions: seq<Action>, s: Shard, i: nat)
    ensures var st, rows := Exec(actions), RowsOf(Exec(actions).db.shards, s);
      && CountIdx(rows, i) == (if i < |rows| then 1 else 0)
      && CountIdx(st.db.nullifier, i) == (if i < |st.db.nullifier| then 1 else 0)
      && |st.node.shards| == FOREST_WIDTH && |rows| <= |st.node.shards[s]| && |st.db.nullifier| <= |st.node.senders|
      && (forall r :: r in rows ==> r.idx < |st.node.shards[s]| && r.content == ReceiverBlob(st.node.shards[s][r.idx]))
      && (forall r :: r in st.db.nullifier ==>
            r.idx < |st.node.senders| && r.content == SenderBlob(st.node.senders[r.idx]))
  {
    EveryRun(actions);
    var st := Exec(actions);
    DenseExactlyOnce(RowsOf(st.db.shards, s), EncodeReceivers(st.replica.shards[s]), i);
    DenseExactlyOnce(st.db.nullifier, EncodeSenders(st.replica.senders), i);
    StoredReceivers(s, RowsOf(st.db.shards, s), st.db, st.replica);
    StoredSenders(st.db.nullifier, st.db, st.replica);
    assert st.replica.shards[s] <= st.node.shards[s];
  }

  /** In every run each cache entry is the committed row that its key names. */
  lemma CacheIsCommitted(actions: seq<Action>, k: Key)
    requires k in Exec(actions).cache
    ensures var st := Exec(actions);
      if k.prefix == 1 then k.sub < FOREST_WIDTH && Row(k.value, st.cache[k]) in RowsOf(st.db.shards, k.sub)
      else k.prefix == 2 && k.sub == 0 && Row(k.value, st.cache[k]) in st.db.nullifier
  {
    EveryRun(actions);
    var st := Exec(actions);
    assert Truthful(k, st.cache[k], st.replica);
    if k.prefix == 1 {
      RowStored(RowsOf(st.db.shards, k.sub), EncodeReceivers(st.replica.shards[k.sub]), k.value);
    } else {
      RowStored(st.db.nullifier, EncodeSenders(st.replica.senders), k.value);
    }
  }

  lemma RowStored(rows: seq<Row>, xs: seq<Blob>, i: nat)
    requires Dense(rows, xs) && i < |xs|
    ensures Row(i, xs[i]) in rows
  {
    assert Image(xs)[i] == Row(i, xs[i]);
    assert Row(i, xs[i]) in multiset(rows);
  }

  /** In every run the in-memory cursor is COUNT(*) of the tables until the commit, so that the index at which senders
      are inserted is the one they were asked from; after the commit it is one batch behind. */
  lemma CursorIsCount(actions: seq<Action>)
    ensures var st := Exec(actions);
      && (st.writer.Ask? || st.writer.Fetched? ==> st.writer.cp == LatestCheckPoint(st.db))
      && (st.writer.Caching? ==> st.writer.base == st.writer.cp.senderIndex)
      && (st.writer.Caching? ==>
            Advance(st.writer.cp, st.writer.resp.receivers, |st.writer.resp.senders|) == LatestCheckPoint(st.db))
  {
    EveryRun(actions);
    CountIsCursor(Exec(actions).db, Exec(actions).replica);
  }

  /** A failure or a crash at any point, followed by a restart, asks for exactly what comes after the committed
      prefix: nothing is fetched into a wrong place and nothing is lost. A crash loses all but tables, node and the
      answers that were sent; a failure loses nothing else. */
  lemma RestartResumes(actions: seq<Action>, stop: Action)
    requires stop.Crash? || stop.SyncFail?
    ensures var st, st' := Exec(actions), Exec(actions + [stop] + [SyncStart]);
      && st'.db == st.db && st'.replica == st.replica && st'.writer == Ask(CursorOf(st.replica))
      && st'.node == st.node && st'.lastTotal == st.lastTotal
      && (stop.Crash? ==> st'.cache == map[] && !st'.syncFinished && st'.service == Closed)
      && (stop.Crash? ==> forall id :: (id in st'.pulls <==> id in st.pulls && st.pulls[id].pc.Done?)
                                       && (id in st'.pulls ==> st'.pulls[id] == st.pulls[id]))
      && (stop.SyncFail? ==> st'.cache == st.cache && st'.syncFinished == st.syncFinished && st'.service == st.service
                             && st'.pulls == st.pulls)
  {
    EveryRun(actions);
    assert (actions + [stop])[..|actions|] == actions;
    assert (actions + [stop] + [SyncStart])[..|actions| + 1] == actions + [stop];
    CountIsCursor(Exec(actions).db, Exec(actions).replica);
  }

  /** In every run in which the service opened because the initial sync had finished, the totals table has exactly
      one row, the total of the last committed batch, and no pull fails. */
  lemma TotalIsThere(actions: seq<Action>)
    requires Exec(actions).service.OpenedBySync?
    ensures var st := Exec(actions);
      && st.lastTotal.Some? && st.db.totals == map[true := st.lastTotal.value]
      && NoFailure(st.pulls)
  {
    EveryRun(actions);
  }

  // ---- the answers ----

  /** The receivers of a finished request, measured against a ledger. */
  ghost predicate ReceiversAnswered(l: Ledger, p: Process) {
    && |l.shards| == |p.begun.shards| == FOREST_WIDTH
    // exactly the items between the old cursor and the new one, lower shards first
    && Delivered(l, p.cp.receiverIndex, p.next, p.receivers) && Ascending(p.receivers) && AllPlaced(p.receivers)
    // the new cursor is where a client that counts would put it
    && Advance(p.cp, p.receivers, 0).receiverIndex == p.next
    // within the limit; a short batch is complete up to what was committed when the request began
    && |p.receivers| <= p.maxReceivers
    && (|p.receivers| < p.maxReceivers ==> forall s: Shard :: |p.begun.shards[s]| <= p.next[s])
    // a clear flag: the visited shards are complete in the same sense, and the others did not move
    && (!p.more ==> exists v: nat :: VisitedBelow(p, v))
    // the flag is only set when the batch is full and there is an item at the returned cursor
    && (p.more ==> |p.receivers| == p.maxReceivers && SomethingLeft(l, p.next))
  }

  /** Its senders: those from the cursor on; a short batch is complete likewise. */
  ghost predicate SendersAnswered(l: Ledger, p: Process) {
    && (p.moreSenders ==> p.NextCheckpoint().senderIndex < |l.senders|)
    && (!p.moreSenders ==> |p.begun.senders| <= p.NextCheckpoint().senderIndex)
    && |p.senders| <= p.maxSenders
    && (|p.senders| < p.maxSenders ==> |p.begun.senders| <= p.cp.senderIndex + |p.senders|)
    && (Unwrapped(l, p) ==> multiset(p.senders) == multiset(Slice(l.senders, p.cp.senderIndex, |p.senders|)))
  }

  lemma DoneReceivers(l: Ledger, p: Process)
    requires BatchOk(l, p) && CoverOk(p) && p.pc.Done?
    ensures ReceiversAnswered(l, p)
  {
    RecomputedCursor(l, p.cp, p.next, p.receivers, 0);
    assert ReceiversCovered(p);
  }

  lemma DoneSenders(l: Ledger, p: Process)
    requires PullOk(l, p) && CoverOk(p) && p.pc.Done?
    ensures SendersAnswered(l, p)
  {
    assert SendersCovered(p) && ClearFlagCovered(p) && SendersOk(l, p);
  }

  ghost predicate Answered(l: Ledger, p: Process)
    requires p.pc.Done?
  {
    && ReceiversAnswered(l, p) && SendersAnswered(l, p)
    && (p.Response().shouldContinue ==> SomethingLeft(l, p.next) || p.NextCheckpoint().senderIndex < |l.senders|)
  }

  lemma DoneIsAnswered(l: Ledger, p: Process)
    requires ProcessOk(l, p) && p.pc.Done?
    ensures Answered(l, p)
  {
    DoneReceivers(l, p);
    DoneSenders(l, p);
  }

  lemma RequestIsOk(actions: seq<Action>, id: nat)
    requires id in Exec(actions).pulls
    ensures ProcessOk(Exec(actions).node, Exec(actions).pulls[id])
  {
    EveryRun(actions);
    var st := Exec(actions);
    assert ProcessOk(st.replica, st.pulls[id]);
    ProcessGrows(st.replica, st.node, st.pulls[id]);
  }

  /** In every run, every finished request has answered with the node's items. */
  lemma PullsAreExact(actions: seq<Action>, id: nat)
    requires id in Exec(actions).pulls && Exec(actions).pulls[id].pc.Done?
    ensures Answered(Exec(actions).node, Exec(actions).pulls[id])
  {
    RequestIsOk(actions, id);
    DoneIsAnswered(Exec(actions).node, Exec(actions).pulls[id]);
  }

  /** The order of a finished request's receivers in one shard, as the reads of cache and database determine it. */
  ghost predicate ShardDeliveredInOrder(xs: seq<Receiver>, start: nat, to: nat, rd: Look, got: seq<Receiver>) {
    // the cached items of the window, then the rows of the query, which are those that the cache missed
    && EncodeReceivers(got) == Hits(rd.cached) + Values(rd.rows) && start <= to <= |xs|
    && Agrees(rd.cached, start, EncodeReceivers(xs)[..to])
    && multiset(rd.rows) == multiset(MissRows(rd.cached, start, EncodeReceivers(xs)[..to]))
    // so it is the ledger's order if the query ordered its rows and no missed row precedes a cached one
    && (AscendingRows(rd.rows) && !MissBeforeHit(rd.cached, start, to) ==> got == xs[start..to])
  }

  /** Each shard's receivers come in the order of the read of the shard; of a shard that was not read there are none. */
  ghost predicate InReadOrder(l: Ledger, p: Process) {
    && |l.shards| == FOREST_WIDTH
    && forall s: Shard {:trigger GroupOf(p.receivers, s)} ::
         if s in p.seen then
           ShardDeliveredInOrder(l.shards[s], p.cp.receiverIndex[s], p.next[s], p.seen[s], GroupOf(p.receivers, s))
         else GroupOf(p.receivers, s) == []
  }

  /** ... and likewise the senders. */
  ghost predicate SendersInReadOrder(l: Ledger, p: Process) {
    var start, to := p.cp.senderIndex, p.cp.senderIndex + |p.senders|;
    && EncodeSenders(p.senders) == Hits(p.look.cached) + Values(p.look.rows)
    && (Unwrapped(l, p) && AscendingRows(p.look.rows) && !MissBeforeHit(p.look.cached, start, to) ==>
          p.senders == Slice(l.senders, start, |p.senders|))
  }

  lemma ShardOrdered(xs: seq<Receiver>, start: nat, to: nat, seen: map<Shard, Look>, s: Shard, got: seq<Receiver>)
    requires Order.ShardOrder(xs, start, to, seen, s, false, got) && s in seen
    ensures ShardDeliveredInOrder(xs, start, to, seen[s], got)
  {
    if AscendingRows(seen[s].rows) && !MissBeforeHit(seen[s].cached, start, to) {
      Order.ShardInOrder(xs, start, to, seen[s], got);
    }
  }

  lemma ReceiversInReadOrder(l: Ledger, p: Process)
    requires Order.Ordered(l, p) && p.pc.Done?
    ensures InReadOrder(l, p)
  {
    forall s: Shard ensures s !in p.seen ==> GroupOf(p.receivers, s) == []
      ensures s in p.seen ==>
        ShardDeliveredInOrder(l.shards[s], p.cp.receiverIndex[s], p.next[s], p.seen[s], GroupOf(p.receivers, s))
    {
      var start, to, got := p.cp.receiverIndex[s], p.next[s], GroupOf(p.receivers, s);
      assert Order.ShardOrder(l.shards[s], start, to, p.seen, s, false, got);
      if s in p.seen { ShardOrdered(l.shards[s], start, to, p.seen, s, got); }
    }
  }

  lemma SendersOrdered(l: Ledger, p: Process)
    requires Order.SendersOrdered(l, p) && p.pc.Done?
    ensures SendersInReadOrder(l, p)
  {
    var start, to := p.cp.senderIndex, p.cp.senderIndex + |p.senders|;
    if Unwrapped(l, p) && AscendingRows(p.look.rows) && !MissBeforeHit(p.look.cached, start, to) && p.senders != [] {
      Order.SendersInOrder(l.senders, start, to, p.look, p.senders);
    }
  }

  lemma OrderedIsRead(l: Ledger, p: Process)
    requires ProcessOk(l, p) && p.pc.Done?
    ensures InReadOrder(l, p) && SendersInReadOrder(l, p)
  {
    ReceiversInReadOrder(l, p);
    SendersOrdered(l, p);
  }

  /** In every run, every finished request has delivered in the order in which it has read: in the ledger's, shard by
      shard, if the queries ordered their rows and no missed row precedes a cached one. */
  lemma PullsAreOrdered(actions: seq<Action>, id: nat)
    requires id in Exec(actions).pulls && Exec(actions).pulls[id].pc.Done?
    ensures InReadOrder(Exec(actions).node, Exec(actions).pulls[id])
    ensures SendersInReadOrder(Exec(actions).node, Exec(actions).pulls[id])
  {
    RequestIsOk(actions, id);
    OrderedIsRead(Exec(actions).node, Exec(actions).pulls[id]);
  }

  /** A finished request that has seen no other tables than the present ones. */
  lemma SameTablesPlain(actions: seq<Action>, id: nat)
    requires id in Exec(actions).pulls && Exec(actions).pulls[id].pc.Done?
    requires Exec(actions).pulls[id].begun == Exec(actions).replica
    ensures var p := Exec(actions).pulls[id];
      Pulled(Exec(actions).replica, p.cp, p.maxReceivers, p.maxSenders, p.Response(), p.NextCheckpoint())
  {
    EveryRun(actions);
    var st := Exec(actions);
    assert ProcessOk(st.replica, st.pulls[id]);
    Quiet.QuietDone(st.replica, st.pulls[id]);
  }

  // ---- commits during a request ----

  predicate InProgress(p: Process) { !p.pc.Done? && !p.pc.Failed? }

  /** The action commits a batch while the request `id` is in progress. */
  ghost predicate CommitsInto(st: State, a: Action, id: nat) {
    a.CommitTx? && Enabled(st, a) && id in st.pulls && InProgress(st.pulls[id])
  }

  /** The request is there after every action from the i-th on. */
  ghost predicate PresentSince(actions: seq<Action>, i: nat, id: nat) {
    id in Exec(actions).pulls && (i < |actions| ==> PresentSince(actions[..|actions| - 1], i, id))
  }

  ghost predicate CommitAt(actions: seq<Action>, i: nat, id: nat) {
    i < |actions| && CommitsInto(Exec(actions[..i]), actions[i], id) && PresentSince(actions, i, id)
  }

  /** Something was committed while the request was in progress. */
  ghost predicate CommittedDuring(actions: seq<Action>, id: nat) {
    exists i: nat :: CommitAt(actions, i, id)
  }

  lemma {:induction false} CommitAtGrows(actions: seq<Action>, i: nat, id: nat)
    requires actions != [] && CommitAt(actions[..|actions| - 1], i, id) && id in Exec(actions).pulls
    ensures CommitAt(actions, i, id)
  {
    assert actions[..|actions| - 1][..i] == actions[..i];
  }

  /** The request is on the path of the plain pull over the tables it began with, and they are still those tables as
      long as it is in progress. */
  ghost predicate QuietNow(st: State, id: nat)
    requires id in st.pulls
  {
    var p := st.pulls[id];
    && |p.begun.shards| == FOREST_WIDTH && Quiet.Exact(p.begun, p)
    && (InProgress(p) ==> p.begun == st.replica)
  }

  lemma QuietAfter(st: State, a: Action, id: nat)
    requires Inv(st) && Enabled(st, a) && id in After(st, a).pulls
    requires id in st.pulls ==> QuietNow(st, id) && !CommitsInto(st, a, id)
    ensures QuietNow(After(st, a), id)
  {
    if a.StartPull? && a.id == id {
      Quiet.QuietBegin(st.replica, a.from, a.maxReceivers, a.maxSenders);
    } else if a.PullStep? && a.id == id {
      ReplicaFits(st.replica, st.node);
      assert ProcessOk(st.replica, st.pulls[id]);
      Quiet.QuietStep(st.replica, st.cache, st.db, st.pulls[id], a.rows, a.after);
      StepKeepsBegun(st.pulls[id], st.cache, st.db, a.rows);
    } else {
      PullUntouched(st, a, id);
    }
  }

  lemma StepKeepsBegun(p: Process, m: map<Key, Blob>, t: Tables, rows: seq<Row>)
    ensures Step(p, m, t, rows).begun == p.begun
  {
  }

  lemma PullUntouched(st: State, a: Action, id: nat)
    requires |st.replica.shards| == FOREST_WIDTH && Enabled(st, a) && id in After(st, a).pulls
    requires !(a.StartPull? && a.id == id) && !(a.PullStep? && a.id == id)
    ensures id in st.pulls && After(st, a).pulls[id] == st.pulls[id]
    ensures !a.CommitTx? ==> After(st, a).replica == st.replica
  {
  }

  lemma {:induction false} QuietOrCommitted(actions: seq<Action>, id: nat)
    requires id in Exec(actions).pulls
    ensures CommittedDuring(actions, id) || QuietNow(Exec(actions), id)
  {
    if actions != [] {
      var front, a := actions[..|actions| - 1], actions[|actions| - 1];
      var st := Exec(front);
      EveryRun(front);
      if id in st.pulls {
        QuietOrCommitted(front, id);
        if i: nat :| CommitAt(front, i, id) {
          CommitAtGrows(actions, i, id);
          return;
        }
        if CommitsInto(st, a, id) {
          assert CommitAt(actions, |actions| - 1, id);
          return;
        }
      }
      if Enabled(st, a) { QuietAfter(st, a, id); }
    }
  }

  /** In every run, a finished request has answered exactly as the pull server does over the tables it began with,
      greedily, with the exact flag and the exact cursor, unless something was committed while it was in progress. */
  lemma QuietPullsArePlain(actions: seq<Action>, id: nat)
    requires id in Exec(actions).pulls && Exec(actions).pulls[id].pc.Done? && !CommittedDuring(actions, id)
    ensures var p := Exec(actions).pulls[id];
      && |p.begun.shards| == FOREST_WIDTH
      && Pulled(p.begun, p.cp, p.maxReceivers, p.maxSenders, p.Response(), p.NextCheckpoint())
  {
    QuietOrCommitted(actions, id);
    Quiet.QuietDone(Exec(actions).pulls[id].begun, Exec(actions).pulls[id]);
  }

  lemma QuietFlagMeansFull(l: Ledger, p: Process)
    requires |l.shards| == FOREST_WIDTH && Quiet.Exact(l, p) && p.pc.Done? && p.moreSenders
    ensures |p.senders| == p.maxSenders
  {
    assert SendersPulled(l, p.cp.senderIndex, p.maxSenders, p.senders);
  }

  /** In every run, a short sender batch with a set sender flag, after which the server's cursor skips senders, takes a
      commit while the request is in progress. */
  lemma ShortAndMore(actions: seq<Action>, id: nat)
    requires id in Exec(actions).pulls && Exec(actions).pulls[id].pc.Done?
    requires var p := Exec(actions).pulls[id]; p.moreSenders && |p.senders| < p.maxSenders
    ensures CommittedDuring(actions, id)
  {
    QuietOrCommitted(actions, id);
    if QuietNow(Exec(actions), id) {
      QuietFlagMeansFull(Exec(actions).pulls[id].begun, Exec(actions).pulls[id]);
    }
  }
}
