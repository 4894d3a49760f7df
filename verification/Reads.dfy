/** What a request remembers of its reads is what it has read: the cache's answers at one of its steps and the rows of
    the query at a later one (src/indexer/pull.rs:101-146, 162-197). */
module Reads {
  import opened Types
  import opened Keys
  import opened Rows
  import opened Db
  import opened Coherence
  import opened Partition
  import opened Pull
  import opened Serving
  import opened System
  import opened Runs
  import opened History
  import Order

  /** The rows and the keys of a shard, or of the senders. */
  function StoredIn(t: Tables, s: Option<Shard>): seq<Row> {
    if s.Some? then RowsOf(t.shards, s.value) else t.nullifier
  }

  function KeysIn(s: Option<Shard>, start: nat, n: nat): seq<Key> {
    if s.Some? then ReceiverKeys(s.value, start, n) else SenderKeys(start, n)
  }

  ghost predicate OwnAction(actions: seq<Action>, i: nat, id: nat) {
    Taken(actions, i) && actions[i].PullStep? && actions[i].id == id
  }

  /** The i-th action looked the window up in the cache. */
  ghost predicate CacheReadAt(actions: seq<Action>, i: nat, id: nat, s: Option<Shard>, start: nat,
                              cached: seq<Option<Blob>>)
  {
    OwnAction(actions, i, id) && cached == Answers(Exec(actions[..i]).cache, KeysIn(s, start, |cached|))
  }

  /** ... and the j-th queried the rows that it missed. */
  ghost predicate ReadAt(actions: seq<Action>, i: nat, j: nat, id: nat, s: Option<Shard>, start: nat, rd: Look) {
    && i < j && CacheReadAt(actions, i, id, s, start, rd.cached)
    && OwnAction(actions, j, id) && actions[j].rows == rd.rows
    && multiset(rd.rows) == multiset(Matching(StoredIn(Exec(actions[..j]).db, s), Misses(rd.cached, start)))
  }

  ghost predicate CacheWasRead(actions: seq<Action>, id: nat, s: Option<Shard>, start: nat, cached: seq<Option<Blob>>) {
    exists i: nat :: CacheReadAt(actions, i, id, s, start, cached)
  }

  ghost predicate WasRead(actions: seq<Action>, id: nat, s: Option<Shard>, start: nat, rd: Look) {
    exists i: nat, j: nat :: ReadAt(actions, i, j, id, s, start, rd)
  }

  lemma CacheWasReadOn(actions: seq<Action>, id: nat, s: Option<Shard>, start: nat, cached: seq<Option<Blob>>)
    requires actions != [] && CacheWasRead(Front(actions), id, s, start, cached)
    ensures CacheWasRead(actions, id, s, start, cached)
  {
    var i: nat :| CacheReadAt(Front(actions), i, id, s, start, cached);
    Earlier(actions, i);
    assert CacheReadAt(actions, i, id, s, start, cached);
  }

  lemma WasReadOn(actions: seq<Action>, id: nat, s: Option<Shard>, start: nat, rd: Look)
    requires actions != [] && WasRead(Front(actions), id, s, start, rd)
    ensures WasRead(actions, id, s, start, rd)
  {
    var i: nat, j: nat :| ReadAt(Front(actions), i, j, id, s, start, rd);
    Earlier(actions, i);
    Earlier(actions, j);
    assert ReadAt(actions, i, j, id, s, start, rd);
  }

  /** Every shard that is remembered was read. */
  ghost predicate SeenRead(actions: seq<Action>, id: nat, p: Process) {
    forall s: Shard :: s in p.seen ==> WasRead(actions, id, Some(s), p.cp.receiverIndex[s], p.seen[s])
  }

  /** Every read that the request remembers took place. */
  ghost predicate ReadsKnown(actions: seq<Action>, id: nat, p: Process) {
    && SeenRead(actions, id, p)
    && (p.pc.QueryDb? ==> CacheWasRead(actions, id, Some(p.pc.shard), p.cp.receiverIndex[p.pc.shard], p.pc.cached))
    && (p.pc.QuerySenders? ==> CacheWasRead(actions, id, None, p.cp.senderIndex, p.pc.cached))
    && (Order.HasSenders(p.pc) ==> WasRead(actions, id, None, p.cp.senderIndex, p.look))
  }

  lemma ReadsKnownOn(actions: seq<Action>, id: nat, p: Process)
    requires actions != [] && ReadsKnown(Front(actions), id, p)
    ensures ReadsKnown(actions, id, p)
  {
    forall s: Shard | s in p.seen ensures WasRead(actions, id, Some(s), p.cp.receiverIndex[s], p.seen[s]) {
      WasReadOn(actions, id, Some(s), p.cp.receiverIndex[s], p.seen[s]);
    }
    if p.pc.QueryDb? { CacheWasReadOn(actions, id, Some(p.pc.shard), p.cp.receiverIndex[p.pc.shard], p.pc.cached); }
    if p.pc.QuerySenders? { CacheWasReadOn(actions, id, None, p.cp.senderIndex, p.pc.cached); }
    if Order.HasSenders(p.pc) { WasReadOn(actions, id, None, p.cp.senderIndex, p.look); }
  }

  lemma QueriedNow(actions: seq<Action>, id: nat, s: Option<Shard>, start: nat, rd: Look)
    requires actions != [] && CacheWasRead(Front(actions), id, s, start, rd.cached)
    requires OwnAction(actions, |actions| - 1, id) && actions[|actions| - 1].rows == rd.rows
    requires multiset(rd.rows)
          == multiset(Matching(StoredIn(Exec(Front(actions)).db, s), Misses(rd.cached, start)))
    ensures WasRead(actions, id, s, start, rd)
  {
    var i: nat :| CacheReadAt(Front(actions), i, id, s, start, rd.cached);
    Earlier(actions, i);
    assert CacheReadAt(actions, i, id, s, start, rd.cached);
    assert ReadAt(actions, i, |actions| - 1, id, s, start, rd);
  }

  // ---- the steps of a request ----

  lemma FetchKnown(actions: seq<Action>, id: nat, p: Process, s: Shard, cached: seq<Option<Blob>>, rows: seq<Row>,
                   values: seq<Blob>)
    requires ReadsKnown(actions, id, p) && AllReceivers(values)
    requires WasRead(actions, id, Some(s), p.cp.receiverIndex[s], Look(cached, rows))
    ensures ReadsKnown(actions, id, AfterFetch(p, s, cached, rows, values))
  {
    var p' := AfterFetch(p, s, cached, rows, values);
    forall s': Shard | s' in p'.seen ensures WasRead(actions, id, Some(s'), p.cp.receiverIndex[s'], p'.seen[s']) {
      if s' != s { assert WasRead(actions, id, Some(s'), p.cp.receiverIndex[s'], p.seen[s']); }
    }
  }

  lemma FetchSendersKnown(actions: seq<Action>, id: nat, p: Process, cached: seq<Option<Blob>>, rows: seq<Row>,
                          values: seq<Blob>)
    requires ReadsKnown(actions, id, p) && AllSenders(values)
    requires WasRead(actions, id, None, p.cp.senderIndex, Look(cached, rows))
    ensures ReadsKnown(actions, id, AfterSenders(p, cached, rows, values))
  {
    SeenKnown(actions, id, p, AfterSenders(p, cached, rows, values));
  }

  lemma SeenKnown(actions: seq<Action>, id: nat, p: Process, p': Process)
    requires ReadsKnown(actions, id, p) && p'.seen == p.seen && p'.cp == p.cp
    ensures SeenRead(actions, id, p')
  {
  }

  lemma CacheReadNow(actions: seq<Action>, id: nat, s: Option<Shard>, start: nat, n: nat)
    requires actions != [] && OwnAction(actions, |actions| - 1, id)
    ensures CacheWasRead(actions, id, s, start, Answers(Exec(Front(actions)).cache, KeysIn(s, start, n)))
  {
    var cached := Answers(Exec(Front(actions)).cache, KeysIn(s, start, n));
    assert CacheReadAt(actions, |actions| - 1, id, s, start, cached);
  }

  lemma OtherStepReads(actions: seq<Action>, id: nat, p: Process, p': Process)
    requires ReadsKnown(actions, id, p) && p'.cp == p.cp && p'.seen == p.seen && p'.look == p.look
    requires !p'.pc.QueryDb? && !p'.pc.QuerySenders? && (Order.HasSenders(p'.pc) ==> Order.HasSenders(p.pc))
    ensures ReadsKnown(actions, id, p')
  {
  }

  lemma QueryStepReads(actions: seq<Action>, id: nat, p: Process, s: Shard, cached: seq<Option<Blob>>)
    requires actions != [] && OwnAction(actions, |actions| - 1, id) && ReadsKnown(Front(actions), id, p)
    requires var st, a := Exec(Front(actions)), actions[|actions| - 1];
      p.pc == QueryDb(s, cached) && CanStep(p, st.cache, st.db, a.rows, a.after)
    ensures var st, a := Exec(Front(actions)), actions[|actions| - 1];
      ReadsKnown(actions, id, Step(p, st.cache, st.db, a.rows))
  {
    var rows := actions[|actions| - 1].rows;
    var values := Hits(cached) + Values(rows);
    ReadsKnownOn(actions, id, p);
    QueriedNow(actions, id, Some(s), p.cp.receiverIndex[s], Look(cached, rows));
    if AllReceivers(values) {
      FetchKnown(actions, id, p, s, cached, rows, values);
    } else {
      OtherStepReads(actions, id, p, p.(pc := Failed(DecodeError)));
    }
  }

  lemma SenderStepReads(actions: seq<Action>, id: nat, p: Process)
    requires actions != [] && OwnAction(actions, |actions| - 1, id) && ReadsKnown(Front(actions), id, p)
    requires p.pc.QuerySenders?
    requires var st, a := Exec(Front(actions)), actions[|actions| - 1];
      CanStep(p, st.cache, st.db, a.rows, a.after)
    ensures var st, a := Exec(Front(actions)), actions[|actions| - 1];
      ReadsKnown(actions, id, Step(p, st.cache, st.db, a.rows))
  {
    var rows := actions[|actions| - 1].rows;
    var values := Hits(p.pc.cached) + Values(rows);
    ReadsKnownOn(actions, id, p);
    QueriedNow(actions, id, None, p.cp.senderIndex, Look(p.pc.cached, rows));
    if AllSenders(values) { FetchSendersKnown(actions, id, p, p.pc.cached, rows, values); }
  }

  lemma CacheStepReads(actions: seq<Action>, id: nat, p: Process)
    requires actions != [] && OwnAction(actions, |actions| - 1, id) && ReadsKnown(Front(actions), id, p)
    requires p.pc.ReadCache? || p.pc.ReadSenders?
    ensures var st, a := Exec(Front(actions)), actions[|actions| - 1];
      ReadsKnown(actions, id, Step(p, st.cache, st.db, a.rows))
  {
    ReadsKnownOn(actions, id, p);
    if p.pc.ReadCache? {
      CacheReadNow(actions, id, Some(p.pc.shard), p.cp.receiverIndex[p.pc.shard], p.Remain());
    } else {
      CacheReadNow(actions, id, None, p.cp.senderIndex, p.maxSenders);
    }
  }

  /** The other steps read nothing that is remembered. */
  lemma OtherStep(p: Process, m: map<Key, Blob>, t: Tables, rows: seq<Row>)
    requires !p.pc.QueryDb? && !p.pc.QuerySenders? && !p.pc.ReadCache? && !p.pc.ReadSenders?
    ensures var p' := Step(p, m, t, rows);
      p'.cp == p.cp && p'.seen == p.seen && p'.look == p.look && !p'.pc.QueryDb? && !p'.pc.QuerySenders?
  {
  }

  lemma OwnStepReads(actions: seq<Action>, id: nat, p: Process)
    requires actions != [] && OwnAction(actions, |actions| - 1, id) && ReadsKnown(Front(actions), id, p)
    requires var st, a := Exec(Front(actions)), actions[|actions| - 1];
      CanStep(p, st.cache, st.db, a.rows, a.after)
    ensures var st, a := Exec(Front(actions)), actions[|actions| - 1];
      ReadsKnown(actions, id, Step(p, st.cache, st.db, a.rows))
  {
    if p.pc.QueryDb? {
      QueryStepReads(actions, id, p, p.pc.shard, p.pc.cached);
    } else if p.pc.QuerySenders? {
      SenderStepReads(actions, id, p);
    } else if p.pc.ReadCache? || p.pc.ReadSenders? {
      CacheStepReads(actions, id, p);
    } else {
      var st, rows := Exec(Front(actions)), actions[|actions| - 1].rows;
      ReadsKnownOn(actions, id, p);
      OtherStep(p, st.cache, st.db, rows);
      Order.StepHasSenders(p, st.cache, st.db, rows);
      OtherStepReads(actions, id, p, Step(p, st.cache, st.db, rows));
    }
  }

  /** In every run, every read that a request remembers took place: the cached answers are those of the cache at one of
      the request's steps, and the rows are those that a later step got from the tables for what the cache missed. */
  lemma {:induction false} ReadsTookPlace(actions: seq<Action>, id: nat)
    requires id in Exec(actions).pulls
    ensures ReadsKnown(actions, id, Exec(actions).pulls[id])
  {
    LastTaken(actions);
    var front, n := Front(actions), |actions| - 1;
    if id in Exec(front).pulls {
      ReadsTookPlace(front, id);
      if OwnAction(actions, n, id) {
        OwnStepReads(actions, id, Exec(front).pulls[id]);
      } else {
        if Taken(actions, n) { PullUntouched(Exec(front), actions[n], id); }
        ReadsKnownOn(actions, id, Exec(front).pulls[id]);
      }
    } else {
      NewRequest(Exec(front), actions[n], id);
    }
  }

  // ---- order, from the queries alone ----

  ghost predicate QueriesAscend(actions: seq<Action>, id: nat) {
    forall i: nat :: OwnAction(actions, i, id) ==> AscendingRows(actions[i].rows)
  }

  lemma ReadAscends(actions: seq<Action>, id: nat, s: Option<Shard>, start: nat, rd: Look)
    requires QueriesAscend(actions, id) && WasRead(actions, id, s, start, rd)
    ensures AscendingRows(rd.rows)
  {
    var i: nat, j: nat :| ReadAt(actions, i, j, id, s, start, rd);
  }

  /** If no missed row of the shard, or of the senders, precedes a cached one, they come in the ledger's order. */
  ghost predicate ShardInLedgerOrder(l: Ledger, p: Process, s: Shard)
    requires |l.shards| == FOREST_WIDTH && s in p.seen
  {
    var start, to := p.cp.receiverIndex[s], p.next[s];
    !MissBeforeHit(p.seen[s].cached, start, to) ==>
      start <= to <= |l.shards[s]| && GroupOf(p.receivers, s) == l.shards[s][start..to]
  }

  ghost predicate SendersInLedgerOrder(l: Ledger, p: Process) {
    var start, to := p.cp.senderIndex, p.cp.senderIndex + |p.senders|;
    Unwrapped(l, p) && !MissBeforeHit(p.look.cached, start, to) ==> p.senders == Slice(l.senders, start, |p.senders|)
  }

  lemma ShardFollowsQuery(l: Ledger, p: Process, s: Shard)
    requires InReadOrder(l, p) && s in p.seen && AscendingRows(p.seen[s].rows)
    ensures ShardInLedgerOrder(l, p, s)
  {
    assert ShardDeliveredInOrder(l.shards[s], p.cp.receiverIndex[s], p.next[s], p.seen[s], GroupOf(p.receivers, s));
  }

  /** So if every query of the request returned its rows in order of their index, a finished request has delivered each
      shard's receivers, and its senders, in the ledger's order, unless some row was missed below a cached one. */
  lemma OrderedQueries(actions: seq<Action>, id: nat)
    requires id in Exec(actions).pulls && Exec(actions).pulls[id].pc.Done? && QueriesAscend(actions, id)
    ensures var l, p := Exec(actions).node, Exec(actions).pulls[id];
      && |l.shards| == FOREST_WIDTH && SendersInLedgerOrder(l, p)
      && forall s: Shard :: s in p.seen ==> ShardInLedgerOrder(l, p, s)
  {
    var l, p := Exec(actions).node, Exec(actions).pulls[id];
    PullsAreOrdered(actions, id);
    ReadsTookPlace(actions, id);
    ReadAscends(actions, id, None, p.cp.senderIndex, p.look);
    forall s: Shard | s in p.seen ensures ShardInLedgerOrder(l, p, s) {
      assert SeenRead(actions, id, p);
      ReadAscends(actions, id, Some(s), p.cp.receiverIndex[s], p.seen[s]);
      ShardFollowsQuery(l, p, s);
    }
  }
}
