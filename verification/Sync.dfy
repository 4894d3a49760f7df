/** The sync writer (src/indexer/sync.rs). */
module Sync {
  import opened Types
  import opened Keys
  import opened Lru
  import opened Rows
  import opened Db
  import opened Coherence
  import opened Partition
  import opened Pull
  import opened Effects
  import opened Commit
  import opened FullNode
  import opened Refresh

  // ---- the transaction ----

  /** A group's statements. */
  method InsertOneGroup(tx: Connection, s: Shard, base: nat, g: seq<Receiver>)
    modifies tx
    ensures tx.tables == InsertGroup(old(tx.tables), s, base, g)
  {
    for offset := 0 to |g|
      invariant tx.tables == InsertGroup(old(tx.tables), s, base, g[..offset])
    {
      assert g[..offset + 1][..offset] == g[..offset];
      tx.InsertOneShard(s, base + offset, g[offset]);
    }
    assert g[..|g|] == g;
  }

  /** The receivers of a batch, shard by shard as the hash map lists them. */
  method InsertReceivers(tx: Connection, cp: Checkpoint, groups: Groups, ghost rs: seq<Receiver>)
    returns (ghost order: seq<Shard>)
    requires IsPartition(groups, rs)
    modifies tx
    ensures Listing(order, rs) && tx.tables == InsertGroups(old(tx.tables), order, cp.receiverIndex, rs)
  {
    order := [];
    var todo := groups.Keys;
    while todo != {}
      invariant todo <= groups.Keys && Distinct(order)
      invariant forall s: Shard :: s in order <==> s in groups && s !in todo
      invariant tx.tables == InsertGroups(old(tx.tables), order, cp.receiverIndex, rs)
      decreases |todo|
    {
      var s: Shard :| s in todo;
      InsertOneGroup(tx, s, cp.receiverIndex[s], groups[s]);
      assert (order + [s])[..|order|] == order;
      order, todo := order + [s], todo - {s};
    }
  }

  method InsertAllSenders(tx: Connection, base: nat, ss: seq<Sender>)
    modifies tx
    ensures tx.tables == InsertSenders(old(tx.tables), base, ss)
  {
    for k := 0 to |ss|
      invariant tx.tables == InsertSenders(old(tx.tables), base, ss[..k])
    {
      InsertSendersSnoc(old(tx.tables), base, ss, k);
      tx.InsertOneNullifier(base + k, ss[k]);
    }
    assert ss[..|ss|] == ss;
  }

  /** One batch in one transaction, on a working copy of the tables. When it fails, nothing happened; otherwise the
      tables hold the longer ledger. */
  method CommitBatch(indexer: Indexer, cp: Checkpoint, groups: Groups, resp: PullResponse, goesThrough: bool)
    returns (r: Result<nat>, ghost order: seq<Shard>)
    requires indexer.Valid() && cp == CursorOf(indexer.replica) && IsPartition(groups, resp.receivers)
    requires var l := Extended(indexer.replica, resp.receivers, resp.senders); l.Valid() && Fits(l, 0)
    modifies indexer`replica, indexer.pool
    ensures indexer.Valid() && (r.Ok? <==> goesThrough)
    ensures r.Err? ==> indexer.pool.tables == old(indexer.pool.tables) && indexer.replica == old(indexer.replica)
    ensures r.Ok? ==> Listing(order, resp.receivers) && r.value == cp.senderIndex
    ensures r.Ok? ==> indexer.pool.tables == Committed(old(indexer.pool.tables), order, cp, resp)
    ensures r.Ok? ==> indexer.replica == Extended(old(indexer.replica), resp.receivers, resp.senders)
  {
    var tx := new Connection(indexer.pool.tables);
    order := InsertReceivers(tx, cp, groups, resp.receivers);
    var base := tx.GetLenOfNullifier();
    InsertAllSenders(tx, base, resp.senders);
    tx.UpdateOrInsertTotal(resp.total);
    if !goesThrough { return Err(DbError), order; }

    CommitExtends(indexer.pool.tables, indexer.replica, order, cp, resp);
    CommittedRest(indexer.pool.tables, order, cp, resp);
    CountIsCursor(indexer.pool.tables, indexer.replica);
    ghost var l := Extended(indexer.replica, resp.receivers, resp.senders);
    CoherentGrows(Contents(indexer.cache.entries), indexer.replica, l);
    indexer.pool.tables := tx.tables;
    indexer.replica := l;
    r := Ok(base);
  }

  // ---- the cache refresh ----

  /** The groups in `order` have gone into the cache, those in `todo` have not. */
  ghost predicate Refreshing(start: LruCache, groups: Groups, base: Cursors, rs: seq<Receiver>, order: seq<Shard>,
                             todo: set<Shard>, c: LruCache)
  {
    && start.Valid() && todo <= groups.Keys && Distinct(order)
    && (forall s: Shard :: s in order <==> s in groups && s !in todo)
    && c == Run(start, RefreshReceivers(order, base, rs)).0
  }

  lemma RefreshNext(start: LruCache, groups: Groups, base: Cursors, rs: seq<Receiver>, order: seq<Shard>,
                    todo: set<Shard>, c: LruCache, s: Shard, c': LruCache, order': seq<Shard>)
    requires Refreshing(start, groups, base, rs, order, todo, c) && s in todo && order' == order + [s]
    requires c' == Run(c, ReceiverWrites(s, Numbered(base[s], GroupOf(rs, s)))).0
    ensures Refreshing(start, groups, base, rs, order', todo - {s}, c')
  {
    assert order'[..|order'| - 1] == order;
    RunConcat(start, RefreshReceivers(order, base, rs), ReceiverWrites(s, Numbered(base[s], GroupOf(rs, s))));
  }

  /** One group goes into the cache. */
  method RefreshShard(indexer: Indexer, cp: Checkpoint, s: Shard, g: seq<Receiver>, resp: PullResponse)
    requires indexer.Valid() && Serves(indexer.replica, cp, resp) && g == GroupOf(resp.receivers, s)
    modifies indexer`cache
    ensures indexer.Valid()
    ensures indexer.cache == Run(old(indexer.cache), ReceiverWrites(s, Numbered(cp.receiverIndex[s], g))).0
  {
    BatchReceiversTruthful(indexer.replica, cp, resp, s);
    indexer.PutBatchLru(ReceiverWrites(s, Numbered(cp.receiverIndex[s], g)));
  }

  /** All groups, in any order. */
  method RefreshGroups(indexer: Indexer, cp: Checkpoint, groups: Groups, resp: PullResponse)
    returns (ghost order: seq<Shard>)
    requires indexer.Valid() && IsPartition(groups, resp.receivers) && Serves(indexer.replica, cp, resp)
    modifies indexer`cache
    ensures indexer.Valid() && Listing(order, resp.receivers)
    ensures indexer.cache == Run(old(indexer.cache), RefreshReceivers(order, cp.receiverIndex, resp.receivers)).0
  {
    order := [];
    var todo := groups.Keys;
    while todo != {}
      invariant indexer.Valid()
      invariant Refreshing(old(indexer.cache), groups, cp.receiverIndex, resp.receivers, order, todo, indexer.cache)
      decreases |todo|
    {
      var s: Shard :| s in todo;
      ghost var before := indexer.cache;
      RefreshShard(indexer, cp, s, groups[s], resp);
      RefreshNext(old(indexer.cache), groups, cp.receiverIndex, resp.receivers, order, todo, before, s, indexer.cache,
                  order + [s]);
      order, todo := order + [s], todo - {s};
    }
  }

  /** After the commit, the batch goes into the cache. */
  method RefreshCache(indexer: Indexer, cp: Checkpoint, groups: Groups, resp: PullResponse, base: nat)
    returns (ghost order: seq<Shard>)
    requires indexer.Valid() && IsPartition(groups, resp.receivers)
    requires AllPlaced(resp.receivers) && Serves(indexer.replica, cp, resp) && base == cp.senderIndex
    modifies indexer`cache
    ensures indexer.Valid() && Listing(order, resp.receivers)
    ensures indexer.cache == Run(old(indexer.cache), RefreshReceivers(order, cp.receiverIndex, resp.receivers)
                                                     + SenderWrites(NumberedSenders(base, resp.senders))).0
    ensures Gained(old(indexer.cache), |resp.receivers| + |resp.senders|, indexer.cache)
    ensures Room(old(indexer.cache), |resp.receivers| + |resp.senders|) ==>
              BatchCached(Contents(indexer.cache.entries), cp, resp)
  {
    order := RefreshGroups(indexer, cp, groups, resp);
    BatchSendersTruthful(indexer.replica, cp, resp);
    RunConcat(old(indexer.cache), RefreshReceivers(order, cp.receiverIndex, resp.receivers),
              SenderWrites(NumberedSenders(base, resp.senders)));
    indexer.PutBatchLru(SenderWrites(NumberedSenders(base, resp.senders)));
    RefreshCaches(old(indexer.cache), indexer.replica, order, cp, resp, indexer.cache);
  }

  // ---- the loop ----

  method SynchronizeLedger(world: World, now: nat, cp: Checkpoint, maxCount: (nat, nat))
    returns (r: Result<PullResponse>)
    ensures var a := world.answer(now, cp, if maxCount.0 <= 4096 then maxCount.0 else 4096,
                                           if maxCount.1 <= 4096 then maxCount.1 else 4096);
      r == (if a.Some? then Ok(a.value) else Err(NodeError)) && a == Asked(world, now, cp, maxCount)
  {
    match Asked(world, now, cp, maxCount)
    case Some(resp) => r := Ok(resp);
    case None => r := Err(NodeError);
  }

  /** What every moment of a sync run keeps: the indexer is consistent, and its tables hold a prefix of the node's
      ledger that extends what they held before. */
  ghost predicate Following(indexer: Indexer, world: World, now: nat, before: Ledger)
    reads indexer, indexer.pool
  {
    indexer.Valid() && indexer.replica.PrefixOf(world.ledger(now)) && before.PrefixOf(indexer.replica)
  }

  /** Time passes. */
  lemma FollowOn(indexer: Indexer, world: World, now: nat, before: Ledger)
    requires world.AppendOnly() && Following(indexer, world, now, before)
    ensures Following(indexer, world, now + 1, before)
  {
    PrefixTransitive(indexer.replica, world.ledger(now), world.ledger(now + 1));
  }

  /** The cache after a round, as the round leaves it. */
  ghost predicate Refreshed(c: LruCache, c': LruCache, refreshCache: bool, listing: seq<Shard>, cp: Checkpoint,
                            resp: PullResponse)
    requires c.Valid()
  {
    if refreshCache then Listing(listing, resp.receivers) && c' == Run(c, RefreshWrites(listing, cp, resp)).0
    else c' == c
  }

  /** What a refresh that has room for the batch achieves. */
  ghost predicate Stocked(c: LruCache, c': LruCache, refreshCache: bool, cp: Checkpoint, resp: PullResponse) {
    refreshCache ==>
      && Gained(c, |resp.receivers| + |resp.senders|, c')
      && (Room(c, |resp.receivers| + |resp.senders|) ==> BatchCached(Contents(c'.entries), cp, resp))
  }

  method RefreshIfAsked(indexer: Indexer, refreshCache: bool, cp: Checkpoint, groups: Groups, resp: PullResponse,
                        base: nat)
    returns (ghost order: seq<Shard>)
    requires indexer.Valid() && IsPartition(groups, resp.receivers)
    requires AllPlaced(resp.receivers) && Serves(indexer.replica, cp, resp) && base == cp.senderIndex
    modifies indexer`cache
    ensures indexer.Valid() && Refreshed(old(indexer.cache), indexer.cache, refreshCache, order, cp, resp)
    ensures Stocked(old(indexer.cache), indexer.cache, refreshCache, cp, resp)
  {
    order := [];
    if refreshCache { order := RefreshCache(indexer, cp, groups, resp, base); }
  }

  /** One round of the loop: fetch, group, commit, refresh, advance. Returns whether to go on. */
  method SyncRound(indexer: Indexer, world: World, now: nat, maxCount: (nat, nat), refreshCache: bool, current: Cursor,
                   ghost before: Ledger)
    returns (r: Result<bool>, ghost order: seq<Shard>, ghost listing: seq<Shard>)
    requires world.AppendOnly() && world.Honest() && Following(indexer, world, now, before)
    requires current.receiverIndex.Length == FOREST_WIDTH && current.Value() == CursorOf(indexer.replica)
    modifies indexer`cache, indexer`replica, indexer.pool, current, current.receiverIndex
    ensures Following(indexer, world, now, before)
    ensures r.Err? <==> FailsAt(world, now, old(current.Value()), maxCount)
    ensures r.Err? ==> indexer.pool.tables == old(indexer.pool.tables) && indexer.replica == old(indexer.replica)
    ensures r.Err? ==> indexer.cache == old(indexer.cache)
    ensures r.Ok? ==> current.Value() == LatestCheckPoint(indexer.pool.tables) == CursorOf(indexer.replica)
    ensures r.Ok? ==> var resp := Asked(world, now, old(current.Value()), maxCount).value;
      && r.value == resp.shouldContinue
      && indexer.replica == Extended(old(indexer.replica), resp.receivers, resp.senders)
      && Listing(order, resp.receivers)
      && indexer.pool.tables == Committed(old(indexer.pool.tables), order, old(current.Value()), resp)
      && indexer.pool.tables.totals == old(indexer.pool.tables.totals)[true := resp.total]
      && Refreshed(old(indexer.cache), indexer.cache, refreshCache, listing, old(current.Value()), resp)
      && Stocked(old(indexer.cache), indexer.cache, refreshCache, old(current.Value()), resp)
  {
    ghost var l := indexer.replica;
    order, listing := [], [];
    var cp := current.Get();
    FailsUnless(world, now, cp, maxCount);
    var answer := SynchronizeLedger(world, now, cp, maxCount);
    if answer.Err? { return Err(answer.error), [], []; }
    var resp := answer.value;
    var shards := ReconstructShards(resp.receivers);
    if shards.Err? { return Err(shards.error), [], []; }
    var groups := shards.value;

    ExtendedIsPrefix(l, world.ledger(now), resp);
    ghost var l' := Extended(l, resp.receivers, resp.senders);
    PrefixFits(l', world.ledger(now));
    var commit;
    commit, order := CommitBatch(indexer, cp, groups, resp, world.commits(now));
    if commit.Err? { return Err(commit.error), [], []; }
    CommittedRest(old(indexer.pool.tables), order, cp, resp);

    ExtendedServes(l, resp);
    listing := RefreshIfAsked(indexer, refreshCache, cp, groups, resp, commit.value);

    IncreasingCheckpoint(current, |resp.senders|, groups, resp.receivers);
    ExtendedCursor(l, resp.receivers, resp.senders);
    CountIsCursor(indexer.pool.tables, l');
    PrefixTransitive(before, l, l');
    r := Ok(resp.shouldContinue);
  }

  /** What a round that goes through achieves: it gets ahead, and an answer that says stop brings it to the end. */
  lemma RoundProgress(world: World, now: nat, l: Ledger, maxCount: (nat, nat), bound: nat)
    requires world.Honest() && world.Finite(bound) && l.PrefixOf(world.ledger(now))
    requires !FailsAt(world, now, CursorOf(l), maxCount)
    ensures var resp := Asked(world, now, CursorOf(l), maxCount).value;
            var l' := Extended(l, resp.receivers, resp.senders);
            && Items(l) + (if resp.shouldContinue then 1 else 0) <= Items(l') <= bound
            && (!resp.shouldContinue && world.Conclusive() ==> l' == world.ledger(now))
  {
    var resp := Asked(world, now, CursorOf(l), maxCount).value;
    ExtendedItems(l, resp.receivers, resp.senders);
    ExtendedIsPrefix(l, world.ledger(now), resp);
    WithinBound(Extended(l, resp.receivers, resp.senders), world, now, bound);
    if !resp.shouldContinue && world.Conclusive() {
      ExhaustedIsEqual(l, world.ledger(now), resp);
    }
  }

  /** The cache of a run: warm if it is refreshed, otherwise as it was. */
  ghost predicate RunCache(refreshCache: bool, c: LruCache, l: Ledger, c': LruCache, l': Ledger) {
    if refreshCache then Warm(c, l, c', l') else c' == c
  }

  lemma RoundWarms(refreshCache: bool, c: LruCache, l: Ledger, resp: PullResponse, listing: seq<Shard>, c': LruCache,
                   l': Ledger)
    requires c.Valid() && |l.shards| == FOREST_WIDTH && AllPlaced(resp.receivers)
    requires l' == Extended(l, resp.receivers, resp.senders)
    requires Refreshed(c, c', refreshCache, listing, CursorOf(l), resp)
    requires Stocked(c, c', refreshCache, CursorOf(l), resp)
    ensures RunCache(refreshCache, c, l, c', l')
  {
    if refreshCache { BatchWarms(c, l, resp, c', l'); }
  }

  lemma RunCacheJoin(refreshCache: bool, c: LruCache, l: Ledger, c1: LruCache, l1: Ledger, c2: LruCache, l2: Ledger)
    requires RunCache(refreshCache, c, l, c1, l1) && RunCache(refreshCache, c1, l1, c2, l2) && l1.PrefixOf(l2)
    requires Coherent(Contents(c2.entries), l2) && Fits(l2, 0)
    ensures RunCache(refreshCache, c, l, c2, l2)
  {
    if refreshCache { WarmThrough(c, l, c1, l1, c2, l2); }
  }

  /** What one turn of the loop makes of ledger, cache and tables. */
  ghost predicate Turned(world: World, maxCount: (nat, nat), refreshCache: bool, now: nat, l: Ledger, c: LruCache,
                         l': Ledger, c': LruCache, t': Tables, goOn: bool)
  {
    && |l.shards| == FOREST_WIDTH && !FailsAt(world, now, CursorOf(l), maxCount)
    && Coherent(Contents(c'.entries), l') && Fits(l', 0)
    && var resp := Asked(world, now, CursorOf(l), maxCount).value;
       && goOn == resp.shouldContinue && l' == Extended(l, resp.receivers, resp.senders) && l.PrefixOf(l')
       && RunCache(refreshCache, c, l, c', l') && true in t'.totals
       && (!goOn && world.Conclusive() ==> l' == world.ledger(now))
  }

  /** One turn of the loop below: a round, and what it achieves. */
  method SyncTurn(indexer: Indexer, world: World, now: nat, maxCount: (nat, nat), refreshCache: bool, current: Cursor,
                  ghost before: Ledger, ghost bound: nat)
    returns (r: Result<bool>)
    requires world.AppendOnly() && world.Honest() && world.Finite(bound)
    requires now > 0 && Following(indexer, world, now - 1, before)
    requires current.receiverIndex.Length == FOREST_WIDTH && current.Value() == CursorOf(indexer.replica)
    modifies indexer`cache, indexer`replica, indexer.pool, current, current.receiverIndex
    ensures Following(indexer, world, now, before)
    ensures r.Err? <==> FailsAt(world, now, CursorOf(old(indexer.replica)), maxCount)
    ensures r.Err? ==> indexer.pool.tables == old(indexer.pool.tables)
    ensures r.Err? ==> indexer.replica == old(indexer.replica) && indexer.cache == old(indexer.cache)
    ensures r.Ok? ==> Turned(world, maxCount, refreshCache, now, old(indexer.replica), old(indexer.cache),
                             indexer.replica, indexer.cache, indexer.pool.tables, r.value)
    ensures r.Ok? ==> current.Value() == LatestCheckPoint(indexer.pool.tables) == CursorOf(indexer.replica)
    ensures r.Ok? ==> Items(old(indexer.replica)) + (if r.value then 1 else 0) <= Items(indexer.replica) <= bound
  {
    ghost var l, c := indexer.replica, indexer.cache;
    FollowOn(indexer, world, now - 1, before);
    FailsUnless(world, now, CursorOf(l), maxCount);
    ghost var order, listing;
    r, order, listing := SyncRound(indexer, world, now, maxCount, refreshCache, current, before);
    if r.Ok? {
      ghost var resp := Asked(world, now, CursorOf(l), maxCount).value;
      RoundProgress(world, now, l, maxCount, bound);
      ExtendedIsPrefix(l, world.ledger(now), resp);
      RoundWarms(refreshCache, c, l, resp, listing, indexer.cache, indexer.replica);
    }
  }

  /** A run that started with ledger l, cache c and tables t, so far. */
  ghost predicate Underway(world: World, maxCount: (nat, nat), refreshCache: bool, now: nat, l: Ledger, c: LruCache,
                           t: Tables, later: nat, l': Ledger, c': LruCache, t': Tables, goOn: bool)
  {
    && Course(world, maxCount, l, now, l', later, goOn) && RunCache(refreshCache, c, l, c', l')
    && (true in t.totals || !goOn ==> true in t'.totals)
    && (!goOn && world.Conclusive() ==> l' == world.ledger(later))
  }

  lemma UnderwayOn(world: World, maxCount: (nat, nat), refreshCache: bool, now: nat, l: Ledger, c: LruCache, t: Tables,
                   later: nat, l1: Ledger, c1: LruCache, t1: Tables, l2: Ledger, c2: LruCache, t2: Tables, goOn: bool)
    requires Underway(world, maxCount, refreshCache, now, l, c, t, later, l1, c1, t1, true)
    requires Turned(world, maxCount, refreshCache, later + 1, l1, c1, l2, c2, t2, goOn)
    ensures Underway(world, maxCount, refreshCache, now, l, c, t, later + 1, l2, c2, t2, goOn)
  {
    FailsUnless(world, later + 1, CursorOf(l1), maxCount);
    CourseOn(world, maxCount, l, now, l1, later, Asked(world, later + 1, CursorOf(l1), maxCount).value);
    RunCacheJoin(refreshCache, c, l, c1, l1, c2, l2);
  }

  lemma UnderwayStart(world: World, maxCount: (nat, nat), refreshCache: bool, now: nat, l: Ledger, c: LruCache,
                      t: Tables)
    requires |l.shards| == FOREST_WIDTH
    ensures Underway(world, maxCount, refreshCache, now, l, c, t, now, l, c, t, true)
  {
    WarmStart(c, l);
  }

  /** A run that started with ledger l, cache c and tables t, and its end. */
  ghost predicate Ended(world: World, maxCount: (nat, nat), refreshCache: bool, now: nat, l: Ledger, c: LruCache,
                        t: Tables, later: nat, l': Ledger, c': LruCache, t': Tables, ok: bool)
  {
    && RunOf(world, maxCount, l, now, RunEnd(later, l', ok)) && RunCache(refreshCache, c, l, c', l')
    && (true in t.totals || ok ==> true in t'.totals)
    && (ok && world.Conclusive() ==> l' == world.ledger(later))
  }

  lemma UnderwayEnds(world: World, maxCount: (nat, nat), refreshCache: bool, now: nat, l: Ledger, c: LruCache,
                     t: Tables, later: nat, l': Ledger, c': LruCache, t': Tables)
    requires Underway(world, maxCount, refreshCache, now, l, c, t, later, l', c', t', false)
    ensures Ended(world, maxCount, refreshCache, now, l, c, t, later, l', c', t', true)
  {
  }

  lemma UnderwayFails(world: World, maxCount: (nat, nat), refreshCache: bool, now: nat, l: Ledger, c: LruCache,
                      t: Tables, later: nat, l': Ledger, c': LruCache, t': Tables)
    requires Underway(world, maxCount, refreshCache, now, l, c, t, later, l', c', t', true)
    requires |l'.shards| == FOREST_WIDTH && FailsAt(world, later + 1, CursorOf(l'), maxCount)
    ensures Ended(world, maxCount, refreshCache, now, l, c, t, later + 1, l', c', t', false)
  {
  }

  lemma TurnSeen(world: World, maxCount: (nat, nat), refreshCache: bool, now: nat, l: Ledger, c: LruCache, t: Tables,
                 later: nat, l1: Ledger, c1: LruCache, t1: Tables, l2: Ledger, c2: LruCache, t2: Tables,
                 r: Result<bool>)
    requires Underway(world, maxCount, refreshCache, now, l, c, t, later, l1, c1, t1, true)
    requires r.Ok? ==> Turned(world, maxCount, refreshCache, later + 1, l1, c1, l2, c2, t2, r.value)
    requires r.Err? ==> |l1.shards| == FOREST_WIDTH && FailsAt(world, later + 1, CursorOf(l1), maxCount)
    requires r.Err? ==> l2 == l1 && c2 == c1 && t2 == t1
    ensures r.Ok? ==> Underway(world, maxCount, refreshCache, now, l, c, t, later + 1, l2, c2, t2, r.value)
    ensures r.Err? ==> Ended(world, maxCount, refreshCache, now, l, c, t, later + 1, l2, c2, t2, false)
  {
    if r.Ok? {
      UnderwayOn(world, maxCount, refreshCache, now, l, c, t, later, l1, c1, t1, l2, c2, t2, r.value);
    } else {
      UnderwayFails(world, maxCount, refreshCache, now, l, c, t, later, l1, c1, t1);
    }
  }

  /** A turn, seen from the start of the run. */
  method RunTurn(indexer: Indexer, world: World, now: nat, maxCount: (nat, nat), refreshCache: bool, current: Cursor,
                 ghost from: nat, ghost l0: Ledger, ghost c0: LruCache, ghost t0: Tables, ghost bound: nat)
    returns (r: Result<bool>)
    requires world.AppendOnly() && world.Honest() && world.Finite(bound)
    requires now > 0 && Following(indexer, world, now - 1, l0)
    requires current.receiverIndex.Length == FOREST_WIDTH && current.Value() == CursorOf(indexer.replica)
    requires Underway(world, maxCount, refreshCache, from, l0, c0, t0,
                      now - 1, indexer.replica, indexer.cache, indexer.pool.tables, true)
    modifies indexer`cache, indexer`replica, indexer.pool, current, current.receiverIndex
    ensures Following(indexer, world, now, l0)
    ensures r.Ok? ==> Underway(world, maxCount, refreshCache, from, l0, c0, t0,
                               now, indexer.replica, indexer.cache, indexer.pool.tables, r.value)
    ensures r.Err? ==> Ended(world, maxCount, refreshCache, from, l0, c0, t0,
                             now, indexer.replica, indexer.cache, indexer.pool.tables, false)
    ensures r.Ok? ==> current.Value() == CursorOf(indexer.replica)
    ensures r.Ok? ==> Items(old(indexer.replica)) + (if r.value then 1 else 0) <= Items(indexer.replica) <= bound
  {
    ghost var l, c, t := indexer.replica, indexer.cache, indexer.pool.tables;
    r := SyncTurn(indexer, world, now, maxCount, refreshCache, current, l0, bound);
    TurnSeen(world, maxCount, refreshCache, from, l0, c0, t0, now - 1, l, c, t,
             indexer.replica, indexer.cache, indexer.pool.tables, r);
  }

  /** A run starts from the cursor of the tables. */
  method StartCursor(indexer: Indexer) returns (current: Cursor)
    requires indexer.Valid()
    ensures fresh(current) && fresh(current.receiverIndex) && current.receiverIndex.Length == FOREST_WIDTH
    ensures current.Value() == LatestCheckPoint(indexer.pool.tables) == CursorOf(indexer.replica)
  {
    var start := indexer.pool.GetLatestCheckPoint();
    CountIsCursor(indexer.pool.tables, indexer.replica);
    current := new Cursor(start);
  }

  /** `sync_shards_from_full_node`: from the cursor of the tables to the end of the node's ledger. An error leaves
      what was committed so far, which is again a prefix of the node's ledger. The run is the one that the answers
      determine: it goes on while they say so and nothing fails, and ends with an error exactly when something does. */
  method SyncShardsFromFullNode(indexer: Indexer, world: World, now: nat, maxCount: (nat, nat), refreshCache: bool,
                                ghost bound: nat)
    returns (r: Result<bool>, later: nat)
    requires world.AppendOnly() && world.Honest() && world.Finite(bound)
    requires Following(indexer, world, now, indexer.replica)
    modifies indexer, indexer.pool
    ensures Following(indexer, world, later, old(indexer.replica))
    ensures Ended(world, maxCount, refreshCache,
                  now, old(indexer.replica), old(indexer.cache), old(indexer.pool.tables),
                  later, indexer.replica, indexer.cache, indexer.pool.tables, r.Ok?)
    ensures indexer.initSyncingFinished == (old(indexer.initSyncingFinished) || r.Ok?)
  {
    ghost var l0, c0, t0 := indexer.replica, indexer.cache, indexer.pool.tables;
    later := now;
    WithinBound(indexer.replica, world, now, bound);
    UnderwayStart(world, maxCount, refreshCache, now, l0, c0, t0);
    var current := StartCursor(indexer);
    var more := true;
    while more
      invariant fresh(current) && fresh(current.receiverIndex) && current.receiverIndex.Length == FOREST_WIDTH
      invariant Following(indexer, world, later, l0) && current.Value() == CursorOf(indexer.replica)
      invariant indexer.initSyncingFinished == old(indexer.initSyncingFinished) && Items(indexer.replica) <= bound
      invariant Underway(world, maxCount, refreshCache, now, l0, c0, t0,
                         later, indexer.replica, indexer.cache, indexer.pool.tables, more)
      decreases bound - Items(indexer.replica), more
    {
      later := later + 1;
      var round := RunTurn(indexer, world, later, maxCount, refreshCache, current, now, l0, c0, t0, bound);
      if round.Err? { return Err(round.error), later; }
      more := round.value;
    }
    UnderwayEnds(world, maxCount, refreshCache, now, l0, c0, t0,
                 later, indexer.replica, indexer.cache, indexer.pool.tables);
    indexer.initSyncingFinished := true;
    r := Ok(true);
  }

  /** Something failed at some moment of the job, with some part of the ledger replicated. */
  ghost predicate SomethingFailed(world: World, maxCount: (nat, nat), now: nat, later: nat) {
    exists i: nat, l: Ledger :: FailedOn(world, maxCount, now, later, i, l)
  }

  ghost predicate FailedOn(world: World, maxCount: (nat, nat), now: nat, later: nat, i: nat, l: Ledger) {
    now < i <= later && l.PrefixOf(world.ledger(i)) && FailsAt(world, i, CursorOf(l), maxCount)
  }

  lemma StillFailed(world: World, maxCount: (nat, nat), now: nat, later: nat, later': nat)
    requires SomethingFailed(world, maxCount, now, later) && later <= later'
    ensures SomethingFailed(world, maxCount, now, later')
  {
    var i: nat, l :| FailedOn(world, maxCount, now, later, i, l);
    assert FailedOn(world, maxCount, now, later', i, l);
  }

  /** A job that started with ledger l and cache c, so far. */
  ghost predicate JobSoFar(world: World, maxCount: (nat, nat), now: nat, l: Ledger, c: LruCache, later: nat, l': Ledger,
                           c': LruCache, ends: seq<RunEnd>)
  {
    && JobOf(world, maxCount, l, now, ends) && l' == HeldAfter(l, ends) && later == TimeAfter(now, ends)
    && now + |ends| <= later && Warm(c, l, c', l')
    && (Failures(ends) > 0 ==> SomethingFailed(world, maxCount, now, later))
    && (Reliable(world, maxCount) && world.Conclusive() && ends != [] ==> l' == world.ledger(later))
  }

  lemma JobRound(world: World, maxCount: (nat, nat), now: nat, l: Ledger, c: LruCache, later: nat, l1: Ledger,
                 c1: LruCache, t1: Tables, ends: seq<RunEnd>, later': nat, l2: Ledger, c2: LruCache, t2: Tables,
                 ok: bool)
    requires JobSoFar(world, maxCount, now, l, c, later, l1, c1, ends)
    requires Ended(world, maxCount, true, later, l1, c1, t1, later', l2, c2, t2, ok)
    requires l1.PrefixOf(l2) && l2.PrefixOf(world.ledger(later')) && Coherent(Contents(c2.entries), l2) && Fits(l2, 0)
    ensures JobSoFar(world, maxCount, now, l, c, later', l2, c2, ends + [RunEnd(later', l2, ok)])
    ensures Failures(ends + [RunEnd(later', l2, ok)]) == Failures(ends) + if ok then 0 else 1
  {
    JobOn(world, maxCount, l, now, ends, RunEnd(later', l2, ok));
    WarmThrough(c, l, c1, l1, c2, l2);
    if !ok {
      assert FailedOn(world, maxCount, now, later', later', l2);
    } else if Failures(ends) > 0 {
      StillFailed(world, maxCount, now, later, later');
    }
  }

  lemma ReliableJob(world: World, maxCount: (nat, nat), now: nat, later: nat)
    requires SomethingFailed(world, maxCount, now, later)
    ensures !Reliable(world, maxCount)
  {
    var i: nat, l :| FailedOn(world, maxCount, now, later, i, l);
  }

  /** `start_sync_ledger_job`: run after run until shutdown is seen after the last of `rounds`; an error only means
      that the next run starts again from the cursor of the tables. `ends` says how each run ended. */
  method StartSyncLedgerJob(indexer: Indexer, world: World, now: nat, maxCount: (nat, nat), rounds: nat,
                            ghost bound: nat)
    returns (later: nat, syncedTimes: nat, errors: nat, ghost ends: seq<RunEnd>)
    requires world.AppendOnly() && world.Honest() && world.Finite(bound)
    requires Following(indexer, world, now, indexer.replica)
    requires indexer.initSyncingFinished ==> true in indexer.pool.tables.totals
    modifies indexer, indexer.pool
    ensures Following(indexer, world, later, old(indexer.replica)) && now + rounds <= later
    ensures JobOf(world, maxCount, old(indexer.replica), now, ends) && |ends| == rounds
    ensures indexer.replica == HeldAfter(old(indexer.replica), ends) && later == TimeAfter(now, ends)
    ensures errors == Failures(ends) && syncedTimes + errors == rounds
    ensures errors > 0 ==> SomethingFailed(world, maxCount, now, later)
    ensures Reliable(world, maxCount) ==> errors == 0
    ensures Reliable(world, maxCount) && world.Conclusive() && rounds > 0 ==> indexer.replica == world.ledger(later)
    ensures indexer.initSyncingFinished <==> old(indexer.initSyncingFinished) || syncedTimes > 0
    ensures indexer.initSyncingFinished ==> true in indexer.pool.tables.totals
    ensures Warm(old(indexer.cache), old(indexer.replica), indexer.cache, indexer.replica)
  {
    ghost var l0, c0 := indexer.replica, indexer.cache;
    later, syncedTimes, errors, ends := now, 0, 0, [];
    WarmStart(c0, l0);
    while syncedTimes + errors < rounds
      invariant Following(indexer, world, later, l0) && syncedTimes + errors == |ends| <= rounds
      invariant errors == Failures(ends)
      invariant JobSoFar(world, maxCount, now, l0, c0, later, indexer.replica, indexer.cache, ends)
      invariant indexer.initSyncingFinished <==> old(indexer.initSyncingFinished) || syncedTimes > 0
      invariant indexer.initSyncingFinished ==> true in indexer.pool.tables.totals
    {
      ghost var l, c, t, from := indexer.replica, indexer.cache, indexer.pool.tables, later;
      PrefixTransitive(l, l, l);
      var r;
      r, later := SyncShardsFromFullNode(indexer, world, later, maxCount, true, bound);
      PrefixTransitive(l0, l, indexer.replica);
      JobRound(world, maxCount, now, l0, c0, from, l, c, t, ends,
               later, indexer.replica, indexer.cache, indexer.pool.tables, r.Ok?);
      ends := ends + [RunEnd(later, indexer.replica, r.Ok?)];
      if r.Ok? { syncedTimes := syncedTimes + 1; } else { errors := errors + 1; }
    }
    if errors > 0 { ReliableJob(world, maxCount, now, later); }
  }
}
