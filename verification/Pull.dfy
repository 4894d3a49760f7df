/** The pull server over fixed tables (src/indexer/pull.rs, src/indexer/mod.rs). */
module Pull {
  import opened Types
  import opened Keys
  import opened Lru
  import opened Rows
  import opened Db
  import opened Coherence
  import opened Partition
  import opened Greedy
  import opened Effects

  const MAX_SENDERS: nat := 4096
  const MAX_RECEIVERS: nat := 4096

  /** Every shard's indices, with `room` to spare, fit the value field of a cache key. */
  ghost predicate Fits(l: Ledger, room: nat) {
    && |l.shards| == FOREST_WIDTH && |l.senders| <= TWO_48
    && forall s: Shard :: |l.shards[s]| + room <= TWO_48
  }

  function TreeOf(r: Receiver): nat { if r.utxo.tree.Some? then r.utxo.tree.value else 0 }

  /** Lower shards come first. */
  ghost predicate Ascending(rs: seq<Receiver>) {
    forall i, j :: 0 <= i < j < |rs| ==> TreeOf(rs[i]) <= TreeOf(rs[j])
  }

  class Indexer {
    const pool: Connection
    var cache: LruCache
    var initSyncingFinished: bool
    /** The ledger that the committed tables hold. */
    ghost var replica: Ledger

    constructor (cap: nat)
      requires cap > 0
      ensures fresh(pool) && Valid() && pool.tables == EmptyTables() && !initSyncingFinished
      ensures cache.entries == [] && replica == Ledger(seq(FOREST_WIDTH, i => []), [])
    {
      pool := new Connection(EmptyTables());
      cache := LruCache(cap, []);
      initSyncingFinished := false;
      replica := Ledger(seq(FOREST_WIDTH, i => []), []);
    }

    ghost predicate Valid()
      reads this, pool
    {
      && cache.Valid() && NoRepeat(cache.entries)
      && replica.Valid()
      && Fits(replica, 0)
      && Holds(pool.tables, replica)
      && Coherent(Contents(cache.entries), replica)
    }

    /** `get_batch_lru`: one lock, every key in turn. */
    method GetBatchLru(keys: seq<Key>) returns (result: seq<Option<Blob>>)
      requires Valid()
      modifies this`cache
      ensures Valid() && Contents(cache.entries) == old(Contents(cache.entries)) && cache.cap == old(cache.cap)
      ensures result == Answers(old(Contents(cache.entries)), keys)
    {
      result := [];
      for i := 0 to |keys|
        invariant cache.Valid() && NoRepeat(cache.entries) && cache.cap == old(cache.cap)
        invariant Contents(cache.entries) == old(Contents(cache.entries))
        invariant result == Answers(old(Contents(cache.entries)), keys[..i])
      {
        ReadKeepsContents(cache, keys[i]);
        AccessNoRepeat(cache, Read(keys[i]));
        var (c, v) := Apply(cache, Read(keys[i]));
        cache, result := c, result + [v];
      }
      assert keys[..|keys|] == keys;
    }

    /** `put_batch_lru`. */
    method PutBatchLru(batch: seq<Access>)
      requires Valid() && forall a :: a in batch ==> a.Write? && Truthful(a.key, a.value, replica)
      modifies this`cache
      ensures Valid() && cache == Run(old(cache), batch).0
      ensures PutEvict(old(Contents(cache.entries)), batch, Contents(cache.entries))
      ensures Gained(old(cache), |batch|, cache)
      ensures Room(old(cache), |batch|) ==> forall a :: a in batch ==> a.key in Contents(cache.entries)
    {
      for i := 0 to |batch|
        invariant cache.Valid() && cache == Run(old(cache), batch[..i]).0
      {
        assert batch[..i + 1][..i] == batch[..i];
        cache := Apply(cache, batch[i]).0;
      }
      assert batch[..|batch|] == batch;
      WritesRefine(old(cache), batch);
      PutGains(old(cache), batch, cache);
      PutEvictCoherent(old(Contents(cache.entries)), batch, Contents(cache.entries), replica);
    }

    /** `pull_receivers_for_shard`: cache, then database, then write back. Returns whether the shard has more, and
        what is appended to the caller's vector: the cached items, then the rows in the order of the query. With room,
        everything stored in the window is in the cache afterwards. */
    method PullReceiversForShard(s: Shard, start: nat, amount: nat)
      returns (r: Result<(bool, seq<Receiver>)>, ghost rows: seq<Row>)
      requires Valid()
      modifies this`cache
      ensures Valid() && r.Ok?
      ensures r.value.0 <==> start + amount < |replica.shards[s]|
      ensures ShardPulled(replica.shards[s], start, amount, r.value.1) && InShard(r.value.1, s)
      ensures ShardLook(pool.tables, s, start, r.value.1,
                        Look(Answers(old(Contents(cache.entries)), ReceiverKeys(s, start, amount)), rows))
      ensures Gained(old(cache), |r.value.1|, cache)
      ensures OnlyShard(old(Contents(cache.entries)), Contents(cache.entries), s)
      ensures Room(old(cache), |r.value.1|) ==> WindowCached(Contents(cache.entries), replica, s, start, amount)
    {
      // step 1: the cache
      var cached := GetBatchLru(ReceiverKeys(s, start, amount));
      ReceiverAnswersDecode(old(Contents(cache.entries)), replica, s, start, amount);
      var split := SplitReceivers(cached, start);
      if split.Err? { return Err(DecodeError), []; }
      var (hits, query) := split.value;

      var fetched, stored := FetchReceivers(s, query);
      if fetched.Err? { return Err(DecodeError), []; }

      var end := pool.HasShard(s, start + amount);
      var got := hits + fetched.value;
      r, rows := Ok((|fetched.value| + |hits| == amount && end, got)), stored;

      EncodedReceivers(hits, fetched.value, [], 0, 0);
      ReceiverBatch(old(Contents(cache.entries)), replica, s, start, amount, pool.tables, stored, got);
      FlagMeaning(pool.tables, replica, s, start, amount, |got|);
      ReadGained(old(cache), cache, replica, pool.tables, s, start, amount, stored, got);
    }

    /** Steps 2 and 3 of `pull_receivers_for_shard`: the database, then write back. With room, every row read back is in
        the cache afterwards. */
    method FetchReceivers(s: Shard, query: seq<nat>) returns (r: Result<seq<Receiver>>, ghost rows: seq<Row>)
      requires Valid()
      modifies this`cache
      ensures Valid() && r.Ok? && EncodeReceivers(r.value) == Values(rows)
      ensures multiset(rows) == multiset(Matching(RowsOf(pool.tables.shards, s), query))
      ensures Gained(old(cache), |rows|, cache) && OnlyShard(old(Contents(cache.entries)), Contents(cache.entries), s)
      ensures Room(old(cache), |rows|) ==>
                forall x :: x in rows ==> Lookup(Contents(cache.entries), ReceiverFields(s, x.idx)) == Some(x.content)
    {
      var stored := pool.GetBatchedShardsByIdxs(s, query);
      ReceiverRowFacts(s, stored, query, pool.tables, replica);
      var decoded := DecodeRows(s, stored);
      if decoded.Err? { return Err(DecodeError), stored; }
      PutBatchLru(decoded.value.1);
      PutOnlyShard(old(Contents(cache.entries)), s, stored, Contents(cache.entries));
      ReceiverRowsCached(Contents(cache.entries), replica, pool.tables, s, stored, query);
      return Ok(decoded.value.0), stored;
    }

    /** The loop body of `pull_receivers`: the existence gate, the shard's own pull, the new cursor. `start` and `seen`
        remember the cache before the pull and what each shard's read saw. */
    method VisitShard(s: Shard, c: Cursors, limit: nat, b: Batch, ghost fine: bool, ghost start: LruCache,
                      ghost seen: map<Shard, Look>)
      returns (r: Result<Batch>, ghost seen': map<Shard, Look>)
      requires Valid() && LoopState(start, pool.tables, replica, c, limit, s, b, fine, seen, cache) && !b.filled
      modifies this`cache
      ensures Valid() && r.Ok?
      ensures LoopState(start, pool.tables, replica, c, limit, s + 1, r.value, fine, seen', cache)
    {
      var present := pool.HasShard(s, c[s]);
      PullGate(pool.tables, replica, s, c[s], present);
      if !present {
        LoopPass(start, pool.tables, replica, c, limit, s, b, fine, seen, cache);
        return Ok(b), seen;
      }
      r, seen' := TakeShard(s, c, limit, b, fine, start, seen);
    }

    method TakeShard(s: Shard, c: Cursors, limit: nat, b: Batch, ghost fine: bool, ghost start: LruCache,
                     ghost seen: map<Shard, Look>)
      returns (r: Result<Batch>, ghost seen': map<Shard, Look>)
      requires Valid() && LoopState(start, pool.tables, replica, c, limit, s, b, fine, seen, cache) && !b.filled
      requires c[s] < |replica.shards[s]|
      modifies this`cache
      ensures Valid() && r.Ok?
      ensures LoopState(start, pool.tables, replica, c, limit, s + 1, r.value, fine, seen', cache)
    {
      var shard, look := ReadShard(s, c[s], limit - |b.receivers|);
      if shard.Err? { return Err(DecodeError), seen; }
      r, seen' := Ok(Joined(b, s, c[s], limit, shard.value)), seen[s := look];
      TakeAll(start, pool.tables, replica, c, limit, s, b, fine, seen, old(cache), shard.value, look, cache);
    }

    /** The shard's own pull, with everything it does in one place. */
    method ReadShard(s: Shard, start: nat, n: nat) returns (r: Result<(bool, seq<Receiver>)>, ghost look: Look)
      requires Valid()
      modifies this`cache
      ensures Valid() && r.Ok?
      ensures ShardEffect(pool.tables, replica, s, start, n, old(cache), r.value, look, cache)
    {
      ghost var rows;
      r, rows := PullReceiversForShard(s, start, n);
      look := Look(Answers(old(Contents(cache.entries)), ReceiverKeys(s, start, n)), rows);
    }

    /** `pull_receivers`: shards in ascending order share one budget. Within a shard the items come in the order of that
        shard's read: cached items first, then the rows of its query. */
    method PullReceivers(c: Cursors, limit: nat)
      returns (r: Result<(bool, Cursors, seq<Receiver>)>, ghost seen: map<Shard, Look>)
      requires Valid()
      modifies this`cache
      ensures Valid() && r.Ok?
      ensures |r.value.2| <= limit && Ascending(r.value.2) && AllPlaced(r.value.2)
      ensures NoShardWraps(replica, c, limit) ==> GreedyBatch(replica, c, limit, r.value.0, r.value.1, r.value.2)
      ensures ReadsTell(old(cache), pool.tables, replica, c, limit, FOREST_WIDTH, r.value.2, seen)
      ensures Gained(old(cache), |r.value.2|, cache)
      ensures Unread(old(Contents(cache.entries)), Contents(cache.entries), FOREST_WIDTH)
      ensures Room(old(cache), |r.value.2|) ==> DeliveredCached(Contents(cache.entries), replica, c, r.value.1)
    {
      ghost var fine := NoShardWraps(replica, c, limit);
      ghost var start := cache;
      var b := Batch(false, c, [], false);
      var s := 0;
      seen := map[];
      LoopBegin(cache, pool.tables, replica, c, limit, fine);
      while s < FOREST_WIDTH && !b.filled
        invariant s <= FOREST_WIDTH && Valid()
        invariant LoopState(start, pool.tables, replica, c, limit, s, b, fine, seen, cache)
      {
        var visited;
        visited, seen := VisitShard(s, c, limit, b, fine, start, seen);
        if visited.Err? { return Err(DecodeError), seen; }
        b, s := visited.value, s + 1;
      }
      if fine { PullDone(replica, c, limit, s, b); }
      TrackDone(start, pool.tables, replica, c, limit, s, b, seen, cache);
      r := Ok((b.more, b.next, b.receivers));
    }

    /** `pull_senders`: the new cursor is always `start + amount`, whether or not the batch was full. What it delivers
        is what cache and table together show, index by index. With room, everything stored in the window is in the
        cache afterwards. */
    method PullSenders(start: nat, amount: nat) returns (r: Result<(bool, nat, seq<Sender>)>, ghost rows: seq<Row>)
      requires Valid()
      modifies this`cache
      ensures Valid() && r.Ok?
      ensures r.value.0 <==> start + amount < |replica.senders|
      ensures r.value.1 == start + amount
      ensures multiset(EncodeSenders(r.value.2)) == multiset(Seen(old(Contents(cache.entries)), replica, start, amount))
      ensures SendersPulled(replica, start, amount, r.value.2)
      ensures SendersLook(pool.tables, start, r.value.2,
                          Look(Answers(old(Contents(cache.entries)), SenderKeys(start, amount)), rows))
      ensures Gained(old(cache), |r.value.2|, cache)
      ensures Room(old(cache), |r.value.2|) ==> SendersCached(Contents(cache.entries), replica, start, amount)
    {
      // step 1: the cache
      var cached := GetBatchLru(SenderKeys(start, amount));
      SenderAnswersDecode(old(Contents(cache.entries)), replica, start, amount);
      var split := SplitSenders(cached, start);
      if split.Err? { return Err(DecodeError), []; }
      var (hits, query) := split.value;

      var fetched, stored := FetchSenders(query);
      if fetched.Err? { return Err(DecodeError), []; }

      var more := pool.HasNullifier(start + amount);
      var got := hits + fetched.value;
      r, rows := Ok((more, start + amount, got)), stored;

      EncodedSenders(hits, fetched.value, [], 0, 0);
      SenderGate(pool.tables, replica, start + amount, more);
      SenderBatch(old(Contents(cache.entries)), replica, start, amount, pool.tables.nullifier, stored, got);
      SendersGained(old(cache), cache, replica, pool.tables, start, amount, stored, got);
    }

    /** Steps 2 and 3 of `pull_senders`: the database, then write back. With room, every row read back is in the cache
        afterwards. */
    method FetchSenders(query: seq<nat>) returns (r: Result<seq<Sender>>, ghost rows: seq<Row>)
      requires Valid()
      modifies this`cache
      ensures Valid() && r.Ok?
      ensures multiset(rows) == multiset(Matching(pool.tables.nullifier, query))
      ensures EncodeSenders(r.value) == Values(rows)
      ensures Gained(old(cache), |rows|, cache)
      ensures Room(old(cache), |rows|) ==>
                forall x :: x in rows ==> Lookup(Contents(cache.entries), SenderFields(x.idx)) == Some(x.content)
    {
      var stored := pool.GetBatchedNullifierByIdxs(query);
      SenderRowFacts(stored, query, pool.tables, replica);
      var decoded := DecodeSenderRows(stored);
      if decoded.Err? { return Err(DecodeError), stored; }
      PutBatchLru(decoded.value.1);
      SenderRowsCached(Contents(cache.entries), replica, pool.tables, stored, query);
      return Ok(decoded.value.0), stored;
    }

    /** `pull_ledger_diff`: receivers, then senders, then the total. `seen` and `look` tell what the shards' reads and
        the senders' read saw, which fixes the order of what is delivered. */
    method PullLedgerDiff(cp: Checkpoint, maxReceivers: nat, maxSenders: nat)
      returns (r: Result<(PullResponse, Checkpoint)>, ghost seen: map<Shard, Look>, ghost look: Look)
      requires Valid()
      modifies this`cache
      ensures Valid()
      ensures r.Ok? <==> true in pool.tables.totals
      ensures r.Ok? ==> r.value.0.total == pool.tables.totals[true]
      ensures r.Ok? ==> Pulled(replica, cp, maxReceivers, maxSenders, r.value.0, r.value.1)
      ensures r.Ok? ==> OrderTold(old(cache), pool.tables, replica, cp, maxReceivers, maxSenders, r.value.0, seen, look)
      ensures r.Ok? ==> Warmed(old(cache), replica, cp, maxSenders, r.value.0, r.value.1, cache)
    {
      look := Look([], []);
      var receivers;
      receivers, seen := PullReceivers(cp.receiverIndex, maxReceivers);
      if receivers.Err? { return Err(DecodeError), seen, look; }
      ghost var middle := cache;
      var senders, rows := PullSenders(cp.senderIndex, maxSenders);
      if senders.Err? { return Err(DecodeError), seen, look; }
      look := Look(Answers(Contents(middle.entries), SenderKeys(cp.senderIndex, maxSenders)), rows);
      var total := pool.GetTotalSendersReceivers();
      if total.Err? { return Err(total.error), seen, look; }
      r := Ok((PullResponse(receivers.value.0 || senders.value.0, receivers.value.2, senders.value.2, total.value),
               Checkpoint(receivers.value.1, senders.value.1)));
      OrderJoin(old(cache), middle, pool.tables, replica, cp, maxReceivers, maxSenders, r.value.0, seen, look);
      WarmJoin(old(cache), middle, replica, cp, maxSenders, r.value.0, r.value.1, cache);
    }

    /** `pull_ledger_diff_impl`: both limits are clamped; the checkpoint goes to dense clients. */
    method PullLedgerDiffImpl(cp: Checkpoint, maxReceivers: nat, maxSenders: nat)
      returns (r: Result<(PullResponse, Checkpoint)>, ghost seen: map<Shard, Look>, ghost look: Look)
      requires Valid()
      modifies this`cache
      ensures Valid()
      ensures r.Ok? <==> true in pool.tables.totals
      ensures r.Ok? ==> r.value.0.total == pool.tables.totals[true]
      ensures r.Ok? ==> Pulled(replica, cp, AtMost4096(maxReceivers), AtMost4096(maxSenders), r.value.0, r.value.1)
      ensures r.Ok? ==> OrderTold(old(cache), pool.tables, replica, cp,
                                  AtMost4096(maxReceivers), AtMost4096(maxSenders), r.value.0, seen, look)
      ensures r.Ok? ==> Warmed(old(cache), replica, cp, AtMost4096(maxSenders), r.value.0, r.value.1, cache)
      ensures r.Ok? ==> |r.value.0.receivers| <= maxReceivers && |r.value.0.receivers| <= 4096
      ensures r.Ok? ==> |r.value.0.senders| <= maxSenders && |r.value.0.senders| <= 4096
    {
      r, seen, look := PullLedgerDiff(cp, Min(maxReceivers, MAX_RECEIVERS), Min(maxSenders, MAX_SENDERS));
    }
  }

  /** The limit that the server works with. */
  function AtMost4096(n: nat): nat { if n <= 4096 then n else 4096 }

  /** What one pull answers over a ledger that does not change. */
  ghost predicate Pulled(l: Ledger, cp: Checkpoint, maxR: nat, maxS: nat, resp: PullResponse, next: Checkpoint)
    requires |l.shards| == FOREST_WIDTH
  {
    && |resp.receivers| <= maxR && AllPlaced(resp.receivers) && next.senderIndex == cp.senderIndex + maxS
    && (NoShardWraps(l, cp.receiverIndex, maxR) ==> PulledReceivers(l, cp, maxR, maxS, resp, next))
    && SendersPulled(l, cp.senderIndex, maxS, resp.senders)
  }

  /** No window of a shard that has something at its cursor wraps onto an existing item of that shard. */
  ghost predicate NoShardWraps(l: Ledger, c: Cursors, limit: nat)
    requires |l.shards| == FOREST_WIDTH
  {
    forall s: Shard :: c[s] < |l.shards[s]| ==> NoAlias(c[s], limit, |l.shards[s]|)
  }

  lemma FitsNoWrap(l: Ledger, c: Cursors, limit: nat)
    requires Fits(l, limit)
    ensures NoShardWraps(l, c, limit)
  {
  }

  /** The greedy batch: min(limit, everything left), lower shards first, each shard from its old cursor to its new
      one. */
  ghost predicate GreedyBatch(l: Ledger, c: Cursors, limit: nat, more: bool, next: Cursors, rs: seq<Receiver>)
    requires |l.shards| == FOREST_WIDTH
  {
    var n := CursorOf(l).receiverIndex;
    && (more <==> More(n, c, limit)) && next == Next(n, c, limit) && |rs| == Min(limit, TotalLeft(n, c))
    && Delivered(l, c, next, rs) && Ascending(rs) && AllPlaced(rs)
  }

  /** A shard's batch has at least what is stored in its window and at most one item per index; if the window does not
      wrap onto an existing item, it is exactly what is stored there. */
  ghost predicate ShardPulled(xs: seq<Receiver>, start: nat, n: nat, got: seq<Receiver>) {
    && |Slice(xs, start, n)| <= |got| <= n
    && (NoAlias(start, n, |xs|) ==> multiset(got) == multiset(Slice(xs, start, n)))
  }

  // ---- what the reads saw, and what they left in the cache ----

  /** A shard's batch is, in order, what its read saw: the cached items, then the rows of the query. */
  ghost predicate ShardLook(t: Tables, s: Shard, start: nat, got: seq<Receiver>, rd: Look) {
    && EncodeReceivers(got) == Hits(rd.cached) + Values(rd.rows)
    && multiset(rd.rows) == multiset(Matching(RowsOf(t.shards, s), Misses(rd.cached, start)))
  }

  /** The cached answers of the read come from the cache `from`, and are all that it had if nothing was evicted. */
  ghost predicate CachedFrom(from: LruCache, room: bool, s: Shard, start: nat, cached: seq<Option<Blob>>) {
    && AnsweredBy(Contents(from.entries), ReceiverKeys(s, start, |cached|), cached)
    && (room ==> cached == Answers(Contents(from.entries), ReceiverKeys(s, start, |cached|)))
  }

  /** What one shard contributes is what its read saw, with the cache that the pull began with; without a read it
      contributes nothing. */
  ghost predicate ShardTold(from: LruCache, room: bool, t: Tables, size: nat, s: Shard, start: nat, limit: nat,
                            upto: nat, got: seq<Receiver>, seen: map<Shard, Look>)
  {
    if s in seen then
      && s < upto && start < size && |seen[s].cached| <= limit
      && ShardLook(t, s, start, got, seen[s]) && CachedFrom(from, room, s, start, seen[s].cached)
    else got == []
  }

  ghost predicate ReadsTell(from: LruCache, t: Tables, l: Ledger, c: Cursors, limit: nat, upto: nat, rs: seq<Receiver>,
                            seen: map<Shard, Look>)
    requires |l.shards| == FOREST_WIDTH
  {
    forall s: Shard {:trigger GroupOf(rs, s)} ::
      ShardTold(from, Room(from, |rs|), t, |l.shards[s]|, s, c[s], limit, upto, GroupOf(rs, s), seen)
  }

  ghost predicate WindowCached(m: map<Key, Blob>, l: Ledger, s: Shard, start: nat, n: nat)
    requires |l.shards| == FOREST_WIDTH
  {
    forall i :: start <= i < start + n && i < |l.shards[s]| ==> HasReceiver(m, l, s, i)
  }

  /** In ledger order: a shard's batch whose query ordered its rows, when no missed row precedes a cached one; and for
      items that differ from each other, only then. */
  lemma ReadOrder(t: Tables, l: Ledger, s: Shard, start: nat, got: seq<Receiver>, rd: Look)
    requires Holds(t, l) && ShardLook(t, s, start, got, rd) && Agrees(rd.cached, start, EncodeReceivers(l.shards[s]))
    requires AscendingRows(rd.rows)
    ensures !MissBeforeHit(rd.cached, start, |l.shards[s]|) ==> got == Slice(l.shards[s], start, |rd.cached|)
    ensures Different(Slice(l.shards[s], start, |rd.cached|)) ==>
              (got == Slice(l.shards[s], start, |rd.cached|) <==> !MissBeforeHit(rd.cached, start, |l.shards[s]|))
  {
    var xs, window := l.shards[s], Slice(l.shards[s], start, |rd.cached|);
    EncodedReceivers([], [], xs, start, |rd.cached|);
    ReadInOrder(rd, start, RowsOf(t.shards, s), EncodeReceivers(xs), EncodeReceivers(got));
    SameEncoding(got, window);
    if Different(window) { DifferentEncoding(window); }
  }

  /** The order within a shard of an answer: the ledger's, if the query ordered its rows and no missed row precedes a
      cached one. */
  lemma AnswerOrder(from: LruCache, t: Tables, l: Ledger, c: Cursors, limit: nat, next: Cursors, rs: seq<Receiver>,
                    seen: map<Shard, Look>, s: Shard)
    requires Holds(t, l) && Coherent(Contents(from.entries), l) && NoShardWraps(l, c, limit)
    requires ReadsTell(from, t, l, c, limit, FOREST_WIDTH, rs, seen) && Delivered(l, c, next, rs)
    requires s in seen && AscendingRows(seen[s].rows) && !MissBeforeHit(seen[s].cached, c[s], |l.shards[s]|)
    ensures c[s] <= next[s] && GroupOf(rs, s) == Slice(l.shards[s], c[s], next[s] - c[s])
  {
    var got, n := GroupOf(rs, s), |seen[s].cached|;
    assert ShardTold(from, Room(from, |rs|), t, |l.shards[s]|, s, c[s], limit, FOREST_WIDTH, got, seen);
    NoAliasPart(c[s], limit, c[s], n, |l.shards[s]|, |l.shards[s]|);
    AnsweredAgrees(Contents(from.entries), l, s, c[s], seen[s].cached);
    ReadOrder(t, l, s, c[s], got, seen[s]);
    assert ShardDelivered(l.shards[s], c[s], next[s], got);
    BagSize(got, Slice(l.shards[s], c[s], next[s] - c[s]));
    SameSlice(l.shards[s], c[s], n, next[s] - c[s]);
  }

  lemma SameSlice<T>(xs: seq<T>, start: nat, n: nat, n': nat)
    requires |Slice(xs, start, n)| == |Slice(xs, start, n')|
    ensures Slice(xs, start, n) == Slice(xs, start, n')
  {
  }

  lemma AnsweredAgrees(m: map<Key, Blob>, l: Ledger, s: Shard, start: nat, cached: seq<Option<Blob>>)
    requires Coherent(m, l) && |l.shards| == FOREST_WIDTH && NoAlias(start, |cached|, |l.shards[s]|)
    requires AnsweredBy(m, ReceiverKeys(s, start, |cached|), cached)
    ensures Agrees(cached, start, EncodeReceivers(l.shards[s]))
  {
    ReceiverWindowAgrees(m, l, s, start, |cached|);
    var keys := ReceiverKeys(s, start, |cached|);
    forall k | 0 <= k < |cached| && cached[k].Some? ensures cached[k] == Answers(m, keys)[k] {
    }
  }

  /** Everything between the old cursors and the new ones is in the cache. */
  ghost predicate DeliveredCached(m: map<Key, Blob>, l: Ledger, c: Cursors, next: Cursors)
    requires |l.shards| == FOREST_WIDTH
  {
    forall s: Shard, i :: c[s] <= i < next[s] && i < |l.shards[s]| ==> HasReceiver(m, l, s, i)
  }

  /** A sender batch is, in order, what its read saw. */
  ghost predicate SendersLook(t: Tables, start: nat, got: seq<Sender>, rd: Look) {
    && EncodeSenders(got) == Hits(rd.cached) + Values(rd.rows)
    && multiset(rd.rows) == multiset(Matching(t.nullifier, Misses(rd.cached, start)))
  }

  ghost predicate SendersCached(m: map<Key, Blob>, l: Ledger, start: nat, n: nat) {
    forall i :: start <= i < start + n && i < |l.senders| ==> HasSender(m, l, i)
  }

  /** The order of an answer: within each shard, and among the senders, the cached items of the read and then the rows
      of its query. The cached answers are those of the cache that the call began with, all of them if nothing was
      evicted. */
  ghost predicate OrderTold(from: LruCache, t: Tables, l: Ledger, cp: Checkpoint, maxReceivers: nat, maxSenders: nat,
                            resp: PullResponse, seen: map<Shard, Look>, look: Look)
    requires |l.shards| == FOREST_WIDTH
  {
    && ReadsTell(from, t, l, cp.receiverIndex, maxReceivers, FOREST_WIDTH, resp.receivers, seen)
    && SendersLook(t, cp.senderIndex, resp.senders, look)
    && AnsweredBy(Contents(from.entries), SenderKeys(cp.senderIndex, maxSenders), look.cached)
    && (Room(from, |resp.receivers|) ==>
          look.cached == Answers(Contents(from.entries), SenderKeys(cp.senderIndex, maxSenders)))
  }

  /** After an answer: at most as many new entries as it has items, and with room everything it delivered is cached. */
  ghost predicate Warmed(from: LruCache, l: Ledger, cp: Checkpoint, maxSenders: nat, resp: PullResponse,
                         next: Checkpoint, cache: LruCache)
    requires |l.shards| == FOREST_WIDTH
  {
    && Gained(from, |resp.receivers| + |resp.senders|, cache)
    && (Room(from, |resp.receivers| + |resp.senders|) ==>
          && DeliveredCached(Contents(cache.entries), l, cp.receiverIndex, next.receiverIndex)
          && SendersCached(Contents(cache.entries), l, cp.senderIndex, maxSenders))
  }

  lemma OrderJoin(from: LruCache, middle: LruCache, t: Tables, l: Ledger, cp: Checkpoint, maxReceivers: nat,
                  maxSenders: nat, resp: PullResponse, seen: map<Shard, Look>, look: Look)
    requires |l.shards| == FOREST_WIDTH
    requires ReadsTell(from, t, l, cp.receiverIndex, maxReceivers, FOREST_WIDTH, resp.receivers, seen)
    requires Gained(from, |resp.receivers|, middle)
    requires Unread(Contents(from.entries), Contents(middle.entries), FOREST_WIDTH)
    requires look.cached == Answers(Contents(middle.entries), SenderKeys(cp.senderIndex, maxSenders))
    requires SendersLook(t, cp.senderIndex, resp.senders, look)
    ensures OrderTold(from, t, l, cp, maxReceivers, maxSenders, resp, seen, look)
  {
    UnreadSenders(Contents(from.entries), Contents(middle.entries), cp.senderIndex, maxSenders);
  }

  lemma WarmJoin(from: LruCache, middle: LruCache, l: Ledger, cp: Checkpoint, maxSenders: nat, resp: PullResponse,
                 next: Checkpoint, cache: LruCache)
    requires Fits(l, 0) && Coherent(Contents(cache.entries), l)
    requires Gained(from, |resp.receivers|, middle) && Gained(middle, |resp.senders|, cache)
    requires Room(from, |resp.receivers|) ==>
               DeliveredCached(Contents(middle.entries), l, cp.receiverIndex, next.receiverIndex)
    requires Room(middle, |resp.senders|) ==> SendersCached(Contents(cache.entries), l, cp.senderIndex, maxSenders)
    ensures Warmed(from, l, cp, maxSenders, resp, next, cache)
  {
    GainedJoin(from, |resp.receivers|, middle, |resp.senders|, cache);
    if Room(from, |resp.receivers| + |resp.senders|) {
      CachedKept(Contents(middle.entries), Contents(cache.entries), l, cp.receiverIndex, next.receiverIndex);
    }
  }

  lemma CachedKept(m: map<Key, Blob>, m': map<Key, Blob>, l: Ledger, c: Cursors, next: Cursors)
    requires Fits(l, 0) && DeliveredCached(m, l, c, next) && m.Keys <= m'.Keys && Coherent(m', l)
    ensures DeliveredCached(m', l, c, next)
  {
    forall s: Shard, i | c[s] <= i < next[s] && i < |l.shards[s]| ensures HasReceiver(m', l, s, i) {
      assert HasReceiver(m, l, s, i) && |l.shards[s]| <= TWO_48;
      KeyTellsReceiver(m', l, s, i);
    }
  }

  lemma SendersGained(c: LruCache, c': LruCache, l: Ledger, t: Tables, start: nat, n: nat, rows: seq<Row>,
                      got: seq<Sender>)
    requires Holds(t, l) && Fits(l, 0) && Coherent(Contents(c'.entries), l) && Gained(c, |rows|, c') && |rows| <= |got|
    requires multiset(rows)
          == multiset(Matching(t.nullifier, Misses(Answers(Contents(c.entries), SenderKeys(start, n)), start)))
    requires Room(c, |rows|) ==>
               forall x :: x in rows ==> Lookup(Contents(c'.entries), SenderFields(x.idx)) == Some(x.content)
    ensures Gained(c, |got|, c')
    ensures Room(c, |got|) ==> SendersCached(Contents(c'.entries), l, start, n)
  {
    GainedMore(c, |rows|, c', |got|);
    if Room(c, |got|) {
      forall i | start <= i < start + n && i < |l.senders| ensures HasSender(Contents(c'.entries), l, i) {
        SenderWindowKeys(Contents(c.entries), Contents(c'.entries), start, n, t.nullifier, EncodeSenders(l.senders),
                         rows, i);
        KeyTellsSender(Contents(c'.entries), l, i);
      }
    }
  }

  /** The loop after the first `upto` shards: what it has read, and the cache. */
  ghost predicate Tracked(from: LruCache, t: Tables, l: Ledger, c: Cursors, limit: nat, upto: nat, b: Batch,
                          seen: map<Shard, Look>, cache: LruCache)
    requires |l.shards| == FOREST_WIDTH
  {
    && ReadsTell(from, t, l, c, limit, upto, b.receivers, seen)
    && Gained(from, |b.receivers|, cache)
    && Unread(Contents(from.entries), Contents(cache.entries), upto)
    && (Room(from, |b.receivers|) ==> DeliveredCached(Contents(cache.entries), l, c, b.next))
    && (forall s: Shard :: upto <= s ==> b.next[s] == c[s])
  }

  lemma TrackStart(cache: LruCache, t: Tables, l: Ledger, c: Cursors, limit: nat)
    requires |l.shards| == FOREST_WIDTH
    ensures Tracked(cache, t, l, c, limit, 0, Batch(false, c, [], false), map[], cache)
  {
  }

  lemma TrackSkip(from: LruCache, t: Tables, l: Ledger, c: Cursors, limit: nat, s: Shard, b: Batch,
                  seen: map<Shard, Look>, cache: LruCache)
    requires |l.shards| == FOREST_WIDTH && Tracked(from, t, l, c, limit, s, b, seen, cache)
    ensures Tracked(from, t, l, c, limit, s + 1, b, seen, cache)
  {
  }

  lemma TrackDone(from: LruCache, t: Tables, l: Ledger, c: Cursors, limit: nat, s: nat, b: Batch,
                  seen: map<Shard, Look>, cache: LruCache)
    requires |l.shards| == FOREST_WIDTH && s <= FOREST_WIDTH && Tracked(from, t, l, c, limit, s, b, seen, cache)
    ensures ReadsTell(from, t, l, c, limit, FOREST_WIDTH, b.receivers, seen)
    ensures Unread(Contents(from.entries), Contents(cache.entries), FOREST_WIDTH)
  {
  }

  lemma ToldTake(from: LruCache, t: Tables, size: nat, start: nat, limit: nat, s: Shard, rs: seq<Receiver>,
                 seen: map<Shard, Look>, seg: seq<Receiver>, rd: Look, s': Shard, room: bool, room': bool)
    requires ShardTold(from, room, t, size, s', start, limit, s, GroupOf(rs, s'), seen) && Below(rs, s)
    requires InShard(seg, s)
    requires s' == s ==> start < size && |rd.cached| <= limit
    requires s' == s ==> ShardLook(t, s, start, seg, rd) && CachedFrom(from, room', s, start, rd.cached)
    requires room' ==> room
    ensures ShardTold(from, room', t, size, s', start, limit, s + 1, GroupOf(rs + seg, s'), seen[s := rd])
  {
    EmptyGroup(rs, s);
    SegmentGroup(rs, seg, s, s');
  }

  /** The segment of shard s joins: what the other shards have read does not change. */
  lemma ReadsTake(from: LruCache, t: Tables, l: Ledger, c: Cursors, limit: nat, s: Shard, rs: seq<Receiver>,
                  seen: map<Shard, Look>, seg: seq<Receiver>, rd: Look)
    requires |l.shards| == FOREST_WIDTH && c[s] < |l.shards[s]| && |rd.cached| <= limit
    requires ReadsTell(from, t, l, c, limit, s, rs, seen) && Below(rs, s) && InShard(seg, s)
    requires ShardLook(t, s, c[s], seg, rd) && CachedFrom(from, Room(from, |rs + seg|), s, c[s], rd.cached)
    ensures ReadsTell(from, t, l, c, limit, s + 1, rs + seg, seen[s := rd])
  {
    var room, room' := Room(from, |rs|), Room(from, |rs + seg|);
    forall s': Shard
      ensures ShardTold(from, room', t, |l.shards[s']|, s', c[s'], limit, s + 1, GroupOf(rs + seg, s'), seen[s := rd])
    {
      assert ShardTold(from, room, t, |l.shards[s']|, s', c[s'], limit, s, GroupOf(rs, s'), seen);
      ToldTake(from, t, |l.shards[s']|, c[s'], limit, s, rs, seen, seg, rd, s', room, room');
    }
  }

  /** What one shard's pull did: the answer, what its read saw, and the cache before and after. */
  ghost predicate ShardEffect(t: Tables, l: Ledger, s: Shard, start: nat, n: nat, before: LruCache,
                              shard: (bool, seq<Receiver>), look: Look, cache: LruCache)
    requires |l.shards| == FOREST_WIDTH
  {
    && (shard.0 <==> start + n < |l.shards[s]|)
    && ShardPulled(l.shards[s], start, n, shard.1) && InShard(shard.1, s)
    && ShardLook(t, s, start, shard.1, look)
    && look.cached == Answers(Contents(before.entries), ReceiverKeys(s, start, n))
    && Gained(before, |shard.1|, cache)
    && OnlyShard(Contents(before.entries), Contents(cache.entries), s)
    && (Room(before, |shard.1|) ==> WindowCached(Contents(cache.entries), l, s, start, n))
  }

  lemma LookFromStart(from: LruCache, k: nat, before: LruCache, s: Shard, start: nat, n: nat, cached: seq<Option<Blob>>,
                      k': nat)
    requires Gained(from, k, before) && Unread(Contents(from.entries), Contents(before.entries), s) && k <= k'
    requires cached == Answers(Contents(before.entries), ReceiverKeys(s, start, n))
    ensures CachedFrom(from, Room(from, k'), s, start, cached)
  {
    UnreadAnswers(Contents(from.entries), Contents(before.entries), s, start, n);
  }

  /** The loop's record with one more shard's pull. */
  lemma TrackTake(from: LruCache, t: Tables, l: Ledger, c: Cursors, s: Shard, b: Batch, seen: map<Shard, Look>,
                  before: LruCache, n: nat, shard: (bool, seq<Receiver>), look: Look, limit: nat, cache: LruCache)
    requires |l.shards| == FOREST_WIDTH && Tracked(from, t, l, c, limit, s, b, seen, before) && Below(b.receivers, s)
    requires c[s] < |l.shards[s]| && n <= limit
    requires ShardEffect(t, l, s, c[s], n, before, shard, look, cache)
    requires Coherent(Contents(cache.entries), l) && Fits(l, 0)
    ensures Tracked(from, t, l, c, limit, s + 1, Joined(b, s, c[s], limit, shard), seen[s := look], cache)
  {
    var seg, got := shard.1, |b.receivers|;
    var b' := Joined(b, s, c[s], limit, shard);
    assert |b'.receivers| == got + |seg| && b'.next == b.next[s := c[s] + |seg|];
    GainedJoin(from, got, before, |seg|, cache);
    UnreadStep(Contents(from.entries), Contents(before.entries), s, Contents(cache.entries));
    LookFromStart(from, got, before, s, c[s], n, look.cached, got + |seg|);
    ReadsTake(from, t, l, c, limit, s, b.receivers, seen, seg, look);
    if Room(from, got + |seg|) {
      CachedTake(Contents(before.entries), Contents(cache.entries), l, c, s, b.next, n, |seg|, b'.next);
    }
  }

  /** One more shard: all that the loop's state says. */
  lemma TakeAll(from: LruCache, t: Tables, l: Ledger, c: Cursors, limit: nat, s: Shard, b: Batch, fine: bool,
                seen: map<Shard, Look>, before: LruCache, shard: (bool, seq<Receiver>), look: Look, cache: LruCache)
    requires |l.shards| == FOREST_WIDTH && LoopState(from, t, l, c, limit, s, b, fine, seen, before)
    requires !b.filled && c[s] < |l.shards[s]|
    requires ShardEffect(t, l, s, c[s], limit - |b.receivers|, before, shard, look, cache)
    requires Coherent(Contents(cache.entries), l) && Fits(l, 0)
    ensures LoopState(from, t, l, c, limit, s + 1, Joined(b, s, c[s], limit, shard), fine, seen[s := look], cache)
  {
    var b' := Joined(b, s, c[s], limit, shard);
    LooseTake(limit, s, b, shard.1, b');
    TrackTake(from, t, l, c, s, b, seen, before, limit - |b.receivers|, shard, look, limit, cache);
    if fine { FineTake(l, c, limit, s, b, shard, b'); }
  }

  /** The loop's state after the first `upto` shards; `fine` when no window wraps. */
  ghost predicate LoopState(from: LruCache, t: Tables, l: Ledger, c: Cursors, limit: nat, upto: nat, b: Batch,
                            fine: bool, seen: map<Shard, Look>, cache: LruCache)
    requires |l.shards| == FOREST_WIDTH
  {
    && Loose(limit, upto, b)
    && (fine ==> NoShardWraps(l, c, limit) && PullState(l, c, limit, upto, b))
    && Tracked(from, t, l, c, limit, upto, b, seen, cache)
  }

  lemma LoopBegin(cache: LruCache, t: Tables, l: Ledger, c: Cursors, limit: nat, fine: bool)
    requires |l.shards| == FOREST_WIDTH && (fine ==> NoShardWraps(l, c, limit))
    ensures LoopState(cache, t, l, c, limit, 0, Batch(false, c, [], false), fine, map[], cache)
  {
    PullStart(l, c, limit);
    TrackStart(cache, t, l, c, limit);
  }

  lemma LoopPass(from: LruCache, t: Tables, l: Ledger, c: Cursors, limit: nat, s: Shard, b: Batch, fine: bool,
                 seen: map<Shard, Look>, cache: LruCache)
    requires |l.shards| == FOREST_WIDTH && LoopState(from, t, l, c, limit, s, b, fine, seen, cache)
    requires |l.shards[s]| <= c[s]
    ensures LoopState(from, t, l, c, limit, s + 1, b, fine, seen, cache)
  {
    if fine { PullSkip(l, c, limit, s, b); }
    TrackSkip(from, t, l, c, limit, s, b, seen, cache);
  }

  lemma CachedTake(m: map<Key, Blob>, m': map<Key, Blob>, l: Ledger, c: Cursors, s: Shard, next: Cursors, n: nat,
                   got: nat, next': Cursors)
    requires |l.shards| == FOREST_WIDTH && DeliveredCached(m, l, c, next) && m.Keys <= m'.Keys && Coherent(m', l)
    requires Fits(l, 0) && WindowCached(m', l, s, c[s], n) && got <= n && next' == next[s := c[s] + got]
    ensures DeliveredCached(m', l, c, next')
  {
    forall s': Shard, i | c[s'] <= i < next'[s'] && i < |l.shards[s']| ensures HasReceiver(m', l, s', i) {
      if s' != s {
        assert HasReceiver(m, l, s', i);
        assert |l.shards[s']| <= TWO_48;
        KeyTellsReceiver(m', l, s', i);
      }
    }
  }

  /** Rows written back are in the cache, if the keys were kept. */
  lemma ReceiverRowsCached(m: map<Key, Blob>, l: Ledger, t: Tables, s: Shard, rows: seq<Row>, query: seq<nat>)
    requires Coherent(m, l) && Holds(t, l) && |l.shards[s]| <= TWO_48
    requires multiset(rows) == multiset(Matching(RowsOf(t.shards, s), query))
    ensures (forall a :: a in ReceiverWrites(s, rows) ==> a.key in m) ==>
              forall x :: x in rows ==> Lookup(m, ReceiverFields(s, x.idx)) == Some(x.content)
  {
    RowsAreStored(rows, RowsOf(t.shards, s), query);
    StoredReceivers(s, rows, t, l);
    if forall a :: a in ReceiverWrites(s, rows) ==> a.key in m {
      forall x | x in rows ensures Lookup(m, ReceiverFields(s, x.idx)) == Some(x.content) {
        var i :| 0 <= i < |rows| && rows[i] == x;
        assert ReceiverWrites(s, rows)[i] == Write(ReceiverFields(s, x.idx), x.content);
        KeyTellsReceiver(m, l, s, x.idx);
      }
    }
  }

  lemma SenderRowsCached(m: map<Key, Blob>, l: Ledger, t: Tables, rows: seq<Row>, query: seq<nat>)
    requires Coherent(m, l) && Holds(t, l) && |l.senders| <= TWO_48
    requires multiset(rows) == multiset(Matching(t.nullifier, query))
    ensures (forall a :: a in SenderWrites(rows) ==> a.key in m) ==>
              forall x :: x in rows ==> Lookup(m, SenderFields(x.idx)) == Some(x.content)
  {
    RowsAreStored(rows, t.nullifier, query);
    StoredSenders(rows, t, l);
    if forall a :: a in SenderWrites(rows) ==> a.key in m {
      forall x | x in rows ensures Lookup(m, SenderFields(x.idx)) == Some(x.content) {
        var i :| 0 <= i < |rows| && rows[i] == x;
        assert SenderWrites(rows)[i] == Write(SenderFields(x.idx), x.content);
        KeyTellsSender(m, l, x.idx);
      }
    }
  }

  /** After a shard's pull: at most as many new entries as it delivered, and with room its whole window. */
  lemma ReadGained(c: LruCache, c': LruCache, l: Ledger, t: Tables, s: Shard, start: nat, n: nat, rows: seq<Row>,
                   got: seq<Receiver>)
    requires Holds(t, l) && Fits(l, 0) && Coherent(Contents(c'.entries), l) && Gained(c, |rows|, c') && |rows| <= |got|
    requires multiset(rows)
          == multiset(Matching(RowsOf(t.shards, s),
                               Misses(Answers(Contents(c.entries), ReceiverKeys(s, start, n)), start)))
    requires Room(c, |rows|) ==>
               forall x :: x in rows ==> Lookup(Contents(c'.entries), ReceiverFields(s, x.idx)) == Some(x.content)
    ensures Gained(c, |got|, c')
    ensures Room(c, |got|) ==> WindowCached(Contents(c'.entries), l, s, start, n)
  {
    GainedMore(c, |rows|, c', |got|);
    if Room(c, |got|) {
      forall i | start <= i < start + n && i < |l.shards[s]| ensures HasReceiver(Contents(c'.entries), l, s, i) {
        WindowKeys(Contents(c.entries), Contents(c'.entries), s, start, n, RowsOf(t.shards, s),
                   EncodeReceivers(l.shards[s]), rows, i);
        assert |l.shards[s]| <= TWO_48;
        KeyTellsReceiver(Contents(c'.entries), l, s, i);
      }
    }
  }

  /** What holds of the loop's variables even when a window wraps. */
  ghost predicate Loose(limit: nat, upto: nat, b: Batch) {
    && |b.receivers| <= limit && (b.filled ==> |b.receivers| == limit)
    && Ascending(b.receivers) && Below(b.receivers, upto)
  }

  lemma LooseTake(limit: nat, s: Shard, b: Batch, seg: seq<Receiver>, b': Batch)
    requires Loose(limit, s, b) && InShard(seg, s) && |seg| <= limit - |b.receivers|
    requires b'.receivers == b.receivers + seg && (b'.filled ==> |b'.receivers| == limit)
    ensures Loose(limit, s + 1, b')
  {
    AscendingAppend(b.receivers, seg, s);
  }

  /** The loop's variables with one more shard's flag and items. */
  function Joined(b: Batch, s: Shard, start: nat, limit: nat, shard: (bool, seq<Receiver>)): Batch {
    var receivers := b.receivers + shard.1;
    var pulled := |receivers| - |b.receivers|;
    Batch(b.more || shard.0, b.next[s := start + pulled], receivers, |receivers| == limit)
  }

  lemma FineTake(l: Ledger, c: Cursors, limit: nat, s: Shard, b: Batch, shard: (bool, seq<Receiver>), b': Batch)
    requires PullState(l, c, limit, s, b) && !b.filled && c[s] < |l.shards[s]| && NoShardWraps(l, c, limit)
    requires InShard(shard.1, s) && ShardPulled(l.shards[s], c[s], limit - |b.receivers|, shard.1)
    requires shard.0 <==> c[s] + (limit - |b.receivers|) < |l.shards[s]|
    requires b' == Joined(b, s, c[s], limit, shard)
    ensures PullState(l, c, limit, s + 1, b')
  {
    NoAliasPart(c[s], limit, c[s], limit - |b.receivers|, |l.shards[s]|, |l.shards[s]|);
    PullTake(l, c, limit, s, b, shard.1, shard.0, b');
  }

  /** Flag, cursor and receivers. */
  ghost predicate PulledReceivers(l: Ledger, cp: Checkpoint, maxR: nat, maxS: nat, resp: PullResponse, next: Checkpoint)
    requires |l.shards| == FOREST_WIDTH
  {
    var n := CursorOf(l).receiverIndex;
    && (resp.shouldContinue <==> More(n, cp.receiverIndex, maxR) || cp.senderIndex + maxS < |l.senders|)
    && next == Checkpoint(Next(n, cp.receiverIndex, maxR), cp.senderIndex + maxS)
    && |resp.receivers| == Min(maxR, TotalLeft(n, cp.receiverIndex))
    && Delivered(l, cp.receiverIndex, next.receiverIndex, resp.receivers)
    && Ascending(resp.receivers) && AllPlaced(resp.receivers)
  }

  /** A sender batch has at least what is stored in its window and at most one sender per index; if the window does not
      wrap onto an existing sender, it is exactly what is stored there. */
  ghost predicate SendersPulled(l: Ledger, start: nat, n: nat, got: seq<Sender>) {
    && |Slice(l.senders, start, n)| <= |got| <= n
    && (NoAlias(start, n, |l.senders|) ==> multiset(got) == multiset(Slice(l.senders, start, n)))
  }

  /** The variables of the loop over the shards; `filled` when it leaves early. */
  datatype Batch = Batch(more: bool, next: Cursors, receivers: seq<Receiver>, filled: bool)

  /** The loop's state after the first `upto` shards. */
  ghost predicate PullState(l: Ledger, c: Cursors, limit: nat, upto: nat, b: Batch) {
    && upto <= FOREST_WIDTH && |l.shards| == FOREST_WIDTH && |b.receivers| <= limit
    && LoopAt(CursorOf(l).receiverIndex, c, limit, upto) == (b.next, |b.receivers|, b.more)
    && Running(limit, Before(CursorOf(l).receiverIndex, c, upto), |b.receivers|, b.filled)
    && Delivered(l, c, b.next, b.receivers) && Ascending(b.receivers) && Below(b.receivers, upto)
  }

  /** The last shard visited filled the batch, or there is budget left (or no shard was visited at all). */
  ghost predicate Running(limit: nat, before: nat, got: nat, filled: bool) {
    if filled then got == limit && before > 0 else got < limit || before == 0
  }

  lemma PullStart(l: Ledger, c: Cursors, limit: nat)
    requires |l.shards| == FOREST_WIDTH
    ensures PullState(l, c, limit, 0, Batch(false, c, [], false))
  {
    LoopStart(CursorOf(l).receiverIndex, c, limit);
    EmptyDelivery(l, c);
  }

  lemma PullGate(t: Tables, l: Ledger, s: Shard, i: nat, present: bool)
    requires Holds(t, l) && present == HasIdx(RowsOf(t.shards, s), i)
    ensures present <==> i < |l.shards[s]|
  {
    CountIsCursor(t, l);
  }

  lemma PullSkip(l: Ledger, c: Cursors, limit: nat, s: Shard, b: Batch)
    requires PullState(l, c, limit, s, b) && |l.shards[s]| <= c[s]
    ensures PullState(l, c, limit, s + 1, b)
  {
    LoopSkip(CursorOf(l).receiverIndex, c, limit, s);
  }

  lemma PullTake(l: Ledger, c: Cursors, limit: nat, s: Shard, b: Batch, seg: seq<Receiver>, flag: bool, b': Batch)
    requires PullState(l, c, limit, s, b) && !b.filled && c[s] < |l.shards[s]| && InShard(seg, s)
    requires multiset(seg) == multiset(Slice(l.shards[s], c[s], limit - |b.receivers|))
    requires flag <==> c[s] + (limit - |b.receivers|) < |l.shards[s]|
    requires b' == Batch(b.more || flag, b.next[s := c[s] + |seg|], b.receivers + seg, |b.receivers + seg| == limit)
    ensures PullState(l, c, limit, s + 1, b')
  {
    BagSize(seg, Slice(l.shards[s], c[s], limit - |b.receivers|));
    LoopTake(CursorOf(l).receiverIndex, c, limit, s, b.next, |b.receivers|, b.more);
    AppendSegment(l, c, b.next, b.receivers, s, limit - |b.receivers|, seg, b.next[s := c[s] + |seg|]);
    AscendingAppend(b.receivers, seg, s);
  }

  lemma PullDone(l: Ledger, c: Cursors, limit: nat, upto: nat, b: Batch)
    requires PullState(l, c, limit, upto, b) && (upto == FOREST_WIDTH || b.filled)
    ensures GreedyBatch(l, c, limit, b.more, b.next, b.receivers)
  {
    LoopDone(CursorOf(l).receiverIndex, c, limit, upto, b.next, |b.receivers|, b.more);
  }

  /** For every shard, the batch holds exactly the ledger items from the old cursor up to the new one. */
  ghost predicate Delivered(l: Ledger, c: Cursors, next: Cursors, rs: seq<Receiver>) {
    && |l.shards| == FOREST_WIDTH
    && forall s: Shard {:trigger GroupOf(rs, s)} :: ShardDelivered(l.shards[s], c[s], next[s], GroupOf(rs, s))
  }

  ghost predicate ShardDelivered(xs: seq<Receiver>, from: nat, to: nat, got: seq<Receiver>) {
    from <= to && multiset(got) == multiset(Slice(xs, from, to - from))
  }

  /** Visited shards moved to an index that exists; the others did not move. */
  ghost predicate Reached(l: Ledger, c: Cursors, next: Cursors)
    requires |l.shards| == FOREST_WIDTH
  {
    forall s: Shard :: next[s] == c[s] || next[s] <= |l.shards[s]|
  }

  lemma ShardLength(xs: seq<Receiver>, from: nat, to: nat, got: seq<Receiver>)
    requires ShardDelivered(xs, from, to, got) && (to == from || to <= |xs|)
    ensures from + |got| == to
  {
    BagSize(got, Slice(xs, from, to - from));
  }

  /** The server's new cursor is the one that the client gets by counting what it received. */
  lemma RecomputedCursor(l: Ledger, cp: Checkpoint, next: Cursors, rs: seq<Receiver>, senders: nat)
    requires Delivered(l, cp.receiverIndex, next, rs) && Reached(l, cp.receiverIndex, next)
    ensures Advance(cp, rs, senders).receiverIndex == next
  {
    forall s: Shard ensures Moved(cp, rs, s) == next[s] {
      ShardLength(l.shards[s], cp.receiverIndex[s], next[s], GroupOf(rs, s));
    }
    assert forall i :: 0 <= i < FOREST_WIDTH ==> Advance(cp, rs, senders).receiverIndex[i] == next[i];
  }

  ghost predicate Below(rs: seq<Receiver>, s: nat) {
    forall i :: 0 <= i < |rs| ==> rs[i].utxo.tree.Some? && rs[i].utxo.tree.value < s
  }

  lemma EmptyDelivery(l: Ledger, c: Cursors)
    requires |l.shards| == FOREST_WIDTH
    ensures Delivered(l, c, c, [])
  {
  }

  ghost predicate InShard(rs: seq<Receiver>, s: Shard) {
    forall i :: 0 <= i < |rs| ==> rs[i].utxo.tree == Some(s)
  }

  lemma SegmentPlaced(l: Ledger, s: Shard, start: nat, amount: nat, seg: seq<Receiver>)
    requires l.Valid() && multiset(seg) == multiset(Slice(l.shards[s], start, amount))
    ensures InShard(seg, s)
  {
    forall i | 0 <= i < |seg| ensures seg[i].utxo.tree == Some(s) {
      assert seg[i] in multiset(Slice(l.shards[s], start, amount));
    }
  }

  lemma SegmentDelivered(xs: seq<Receiver>, from: nat, to: nat, rs: seq<Receiver>, s: Shard, seg: seq<Receiver>,
                         t: Shard, to': nat)
    requires ShardDelivered(xs, from, to, GroupOf(rs, t)) && Below(rs, s) && InShard(seg, s)
    requires if t == s then ShardDelivered(xs, from, to', seg) else to' == to
    ensures ShardDelivered(xs, from, to', GroupOf(rs + seg, t))
  {
    SegmentGroup(rs, seg, s, t);
    EmptyGroup(rs, s);
  }

  /** Shard s contributes its window after everything delivered from the shards below it. */
  lemma AppendSegment(l: Ledger, c: Cursors, next: Cursors, rs: seq<Receiver>, s: Shard, amount: nat,
                      seg: seq<Receiver>, next': Cursors)
    requires Delivered(l, c, next, rs) && Below(rs, s) && c[s] < |l.shards[s]| && InShard(seg, s)
    requires multiset(seg) == multiset(Slice(l.shards[s], c[s], amount)) && next' == next[s := c[s] + |seg|]
    ensures Delivered(l, c, next', rs + seg)
  {
    WindowDelivered(l.shards[s], c[s], amount, seg);
    forall t: Shard ensures ShardDelivered(l.shards[t], c[t], next'[t], GroupOf(rs + seg, t)) {
      SegmentDelivered(l.shards[t], c[t], next[t], rs, s, seg, t, next'[t]);
    }
  }

  lemma WindowDelivered(xs: seq<Receiver>, from: nat, amount: nat, seg: seq<Receiver>)
    requires from <= |xs| && multiset(seg) == multiset(Slice(xs, from, amount))
    ensures ShardDelivered(xs, from, from + |seg|, seg) && |seg| == Min(amount, |xs| - from)
  {
    BagSize(seg, Slice(xs, from, amount));
    assert Slice(xs, from, |seg|) == Slice(xs, from, amount);
  }

  lemma AscendingAppend(rs: seq<Receiver>, seg: seq<Receiver>, s: Shard)
    requires Ascending(rs) && Below(rs, s) && InShard(seg, s)
    ensures Ascending(rs + seg) && Below(rs + seg, s + 1)
  {
  }

  lemma SegmentGroup(rs: seq<Receiver>, seg: seq<Receiver>, s: Shard, t: Shard)
    requires InShard(seg, s)
    ensures s == t && GroupOf(rs, s) == [] ==> GroupOf(rs + seg, t) == seg
    ensures s != t ==> GroupOf(rs + seg, t) == GroupOf(rs, t)
  {
    GroupOfConcat(rs, seg, t);
    GroupOfUniform(seg, s, t);
  }

  lemma {:induction false} EmptyGroup(rs: seq<Receiver>, s: Shard)
    requires Below(rs, s)
    ensures GroupOf(rs, s) == []
  {
    if rs != [] { EmptyGroup(rs[..|rs| - 1], s); }
  }

  /** The loop over the cached answers: hits are decoded, misses are left for the database. */
  method SplitReceivers(cached: seq<Option<Blob>>, start: nat) returns (r: Result<(seq<Receiver>, seq<nat>)>)
    ensures r.Ok? <==> forall i :: 0 <= i < |cached| && cached[i].Some? ==> cached[i].value.ReceiverBlob?
    ensures r.Ok? ==> EncodeReceivers(r.value.0) == Hits(cached) && r.value.1 == Misses(cached, start)
  {
    var hits: seq<Receiver>, query: seq<nat> := [], [];
    for k := 0 to |cached|
      invariant EncodeReceivers(hits) == Hits(cached[..k]) && query == Misses(cached[..k], start)
      invariant forall i :: 0 <= i < k && cached[i].Some? ==> cached[i].value.ReceiverBlob?
    {
      assert cached[..k + 1][..k] == cached[..k];
      if cached[k].Some? {
        var v := DecodeReceiver(cached[k].value);
        if v.Err? { return Err(v.error); }
        hits := hits + [v.value];
      } else {
        query := query + [start + k];
      }
    }
    assert cached[..|cached|] == cached;
    r := Ok((hits, query));
  }

  /** The loop over the database's rows. */
  method DecodeRows(s: Shard, rows: seq<Row>) returns (r: Result<(seq<Receiver>, seq<Access>)>)
    ensures r.Ok? <==> forall i :: 0 <= i < |rows| ==> rows[i].content.ReceiverBlob?
    ensures r.Ok? ==> EncodeReceivers(r.value.0) == Values(rows) && r.value.1 == ReceiverWrites(s, rows)
  {
    var found: seq<Receiver>, writeBack: seq<Access> := [], [];
    for k := 0 to |rows|
      invariant EncodeReceivers(found) == Values(rows[..k]) && writeBack == ReceiverWrites(s, rows[..k])
      invariant forall i :: 0 <= i < k ==> rows[i].content.ReceiverBlob?
    {
      assert rows[..k + 1] == rows[..k] + [rows[k]];
      assert Values(rows[..k + 1]) == Values(rows[..k]) + [rows[k].content];
      var v := DecodeReceiver(rows[k].content);
      if v.Err? { return Err(v.error); }
      EncodedReceivers(found, [v.value], [], 0, 0);
      writeBack := writeBack + [Write(ReceiverFields(s, rows[k].idx), ReceiverBlob(v.value))];
      found := found + [v.value];
    }
    assert rows[..|rows|] == rows;
    r := Ok((found, writeBack));
  }

  lemma RowsAreStored(found: seq<Row>, rows: seq<Row>, want: seq<nat>)
    requires multiset(found) == multiset(Matching(rows, want))
    ensures forall r :: r in found ==> r in rows
  {
    forall r | r in found ensures r in rows {
      assert r in multiset(found);
      MatchingCount(rows, want, r);
      assert r in multiset(rows);
    }
  }

  lemma BagSize<T>(xs: seq<T>, ys: seq<T>)
    requires multiset(xs) == multiset(ys)
    ensures |xs| == |ys|
  {
    assert |multiset(xs)| == |multiset(ys)|;
  }

  /** Hits and rows, decoded, are what cache and table together show of the shard's window. */
  lemma ReceiverOverlay(stored: seq<Row>, xs: seq<Receiver>, start: nat, cached: seq<Option<Blob>>, found: seq<Row>,
                        got: seq<Receiver>)
    requires Dense(stored, EncodeReceivers(xs)) && multiset(found) == multiset(Matching(stored, Misses(cached, start)))
    requires EncodeReceivers(got) == Hits(cached) + Values(found)
    ensures |Slice(xs, start, |cached|)| <= |got| <= |cached|
  {
    ReadThrough(cached, start, stored, EncodeReceivers(xs), found, EncodeReceivers(got));
    OverlayLength(cached, start, EncodeReceivers(xs));
    BagSize(EncodeReceivers(got), Overlay(cached, start, EncodeReceivers(xs)));
  }

  lemma {:induction false} HitsPlaced(cached: seq<Option<Blob>>, s: Shard)
    requires forall i :: 0 <= i < |cached| && cached[i].Some? ==> PlacedBlob(cached[i].value, s)
    ensures forall i :: 0 <= i < |Hits(cached)| ==> PlacedBlob(Hits(cached)[i], s)
  {
    if cached != [] { HitsPlaced(cached[..|cached| - 1], s); }
  }

  lemma RowsPlaced(s: Shard, rows: seq<Row>, query: seq<nat>, t: Tables, l: Ledger)
    requires Holds(t, l) && l.Valid() && multiset(rows) == multiset(Matching(RowsOf(t.shards, s), query))
    ensures forall i :: 0 <= i < |rows| ==> PlacedBlob(rows[i].content, s)
  {
    RowsAreStored(rows, RowsOf(t.shards, s), query);
    StoredReceivers(s, rows, t, l);
  }

  lemma AllInShard(got: seq<Receiver>, s: Shard, a: seq<Blob>, b: seq<Blob>)
    requires EncodeReceivers(got) == a + b
    requires (forall i :: 0 <= i < |a| ==> PlacedBlob(a[i], s)) && (forall i :: 0 <= i < |b| ==> PlacedBlob(b[i], s))
    ensures InShard(got, s)
  {
    forall i | 0 <= i < |got| ensures got[i].utxo.tree == Some(s) {
      assert EncodeReceivers(got)[i] == ReceiverBlob(got[i]) == (a + b)[i];
    }
  }

  lemma ReceiverBatch(m: map<Key, Blob>, l: Ledger, s: Shard, start: nat, n: nat, t: Tables, found: seq<Row>,
                      got: seq<Receiver>)
    requires Coherent(m, l) && l.Valid() && Holds(t, l)
    requires multiset(found)
          == multiset(Matching(RowsOf(t.shards, s), Misses(Answers(m, ReceiverKeys(s, start, n)), start)))
    requires EncodeReceivers(got) == Hits(Answers(m, ReceiverKeys(s, start, n))) + Values(found)
    ensures ShardPulled(l.shards[s], start, n, got) && InShard(got, s)
  {
    var cached := Answers(m, ReceiverKeys(s, start, n));
    ReceiverOverlay(RowsOf(t.shards, s), l.shards[s], start, cached, found, got);
    if NoAlias(start, n, |l.shards[s]|) {
      ReceiverWindowAgrees(m, l, s, start, n);
      ReceiverWindow(RowsOf(t.shards, s), l.shards[s], start, cached, found, got);
    }
    ReceiverAnswersDecode(m, l, s, start, n);
    HitsPlaced(cached, s);
    RowsPlaced(s, found, Misses(cached, start), t, l);
    AllInShard(got, s, Hits(cached), Values(found));
  }

  /** Hits and rows, decoded, are the window of the shard. */
  lemma ReceiverWindow(stored: seq<Row>, xs: seq<Receiver>, start: nat, cached: seq<Option<Blob>>, found: seq<Row>,
                       got: seq<Receiver>)
    requires Dense(stored, EncodeReceivers(xs)) && Agrees(cached, start, EncodeReceivers(xs))
    requires multiset(found) == multiset(Matching(stored, Misses(cached, start)))
    requires EncodeReceivers(got) == Hits(cached) + Values(found)
    ensures multiset(got) == multiset(Slice(xs, start, |cached|)) && |got| == |Slice(xs, start, |cached|)|
  {
    ReadThrough(cached, start, stored, EncodeReceivers(xs), found, EncodeReceivers(got));
    OverlayWindow(cached, start, EncodeReceivers(xs));
    EncodedReceivers([], [], xs, start, |cached|);
    DecodeReceiversBag(got, Slice(xs, start, |cached|));
    BagSize(got, Slice(xs, start, |cached|));
  }

  /** The order in which one shard's pull delivers, when the query returns its rows in ascending order: ledger order if
      no missed row precedes a cached one, and, for items that differ from each other, only then. */
  lemma PullOrder(xs: seq<Receiver>, start: nat, cached: seq<Option<Blob>>, got: seq<Receiver>)
    requires Agrees(cached, start, EncodeReceivers(xs))
    requires EncodeReceivers(got) == Hits(cached) + Values(Matching(Image(EncodeReceivers(xs)), Misses(cached, start)))
    ensures !MissBeforeHit(cached, start, |xs|) ==> got == Slice(xs, start, |cached|)
    ensures Different(Slice(xs, start, |cached|)) ==>
              (got == Slice(xs, start, |cached|) <==> !MissBeforeHit(cached, start, |xs|))
  {
    var window := Slice(xs, start, |cached|);
    EncodedReceivers([], [], xs, start, |cached|);
    LedgerOrder(cached, start, EncodeReceivers(xs), EncodeReceivers(got));
    SameEncoding(got, window);
    if Different(window) { DifferentEncoding(window); }
  }

  lemma SameEncoding(a: seq<Receiver>, b: seq<Receiver>)
    ensures EncodeReceivers(a) == EncodeReceivers(b) <==> a == b
  {
    if EncodeReceivers(a) == EncodeReceivers(b) {
      forall i | 0 <= i < |a| ensures i < |b| && a[i] == b[i] {
        assert EncodeReceivers(a)[i] == EncodeReceivers(b)[i];
      }
      assert |EncodeReceivers(a)| == |a| && |EncodeReceivers(b)| == |b|;
    }
  }

  lemma DifferentEncoding(xs: seq<Receiver>)
    requires Different(xs)
    ensures Different(EncodeReceivers(xs))
  {
  }

  /** Disorder does happen: of two items of a shard the second is cached, and is delivered first. */
  lemma DisorderHappens(s: Shard, x: Receiver, y: Receiver) returns (l: Ledger, m: map<Key, Blob>)
    requires x.utxo.tree == y.utxo.tree == Some(s)
    ensures l.Valid() && l.shards[s] == [x, y] && Coherent(m, l)
    ensures var cached := Answers(m, ReceiverKeys(s, 0, 2));
            Hits(cached) + Values(Matching(Image(EncodeReceivers(l.shards[s])), Misses(cached, 0)))
            == EncodeReceivers([y, x])
  {
    l := Ledger(seq(FOREST_WIDTH, i => if i == s then [x, y] else []), []);
    m := map[ReceiverFields(s, 1) := ReceiverBlob(y)];
    var keys := ReceiverKeys(s, 0, 2);
    assert keys[0] == Key(1, s, 0) && keys[1] == Key(1, s, 1);
    var xs, cached := EncodeReceivers([x, y]), Answers(m, keys);
    assert cached == [None, Some(xs[1])];
    SecondComesFirst(xs, cached);
  }

  /** Rows that a query returned decode, and may be written back. */
  lemma ReceiverRowFacts(s: Shard, rows: seq<Row>, query: seq<nat>, t: Tables, l: Ledger)
    requires Holds(t, l) && |l.shards[s]| <= TWO_48
    requires multiset(rows) == multiset(Matching(RowsOf(t.shards, s), query))
    ensures forall i :: 0 <= i < |rows| ==> rows[i].content.ReceiverBlob?
    ensures forall a :: a in ReceiverWrites(s, rows) ==> a.Write? && Truthful(a.key, a.value, l)
  {
    RowsAreStored(rows, RowsOf(t.shards, s), query);
    StoredReceivers(s, rows, t, l);
    ReceiverWritesTruthful(s, rows, t, l);
  }

  /** Filling the request and finding a row past it is having more rows than requested. */
  lemma FlagMeaning(t: Tables, l: Ledger, s: Shard, start: nat, amount: nat, got: nat)
    requires Holds(t, l) && |Slice(l.shards[s], start, amount)| <= got <= amount
    ensures got == amount && HasIdx(RowsOf(t.shards, s), start + amount) <==> start + amount < |l.shards[s]|
  {
    CountIsCursor(t, l);
  }

  // ---- senders ----

  method SplitSenders(cached: seq<Option<Blob>>, start: nat) returns (r: Result<(seq<Sender>, seq<nat>)>)
    ensures r.Ok? <==> forall i :: 0 <= i < |cached| && cached[i].Some? ==> cached[i].value.SenderBlob?
    ensures r.Ok? ==> EncodeSenders(r.value.0) == Hits(cached) && r.value.1 == Misses(cached, start)
  {
    var hits: seq<Sender>, query: seq<nat> := [], [];
    for k := 0 to |cached|
      invariant EncodeSenders(hits) == Hits(cached[..k]) && query == Misses(cached[..k], start)
      invariant forall i :: 0 <= i < k && cached[i].Some? ==> cached[i].value.SenderBlob?
    {
      assert cached[..k + 1][..k] == cached[..k];
      if cached[k].Some? {
        var v := DecodeSender(cached[k].value);
        if v.Err? { return Err(v.error); }
        hits := hits + [v.value];
      } else {
        query := query + [start + k];
      }
    }
    assert cached[..|cached|] == cached;
    r := Ok((hits, query));
  }

  method DecodeSenderRows(rows: seq<Row>) returns (r: Result<(seq<Sender>, seq<Access>)>)
    ensures r.Ok? <==> forall i :: 0 <= i < |rows| ==> rows[i].content.SenderBlob?
    ensures r.Ok? ==> EncodeSenders(r.value.0) == Values(rows) && r.value.1 == SenderWrites(rows)
  {
    var found: seq<Sender>, writeBack: seq<Access> := [], [];
    for k := 0 to |rows|
      invariant EncodeSenders(found) == Values(rows[..k]) && writeBack == SenderWrites(rows[..k])
      invariant forall i :: 0 <= i < k ==> rows[i].content.SenderBlob?
    {
      assert rows[..k + 1] == rows[..k] + [rows[k]];
      assert Values(rows[..k + 1]) == Values(rows[..k]) + [rows[k].content];
      var v := DecodeSender(rows[k].content);
      if v.Err? { return Err(v.error); }
      EncodedSenders(found, [v.value], [], 0, 0);
      writeBack := writeBack + [Write(SenderFields(rows[k].idx), SenderBlob(v.value))];
      found := found + [v.value];
    }
    assert rows[..|rows|] == rows;
    r := Ok((found, writeBack));
  }

  /** Hits and rows, decoded, are what cache and table together show of the window. */
  lemma SenderOverlay(stored: seq<Row>, xs: seq<Sender>, start: nat, cached: seq<Option<Blob>>, found: seq<Row>,
                      got: seq<Sender>)
    requires Dense(stored, EncodeSenders(xs)) && multiset(found) == multiset(Matching(stored, Misses(cached, start)))
    requires EncodeSenders(got) == Hits(cached) + Values(found)
    ensures multiset(EncodeSenders(got)) == multiset(Overlay(cached, start, EncodeSenders(xs)))
    ensures |Slice(xs, start, |cached|)| <= |got| <= |cached|
  {
    ReadThrough(cached, start, stored, EncodeSenders(xs), found, EncodeSenders(got));
    OverlayLength(cached, start, EncodeSenders(xs));
    BagSize(EncodeSenders(got), Overlay(cached, start, EncodeSenders(xs)));
  }

  lemma SenderBatch(m: map<Key, Blob>, l: Ledger, start: nat, n: nat, stored: seq<Row>, found: seq<Row>,
                    got: seq<Sender>)
    requires Coherent(m, l) && Dense(stored, EncodeSenders(l.senders))
    requires multiset(found) == multiset(Matching(stored, Misses(Answers(m, SenderKeys(start, n)), start)))
    requires EncodeSenders(got) == Hits(Answers(m, SenderKeys(start, n))) + Values(found)
    ensures multiset(EncodeSenders(got)) == multiset(Seen(m, l, start, n)) && SendersPulled(l, start, n, got)
  {
    SenderOverlay(stored, l.senders, start, Answers(m, SenderKeys(start, n)), found, got);
    if NoAlias(start, n, |l.senders|) {
      SeenWindow(m, l, start, n);
      EncodedSenders([], [], l.senders, start, n);
      DecodeSendersBag(got, Slice(l.senders, start, n));
    }
  }

  /** Rows that a query returned decode, and may be written back. */
  lemma SenderRowFacts(rows: seq<Row>, query: seq<nat>, t: Tables, l: Ledger)
    requires Holds(t, l) && |l.senders| <= TWO_48 && multiset(rows) == multiset(Matching(t.nullifier, query))
    ensures forall i :: 0 <= i < |rows| ==> rows[i].content.SenderBlob?
    ensures forall a :: a in SenderWrites(rows) ==> a.Write? && Truthful(a.key, a.value, l)
  {
    RowsAreStored(rows, t.nullifier, query);
    StoredSenders(rows, t, l);
    SenderWritesTruthful(rows, t, l);
  }

  lemma SenderGate(t: Tables, l: Ledger, i: nat, present: bool)
    requires Holds(t, l) && present == HasIdx(t.nullifier, i)
    ensures present <==> i < |l.senders|
  {
    CountIsCursor(t, l);
  }
}
