/** The cache refresh after a commit (src/indexer/sync.rs:163-182): the entries that a batch puts into the cache, and
    what the cache holds of the ledger afterwards. */
module Refresh {
  import opened Types
  import opened Keys
  import opened Lru
  import opened Rows
  import opened Db
  import opened Coherence
  import opened Partition
  import opened Effects
  import opened Pull
  import opened Commit
  import opened FullNode

  /** The cache writes for the receivers of a batch, shard by shard. */
  function RefreshReceivers(order: seq<Shard>, base: Cursors, rs: seq<Receiver>): seq<Access> {
    if order == [] then []
    else
      var s := order[|order| - 1];
      RefreshReceivers(order[..|order| - 1], base, rs) + ReceiverWrites(s, Numbered(base[s], GroupOf(rs, s)))
  }

  lemma {:induction false} RunConcat(c: LruCache, a: seq<Access>, b: seq<Access>)
    requires c.Valid()
    ensures Run(c, a + b).0 == Run(Run(c, a).0, b).0
  {
    if b == [] {
      assert a + b == a;
    } else {
      assert (a + b)[..|a + b| - 1] == a + b[..|b| - 1];
      RunConcat(c, a, b[..|b| - 1]);
    }
  }

  /** Once committed, a batch is where its cursor says. */
  lemma ExtendedServes(l: Ledger, resp: PullResponse)
    requires |l.shards| == FOREST_WIDTH
    ensures Serves(Extended(l, resp.receivers, resp.senders), CursorOf(l), resp)
  {
  }

  lemma PartItem<T>(g: seq<T>, xs: seq<T>, base: nat, i: nat)
    requires PartAt(g, xs, base) && i < |g|
    ensures base + i < |xs| && xs[base + i] == g[i]
  {
    assert xs[base..base + |g|][i] == xs[base + i];
  }

  lemma ReceiverEntry(l: Ledger, s: Shard, g: seq<Receiver>, base: nat, i: nat)
    requires |l.shards| == FOREST_WIDTH && |l.shards[s]| <= TWO_48 && PartAt(g, l.shards[s], base) && i < |g|
    ensures Truthful(ReceiverFields(s, base + i), ReceiverBlob(g[i]), l)
  {
    PartItem(g, l.shards[s], base, i);
  }

  lemma SenderEntry(l: Ledger, ss: seq<Sender>, base: nat, i: nat)
    requires |l.shards| == FOREST_WIDTH && |l.senders| <= TWO_48 && PartAt(ss, l.senders, base) && i < |ss|
    ensures Truthful(SenderFields(base + i), SenderBlob(ss[i]), l)
  {
    PartItem(ss, l.senders, base, i);
  }

  lemma ReceiversTruthful(l: Ledger, s: Shard, g: seq<Receiver>, base: nat, writes: seq<Access>)
    requires |l.shards| == FOREST_WIDTH && |l.shards[s]| <= TWO_48 && PartAt(g, l.shards[s], base)
    requires writes == ReceiverWrites(s, Numbered(base, g))
    ensures forall a :: a in writes ==> a.Write? && Truthful(a.key, a.value, l)
  {
    forall i | 0 <= i < |g| ensures writes[i].Write? && Truthful(writes[i].key, writes[i].value, l) {
      ReceiverEntry(l, s, g, base, i);
    }
  }

  lemma SendersTruthful(l: Ledger, ss: seq<Sender>, base: nat, writes: seq<Access>)
    requires |l.shards| == FOREST_WIDTH && |l.senders| <= TWO_48 && PartAt(ss, l.senders, base)
    requires writes == SenderWrites(NumberedSenders(base, ss))
    ensures forall a :: a in writes ==> a.Write? && Truthful(a.key, a.value, l)
  {
    forall i | 0 <= i < |ss| ensures writes[i].Write? && Truthful(writes[i].key, writes[i].value, l) {
      SenderEntry(l, ss, base, i);
    }
  }

  /** Every cache entry made from a stored batch is truthful. */
  lemma BatchReceiversTruthful(l: Ledger, cp: Checkpoint, resp: PullResponse, s: Shard)
    requires Serves(l, cp, resp) && Fits(l, 0)
    ensures forall a :: a in ReceiverWrites(s, Numbered(cp.receiverIndex[s], GroupOf(resp.receivers, s))) ==>
              a.Write? && Truthful(a.key, a.value, l)
  {
    var g, base := GroupOf(resp.receivers, s), cp.receiverIndex[s];
    assert PartAt(g, l.shards[s], base) && |l.shards[s]| <= TWO_48;
    ReceiversTruthful(l, s, g, base, ReceiverWrites(s, Numbered(base, g)));
  }

  lemma BatchSendersTruthful(l: Ledger, cp: Checkpoint, resp: PullResponse)
    requires Serves(l, cp, resp) && Fits(l, 0)
    ensures forall a :: a in SenderWrites(NumberedSenders(cp.senderIndex, resp.senders)) ==>
              a.Write? && Truthful(a.key, a.value, l)
  {
    SendersTruthful(l, resp.senders, cp.senderIndex, SenderWrites(NumberedSenders(cp.senderIndex, resp.senders)));
  }

  /** The cache writes of a round. */
  function RefreshWrites(listing: seq<Shard>, cp: Checkpoint, resp: PullResponse): seq<Access> {
    RefreshReceivers(listing, cp.receiverIndex, resp.receivers)
      + SenderWrites(NumberedSenders(cp.senderIndex, resp.senders))
  }

  // ---- what the cache holds afterwards ----

  /** How many items of the shards in `order` a batch has, shard by shard. */
  function ListedLens(order: seq<Shard>, rs: seq<Receiver>): Cursors {
    seq(FOREST_WIDTH, s requires 0 <= s < FOREST_WIDTH => if s in order then |GroupOf(rs, s)| else 0)
  }

  lemma {:induction false} RefreshLens(order: seq<Shard>, base: Cursors, rs: seq<Receiver>)
    requires Distinct(order)
    ensures |RefreshReceivers(order, base, rs)| == Sum(ListedLens(order, rs))
  {
    if order == [] {
      SumZero(ListedLens(order, rs));
    } else {
      var n := |order| - 1;
      var front, s := order[..n], order[n];
      RefreshLens(front, base, rs);
      SumUpdate(ListedLens(front, rs), s, |GroupOf(rs, s)|);
      assert order == front + [s];
      assert ListedLens(order, rs) == ListedLens(front, rs)[s := |GroupOf(rs, s)|];
    }
  }

  lemma RefreshSize(order: seq<Shard>, base: Cursors, rs: seq<Receiver>)
    requires Distinct(order) && AllPlaced(rs)
    ensures |RefreshReceivers(order, base, rs)| <= |rs|
  {
    RefreshLens(order, base, rs);
    GroupLensSum(rs);
    SumMonotone(ListedLens(order, rs), GroupLens(rs));
  }

  lemma {:induction false} RefreshHas(order: seq<Shard>, base: Cursors, rs: seq<Receiver>, s: Shard, i: nat)
    returns (a: Access)
    requires s in order && i < |GroupOf(rs, s)|
    ensures a in RefreshReceivers(order, base, rs) && a.key == ReceiverFields(s, base[s] + i)
  {
    var n := |order| - 1;
    if order[n] == s {
      var writes := ReceiverWrites(s, Numbered(base[s], GroupOf(rs, s)));
      a := writes[i];
      assert a in writes;
    } else {
      a := RefreshHas(order[..n], base, rs, s, i);
    }
  }

  /** Each item of the batch is in the cache, under its own key. */
  ghost predicate BatchCached(m: map<Key, Blob>, cp: Checkpoint, resp: PullResponse) {
    && (forall s: Shard, i: nat :: i < |GroupOf(resp.receivers, s)| ==>
          Lookup(m, ReceiverFields(s, cp.receiverIndex[s] + i)) == Some(ReceiverBlob(GroupOf(resp.receivers, s)[i])))
    && (forall i: nat :: i < |resp.senders| ==>
          Lookup(m, SenderFields(cp.senderIndex + i)) == Some(SenderBlob(resp.senders[i])))
  }

  /** The keys of the batch are in the cache. */
  ghost predicate BatchKeys(m: map<Key, Blob>, cp: Checkpoint, resp: PullResponse) {
    && (forall s: Shard, i: nat :: cp.receiverIndex[s] <= i < cp.receiverIndex[s] + |GroupOf(resp.receivers, s)| ==>
          ReceiverFields(s, i) in m)
    && (forall i: nat :: cp.senderIndex <= i < cp.senderIndex + |resp.senders| ==> SenderFields(i) in m)
  }

  lemma WritesBatchKeys(order: seq<Shard>, cp: Checkpoint, resp: PullResponse, m: map<Key, Blob>)
    requires Listing(order, resp.receivers)
    requires forall a :: a in RefreshWrites(order, cp, resp) ==> a.key in m
    ensures BatchKeys(m, cp, resp)
  {
    var base := cp.receiverIndex;
    forall s: Shard, i: nat | base[s] <= i < base[s] + |GroupOf(resp.receivers, s)| ensures ReceiverFields(s, i) in m {
      var a := RefreshHas(order, base, resp.receivers, s, i - base[s]);
      assert a in RefreshWrites(order, cp, resp);
    }
    forall i: nat | cp.senderIndex <= i < cp.senderIndex + |resp.senders| ensures SenderFields(i) in m {
      var writes := SenderWrites(NumberedSenders(cp.senderIndex, resp.senders));
      var a := writes[i - cp.senderIndex];
      assert a in writes && a.key == SenderFields(i);
      assert a in RefreshWrites(order, cp, resp);
    }
  }

  lemma KeysTellBatch(m: map<Key, Blob>, l: Ledger, cp: Checkpoint, resp: PullResponse)
    requires Coherent(m, l) && Fits(l, 0) && Serves(l, cp, resp) && BatchKeys(m, cp, resp)
    ensures BatchCached(m, cp, resp)
  {
    forall s: Shard, i: nat | i < |GroupOf(resp.receivers, s)|
      ensures Lookup(m, ReceiverFields(s, cp.receiverIndex[s] + i)) == Some(ReceiverBlob(GroupOf(resp.receivers, s)[i]))
    {
      PartItem(GroupOf(resp.receivers, s), l.shards[s], cp.receiverIndex[s], i);
      KeyTellsReceiver(m, l, s, cp.receiverIndex[s] + i);
    }
    forall i: nat | i < |resp.senders|
      ensures Lookup(m, SenderFields(cp.senderIndex + i)) == Some(SenderBlob(resp.senders[i]))
    {
      PartItem(resp.senders, l.senders, cp.senderIndex, i);
      KeyTellsSender(m, l, cp.senderIndex + i);
    }
  }

  lemma {:induction false} RefreshOnlyWrites(order: seq<Shard>, base: Cursors, rs: seq<Receiver>)
    ensures forall a :: a in RefreshReceivers(order, base, rs) ==> a.Write?
  {
    if order != [] { RefreshOnlyWrites(order[..|order| - 1], base, rs); }
  }

  /** With room for the batch, all of it is in the cache after the refresh, and nothing was lost. */
  lemma RefreshCaches(c: LruCache, l: Ledger, order: seq<Shard>, cp: Checkpoint, resp: PullResponse, c': LruCache)
    requires c.Valid() && NoRepeat(c.entries) && c' == Run(c, RefreshWrites(order, cp, resp)).0
    requires Listing(order, resp.receivers) && AllPlaced(resp.receivers)
    requires Serves(l, cp, resp) && Fits(l, 0) && Coherent(Contents(c'.entries), l)
    ensures Gained(c, |resp.receivers| + |resp.senders|, c')
    ensures Room(c, |resp.receivers| + |resp.senders|) ==> BatchCached(Contents(c'.entries), cp, resp)
  {
    var batch := RefreshWrites(order, cp, resp);
    RefreshOnlyWrites(order, cp.receiverIndex, resp.receivers);
    RefreshSize(order, cp.receiverIndex, resp.receivers);
    PutGains(c, batch, c');
    GainedMore(c, |batch|, c', |resp.receivers| + |resp.senders|);
    if Room(c, |resp.receivers| + |resp.senders|) {
      WritesBatchKeys(order, cp, resp, Contents(c'.entries));
      KeysTellBatch(Contents(c'.entries), l, cp, resp);
    }
  }

  // ---- over several rounds ----

  /** Everything from the cursor on is in the cache. */
  ghost predicate CachedFrom(m: map<Key, Blob>, l: Ledger, from: Checkpoint)
    requires |l.shards| == FOREST_WIDTH
  {
    && (forall s: Shard, i: nat :: from.receiverIndex[s] <= i < |l.shards[s]| ==> HasReceiver(m, l, s, i))
    && (forall i: nat :: from.senderIndex <= i < |l.senders| ==> HasSender(m, l, i))
  }

  /** From the cache c over the ledger l to the cache c' over l': with room for what was added to the ledger, all of
      that is in the cache, and nothing was lost. */
  ghost predicate Warm(c: LruCache, l: Ledger, c': LruCache, l': Ledger) {
    && |l.shards| == |l'.shards| == FOREST_WIDTH && Items(l) <= Items(l')
    && Gained(c, Items(l') - Items(l), c')
    && (Room(c, Items(l') - Items(l)) ==> CachedFrom(Contents(c'.entries), l', CursorOf(l)))
  }

  lemma WarmStart(c: LruCache, l: Ledger)
    requires |l.shards| == FOREST_WIDTH
    ensures Warm(c, l, c, l)
  {
  }

  lemma BatchWarms(c: LruCache, l: Ledger, resp: PullResponse, c': LruCache, l': Ledger)
    requires |l.shards| == FOREST_WIDTH && AllPlaced(resp.receivers)
    requires l' == Extended(l, resp.receivers, resp.senders) && Gained(c, |resp.receivers| + |resp.senders|, c')
    requires Room(c, |resp.receivers| + |resp.senders|) ==> BatchCached(Contents(c'.entries), CursorOf(l), resp)
    ensures Warm(c, l, c', l')
  {
    ExtendedItems(l, resp.receivers, resp.senders);
    if Room(c, |resp.receivers| + |resp.senders|) {
      BatchCachedFrom(Contents(c'.entries), l, resp);
    }
  }

  lemma BatchCachedFrom(m: map<Key, Blob>, l: Ledger, resp: PullResponse)
    requires |l.shards| == FOREST_WIDTH && BatchCached(m, CursorOf(l), resp)
    ensures CachedFrom(m, Extended(l, resp.receivers, resp.senders), CursorOf(l))
  {
    var l' := Extended(l, resp.receivers, resp.senders);
    forall s: Shard, i: nat | |l.shards[s]| <= i < |l'.shards[s]| ensures HasReceiver(m, l', s, i) {
      assert Lookup(m, ReceiverFields(s, |l.shards[s]| + (i - |l.shards[s]|)))
          == Some(ReceiverBlob(GroupOf(resp.receivers, s)[i - |l.shards[s]|]));
    }
    forall i: nat | |l.senders| <= i < |l'.senders| ensures HasSender(m, l', i) {
      var k := i - |l.senders|;
      assert Lookup(m, SenderFields(|l.senders| + k)) == Some(SenderBlob(resp.senders[k]));
    }
  }

  lemma WarmThrough(c: LruCache, l: Ledger, c1: LruCache, l1: Ledger, c2: LruCache, l2: Ledger)
    requires Warm(c, l, c1, l1) && Warm(c1, l1, c2, l2) && l1.PrefixOf(l2)
    requires Coherent(Contents(c2.entries), l2) && Fits(l2, 0)
    ensures Warm(c, l, c2, l2)
  {
    GainedJoin(c, Items(l1) - Items(l), c1, Items(l2) - Items(l1), c2);
    if Room(c, Items(l2) - Items(l)) {
      CachedOn(Contents(c1.entries), l1, CursorOf(l), Contents(c2.entries), l2);
    }
  }

  /** What was cached stays so in a larger truthful cache of a longer ledger. */
  lemma CachedOn(m: map<Key, Blob>, l: Ledger, from: Checkpoint, m': map<Key, Blob>, l': Ledger)
    requires l.PrefixOf(l') && CachedFrom(m, l, from) && m.Keys <= m'.Keys
    requires CachedFrom(m', l', CursorOf(l)) && Coherent(m', l') && Fits(l', 0)
    ensures CachedFrom(m', l', from)
  {
    forall s: Shard, i: nat | from.receiverIndex[s] <= i < |l'.shards[s]| ensures HasReceiver(m', l', s, i) {
      if i < |l.shards[s]| {
        assert HasReceiver(m, l, s, i);
        KeyTellsReceiver(m', l', s, i);
      }
    }
    forall i: nat | from.senderIndex <= i < |l'.senders| ensures HasSender(m', l', i) {
      if i < |l.senders| {
        assert HasSender(m, l, i);
        KeyTellsSender(m', l', i);
      }
    }
  }
}
