/** What pulling and syncing do to the cache, seen through its contents: what is put there stays there as long as there
    is room (src/indexer/pull.rs:132-149, src/indexer/sync.rs:163-182). */
module Effects {
  import opened Types
  import opened Keys
  import opened Lru
  import opened Rows
  import opened Db
  import opened Coherence

  function Size(c: LruCache): nat { |Contents(c.entries).Keys| }

  /** n more entries would fit. */
  predicate Room(c: LruCache, n: nat) { Size(c) + n <= c.cap }

  /** From c to c' at most n keys were added, and none was lost if there was room for n. */
  ghost predicate Gained(c: LruCache, n: nat, c': LruCache) {
    && c'.cap == c.cap && Size(c') <= Size(c) + n
    && (Room(c, n) ==> Contents(c.entries).Keys <= Contents(c'.entries).Keys)
  }

  lemma GainedJoin(c: LruCache, n: nat, c1: LruCache, n1: nat, c2: LruCache)
    requires Gained(c, n, c1) && Gained(c1, n1, c2)
    ensures Gained(c, n + n1, c2)
  {
  }

  lemma GainedMore(c: LruCache, n: nat, c': LruCache, n': nat)
    requires Gained(c, n, c') && n <= n'
    ensures Gained(c, n', c')
  {
  }

  lemma {:induction false} WriteKeysSize(batch: seq<Access>)
    ensures |WriteKeys(batch)| <= |batch|
  {
    if batch != [] {
      var n := |batch| - 1;
      WriteKeysSize(batch[..n]);
      assert batch == batch[..n] + [batch[n]];
      assert WriteKeys(batch) == WriteKeys(batch[..n]) + {batch[n].key};
    }
  }

  /** A batch of insertions: with room, every key of the batch is there afterwards. */
  lemma PutGains(c: LruCache, batch: seq<Access>, c': LruCache)
    requires c.Valid() && NoRepeat(c.entries) && (forall a :: a in batch ==> a.Write?) && c' == Run(c, batch).0
    ensures Gained(c, |batch|, c')
    ensures Room(c, |batch|) ==> forall a :: a in batch ==> a.key in Contents(c'.entries)
  {
    var keys := Contents(c.entries).Keys;
    WriteKeysSize(batch);
    WritesKeepRecent(c, batch);
    WritesPutEvict(c, batch);
    KeysBound(Contents(c.entries), batch, Contents(c'.entries));
    UnionSize(keys, WriteKeys(batch));
    if Room(c, |batch|) {
      WritesKeepAll(c, batch);
      OverwrittenKeys(Contents(c.entries), batch);
      forall a | a in batch ensures a.key in Contents(c'.entries) {
        assert a.key in WriteKeys(batch);
      }
    }
  }

  lemma UnionSize<T>(a: set<T>, b: set<T>)
    ensures |a + b| <= |a| + |b|
  {
    assert a + b == a + (b - a);
    SubsetSize(b - a, b);
  }

  lemma KeysBound(m: map<Key, Blob>, batch: seq<Access>, m': map<Key, Blob>)
    requires PutEvict(m, batch, m')
    ensures m'.Keys <= m.Keys + WriteKeys(batch) && |m'.Keys| <= |m.Keys + WriteKeys(batch)|
  {
    forall k | k in m'.Keys ensures k in m.Keys + WriteKeys(batch) {
      if Write(k, m'[k]) in batch {
        assert Write(k, m'[k]).key in WriteKeys(batch);
      }
    }
    SubsetSize(m'.Keys, m.Keys + WriteKeys(batch));
  }

  // ---- entries of a ledger ----

  ghost predicate HasReceiver(m: map<Key, Blob>, l: Ledger, s: Shard, i: nat)
    requires |l.shards| == FOREST_WIDTH
  {
    i < |l.shards[s]| && Lookup(m, ReceiverFields(s, i)) == Some(ReceiverBlob(l.shards[s][i]))
  }

  ghost predicate HasSender(m: map<Key, Blob>, l: Ledger, i: nat) {
    i < |l.senders| && Lookup(m, SenderFields(i)) == Some(SenderBlob(l.senders[i]))
  }

  /** In a coherent cache the key alone tells the value. */
  lemma KeyTellsReceiver(m: map<Key, Blob>, l: Ledger, s: Shard, i: nat)
    requires Coherent(m, l) && |l.shards| == FOREST_WIDTH && i < |l.shards[s]| <= TWO_48 && ReceiverFields(s, i) in m
    ensures HasReceiver(m, l, s, i)
  {
    assert ReceiverFields(s, i) == Key(1, s, i);
  }

  lemma KeyTellsSender(m: map<Key, Blob>, l: Ledger, i: nat)
    requires Coherent(m, l) && i < |l.senders| <= TWO_48 && SenderFields(i) in m
    ensures HasSender(m, l, i)
  {
    assert SenderFields(i) == Key(2, 0, i);
  }

  // ---- a shard's pull ----

  /** Only entries of shard s may be new. */
  ghost predicate OnlyShard(m: map<Key, Blob>, m': map<Key, Blob>, s: Shard) {
    forall k :: k in m' ==> (k.prefix == 1 && k.sub == s) || (k in m && m'[k] == m[k])
  }

  lemma PutOnlyShard(m: map<Key, Blob>, s: Shard, rows: seq<Row>, m': map<Key, Blob>)
    requires PutEvict(m, ReceiverWrites(s, rows), m')
    ensures OnlyShard(m, m', s)
  {
    forall k | k in m' && !(k in m && m'[k] == m[k]) ensures k.prefix == 1 && k.sub == s {
      var i :| 0 <= i < |rows| && ReceiverWrites(s, rows)[i] == Write(k, m'[k]);
    }
  }

  /** Entries of the shards from s on, and of the senders, are none but those of m0. */
  ghost predicate Unread(m0: map<Key, Blob>, m: map<Key, Blob>, s: nat) {
    forall k :: k in m && (k.prefix != 1 || k.sub >= s) ==> k in m0 && m[k] == m0[k]
  }

  lemma UnreadStep(m0: map<Key, Blob>, m: map<Key, Blob>, s: Shard, m': map<Key, Blob>)
    requires Unread(m0, m, s) && OnlyShard(m, m', s)
    ensures Unread(m0, m', s + 1)
  {
  }

  /** The answers come from cache m0, which may have lost entries since. */
  ghost predicate AnsweredBy(m0: map<Key, Blob>, keys: seq<Key>, cached: seq<Option<Blob>>) {
    && |cached| == |keys|
    && forall k :: 0 <= k < |keys| && cached[k].Some? ==> cached[k] == Lookup(m0, keys[k])
  }

  lemma UnreadAnswers(m0: map<Key, Blob>, m: map<Key, Blob>, s: Shard, start: nat, n: nat)
    requires Unread(m0, m, s)
    ensures AnsweredBy(m0, ReceiverKeys(s, start, n), Answers(m, ReceiverKeys(s, start, n)))
    ensures m0.Keys <= m.Keys ==> Answers(m, ReceiverKeys(s, start, n)) == Answers(m0, ReceiverKeys(s, start, n))
  {
    var keys := ReceiverKeys(s, start, n);
    forall k | 0 <= k < n
      ensures Lookup(m, keys[k]).Some? ==> Lookup(m, keys[k]) == Lookup(m0, keys[k])
      ensures m0.Keys <= m.Keys ==> Lookup(m, keys[k]) == Lookup(m0, keys[k])
    {
      assert keys[k] == ReceiverFields(s, start + k);
    }
  }

  lemma UnreadSenders(m0: map<Key, Blob>, m: map<Key, Blob>, start: nat, n: nat)
    requires Unread(m0, m, FOREST_WIDTH)
    ensures AnsweredBy(m0, SenderKeys(start, n), Answers(m, SenderKeys(start, n)))
    ensures m0.Keys <= m.Keys ==> Answers(m, SenderKeys(start, n)) == Answers(m0, SenderKeys(start, n))
  {
    var keys := SenderKeys(start, n);
    forall k | 0 <= k < n
      ensures Lookup(m, keys[k]).Some? ==> Lookup(m, keys[k]) == Lookup(m0, keys[k])
      ensures m0.Keys <= m.Keys ==> Lookup(m, keys[k]) == Lookup(m0, keys[k])
    {
      assert keys[k] == SenderFields(start + k);
    }
  }

  /** The rows that the cache missed, once written, and the entries it had, are all of the window. */
  lemma WindowKeys(m: map<Key, Blob>, m': map<Key, Blob>, s: Shard, start: nat, n: nat, stored: seq<Row>,
                   xs: seq<Blob>, rows: seq<Row>, i: nat)
    requires Dense(stored, xs) && m.Keys <= m'.Keys && start <= i < start + n && i < |xs|
    requires multiset(rows) == multiset(Matching(stored, Misses(Answers(m, ReceiverKeys(s, start, n)), start)))
    requires forall r :: r in rows ==> ReceiverFields(s, r.idx) in m'
    ensures ReceiverFields(s, i) in m'
  {
    var keys := ReceiverKeys(s, start, n);
    assert keys[i - start] == ReceiverFields(s, i);
    MissedIsFound(Answers(m, keys), start, stored, xs, rows, i);
  }

  lemma SenderWindowKeys(m: map<Key, Blob>, m': map<Key, Blob>, start: nat, n: nat, stored: seq<Row>, xs: seq<Blob>,
                         rows: seq<Row>, i: nat)
    requires Dense(stored, xs) && m.Keys <= m'.Keys && start <= i < start + n && i < |xs|
    requires multiset(rows) == multiset(Matching(stored, Misses(Answers(m, SenderKeys(start, n)), start)))
    requires forall r :: r in rows ==> SenderFields(r.idx) in m'
    ensures SenderFields(i) in m'
  {
    var keys := SenderKeys(start, n);
    assert keys[i - start] == SenderFields(i);
    MissedIsFound(Answers(m, keys), start, stored, xs, rows, i);
  }

  /** A missed index that is stored comes back from the query. */
  lemma MissedIsFound(cached: seq<Option<Blob>>, start: nat, stored: seq<Row>, xs: seq<Blob>, rows: seq<Row>, i: nat)
    requires Dense(stored, xs) && start <= i < start + |cached| && i < |xs|
    requires multiset(rows) == multiset(Matching(stored, Misses(cached, start)))
    ensures cached[i - start].None? ==> Row(i, xs[i]) in rows
  {
    if cached[i - start].None? {
      var r := Row(i, xs[i]);
      MissesMember(cached, start, i);
      assert Image(xs)[i] == r;
      assert r in multiset(stored);
      MatchingCount(stored, Misses(cached, start), r);
      assert r in multiset(rows);
    }
  }
}
