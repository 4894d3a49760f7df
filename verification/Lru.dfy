/** The LRU cache and its sharded variant (src/indexer/cache.rs). */
module Lru {
  import opened Types
  import opened Keys

  datatype Entry = Entry(key: Key, value: Blob)

  /** No key has two entries. */
  predicate NoRepeat(es: seq<Entry>) {
    forall i, j :: 0 <= i < j < |es| ==> es[i].key != es[j].key
  }

  /** A bounded cache: entries from the most to the least recently used. */
  datatype LruCache = LruCache(cap: nat, entries: seq<Entry>) {
    predicate Valid() { 1 <= cap && |entries| <= cap }
  }

  /** The map that a list of entries stands for. */
  function Contents(es: seq<Entry>): map<Key, Blob> {
    if es == [] then map[] else Contents(es[1..])[es[0].key := es[0].value]
  }

  function Lookup(m: map<Key, Blob>, k: Key): Option<Blob> {
    if k in m then Some(m[k]) else None
  }

  function Without(es: seq<Entry>, k: Key): (r: seq<Entry>)
    ensures |r| <= |es| && (k in Contents(es) ==> |r| < |es|)
  {
    if es == [] then [] else (if es[0].key == k then [] else [es[0]]) + Without(es[1..], k)
  }

  /** A look-up or an insertion. */
  datatype Access = Read(key: Key) | Write(key: Key, value: Blob)

  /** `get` moves the entry to the front; `put` does too, and drops the last entry when a new key meets a full cache. */
  function Apply(c: LruCache, a: Access): (r: (LruCache, Option<Blob>))
    requires c.Valid()
    ensures r.0.Valid() && r.0.cap == c.cap
  {
    var found := Lookup(Contents(c.entries), a.key);
    var rest := Without(c.entries, a.key);
    match a
    case Read(k) =>
      if found.None? then (c, None) else (c.(entries := [Entry(k, found.value)] + rest), found)
    case Write(k, v) =>
      var kept := if found.None? && |c.entries| == c.cap then c.entries[..|c.entries| - 1]
                  else if found.None? then c.entries else rest;
      (c.(entries := [Entry(k, v)] + kept), found)
  }

  /** Accesses in order, with the answer of each. */
  function Run(c: LruCache, ops: seq<Access>): (r: (LruCache, seq<Option<Blob>>))
    requires c.Valid()
    ensures r.0.Valid() && |r.1| == |ops|
  {
    if ops == [] then (c, [])
    else
      var before := Run(c, ops[..|ops| - 1]);
      var (c', v) := Apply(before.0, ops[|ops| - 1]);
      (c', before.1 + [v])
  }

  // ---- what one cache holds ----

  lemma {:induction false} ContentsWithout(es: seq<Entry>, k: Key)
    ensures Contents(Without(es, k)) == Contents(es) - {k}
  {
    if es != [] {
      ContentsWithout(es[1..], k);
      var w := Without(es, k);
      if es[0].key != k {
        assert w == [es[0]] + Without(es[1..], k);
        assert w[1..] == Without(es[1..], k);
      } else {
        assert w == Without(es[1..], k);
      }
    }
  }

  lemma {:induction false} ContentsKeys(es: seq<Entry>, k: Key)
    ensures k in Contents(es) <==> exists i :: 0 <= i < |es| && es[i].key == k
  {
    if es != [] {
      ContentsKeys(es[1..], k);
      assert es == [es[0]] + es[1..];
    }
  }

  lemma {:induction false} WithoutKeys(es: seq<Entry>, k: Key)
    requires NoRepeat(es)
    ensures var r := Without(es, k); NoRepeat(r) && forall i :: 0 <= i < |r| ==> r[i].key != k && r[i] in es
  {
    if es != [] { WithoutKeys(es[1..], k); }
  }

  lemma PushNoRepeat(e: Entry, es: seq<Entry>)
    requires NoRepeat(es) && forall i :: 0 <= i < |es| ==> es[i].key != e.key
    ensures NoRepeat([e] + es)
  {
  }

  /** No access gives a key a second entry. */
  lemma AccessNoRepeat(c: LruCache, a: Access)
    requires c.Valid() && NoRepeat(c.entries)
    ensures NoRepeat(Apply(c, a).0.entries)
  {
    var es, found := c.entries, Lookup(Contents(c.entries), a.key);
    WithoutKeys(es, a.key);
    ContentsKeys(es, a.key);
    if found.Some? {
      PushNoRepeat(Entry(a.key, if a.Write? then a.value else found.value), Without(es, a.key));
    } else if a.Write? {
      PushNoRepeat(Entry(a.key, a.value), if |es| == c.cap then es[..|es| - 1] else es);
    }
  }

  lemma {:induction false} ContentsSize(es: seq<Entry>)
    requires NoRepeat(es)
    ensures |Contents(es)| == |es|
  {
    if es != [] {
      ContentsSize(es[1..]);
      ContentsKeys(es[1..], es[0].key);
      assert Contents(es).Keys == Contents(es[1..]).Keys + {es[0].key};
    }
  }

  /** Dropping the last entry takes its key out of the map, and nothing else. */
  lemma {:induction false} ContentsDropLast(es: seq<Entry>)
    requires es != [] && NoRepeat(es)
    ensures Contents(es[..|es| - 1]) == Contents(es) - {es[|es| - 1].key}
  {
    var last := |es| - 1;
    if last > 0 {
      assert es[..last][1..] == es[1..][..last - 1];
      ContentsDropLast(es[1..]);
      assert es[1..][|es[1..]| - 1] == es[last];
    }
  }

  /** A look-up answers from the contents and leaves them alone. */
  lemma ReadKeepsContents(c: LruCache, k: Key)
    requires c.Valid()
    ensures Contents(Apply(c, Read(k)).0.entries) == Contents(c.entries)
    ensures Apply(c, Read(k)).1 == Lookup(Contents(c.entries), k)
  {
    ContentsWithout(c.entries, k);
    var c' := Apply(c, Read(k)).0;
    if k in Contents(c.entries) {
      assert c'.entries[1..] == Without(c.entries, k);
    }
  }

  /** An insertion binds its key. When a new key meets a full cache, the least recently used entry goes; otherwise
      nothing does. */
  lemma WriteContents(c: LruCache, k: Key, v: Blob)
    requires c.Valid() && NoRepeat(c.entries)
    ensures var m, es := Contents(c.entries), c.entries;
            Contents(Apply(c, Write(k, v)).0.entries)
            == (if k !in m && |es| == c.cap then m - {es[|es| - 1].key} else m)[k := v]
  {
    ContentsWithout(c.entries, k);
    var es := Apply(c, Write(k, v)).0.entries;
    assert es[0] == Entry(k, v);
    if k !in Contents(c.entries) && |c.entries| == c.cap {
      ContentsDropLast(c.entries);
      assert es[1..] == c.entries[..|c.entries| - 1];
    } else if k !in Contents(c.entries) {
      assert es[1..] == c.entries;
    } else {
      assert es[1..] == Without(c.entries, k);
    }
  }

  /** Cache `m'` may result from storing `batch` into `m` and evicting anything. */
  ghost predicate PutEvict(m: map<Key, Blob>, batch: seq<Access>, m': map<Key, Blob>) {
    forall k :: k in m' ==> Write(k, m'[k]) in batch || (k in m && m'[k] == m[k])
  }

  function Reads(keys: seq<Key>): seq<Access> {
    seq(|keys|, i requires 0 <= i < |keys| => Read(keys[i]))
  }

  /** A batch of look-ups answers each key from the contents, which it leaves alone. */
  lemma {:induction false} ReadsRefine(c: LruCache, keys: seq<Key>)
    requires c.Valid()
    ensures Contents(Run(c, Reads(keys)).0.entries) == Contents(c.entries)
    ensures forall i :: 0 <= i < |keys| ==> Run(c, Reads(keys)).1[i] == Lookup(Contents(c.entries), keys[i])
  {
    if keys != [] {
      var n := |keys| - 1;
      assert Reads(keys)[..n] == Reads(keys[..n]);
      ReadsRefine(c, keys[..n]);
      ReadKeepsContents(Run(c, Reads(keys[..n])).0, keys[n]);
    }
  }

  function WriteKeys(batch: seq<Access>): set<Key> { set a | a in batch :: a.key }

  /** The map after a batch of insertions that all fit. */
  function Overwritten(m: map<Key, Blob>, batch: seq<Access>): map<Key, Blob>
    requires forall a :: a in batch ==> a.Write?
  {
    if batch == [] then m
    else
      var a := batch[|batch| - 1];
      Overwritten(m, batch[..|batch| - 1])[a.key := a.value]
  }

  /** All entries after a batch of insertions, the most recently used first, if there were no bound. */
  function Recent(es: seq<Entry>, batch: seq<Access>): seq<Entry>
    requires forall a :: a in batch ==> a.Write?
  {
    if batch == [] then es
    else
      var a := batch[|batch| - 1];
      [Entry(a.key, a.value)] + Without(Recent(es, batch[..|batch| - 1]), a.key)
  }

  function Take<T>(xs: seq<T>, n: nat): seq<T> { if |xs| <= n then xs else xs[..n] }

  lemma Regroup<T>(a: seq<T>, b: seq<T>, c: seq<T>)
    ensures (a + b) + c == a + (b + c)
  {
  }

  lemma {:induction false} WithoutConcat(a: seq<Entry>, b: seq<Entry>, k: Key)
    ensures Without(a + b, k) == Without(a, k) + Without(b, k)
  {
    if a == [] {
      assert a + b == b;
    } else {
      WithoutConcat(a[1..], b, k);
      assert (a + b)[1..] == a[1..] + b;
      Regroup(if a[0].key == k then [] else [a[0]], Without(a[1..], k), Without(b, k));
    }
  }

  lemma {:induction false} WithoutAbsent(es: seq<Entry>, k: Key)
    requires forall i :: 0 <= i < |es| ==> es[i].key != k
    ensures Without(es, k) == es
  {
    if es != [] {
      WithoutAbsent(es[1..], k);
      assert es == [es[0]] + es[1..];
    }
  }

  lemma {:induction false} WithoutSize(es: seq<Entry>, k: Key, i: nat)
    requires NoRepeat(es) && i < |es| && es[i].key == k
    ensures |Without(es, k)| == |es| - 1
  {
    if i == 0 {
      WithoutAbsent(es[1..], k);
    } else {
      WithoutSize(es[1..], k, i - 1);
    }
  }

  lemma TakeFront<T>(front: seq<T>, rest: seq<T>, n: nat)
    requires |front| == n || (|front| < n && rest == [])
    ensures Take(front + rest, n) == front
  {
  }

  lemma KeyOnce(es: seq<Entry>, rest: seq<Entry>, i: nat)
    requires NoRepeat(es + rest) && i < |es|
    ensures NoRepeat(es) && forall j :: 0 <= j < |rest| ==> rest[j].key != es[i].key
  {
    var all := es + rest;
    assert forall j :: 0 <= j < |es| ==> all[j] == es[j];
    assert forall j :: 0 <= j < |rest| ==> all[|es| + j] == rest[j];
  }

  lemma RecentHit(es: seq<Entry>, rest: seq<Entry>, e: Entry, cap: nat, i: nat)
    requires NoRepeat(es + rest) && (|es| == cap || (|es| < cap && rest == []))
    requires i < |es| && es[i].key == e.key
    ensures [e] + Without(es, e.key) == Take([e] + Without(es + rest, e.key), cap)
  {
    KeyOnce(es, rest, i);
    WithoutSize(es, e.key, i);
    WithoutAbsent(rest, e.key);
    WithoutConcat(es, rest, e.key);
    Regroup([e], Without(es, e.key), rest);
    TakeFront([e] + Without(es, e.key), rest, cap);
  }

  lemma RecentMiss(es: seq<Entry>, rest: seq<Entry>, e: Entry, cap: nat)
    requires 0 < cap && (|es| == cap || (|es| < cap && rest == []))
    requires forall i :: 0 <= i < |es| ==> es[i].key != e.key
    ensures [e] + Take(es, cap - 1) == Take([e] + Without(es + rest, e.key), cap)
  {
    WithoutAbsent(es, e.key);
    WithoutConcat(es, rest, e.key);
    assert rest == [] ==> Without(rest, e.key) == [];
    assert [e] + (es + Without(rest, e.key)) == ([e] + es) + Without(rest, e.key);
  }

  /** A bounded cache that holds the most recent entries of a list still does after an insertion. */
  lemma RecentStep(c: LruCache, all: seq<Entry>, k: Key, v: Blob)
    requires c.Valid() && NoRepeat(all) && c.entries == Take(all, c.cap)
    ensures Apply(c, Write(k, v)).0.entries == Take([Entry(k, v)] + Without(all, k), c.cap)
  {
    var es, rest := c.entries, all[|c.entries|..];
    assert all == es + rest;
    ContentsKeys(es, k);
    if k in Contents(es) {
      var i :| 0 <= i < |es| && es[i].key == k;
      RecentHit(es, rest, Entry(k, v), c.cap, i);
    } else {
      RecentMiss(es, rest, Entry(k, v), c.cap);
    }
  }

  lemma {:induction false} RecentNoRepeat(es: seq<Entry>, batch: seq<Access>)
    requires NoRepeat(es) && forall a :: a in batch ==> a.Write?
    ensures NoRepeat(Recent(es, batch))
  {
    if batch != [] {
      var a, before := batch[|batch| - 1], Recent(es, batch[..|batch| - 1]);
      RecentNoRepeat(es, batch[..|batch| - 1]);
      WithoutKeys(before, a.key);
      PushNoRepeat(Entry(a.key, a.value), Without(before, a.key));
    }
  }

  /** After a batch of insertions the bounded cache holds exactly the most recently used entries, as many as fit: the
      oldest go, and only when there is no room. */
  lemma {:induction false} WritesKeepRecent(c: LruCache, batch: seq<Access>)
    requires c.Valid() && NoRepeat(c.entries) && forall a :: a in batch ==> a.Write?
    ensures Run(c, batch).0.entries == Take(Recent(c.entries, batch), c.cap) && Run(c, batch).0.cap == c.cap
  {
    if batch != [] {
      var front, a := batch[..|batch| - 1], batch[|batch| - 1];
      WritesKeepRecent(c, front);
      RecentNoRepeat(c.entries, front);
      RecentStep(Run(c, front).0, Recent(c.entries, front), a.key, a.value);
    }
  }

  /** A batch of insertions is some storing and evicting: the bounded cache refines the map used by the protocol. */
  lemma {:induction false} WritesRefine(c: LruCache, batch: seq<Access>)
    requires c.Valid() && NoRepeat(c.entries) && forall a :: a in batch ==> a.Write?
    ensures NoRepeat(Run(c, batch).0.entries)
    ensures Run(c, batch).0.entries == Take(Recent(c.entries, batch), c.cap)
    ensures PutEvict(Contents(c.entries), batch, Contents(Run(c, batch).0.entries))
  {
    WritesKeepRecent(c, batch);
    RunNoRepeat(c, batch);
    WritesPutEvict(c, batch);
  }

  lemma {:induction false} RunNoRepeat(c: LruCache, batch: seq<Access>)
    requires c.Valid() && NoRepeat(c.entries)
    ensures NoRepeat(Run(c, batch).0.entries)
  {
    if batch != [] {
      RunNoRepeat(c, batch[..|batch| - 1]);
      AccessNoRepeat(Run(c, batch[..|batch| - 1]).0, batch[|batch| - 1]);
    }
  }

  lemma {:induction false} WritesPutEvict(c: LruCache, batch: seq<Access>)
    requires c.Valid() && NoRepeat(c.entries) && forall a :: a in batch ==> a.Write?
    ensures PutEvict(Contents(c.entries), batch, Contents(Run(c, batch).0.entries))
  {
    if batch != [] {
      var n := |batch| - 1;
      WritesPutEvict(c, batch[..n]);
      RunNoRepeat(c, batch[..n]);
      var a := batch[n];
      WriteContents(Run(c, batch[..n]).0, a.key, a.value);
      var m0, m1, m2 := Contents(c.entries), Contents(Run(c, batch[..n]).0.entries), Contents(Run(c, batch).0.entries);
      forall k | k in m2 ensures Write(k, m2[k]) in batch || (k in m0 && m2[k] == m0[k]) {
        if k == a.key {
          assert Write(k, m2[k]) == batch[n];
        } else {
          assert k in m1 && m1[k] == m2[k];
        }
      }
    }
  }

  lemma {:induction false} OverwrittenKeys(m: map<Key, Blob>, batch: seq<Access>)
    requires forall a :: a in batch ==> a.Write?
    ensures Overwritten(m, batch).Keys == m.Keys + WriteKeys(batch)
  {
    if batch != [] {
      var n := |batch| - 1;
      OverwrittenKeys(m, batch[..n]);
      assert batch == batch[..n] + [batch[n]];
    }
  }

  lemma SubsetSize<T>(a: set<T>, b: set<T>)
    requires a <= b
    ensures |a| <= |b|
  {
    assert b == a + (b - a);
  }

  /** Nothing is evicted as long as everything fits. */
  lemma {:induction false} WritesKeepAll(c: LruCache, batch: seq<Access>)
    requires c.Valid() && NoRepeat(c.entries) && forall a :: a in batch ==> a.Write?
    requires |Contents(c.entries).Keys + WriteKeys(batch)| <= c.cap
    ensures Contents(Run(c, batch).0.entries) == Overwritten(Contents(c.entries), batch) && Run(c, batch).0.cap == c.cap
  {
    if batch != [] {
      var m, n, a := Contents(c.entries), |batch| - 1, batch[|batch| - 1];
      var front := batch[..n];
      SubsetSize(m.Keys + WriteKeys(front), m.Keys + WriteKeys(batch));
      WritesKeepAll(c, front);
      RunNoRepeat(c, front);
      var c1 := Run(c, front).0;
      WriteContents(c1, a.key, a.value);
      ContentsSize(c1.entries);
      OverwrittenKeys(m, front);
      if a.key !in Contents(c1.entries) {
        assert a in batch;
        SubsetSize(Contents(c1.entries).Keys + {a.key}, m.Keys + WriteKeys(batch));
      }
    }
  }

  /** A look-up protects its entry: a new key that then meets a full cache drops another one. */
  lemma LookUpProtects(c: LruCache, k: Key, k': Key, v: Blob)
    requires c.Valid() && NoRepeat(c.entries) && |c.entries| == c.cap && c.cap >= 2
    requires k in Contents(c.entries) && k' !in Contents(c.entries)
    ensures var m := Contents(Apply(Apply(c, Read(k)).0, Write(k', v)).0.entries);
            k in m && m[k] == Contents(c.entries)[k] && k' in m
  {
    var c1 := Apply(c, Read(k)).0;
    ReadKeepsContents(c, k);
    AccessNoRepeat(c, Read(k));
    WriteContents(c1, k', v);
    ContentsSize(c.entries);
    ContentsSize(c1.entries);
    assert c1.entries[0].key == k && c1.entries[|c1.entries| - 1].key != k;
  }
}
