/** When the cache tells the truth about a ledger, and what it then answers for a window of indices. */
module Coherence {
  import opened Types
  import opened Keys
  import opened Lru
  import Rows
  import opened Db

  /** The entry is the ledger item that its key names. */
  ghost predicate Truthful(k: Key, b: Blob, l: Ledger) {
    && |l.shards| == FOREST_WIDTH
    && if k.prefix == 1 then
         k.sub < FOREST_WIDTH && k.value < |l.shards[k.sub]| && b == ReceiverBlob(l.shards[k.sub][k.value])
       else
         k.prefix == 2 && k.sub == 0 && k.value < |l.senders| && b == SenderBlob(l.senders[k.value])
  }

  ghost predicate Coherent(m: map<Key, Blob>, l: Ledger) {
    forall k :: k in m ==> Truthful(k, m[k], l)
  }

  /** The ledger may grow under a coherent cache. */
  lemma CoherentGrows(m: map<Key, Blob>, l: Ledger, l': Ledger)
    requires Coherent(m, l) && l.PrefixOf(l')
    ensures Coherent(m, l')
  {
  }

  /** Storing truthful entries and evicting anything keeps a cache coherent. */
  lemma PutEvictCoherent(m: map<Key, Blob>, batch: seq<Access>, m': map<Key, Blob>, l: Ledger)
    requires Coherent(m, l) && PutEvict(m, batch, m')
    requires forall a :: a in batch ==> a.Write? && Truthful(a.key, a.value, l)
    ensures Coherent(m', l)
  {
  }

  // ---- windows ----

  function ReceiverKeys(s: Shard, start: nat, n: nat): seq<Key> {
    seq(n, i requires 0 <= i => ReceiverFields(s, start + i))
  }

  function SenderKeys(start: nat, n: nat): seq<Key> {
    seq(n, i requires 0 <= i => SenderFields(start + i))
  }

  /** What the cache answers for a list of keys. */
  function Answers(m: map<Key, Blob>, keys: seq<Key>): seq<Option<Blob>> {
    seq(|keys|, i requires 0 <= i < |keys| => Lookup(m, keys[i]))
  }

  /** No index of the window shares a key with one of the first `size` indices outside it. */
  ghost predicate NoAlias(start: nat, n: nat, size: nat) {
    forall i :: start <= i < start + n ==> i < TWO_48 || SenderFields(i).value >= size
  }

  lemma ReceiverWindowAgrees(m: map<Key, Blob>, l: Ledger, s: Shard, start: nat, n: nat)
    requires Coherent(m, l) && |l.shards| == FOREST_WIDTH && NoAlias(start, n, |l.shards[s]|)
    ensures Rows.Agrees(Answers(m, ReceiverKeys(s, start, n)), start, EncodeReceivers(l.shards[s]))
  {
    var answers := Answers(m, ReceiverKeys(s, start, n));
    forall k | 0 <= k < n && answers[k].Some?
      ensures start + k < |l.shards[s]| && answers[k].value == ReceiverBlob(l.shards[s][start + k])
    {
      var key := ReceiverKeys(s, start, n)[k];
      assert key == ReceiverFields(s, start + k) && key in m && Truthful(key, m[key], l);
      assert key.value == SenderFields(start + k).value && key.sub == s;
    }
  }

  /** The item is a receiver of shard s. */
  predicate PlacedBlob(b: Blob, s: Shard) { b.ReceiverBlob? && b.r.utxo.tree == Some(s) }

  /** Whatever the window, a coherent cache answers for a shard with receivers of that shard. */
  lemma ReceiverAnswersDecode(m: map<Key, Blob>, l: Ledger, s: Shard, start: nat, n: nat)
    requires Coherent(m, l) && l.Valid()
    ensures var cached := Answers(m, ReceiverKeys(s, start, n));
            forall i :: 0 <= i < |cached| && cached[i].Some? ==> PlacedBlob(cached[i].value, s)
  {
    var cached := Answers(m, ReceiverKeys(s, start, n));
    forall i | 0 <= i < |cached| && cached[i].Some? ensures PlacedBlob(cached[i].value, s) {
      var key := ReceiverKeys(s, start, n)[i];
      assert key == ReceiverFields(s, start + i) && Truthful(key, m[key], l);
    }
  }

  lemma SenderWindowAgrees(m: map<Key, Blob>, l: Ledger, start: nat, n: nat)
    requires Coherent(m, l) && NoAlias(start, n, |l.senders|)
    ensures Rows.Agrees(Answers(m, SenderKeys(start, n)), start, EncodeSenders(l.senders))
  {
    var answers := Answers(m, SenderKeys(start, n));
    forall k | 0 <= k < n && answers[k].Some?
      ensures start + k < |l.senders| && answers[k].value == SenderBlob(l.senders[start + k])
    {
      var key := SenderKeys(start, n)[k];
      assert key == SenderFields(start + k) && key in m && Truthful(key, m[key], l);
    }
  }

  lemma SenderAnswersDecode(m: map<Key, Blob>, l: Ledger, start: nat, n: nat)
    requires Coherent(m, l)
    ensures var cached := Answers(m, SenderKeys(start, n));
            forall i :: 0 <= i < |cached| && cached[i].Some? ==> cached[i].value.SenderBlob?
  {
    var cached := Answers(m, SenderKeys(start, n));
    forall i | 0 <= i < |cached| && cached[i].Some? ensures cached[i].value.SenderBlob? {
      var key := SenderKeys(start, n)[i];
      assert key == SenderFields(start + i) && Truthful(key, m[key], l);
    }
  }

  /** What a pull sees of a sender window: the cache first, then the table. */
  function Seen(m: map<Key, Blob>, l: Ledger, start: nat, n: nat): seq<Blob> {
    Rows.Overlay(Answers(m, SenderKeys(start, n)), start, EncodeSenders(l.senders))
  }

  lemma SeenWindow(m: map<Key, Blob>, l: Ledger, start: nat, n: nat)
    requires Coherent(m, l) && NoAlias(start, n, |l.senders|)
    ensures Seen(m, l, start, n) == Rows.Slice(EncodeSenders(l.senders), start, n)
  {
    SenderWindowAgrees(m, l, start, n);
    Rows.OverlayWindow(Answers(m, SenderKeys(start, n)), start, EncodeSenders(l.senders));
  }

  lemma {:induction false} ExtraHit(cached: seq<Option<Blob>>, start: nat, xs: seq<Blob>, k: nat)
    requires k < |cached| && cached[k].Some? && |xs| <= start + k
    ensures |Rows.Slice(xs, start, |cached|)| < |Rows.Overlay(cached, start, xs)|
  {
    var last := |cached| - 1;
    Rows.SliceSnoc(xs, start, last);
    if k == last {
      Rows.OverlayLength(cached[..last], start, xs);
    } else {
      ExtraHit(cached[..last], start, xs, k);
    }
  }

  /** When the window wraps onto an existing sender, a perfectly coherent cache makes a pull deliver a sender for an
      index at which there is none. */
  lemma AliasedWindow(l: Ledger, start: nat, n: nat) returns (m: map<Key, Blob>)
    requires |l.shards| == FOREST_WIDTH && |l.senders| <= TWO_48 && !NoAlias(start, n, |l.senders|)
    ensures Coherent(m, l)
    ensures |Rows.Slice(EncodeSenders(l.senders), start, n)| < |Seen(m, l, start, n)|
  {
    var i :| start <= i < start + n && i >= TWO_48 && SenderFields(i).value < |l.senders|;
    var k := SenderFields(i);
    m := map[k := SenderBlob(l.senders[k.value])];
    assert Answers(m, SenderKeys(start, n))[i - start] == Some(m[k]);
    ExtraHit(Answers(m, SenderKeys(start, n)), start, EncodeSenders(l.senders), i - start);
  }

  /** The condition is exact: a sender window is read right from every coherent cache if and only if it does not wrap
      onto an existing sender. */
  lemma AliasExact(l: Ledger, start: nat, n: nat)
    requires |l.shards| == FOREST_WIDTH && |l.senders| <= TWO_48
    ensures NoAlias(start, n, |l.senders|)
       <==> forall m :: Coherent(m, l) ==> Seen(m, l, start, n) == Rows.Slice(EncodeSenders(l.senders), start, n)
  {
    if NoAlias(start, n, |l.senders|) {
      forall m | Coherent(m, l) ensures Seen(m, l, start, n) == Rows.Slice(EncodeSenders(l.senders), start, n) {
        SeenWindow(m, l, start, n);
      }
    } else {
      var m := AliasedWindow(l, start, n);
    }
  }

  /** A part of a window, over a table that was not larger. */
  lemma NoAliasPart(start: nat, n: nat, start': nat, n': nat, senders: nat, senders': nat)
    requires NoAlias(start, n, senders) && start <= start' && start' + n' <= start + n && senders' <= senders
    ensures NoAlias(start', n', senders')
  {
  }

  // ---- batches ----

  function ReceiverWrites(s: Shard, rows: seq<Rows.Row>): seq<Access> {
    seq(|rows|, i requires 0 <= i < |rows| => Write(ReceiverFields(s, rows[i].idx), rows[i].content))
  }

  function SenderWrites(rows: seq<Rows.Row>): seq<Access> {
    seq(|rows|, i requires 0 <= i < |rows| => Write(SenderFields(rows[i].idx), rows[i].content))
  }

  lemma StoredReceivers(s: Shard, rows: seq<Rows.Row>, t: Tables, l: Ledger)
    requires Holds(t, l) && forall r :: r in rows ==> r in RowsOf(t.shards, s)
    ensures forall r :: r in rows ==> r.idx < |l.shards[s]| && r.content == ReceiverBlob(l.shards[s][r.idx])
  {
    forall r | r in rows ensures r.idx < |l.shards[s]| && r.content == ReceiverBlob(l.shards[s][r.idx]) {
      assert r in multiset(Rows.Image(EncodeReceivers(l.shards[s])));
    }
  }

  lemma StoredSenders(rows: seq<Rows.Row>, t: Tables, l: Ledger)
    requires Holds(t, l) && forall r :: r in rows ==> r in t.nullifier
    ensures forall r :: r in rows ==> r.idx < |l.senders| && r.content == SenderBlob(l.senders[r.idx])
  {
    forall r | r in rows ensures r.idx < |l.senders| && r.content == SenderBlob(l.senders[r.idx]) {
      assert r in multiset(Rows.Image(EncodeSenders(l.senders)));
    }
  }

  /** Every row becomes an entry. */
  ghost predicate ReceiverEntries(s: Shard, rows: seq<Rows.Row>, writes: seq<Access>) {
    forall r :: r in rows ==> Write(ReceiverFields(s, r.idx), r.content) in writes
  }

  ghost predicate SenderEntries(rows: seq<Rows.Row>, writes: seq<Access>) {
    forall r :: r in rows ==> Write(SenderFields(r.idx), r.content) in writes
  }

  lemma ReceiverRowsEntered(s: Shard, rows: seq<Rows.Row>)
    ensures ReceiverEntries(s, rows, ReceiverWrites(s, rows))
  {
    forall i | 0 <= i < |rows|
      ensures Write(ReceiverFields(s, rows[i].idx), rows[i].content) in ReceiverWrites(s, rows)
    {
      assert ReceiverWrites(s, rows)[i] == Write(ReceiverFields(s, rows[i].idx), rows[i].content);
    }
  }

  lemma SenderRowsEntered(rows: seq<Rows.Row>)
    ensures SenderEntries(rows, SenderWrites(rows))
  {
    forall i | 0 <= i < |rows| ensures Write(SenderFields(rows[i].idx), rows[i].content) in SenderWrites(rows) {
      assert SenderWrites(rows)[i] == Write(SenderFields(rows[i].idx), rows[i].content);
    }
  }

  /** Rows read back from the tables become cache entries, each under its own key, and all of them truthful. */
  lemma ReceiverWritesTruthful(s: Shard, rows: seq<Rows.Row>, t: Tables, l: Ledger)
    requires Holds(t, l) && |l.shards[s]| <= TWO_48
    requires forall r :: r in rows ==> r in RowsOf(t.shards, s)
    ensures forall a :: a in ReceiverWrites(s, rows) ==> a.Write? && Truthful(a.key, a.value, l)
    ensures ReceiverEntries(s, rows, ReceiverWrites(s, rows))
  {
    ReceiverRowsEntered(s, rows);
    StoredReceivers(s, rows, t, l);
    forall a | a in ReceiverWrites(s, rows) ensures a.Write? && Truthful(a.key, a.value, l) {
      var i :| 0 <= i < |rows| && a == ReceiverWrites(s, rows)[i];
      assert rows[i] in rows && a.key == Key(1, s, rows[i].idx);
    }
  }

  lemma SenderWritesTruthful(rows: seq<Rows.Row>, t: Tables, l: Ledger)
    requires Holds(t, l) && |l.senders| <= TWO_48
    requires forall r :: r in rows ==> r in t.nullifier
    ensures forall a :: a in SenderWrites(rows) ==> a.Write? && Truthful(a.key, a.value, l)
    ensures SenderEntries(rows, SenderWrites(rows))
  {
    SenderRowsEntered(rows);
    StoredSenders(rows, t, l);
    forall a | a in SenderWrites(rows) ensures a.Write? && Truthful(a.key, a.value, l) {
      var i :| 0 <= i < |rows| && a == SenderWrites(rows)[i];
      assert rows[i] in rows && a.key == Key(2, 0, rows[i].idx);
    }
  }
}
