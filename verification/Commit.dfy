/** One batch of the full node's answers, and what committing it does to the tables
    (src/indexer/sync.rs:109-185). */
module Commit {
  import opened Types
  import opened Rows
  import opened Db
  import opened Partition

  // ---- what the full node answers ----

  /** `g` is the part of `xs` that starts at `start`. */
  predicate PartAt<T(==)>(g: seq<T>, xs: seq<T>, start: nat) {
    g == [] || (start + |g| <= |xs| && g == xs[start..start + |g|])
  }

  /** The answer holds, for every shard and for the senders, the next items of the node's ledger in order, as many
      as the node likes. Receivers whose UTXO cannot be placed belong to no shard. */
  ghost predicate Serves(l: Ledger, cp: Checkpoint, resp: PullResponse) {
    && |l.shards| == FOREST_WIDTH
    && (forall s: Shard {:trigger GroupOf(resp.receivers, s)} ::
          PartAt(GroupOf(resp.receivers, s), l.shards[s], cp.receiverIndex[s]))
    && PartAt(resp.senders, l.senders, cp.senderIndex)
  }

  /** The ledger after a batch. */
  function Extended(l: Ledger, rs: seq<Receiver>, ss: seq<Sender>): (l': Ledger)
    requires |l.shards| == FOREST_WIDTH
    ensures |l'.shards| == FOREST_WIDTH
  {
    Ledger(seq(FOREST_WIDTH, s requires 0 <= s < FOREST_WIDTH => l.shards[s] + GroupOf(rs, s)), l.senders + ss)
  }

  /** What is fetched at the end of a prefix of the node's ledger makes a longer prefix. */
  lemma ExtendedIsPrefix(l: Ledger, node: Ledger, resp: PullResponse)
    requires l.PrefixOf(node) && Serves(node, CursorOf(l), resp)
    ensures Extended(l, resp.receivers, resp.senders).PrefixOf(node)
    ensures l.PrefixOf(Extended(l, resp.receivers, resp.senders))
  {
    var l' := Extended(l, resp.receivers, resp.senders);
    forall s: Shard ensures l'.shards[s] <= node.shards[s] {
      PartExtends(l.shards[s], GroupOf(resp.receivers, s), node.shards[s]);
    }
    PartExtends(l.senders, resp.senders, node.senders);
  }

  lemma PartExtends<T>(xs: seq<T>, g: seq<T>, ys: seq<T>)
    requires xs <= ys && PartAt(g, ys, |xs|)
    ensures xs + g <= ys
  {
  }

  lemma ExtendedCursor(l: Ledger, rs: seq<Receiver>, ss: seq<Sender>)
    requires |l.shards| == FOREST_WIDTH
    ensures CursorOf(Extended(l, rs, ss)) == Advance(CursorOf(l), rs, |ss|)
  {
  }

  /** The node's ledger may grow after it answered. */
  lemma ServesGrows(l: Ledger, l': Ledger, cp: Checkpoint, resp: PullResponse)
    requires Serves(l, cp, resp) && l.PrefixOf(l')
    ensures Serves(l', cp, resp)
  {
    forall s: Shard ensures PartAt(GroupOf(resp.receivers, s), l'.shards[s], cp.receiverIndex[s]) {
      assert PartAt(GroupOf(resp.receivers, s), l.shards[s], cp.receiverIndex[s]);
    }
  }

  // ---- the statements of one transaction ----

  /** One shard's group, at consecutive indices from `base`. */
  function InsertGroup(t: Tables, s: Shard, base: nat, g: seq<Receiver>): Tables {
    if g == [] then t
    else
      var last := |g| - 1;
      InsertShard(InsertGroup(t, s, base, g[..last]), s, base + last, g[last])
  }

  /** The groups in the order in which the hash map lists its shards. */
  function InsertGroups(t: Tables, order: seq<Shard>, base: Cursors, rs: seq<Receiver>): Tables {
    if order == [] then t
    else
      var s := order[|order| - 1];
      InsertGroup(InsertGroups(t, order[..|order| - 1], base, rs), s, base[s], GroupOf(rs, s))
  }

  function InsertSenders(t: Tables, base: nat, ss: seq<Sender>): Tables {
    if ss == [] then t
    else
      var last := |ss| - 1;
      InsertNullifier(InsertSenders(t, base, ss[..last]), base + last, ss[last])
  }

  /** The whole transaction: receivers at the in-memory cursor, senders at COUNT(*), the total. */
  function Committed(t: Tables, order: seq<Shard>, cp: Checkpoint, resp: PullResponse): Tables {
    var t' := InsertGroups(t, order, cp.receiverIndex, resp.receivers);
    PutTotal(InsertSenders(t', |t'.nullifier|, resp.senders), resp.total)
  }

  /** One more sender, one more statement. */
  lemma InsertSendersSnoc(t: Tables, base: nat, ss: seq<Sender>, k: nat)
    requires k < |ss|
    ensures InsertSenders(t, base, ss[..k + 1]) == InsertNullifier(InsertSenders(t, base, ss[..k]), base + k, ss[k])
  {
    assert ss[..k + 1][..k] == ss[..k];
  }

  ghost predicate Distinct(order: seq<Shard>) {
    forall i, j :: 0 <= i < j < |order| ==> order[i] != order[j]
  }

  /** An order in which the hash map of groups may be listed. */
  ghost predicate Listing(order: seq<Shard>, rs: seq<Receiver>) {
    Distinct(order) && forall s: Shard :: s in order <==> GroupOf(rs, s) != []
  }

  // ---- what they do to the rows ----

  /** A group as rows. */
  function Numbered(base: nat, g: seq<Receiver>): seq<Row> {
    seq(|g|, i requires 0 <= i < |g| => Row(base + i, ReceiverBlob(g[i])))
  }

  function NumberedSenders(base: nat, ss: seq<Sender>): seq<Row> {
    seq(|ss|, i requires 0 <= i < |ss| => Row(base + i, SenderBlob(ss[i])))
  }

  lemma NumberedSnoc(base: nat, g: seq<Receiver>)
    requires g != []
    ensures Numbered(base, g) == Numbered(base, g[..|g| - 1]) + [Row(base + (|g| - 1), ReceiverBlob(g[|g| - 1]))]
  {
  }

  lemma {:induction false} InsertGroupRows(t: Tables, s: Shard, base: nat, g: seq<Receiver>, s': Shard)
    ensures RowsOf(InsertGroup(t, s, base, g).shards, s')
            == if s == s' then RowsOf(t.shards, s') + Numbered(base, g) else RowsOf(t.shards, s')
  {
    if g != [] {
      var last := |g| - 1;
      InsertGroupRows(t, s, base, g[..last], s');
      RowsOfInsert(InsertGroup(t, s, base, g[..last]), s, base + last, g[last], s');
      NumberedSnoc(base, g);
    }
  }

  lemma {:induction false} InsertGroupRest(t: Tables, s: Shard, base: nat, g: seq<Receiver>)
    ensures InsertGroup(t, s, base, g).nullifier == t.nullifier && InsertGroup(t, s, base, g).totals == t.totals
  {
    if g != [] { InsertGroupRest(t, s, base, g[..|g| - 1]); }
  }

  lemma DistinctSnoc(order: seq<Shard>, s: Shard)
    requires order != [] && Distinct(order)
    ensures var front, last := order[..|order| - 1], order[|order| - 1];
            (s in order <==> s in front || s == last) && !(s in front && s == last)
  {
    assert order == order[..|order| - 1] + [order[|order| - 1]];
  }

  lemma {:induction false} InsertGroupsRows(t: Tables, order: seq<Shard>, base: Cursors, rs: seq<Receiver>, s: Shard)
    requires Distinct(order)
    ensures RowsOf(InsertGroups(t, order, base, rs).shards, s)
            == if s in order then RowsOf(t.shards, s) + Numbered(base[s], GroupOf(rs, s)) else RowsOf(t.shards, s)
  {
    if order != [] {
      var front, last := order[..|order| - 1], order[|order| - 1];
      InsertGroupsRows(t, front, base, rs, s);
      InsertGroupRows(InsertGroups(t, front, base, rs), last, base[last], GroupOf(rs, last), s);
      DistinctSnoc(order, s);
    }
  }

  lemma {:induction false} InsertGroupsRest(t: Tables, order: seq<Shard>, base: Cursors, rs: seq<Receiver>)
    ensures InsertGroups(t, order, base, rs).nullifier == t.nullifier
    ensures InsertGroups(t, order, base, rs).totals == t.totals
  {
    if order != [] {
      var front, last := order[..|order| - 1], order[|order| - 1];
      InsertGroupsRest(t, front, base, rs);
      InsertGroupRest(InsertGroups(t, front, base, rs), last, base[last], GroupOf(rs, last));
    }
  }

  lemma {:induction false} InsertSendersTables(t: Tables, base: nat, ss: seq<Sender>)
    ensures InsertSenders(t, base, ss).shards == t.shards && InsertSenders(t, base, ss).totals == t.totals
  {
    if ss != [] { InsertSendersTables(t, base, ss[..|ss| - 1]); }
  }

  /** Every shard's rows after the commit: its group is appended at the cursor, whatever the order of the groups. */
  lemma CommittedRows(t: Tables, order: seq<Shard>, cp: Checkpoint, resp: PullResponse, s: Shard)
    requires Listing(order, resp.receivers)
    ensures RowsOf(Committed(t, order, cp, resp).shards, s)
            == RowsOf(t.shards, s) + Numbered(cp.receiverIndex[s], GroupOf(resp.receivers, s))
  {
    var t' := InsertGroups(t, order, cp.receiverIndex, resp.receivers);
    InsertGroupsRows(t, order, cp.receiverIndex, resp.receivers, s);
    InsertSendersTables(t', |t'.nullifier|, resp.senders);
    assert Numbered(cp.receiverIndex[s], []) == [];
  }

  lemma CommittedRest(t: Tables, order: seq<Shard>, cp: Checkpoint, resp: PullResponse)
    ensures var t' := InsertGroups(t, order, cp.receiverIndex, resp.receivers);
            && t'.nullifier == t.nullifier && t'.totals == t.totals
            && Committed(t, order, cp, resp).nullifier == InsertSenders(t', |t.nullifier|, resp.senders).nullifier
            && Committed(t, order, cp, resp).totals == t.totals[true := resp.total]
  {
    var t' := InsertGroups(t, order, cp.receiverIndex, resp.receivers);
    InsertGroupsRest(t, order, cp.receiverIndex, resp.receivers);
    InsertSendersTables(t', |t'.nullifier|, resp.senders);
  }

  lemma NumberedSendersSnoc(base: nat, ss: seq<Sender>)
    requires ss != []
    ensures NumberedSenders(base, ss)
            == NumberedSenders(base, ss[..|ss| - 1]) + [Row(base + (|ss| - 1), SenderBlob(ss[|ss| - 1]))]
  {
  }

  lemma NewNullifier(rows: seq<Row>, base: nat, ss: seq<Sender>, all: seq<Row>)
    requires (forall r :: r in rows ==> r.idx < base) && all == rows + NumberedSenders(base, ss)
    ensures Except(all, base + |ss|) == all
  {
    forall k | 0 <= k < |all| ensures all[k].idx != base + |ss| {
      assert k < |rows| ==> all[k] in rows;
    }
    ExceptAbsent(all, base + |ss|);
  }

  lemma AppendSender(t: Tables, rows: seq<Row>, base: nat, front: seq<Sender>, x: Sender, ss: seq<Sender>)
    requires (forall r :: r in rows ==> r.idx < base) && t.nullifier == rows + NumberedSenders(base, front)
    requires ss == front + [x]
    ensures InsertNullifier(t, base + |front|, x).nullifier == rows + NumberedSenders(base, ss)
  {
    NewNullifier(rows, base, front, t.nullifier);
    NumberedSendersSnoc(base, ss);
    assert ss[..|ss| - 1] == front;
  }

  /** Senders that go in past all stored ones are appended. */
  lemma {:induction false} InsertSendersRows(t: Tables, base: nat, ss: seq<Sender>)
    requires forall r :: r in t.nullifier ==> r.idx < base
    ensures InsertSenders(t, base, ss).nullifier == t.nullifier + NumberedSenders(base, ss)
  {
    if ss != [] {
      var front, x := ss[..|ss| - 1], ss[|ss| - 1];
      InsertSendersRows(t, base, front);
      AppendSender(InsertSenders(t, base, front), t.nullifier, base, front, x, ss);
    }
  }

  lemma SendersDense(t: Tables, xs: seq<Sender>, ss: seq<Sender>)
    requires Dense(t.nullifier, EncodeSenders(xs))
    ensures Dense(InsertSenders(t, |xs|, ss).nullifier, EncodeSenders(xs + ss))
  {
    forall r | r in t.nullifier ensures r.idx < |xs| {
      assert r in multiset(Image(EncodeSenders(xs)));
    }
    InsertSendersRows(t, |xs|, ss);
    SenderGroupDense(t.nullifier, xs, ss);
  }

  lemma SenderGroupDense(rows: seq<Row>, xs: seq<Sender>, ss: seq<Sender>)
    requires Dense(rows, EncodeSenders(xs))
    ensures Dense(rows + NumberedSenders(|xs|, ss), EncodeSenders(xs + ss))
  {
    assert EncodeSenders(xs + ss) == EncodeSenders(xs) + EncodeSenders(ss);
    assert Image(EncodeSenders(xs + ss)) == Image(EncodeSenders(xs)) + NumberedSenders(|xs|, ss);
  }

  lemma GroupDense(rows: seq<Row>, xs: seq<Receiver>, g: seq<Receiver>)
    requires Dense(rows, EncodeReceivers(xs))
    ensures Dense(rows + Numbered(|xs|, g), EncodeReceivers(xs + g))
  {
    assert EncodeReceivers(xs + g) == EncodeReceivers(xs) + EncodeReceivers(g);
    assert Image(EncodeReceivers(xs + g)) == Image(EncodeReceivers(xs)) + Numbered(|xs|, g);
  }

  /** A batch committed at the cursor of the tables extends the ledger they hold, although no statement
      checks for a duplicate or a hole. */
  lemma CommitExtends(t: Tables, l: Ledger, order: seq<Shard>, cp: Checkpoint, resp: PullResponse)
    requires Holds(t, l) && Listing(order, resp.receivers) && cp.receiverIndex == CursorOf(l).receiverIndex
    ensures Holds(Committed(t, order, cp, resp), Extended(l, resp.receivers, resp.senders))
  {
    var t', l' := Committed(t, order, cp, resp), Extended(l, resp.receivers, resp.senders);
    forall s: Shard ensures Dense(RowsOf(t'.shards, s), EncodeReceivers(l'.shards[s])) {
      CommittedRows(t, order, cp, resp, s);
      GroupDense(RowsOf(t.shards, s), l.shards[s], GroupOf(resp.receivers, s));
    }
    CommittedRest(t, order, cp, resp);
    DenseExactlyOnce(t.nullifier, EncodeSenders(l.senders), 0);
    SendersDense(InsertGroups(t, order, cp.receiverIndex, resp.receivers), l.senders, resp.senders);
  }

  // ---- the cursor has to be right ----

  lemma {:induction false} CountConcat(a: seq<Row>, b: seq<Row>, i: nat)
    ensures CountIdx(a + b, i) == CountIdx(a, i) + CountIdx(b, i)
  {
    if b == [] {
      assert a + b == a;
    } else {
      assert (a + b)[..|a + b| - 1] == a + b[..|b| - 1];
      CountConcat(a, b[..|b| - 1], i);
    }
  }

  lemma {:induction false} NumberedCount(base: nat, g: seq<Receiver>, i: nat)
    ensures CountIdx(Numbered(base, g), i) == if base <= i < base + |g| then 1 else 0
  {
    if g != [] {
      var last := |g| - 1;
      assert Numbered(base, g)[..last] == Numbered(base, g[..last]);
      NumberedCount(base, g[..last], i);
    }
  }

  /** A non-empty group inserted anywhere but at the end leaves a duplicate or a hole. */
  lemma WrongBase(rows: seq<Row>, xs: seq<Receiver>, base: nat, g: seq<Receiver>)
    requires Dense(rows, EncodeReceivers(xs)) && g != [] && base != |xs|
    ensures !Dense(rows + Numbered(base, g), EncodeReceivers(xs + g))
  {
    var i := Min(base, |xs|);
    DenseExactlyOnce(rows, EncodeReceivers(xs), i);
    CountConcat(rows, Numbered(base, g), i);
    NumberedCount(base, g, i);
    if Dense(rows + Numbered(base, g), EncodeReceivers(xs + g)) {
      DenseExactlyOnce(rows + Numbered(base, g), EncodeReceivers(xs + g), i);
    }
  }

  /** What the insertions rest on: the tables hold the longer ledger if and only if the in-memory cursor was that of
      the tables on every shard of the batch. */
  lemma CommitExact(t: Tables, l: Ledger, order: seq<Shard>, cp: Checkpoint, resp: PullResponse)
    requires Holds(t, l) && Listing(order, resp.receivers)
    ensures Holds(Committed(t, order, cp, resp), Extended(l, resp.receivers, resp.senders))
       <==> forall s: Shard :: GroupOf(resp.receivers, s) != [] ==> cp.receiverIndex[s] == |l.shards[s]|
  {
    var t', l' := Committed(t, order, cp, resp), Extended(l, resp.receivers, resp.senders);
    if Holds(t', l') {
      forall s: Shard | GroupOf(resp.receivers, s) != [] ensures cp.receiverIndex[s] == |l.shards[s]| {
        CommittedRows(t, order, cp, resp, s);
        if cp.receiverIndex[s] != |l.shards[s]| {
          WrongBase(RowsOf(t.shards, s), l.shards[s], cp.receiverIndex[s], GroupOf(resp.receivers, s));
        }
      }
    }
    if forall s: Shard :: GroupOf(resp.receivers, s) != [] ==> cp.receiverIndex[s] == |l.shards[s]| {
      CommitAtGroups(t, l, order, cp, resp);
    }
  }

  lemma CommitAtGroups(t: Tables, l: Ledger, order: seq<Shard>, cp: Checkpoint, resp: PullResponse)
    requires Holds(t, l) && Listing(order, resp.receivers)
    requires forall s: Shard :: GroupOf(resp.receivers, s) != [] ==> cp.receiverIndex[s] == |l.shards[s]|
    ensures Holds(Committed(t, order, cp, resp), Extended(l, resp.receivers, resp.senders))
  {
    var at := CursorOf(l);
    forall s: Shard
      ensures RowsOf(Committed(t, order, cp, resp).shards, s) == RowsOf(Committed(t, order, at, resp).shards, s)
    {
      CommittedRows(t, order, cp, resp, s);
      CommittedRows(t, order, at, resp, s);
      var g := GroupOf(resp.receivers, s);
      assert g == [] ==> Numbered(cp.receiverIndex[s], g) == Numbered(at.receiverIndex[s], g);
    }
    CommittedRest(t, order, cp, resp);
    CommittedRest(t, order, at, resp);
    NullifierOnly(InsertGroups(t, order, cp.receiverIndex, resp.receivers),
                  InsertGroups(t, order, at.receiverIndex, resp.receivers),
                  |t.nullifier|, resp.senders);
    CommitExtends(t, l, order, at, resp);
  }

  lemma {:induction false} NullifierOnly(t: Tables, t': Tables, base: nat, ss: seq<Sender>)
    requires t.nullifier == t'.nullifier
    ensures InsertSenders(t, base, ss).nullifier == InsertSenders(t', base, ss).nullifier
  {
    if ss != [] { NullifierOnly(t, t', base, ss[..|ss| - 1]); }
  }

  // ---- the order of the hash map ----

  lemma {:induction false} RowsOfCount(rows: seq<ShardRow>, s: Shard, r: Row)
    ensures multiset(RowsOf(rows, s))[r] == multiset(rows)[ShardRow(s, r)]
  {
    if rows != [] {
      RowsOfCount(rows[..|rows| - 1], s, r);
      Snoc(rows);
    }
  }

  lemma SameRowsSameBag(a: seq<ShardRow>, b: seq<ShardRow>)
    requires forall s: Shard :: RowsOf(a, s) == RowsOf(b, s)
    ensures multiset(a) == multiset(b)
  {
    forall x: ShardRow ensures multiset(a)[x] == multiset(b)[x] {
      RowsOfCount(a, x.shardIndex, x.row);
      RowsOfCount(b, x.shardIndex, x.row);
    }
  }

  /** The tables after a batch are the same bags, in whatever order the hash map lists its shards. */
  lemma OrderDoesNotMatter(t: Tables, order: seq<Shard>, order': seq<Shard>, cp: Checkpoint, resp: PullResponse)
    requires Listing(order, resp.receivers) && Listing(order', resp.receivers)
    ensures var a, b := Committed(t, order, cp, resp), Committed(t, order', cp, resp);
            multiset(a.shards) == multiset(b.shards) && a.nullifier == b.nullifier && a.totals == b.totals
  {
    var a, b := Committed(t, order, cp, resp), Committed(t, order', cp, resp);
    forall s: Shard ensures RowsOf(a.shards, s) == RowsOf(b.shards, s) {
      CommittedRows(t, order, cp, resp, s);
      CommittedRows(t, order', cp, resp, s);
    }
    SameRowsSameBag(a.shards, b.shards);
    CommittedRest(t, order, cp, resp);
    CommittedRest(t, order', cp, resp);
    NullifierOnly(InsertGroups(t, order, cp.receiverIndex, resp.receivers),
                  InsertGroups(t, order', cp.receiverIndex, resp.receivers),
                  |t.nullifier|, resp.senders);
  }
}
