/** The three tables (migrations/0_schema.sql) and the statements issued against them (src/db.rs). */
module Db {
  import opened Types
  import opened Rows

  datatype ShardRow = ShardRow(shardIndex: Shard, row: Row)

  /** `shards` has no unique key. `nullifier` has its index as primary key. The totals table has one possible key. */
  datatype Tables = Tables(shards: seq<ShardRow>, nullifier: seq<Row>, totals: map<bool, Total>)

  function EmptyTables(): Tables { Tables([], [], map[]) }

  /** The rows of one shard. */
  function RowsOf(rows: seq<ShardRow>, s: Shard): seq<Row> {
    if rows == [] then []
    else
      var last := rows[|rows| - 1];
      RowsOf(rows[..|rows| - 1], s) + (if last.shardIndex == s then [last.row] else [])
  }

  function Except(rows: seq<Row>, i: nat): seq<Row> {
    if rows == [] then []
    else
      var last := rows[|rows| - 1];
      Except(rows[..|rows| - 1], i) + (if last.idx == i then [] else [last])
  }

  /** INSERT OR REPLACE INTO shards: there is no constraint to conflict with, so nothing is replaced. */
  function InsertShard(t: Tables, s: Shard, i: nat, r: Receiver): Tables {
    t.(shards := t.shards + [ShardRow(s, Row(i, ReceiverBlob(r)))])
  }

  /** INSERT OR REPLACE INTO nullifier: the primary key conflicts, so an old row with this index goes. */
  function InsertNullifier(t: Tables, i: nat, x: Sender): Tables {
    t.(nullifier := Except(t.nullifier, i) + [Row(i, SenderBlob(x))])
  }

  /** INSERT OR REPLACE INTO senders_receivers_total: the key is always true. */
  function PutTotal(t: Tables, total: Total): Tables {
    t.(totals := t.totals[true := total])
  }

  /** The cursor rebuilt with COUNT(*). */
  function LatestCheckPoint(t: Tables): Checkpoint {
    Checkpoint(seq(FOREST_WIDTH, s requires 0 <= s < FOREST_WIDTH => |RowsOf(t.shards, s)|), |t.nullifier|)
  }

  function EncodeReceivers(xs: seq<Receiver>): seq<Blob> {
    seq(|xs|, i requires 0 <= i < |xs| => ReceiverBlob(xs[i]))
  }

  function EncodeSenders(xs: seq<Sender>): seq<Blob> {
    seq(|xs|, i requires 0 <= i < |xs| => SenderBlob(xs[i]))
  }

  /** The tables hold the ledger `l`: every index of every shard, and every sender, exactly once. */
  ghost predicate Holds(t: Tables, l: Ledger) {
    && |l.shards| == FOREST_WIDTH
    && (forall s: Shard {:trigger RowsOf(t.shards, s)} :: Dense(RowsOf(t.shards, s), EncodeReceivers(l.shards[s])))
    && Dense(t.nullifier, EncodeSenders(l.senders))
  }

  /** The cursor just past the ledger `l`. */
  function CursorOf(l: Ledger): Checkpoint
    requires |l.shards| == FOREST_WIDTH
  {
    Checkpoint(seq(FOREST_WIDTH, s requires 0 <= s < FOREST_WIDTH => |l.shards[s]|), |l.senders|)
  }

  // ---- what the statements do to the bags ----

  lemma RowsOfInsert(t: Tables, s: Shard, i: nat, r: Receiver, s': Shard)
    ensures RowsOf(InsertShard(t, s, i, r).shards, s')
            == if s == s' then RowsOf(t.shards, s') + [Row(i, ReceiverBlob(r))] else RowsOf(t.shards, s')
  {
    assert InsertShard(t, s, i, r).shards[..|t.shards|] == t.shards;
  }

  /** Writing an index of `shards` twice leaves two rows, whatever the statement's name says. */
  lemma InsertShardDuplicates(t: Tables, s: Shard, i: nat, r: Receiver)
    ensures CountIdx(RowsOf(InsertShard(t, s, i, r).shards, s), i) == CountIdx(RowsOf(t.shards, s), i) + 1
  {
    RowsOfInsert(t, s, i, r, s);
    CountSnoc(RowsOf(t.shards, s), Row(i, ReceiverBlob(r)), i);
  }

  lemma {:induction false} MatchingConcat(a: seq<Row>, b: seq<Row>, want: seq<nat>)
    ensures Matching(a + b, want) == Matching(a, want) + Matching(b, want)
  {
    if b == [] {
      assert a + b == a;
    } else {
      assert (a + b)[..|a + b| - 1] == a + b[..|b| - 1];
      MatchingConcat(a, b[..|b| - 1], want);
    }
  }

  lemma {:induction false} MatchingExcept(rows: seq<Row>, i: nat, j: nat)
    ensures Matching(Except(rows, i), [j]) == if i == j then [] else Matching(rows, [j])
  {
    if rows != [] {
      var front, last := rows[..|rows| - 1], rows[|rows| - 1];
      MatchingExcept(front, i, j);
      MatchingConcat(Except(front, i), if last.idx == i then [] else [last], [j]);
      assert Matching([last], [j]) == if last.idx == j then [last] else [] by { assert [last][..0] == []; }
    }
  }

  /** Writing an index of `nullifier` leaves exactly the new row with it, and the rows of the other indices alone. */
  lemma InsertNullifierReplaces(t: Tables, i: nat, x: Sender, j: nat)
    ensures Matching(InsertNullifier(t, i, x).nullifier, [j])
            == if i == j then [Row(i, SenderBlob(x))] else Matching(t.nullifier, [j])
  {
    var row := Row(i, SenderBlob(x));
    MatchingExcept(t.nullifier, i, j);
    MatchingConcat(Except(t.nullifier, i), [row], [j]);
    assert Matching([row], [j]) == if i == j then [row] else [] by { assert [row][..0] == []; }
  }

  lemma {:induction false} ExceptAbsent(rows: seq<Row>, i: nat)
    requires forall k :: 0 <= k < |rows| ==> rows[k].idx != i
    ensures Except(rows, i) == rows
  {
    if rows != [] {
      ExceptAbsent(rows[..|rows| - 1], i);
    }
  }

  /** Tables that hold a ledger: COUNT(*) is the cursor just past it, and an index exists exactly below the cursor. */
  lemma CountIsCursor(t: Tables, l: Ledger)
    requires Holds(t, l)
    ensures LatestCheckPoint(t) == CursorOf(l)
    ensures forall s: Shard, i: nat :: HasIdx(RowsOf(t.shards, s), i) <==> i < |l.shards[s]|
    ensures forall i: nat :: HasIdx(t.nullifier, i) <==> i < |l.senders|
  {
    forall s: Shard ensures |RowsOf(t.shards, s)| == |l.shards[s]| {
      DenseExactlyOnce(RowsOf(t.shards, s), EncodeReceivers(l.shards[s]), 0);
    }
    forall s: Shard, i: nat ensures HasIdx(RowsOf(t.shards, s), i) <==> i < |l.shards[s]| {
      DenseExactlyOnce(RowsOf(t.shards, s), EncodeReceivers(l.shards[s]), i);
    }
    DenseExactlyOnce(t.nullifier, EncodeSenders(l.senders), 0);
    forall i: nat ensures HasIdx(t.nullifier, i) <==> i < |l.senders| {
      DenseExactlyOnce(t.nullifier, EncodeSenders(l.senders), i);
    }
    assert LatestCheckPoint(t).receiverIndex == CursorOf(l).receiverIndex;
  }

  // ---- decoding ----

  lemma {:induction false} ReceiverCount(xs: seq<Receiver>, x: Receiver)
    ensures multiset(EncodeReceivers(xs))[ReceiverBlob(x)] == multiset(xs)[x]
  {
    if xs != [] {
      var front, last := xs[..|xs| - 1], xs[|xs| - 1];
      ReceiverCount(front, x);
      assert xs == front + [last] && EncodeReceivers(xs) == EncodeReceivers(front) + [ReceiverBlob(last)];
    }
  }

  lemma {:induction false} SenderCount(xs: seq<Sender>, x: Sender)
    ensures multiset(EncodeSenders(xs))[SenderBlob(x)] == multiset(xs)[x]
  {
    if xs != [] {
      var front, last := xs[..|xs| - 1], xs[|xs| - 1];
      SenderCount(front, x);
      assert xs == front + [last] && EncodeSenders(xs) == EncodeSenders(front) + [SenderBlob(last)];
    }
  }

  lemma EncodedReceivers(a: seq<Receiver>, b: seq<Receiver>, xs: seq<Receiver>, start: nat, n: nat)
    ensures EncodeReceivers(a + b) == EncodeReceivers(a) + EncodeReceivers(b)
    ensures EncodeReceivers(Slice(xs, start, n)) == Slice(EncodeReceivers(xs), start, n)
  {
  }

  lemma EncodedSenders(a: seq<Sender>, b: seq<Sender>, xs: seq<Sender>, start: nat, n: nat)
    ensures EncodeSenders(a + b) == EncodeSenders(a) + EncodeSenders(b)
    ensures EncodeSenders(Slice(xs, start, n)) == Slice(EncodeSenders(xs), start, n)
  {
  }

  /** Encoding is faithful to bags, so what holds of the encoded values holds of the values. */
  lemma DecodeReceiversBag(xs: seq<Receiver>, ys: seq<Receiver>)
    requires multiset(EncodeReceivers(xs)) == multiset(EncodeReceivers(ys))
    ensures multiset(xs) == multiset(ys)
  {
    forall x ensures multiset(xs)[x] == multiset(ys)[x] {
      ReceiverCount(xs, x);
      ReceiverCount(ys, x);
    }
  }

  lemma DecodeSendersBag(xs: seq<Sender>, ys: seq<Sender>)
    requires multiset(EncodeSenders(xs)) == multiset(EncodeSenders(ys))
    ensures multiset(xs) == multiset(ys)
  {
    forall x ensures multiset(xs)[x] == multiset(ys)[x] {
      SenderCount(xs, x);
      SenderCount(ys, x);
    }
  }

  // ---- a connection ----

  /** The committed tables seen by the pool, or the working copy of a transaction. */
  class Connection {
    var tables: Tables

    constructor (t: Tables)
      ensures tables == t
    {
      tables := t;
    }

    method InsertOneShard(s: Shard, i: nat, r: Receiver)
      modifies this
      ensures tables == InsertShard(old(tables), s, i, r)
    {
      tables := tables.(shards := tables.shards + [ShardRow(s, Row(i, ReceiverBlob(r)))]);
    }

    method InsertOneNullifier(i: nat, x: Sender)
      modifies this
      ensures tables == InsertNullifier(old(tables), i, x)
    {
      tables := tables.(nullifier := Except(tables.nullifier, i) + [Row(i, SenderBlob(x))]);
    }

    method UpdateOrInsertTotal(total: Total)
      modifies this
      ensures tables == PutTotal(old(tables), total)
    {
      tables := tables.(totals := tables.totals[true := total]);
    }

    method GetLenOfNullifier() returns (n: nat)
      ensures n == LatestCheckPoint(tables).senderIndex
    {
      n := |tables.nullifier|;
    }

    /** One COUNT(*) per shard. */
    method GetLatestCheckPoint() returns (cp: Checkpoint)
      ensures cp == LatestCheckPoint(tables)
    {
      var counts: seq<nat> := [];
      for s := 0 to FOREST_WIDTH
        invariant |counts| == s
        invariant forall i :: 0 <= i < s ==> counts[i] == |RowsOf(tables.shards, i)|
      {
        counts := counts + [|RowsOf(tables.shards, s)|];
      }
      var n := GetLenOfNullifier();
      cp := Checkpoint(counts, n);
    }

    method HasShard(s: Shard, i: nat) returns (b: bool)
      ensures b <==> HasIdx(RowsOf(tables.shards, s), i)
    {
      b := HasIdx(RowsOf(tables.shards, s), i);
    }

    method HasNullifier(i: nat) returns (b: bool)
      ensures b <==> HasIdx(tables.nullifier, i)
    {
      b := HasIdx(tables.nullifier, i);
    }

    /** The matching rows, in no particular order. */
    method GetBatchedShardsByIdxs(s: Shard, want: seq<nat>) returns (rows: seq<Row>)
      ensures multiset(rows) == multiset(Matching(RowsOf(tables.shards, s), want))
    {
      rows := Matching(RowsOf(tables.shards, s), want);
    }

    method GetBatchedNullifierByIdxs(want: seq<nat>) returns (rows: seq<Row>)
      ensures multiset(rows) == multiset(Matching(tables.nullifier, want))
    {
      rows := Matching(tables.nullifier, want);
    }

    method GetTotalSendersReceivers() returns (r: Result<Total>)
      ensures r == if true in tables.totals then Ok(tables.totals[true]) else Err(RowNotFound)
    {
      r := if true in tables.totals then Ok(tables.totals[true]) else Err(RowNotFound);
    }
  }
}
