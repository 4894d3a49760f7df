/** The order in which a request delivers, while tables and cache change under it: each shard's items are the cached
    items of its read and then the rows of its query (src/indexer/pull.rs:115-146, 170-197). */
module Order {
  import opened Types
  import opened Keys
  import opened Lru
  import opened Rows
  import opened Db
  import opened Coherence
  import opened Partition
  import opened Pull
  import opened Serving

  /** `got` is what the read `rd` saw of the window from `start` to `to`: the cached values, then the missed rows. */
  ghost predicate LookOk(xs: seq<Blob>, start: nat, to: nat, rd: Look, got: seq<Blob>) {
    && start <= to <= |xs| && |got| == to - start
    && got == Hits(rd.cached) + Values(rd.rows)
    && Agrees(rd.cached, start, xs[..to])
    && multiset(rd.rows) == multiset(MissRows(rd.cached, start, xs[..to]))
  }

  lemma LookGrows(xs: seq<Blob>, ys: seq<Blob>, start: nat, to: nat, rd: Look, got: seq<Blob>)
    requires xs <= ys && LookOk(xs, start, to, rd, got)
    ensures LookOk(ys, start, to, rd, got)
  {
    assert xs[..to] == ys[..to];
  }

  /** In ledger order, if the query ordered its rows and no missed row precedes a cached one. */
  lemma LookInOrder(xs: seq<Blob>, start: nat, to: nat, rd: Look, got: seq<Blob>)
    requires LookOk(xs, start, to, rd, got) && AscendingRows(rd.rows) && !MissBeforeHit(rd.cached, start, to)
    ensures got == xs[start..to]
  {
    var part := xs[..to];
    MissRowsAscend(rd.cached, start, part);
    SameAscending(rd.rows, MissRows(rd.cached, start, part));
    InOrder(rd.cached, start, part);
    OverlayWindow(rd.cached, start, part);
  }

  lemma ShardInOrder(xs: seq<Receiver>, start: nat, to: nat, rd: Look, got: seq<Receiver>)
    requires LookOk(EncodeReceivers(xs), start, to, rd, EncodeReceivers(got))
    requires AscendingRows(rd.rows) && !MissBeforeHit(rd.cached, start, to)
    ensures start <= to <= |xs| && got == xs[start..to]
  {
    LookInOrder(EncodeReceivers(xs), start, to, rd, EncodeReceivers(got));
    assert EncodeReceivers(xs)[start..to] == EncodeReceivers(xs[start..to]);
    SameEncoding(got, xs[start..to]);
  }

  lemma SendersInOrder(xs: seq<Sender>, start: nat, to: nat, rd: Look, got: seq<Sender>)
    requires LookOk(EncodeSenders(xs), start, to, rd, EncodeSenders(got))
    requires AscendingRows(rd.rows) && !MissBeforeHit(rd.cached, start, to)
    ensures start <= to <= |xs| && got == xs[start..to]
  {
    LookInOrder(EncodeSenders(xs), start, to, rd, EncodeSenders(got));
    forall i | 0 <= i < |got| ensures got[i] == xs[start + i] {
      assert EncodeSenders(got)[i] == EncodeSenders(xs)[start + i];
    }
  }

  lemma {:induction false} MissRowsCut(cached: seq<Option<Blob>>, start: nat, xs: seq<Blob>, to: nat)
    requires to <= |xs| && (to == |xs| || start + |cached| <= to)
    ensures MissRows(cached, start, xs) == MissRows(cached, start, xs[..to])
  {
    if cached != [] { MissRowsCut(cached[..|cached| - 1], start, xs, to); }
  }

  lemma AgreesCut(cached: seq<Option<Blob>>, start: nat, xs: seq<Blob>, to: nat)
    requires Agrees(cached, start, xs) && to <= |xs| && (to == |xs| || start + |cached| <= to)
    ensures Agrees(cached, start, xs[..to])
  {
  }

  lemma RowsCut(stored: seq<Row>, xs: seq<Blob>, start: nat, cached: seq<Option<Blob>>, rows: seq<Row>, to: nat)
    requires Dense(stored, xs) && to <= |xs| && (to == |xs| || start + |cached| <= to)
    requires multiset(rows) == multiset(Matching(stored, Misses(cached, start)))
    ensures multiset(rows) == multiset(MissRows(cached, start, xs[..to]))
  {
    MatchingBag(stored, Image(xs), Misses(cached, start));
    MissesMatch(cached, start, xs);
    MissRowsCut(cached, start, xs, to);
  }

  lemma WindowSize(stored: seq<Row>, xs: seq<Blob>, start: nat, cached: seq<Option<Blob>>, rows: seq<Row>,
                   got: seq<Blob>)
    requires Dense(stored, xs) && Agrees(cached, start, xs)
    requires multiset(rows) == multiset(Matching(stored, Misses(cached, start))) && got == Hits(cached) + Values(rows)
    ensures |got| == |Slice(xs, start, |cached|)|
  {
    ReadThrough(cached, start, stored, xs, rows, got);
    OverlayWindow(cached, start, xs);
    BagSize(got, Slice(xs, start, |cached|));
  }

  lemma WindowLook(stored: seq<Row>, xs: seq<Blob>, start: nat, cached: seq<Option<Blob>>, rows: seq<Row>,
                   got: seq<Blob>, to: nat)
    requires Dense(stored, xs) && Agrees(cached, start, xs) && start <= |xs| && to == Min(start + |cached|, |xs|)
    requires multiset(rows) == multiset(Matching(stored, Misses(cached, start))) && got == Hits(cached) + Values(rows)
    ensures LookOk(xs, start, to, Look(cached, rows), got)
  {
    AgreesCut(cached, start, xs, to);
    RowsCut(stored, xs, start, cached, rows, to);
    WindowSize(stored, xs, start, cached, rows, got);
  }

  // ---- what holds of a request ----

  /** The shard that has been read and whose items are on their way to the batch. */
  function Hand(pc: Pc): Option<Shard> { if pc.WriteBack? || pc.EndCheck? then Some(pc.shard) else None }

  /** The shards from here on have not been read. */
  function Upcoming(pc: Pc): nat {
    match pc
    case Gate(s) => s
    case ReadCache(s) => s
    case QueryDb(s, _) => s
    case WriteBack(s, _, _) => s + 1
    case EndCheck(s, _) => s + 1
    case _ => FOREST_WIDTH
  }

  /** A shard that was read and is not in hand is in the batch, in the order of its read. */
  ghost predicate ShardOrder(xs: seq<Receiver>, start: nat, to: nat, seen: map<Shard, Look>, s: Shard, inHand: bool,
                             got: seq<Receiver>)
  {
    if s in seen && !inHand then LookOk(EncodeReceivers(xs), start, to, seen[s], EncodeReceivers(got)) else got == []
  }

  ghost predicate EachOrdered(l: Ledger, c: Cursors, next: Cursors, seen: map<Shard, Look>, hand: Option<Shard>,
                              rs: seq<Receiver>)
    requires |l.shards| == FOREST_WIDTH
  {
    forall s: Shard {:trigger GroupOf(rs, s)} ::
      ShardOrder(l.shards[s], c[s], next[s], seen, s, hand == Some(s), GroupOf(rs, s))
  }

  ghost predicate SeenBelow(seen: map<Shard, Look>, upto: nat) { forall s: Shard :: s in seen ==> s < upto }

  /** The shard in hand: its items are in the order of its read. */
  ghost predicate HandOrder(xs: seq<Receiver>, start: nat, seen: map<Shard, Look>, s: Shard, seg: seq<Receiver>) {
    s in seen && LookOk(EncodeReceivers(xs), start, start + |seg|, seen[s], EncodeReceivers(seg))
  }

  /** Every row that was read is to be written back under its key. */
  ghost predicate AllWritten(seen: map<Shard, Look>, s: Shard, writes: seq<Access>) {
    s in seen && ReceiverEntries(s, seen[s].rows, writes)
  }

  ghost predicate PcOrdered(l: Ledger, c: Cursors, seen: map<Shard, Look>, pc: Pc)
    requires |l.shards| == FOREST_WIDTH
  {
    match pc
    case WriteBack(s, seg, writes) => HandOrder(l.shards[s], c[s], seen, s, seg) && AllWritten(seen, s, writes)
    case EndCheck(s, seg) => HandOrder(l.shards[s], c[s], seen, s, seg)
    case _ => true
  }

  ghost predicate ReceiversOrdered(l: Ledger, p: Process)
    requires |l.shards| == FOREST_WIDTH
  {
    && EachOrdered(l, p.cp.receiverIndex, p.next, p.seen, Hand(p.pc), p.receivers)
    && SeenBelow(p.seen, Upcoming(p.pc))
    && PcOrdered(l, p.cp.receiverIndex, p.seen, p.pc)
  }

  predicate HasSenders(pc: Pc) { pc.WriteSenders? || pc.SenderEnd? || pc.TotalRow? || pc.Done? }

  /** The senders come in the order of their read; unless the window wraps, it saw the table's senders. */
  ghost predicate SenderOrder(xs: seq<Blob>, start: nat, n: nat, rd: Look, got: seq<Blob>) {
    && got == Hits(rd.cached) + Values(rd.rows)
    && (NoAlias(start, n, |xs|) && got != [] ==> LookOk(xs, start, start + |got|, rd, got))
  }

  ghost predicate SendersOrdered(l: Ledger, p: Process) {
    && (HasSenders(p.pc) ==>
          SenderOrder(EncodeSenders(l.senders), p.cp.senderIndex, p.maxSenders, p.look, EncodeSenders(p.senders)))
    && (p.pc.WriteSenders? ==> SenderEntries(p.look.rows, p.pc.writes))
  }

  ghost predicate Ordered(l: Ledger, p: Process) {
    |l.shards| == FOREST_WIDTH && ReceiversOrdered(l, p) && SendersOrdered(l, p)
  }

  lemma OrderedBegin(l: Ledger, cp: Checkpoint, maxReceivers: nat, maxSenders: nat)
    requires |l.shards| == FOREST_WIDTH
    ensures Ordered(l, Begin(l, cp, maxReceivers, maxSenders))
  {
  }

  // ---- growth ----

  lemma ShardOrderGrows(xs: seq<Receiver>, ys: seq<Receiver>, start: nat, to: nat, seen: map<Shard, Look>, s: Shard,
                        inHand: bool, got: seq<Receiver>)
    requires xs <= ys && ShardOrder(xs, start, to, seen, s, inHand, got)
    ensures ShardOrder(ys, start, to, seen, s, inHand, got)
  {
    EncodedPrefix(xs, ys);
    if s in seen && !inHand {
      LookGrows(EncodeReceivers(xs), EncodeReceivers(ys), start, to, seen[s], EncodeReceivers(got));
    }
  }

  lemma EachOrderedGrows(l: Ledger, l': Ledger, c: Cursors, next: Cursors, seen: map<Shard, Look>, hand: Option<Shard>,
                         rs: seq<Receiver>)
    requires l.PrefixOf(l') && EachOrdered(l, c, next, seen, hand, rs)
    ensures EachOrdered(l', c, next, seen, hand, rs)
  {
    forall s: Shard ensures ShardOrder(l'.shards[s], c[s], next[s], seen, s, hand == Some(s), GroupOf(rs, s)) {
      ShardOrderGrows(l.shards[s], l'.shards[s], c[s], next[s], seen, s, hand == Some(s), GroupOf(rs, s));
    }
  }

  lemma HandGrows(xs: seq<Receiver>, ys: seq<Receiver>, start: nat, seen: map<Shard, Look>, s: Shard,
                  seg: seq<Receiver>)
    requires xs <= ys && HandOrder(xs, start, seen, s, seg)
    ensures HandOrder(ys, start, seen, s, seg)
  {
    EncodedPrefix(xs, ys);
    LookGrows(EncodeReceivers(xs), EncodeReceivers(ys), start, start + |seg|, seen[s], EncodeReceivers(seg));
  }

  lemma SenderOrderGrows(xs: seq<Blob>, ys: seq<Blob>, start: nat, n: nat, rd: Look, got: seq<Blob>)
    requires xs <= ys && SenderOrder(xs, start, n, rd, got)
    ensures SenderOrder(ys, start, n, rd, got)
  {
    if NoAlias(start, n, |ys|) && got != [] {
      NoAliasPart(start, n, start, n, |ys|, |xs|);
      LookGrows(xs, ys, start, start + |got|, rd, got);
    }
  }

  lemma OrderedGrows(l: Ledger, l': Ledger, p: Process)
    requires l.PrefixOf(l') && Ordered(l, p)
    ensures Ordered(l', p)
  {
    EachOrderedGrows(l, l', p.cp.receiverIndex, p.next, p.seen, Hand(p.pc), p.receivers);
    if p.pc.WriteBack? || p.pc.EndCheck? {
      HandGrows(l.shards[p.pc.shard], l'.shards[p.pc.shard], p.cp.receiverIndex[p.pc.shard], p.seen, p.pc.shard,
                p.pc.seg);
    }
    if HasSenders(p.pc) {
      EncodedSendersPrefix(l.senders, l'.senders);
      SenderOrderGrows(EncodeSenders(l.senders), EncodeSenders(l'.senders), p.cp.senderIndex, p.maxSenders, p.look,
        EncodeSenders(p.senders));
    }
  }

  // ---- reading a shard ----

  lemma EncodedValues(values: seq<Blob>)
    requires AllReceivers(values)
    ensures EncodeReceivers(ReceiversIn(values)) == values && |ReceiversIn(values)| == |values|
  {
  }

  lemma EncodedSenderValues(values: seq<Blob>)
    requires AllSenders(values)
    ensures EncodeSenders(SendersIn(values)) == values && |SendersIn(values)| == |values|
  {
  }

  lemma HandRead(stored: seq<Row>, xs: seq<Receiver>, start: nat, seen: map<Shard, Look>, s: Shard, rd: Look,
                 values: seq<Blob>)
    requires Dense(stored, EncodeReceivers(xs)) && Agrees(rd.cached, start, EncodeReceivers(xs)) && start <= |xs|
    requires multiset(rd.rows) == multiset(Matching(stored, Misses(rd.cached, start)))
    requires values == Hits(rd.cached) + Values(rd.rows) && AllReceivers(values)
    ensures HandOrder(xs, start, seen[s := rd], s, ReceiversIn(values))
  {
    var to := Min(start + |rd.cached|, |xs|);
    WindowLook(stored, EncodeReceivers(xs), start, rd.cached, rd.rows, values, to);
    HandLook(xs, start, to, seen, s, rd, values);
  }

  lemma HandLook(xs: seq<Receiver>, start: nat, to: nat, seen: map<Shard, Look>, s: Shard, rd: Look, values: seq<Blob>)
    requires LookOk(EncodeReceivers(xs), start, to, rd, values) && AllReceivers(values)
    ensures HandOrder(xs, start, seen[s := rd], s, ReceiversIn(values))
  {
    EncodedValues(values);
  }

  lemma EachRead(l: Ledger, c: Cursors, next: Cursors, seen: map<Shard, Look>, s: Shard, rd: Look, rs: seq<Receiver>)
    requires |l.shards| == FOREST_WIDTH && EachOrdered(l, c, next, seen, None, rs) && s !in seen
    ensures EachOrdered(l, c, next, seen[s := rd], Some(s), rs)
  {
    forall s': Shard
      ensures ShardOrder(l.shards[s'], c[s'], next[s'], seen[s := rd], s', Some(s) == Some(s'), GroupOf(rs, s'))
    {
      assert ShardOrder(l.shards[s'], c[s'], next[s'], seen, s', false, GroupOf(rs, s'));
    }
  }

  lemma OrderQuery(l: Ledger, t: Tables, p: Process, s: Shard, cached: seq<Option<Blob>>, rows: seq<Row>,
                   values: seq<Blob>)
    requires Holds(t, l) && PcOk(l, p) && ReceiversOrdered(l, p) && p.pc == QueryDb(s, cached)
    requires multiset(rows) == multiset(Matching(RowsOf(t.shards, s), Misses(cached, p.cp.receiverIndex[s])))
    requires values == Hits(cached) + Values(rows) && AllReceivers(values)
    ensures ReceiversOrdered(l, AfterFetch(p, s, cached, rows, values))
  {
    var rd := Look(cached, rows);
    ReceiverRowsEntered(s, rows);
    HandRead(RowsOf(t.shards, s), l.shards[s], p.cp.receiverIndex[s], p.seen, s, rd, values);
    EachRead(l, p.cp.receiverIndex, p.next, p.seen, s, rd, p.receivers);
  }

  // ---- joining a shard ----

  lemma ShardJoined(xs: seq<Receiver>, start: nat, to: nat, to': nat, seen: map<Shard, Look>, s: Shard, s': Shard,
                    got: seq<Receiver>, seg: seq<Receiver>, got': seq<Receiver>)
    requires ShardOrder(xs, start, to, seen, s', s == s', got)
    requires if s' == s then HandOrder(xs, start, seen, s, seg) && to' == start + |seg| && got' == seg
             else to' == to && got' == got
    ensures ShardOrder(xs, start, to', seen, s', false, got')
  {
  }

  lemma GroupJoined(rs: seq<Receiver>, s: Shard, seg: seq<Receiver>, s': Shard)
    requires Below(rs, s) && InShard(seg, s)
    ensures GroupOf(rs + seg, s') == if s' == s then seg else GroupOf(rs, s')
  {
    EmptyGroup(rs, s);
    SegmentGroup(rs, seg, s, s');
  }

  lemma EachJoined(l: Ledger, c: Cursors, next: Cursors, seen: map<Shard, Look>, s: Shard, rs: seq<Receiver>,
                   seg: seq<Receiver>, next': Cursors)
    requires |l.shards| == FOREST_WIDTH && EachOrdered(l, c, next, seen, Some(s), rs)
    requires HandOrder(l.shards[s], c[s], seen, s, seg) && Below(rs, s) && InShard(seg, s)
    requires next' == next[s := c[s] + |seg|]
    ensures EachOrdered(l, c, next', seen, None, rs + seg)
  {
    forall s': Shard ensures ShardOrder(l.shards[s'], c[s'], next'[s'], seen, s', false, GroupOf(rs + seg, s')) {
      assert ShardOrder(l.shards[s'], c[s'], next[s'], seen, s', Some(s) == Some(s'), GroupOf(rs, s'));
      GroupJoined(rs, s, seg, s');
      ShardJoined(l.shards[s'], c[s'], next[s'], next'[s'], seen, s, s', GroupOf(rs, s'), seg, GroupOf(rs + seg, s'));
    }
  }

  lemma OrderEnd(l: Ledger, t: Tables, p: Process, s: Shard, seg: seq<Receiver>, p': Process)
    requires |l.shards| == FOREST_WIDTH && PcOk(l, p) && ReceiversOrdered(l, p) && p.pc == EndCheck(s, seg)
    requires p' == AfterShard(p, t, s, seg)
    ensures ReceiversOrdered(l, p')
  {
    EachJoined(l, p.cp.receiverIndex, p.next, p.seen, s, p.receivers, seg, p'.next);
  }

  // ---- the other steps ----

  lemma OrderWritten(l: Ledger, p: Process, s: Shard, seg: seq<Receiver>, writes: seq<Access>)
    requires |l.shards| == FOREST_WIDTH && ReceiversOrdered(l, p) && p.pc == WriteBack(s, seg, writes)
    ensures ReceiversOrdered(l, p.(pc := EndCheck(s, seg)))
  {
  }

  /** The receivers' record does not change while no shard is read or joined. */
  lemma ReceiversFrame(l: Ledger, p: Process, p': Process)
    requires |l.shards| == FOREST_WIDTH && ReceiversOrdered(l, p) && Hand(p.pc) == Hand(p'.pc) == None
    requires p'.receivers == p.receivers && p'.cp == p.cp && p'.next == p.next && p'.seen == p.seen
    requires Upcoming(p.pc) <= Upcoming(p'.pc)
    ensures ReceiversOrdered(l, p')
  {
  }

  lemma StepReceivers(l: Ledger, p: Process, m: map<Key, Blob>, t: Tables, rows: seq<Row>)
    requires |l.shards| == FOREST_WIDTH && PcOk(l, p) && !p.pc.QueryDb? && !p.pc.WriteBack? && !p.pc.EndCheck?
    ensures var p' := Step(p, m, t, rows);
      p'.receivers == p.receivers && p'.cp == p.cp && p'.next == p.next && p'.seen == p.seen
  {
  }

  lemma StepUpcoming(l: Ledger, p: Process, m: map<Key, Blob>, t: Tables, rows: seq<Row>)
    requires |l.shards| == FOREST_WIDTH && PcOk(l, p) && !p.pc.QueryDb? && !p.pc.WriteBack? && !p.pc.EndCheck?
    ensures Hand(p.pc) == Hand(Step(p, m, t, rows).pc) == None && Upcoming(p.pc) <= Upcoming(Step(p, m, t, rows).pc)
  {
  }

  lemma OrderQueryStep(l: Ledger, m: map<Key, Blob>, t: Tables, p: Process, rows: seq<Row>, m': map<Key, Blob>)
    requires Holds(t, l) && PcOk(l, p) && ReceiversOrdered(l, p) && CanStep(p, m, t, rows, m') && p.pc.QueryDb?
    ensures !Step(p, m, t, rows).pc.Failed? ==> ReceiversOrdered(l, Step(p, m, t, rows))
  {
    var values := Hits(p.pc.cached) + Values(rows);
    if AllReceivers(values) {
      OrderQuery(l, t, p, p.pc.shard, p.pc.cached, rows, values);
    }
  }

  lemma OrderReceiverStep(l: Ledger, m: map<Key, Blob>, t: Tables, p: Process, rows: seq<Row>, m': map<Key, Blob>)
    requires Holds(t, l) && PcOk(l, p) && ReceiversOrdered(l, p) && CanStep(p, m, t, rows, m')
    ensures !Step(p, m, t, rows).pc.Failed? ==> ReceiversOrdered(l, Step(p, m, t, rows))
  {
    if p.pc.QueryDb? {
      OrderQueryStep(l, m, t, p, rows, m');
    } else if p.pc.WriteBack? {
      OrderWritten(l, p, p.pc.shard, p.pc.seg, p.pc.writes);
    } else if p.pc.EndCheck? {
      OrderEnd(l, t, p, p.pc.shard, p.pc.seg, Step(p, m, t, rows));
    } else {
      StepReceivers(l, p, m, t, rows);
      StepUpcoming(l, p, m, t, rows);
      ReceiversFrame(l, p, Step(p, m, t, rows));
    }
  }

  // ---- senders ----

  lemma SenderOrderRead(stored: seq<Row>, xs: seq<Blob>, start: nat, n: nat, rd: Look, values: seq<Blob>)
    requires Dense(stored, xs) && |rd.cached| == n && (NoAlias(start, n, |xs|) ==> Agrees(rd.cached, start, xs))
    requires multiset(rd.rows) == multiset(Matching(stored, Misses(rd.cached, start)))
    requires values == Hits(rd.cached) + Values(rd.rows)
    ensures SenderOrder(xs, start, n, rd, values)
  {
    if NoAlias(start, n, |xs|) && values != [] {
      NonEmptyLook(stored, xs, start, rd, values, start + |values|);
    }
  }

  lemma SliceEnd<T>(xs: seq<T>, start: nat, n: nat, k: nat)
    requires k == |Slice(xs, start, n)| && k > 0
    ensures start <= |xs| && Min(start + n, |xs|) == start + k
  {
  }

  lemma NonEmptyLook(stored: seq<Row>, xs: seq<Blob>, start: nat, rd: Look, values: seq<Blob>, to: nat)
    requires Dense(stored, xs) && Agrees(rd.cached, start, xs) && |values| > 0 && to == start + |values|
    requires multiset(rd.rows) == multiset(Matching(stored, Misses(rd.cached, start)))
    requires values == Hits(rd.cached) + Values(rd.rows)
    ensures LookOk(xs, start, to, rd, values)
  {
    WindowSize(stored, xs, start, rd.cached, rd.rows, values);
    SliceEnd(xs, start, |rd.cached|, |values|);
    assert AgreesTo(rd.cached, start, xs, to) by { AgreesCut(rd.cached, start, xs, to); }
    assert RowsTo(rd, start, xs, to) by { RowsCut(stored, xs, start, rd.cached, rd.rows, to); }
  }

  ghost predicate AgreesTo(cached: seq<Option<Blob>>, start: nat, xs: seq<Blob>, to: nat) requires to <= |xs| {
    Agrees(cached, start, xs[..to])
  }

  ghost predicate RowsTo(rd: Look, start: nat, xs: seq<Blob>, to: nat) requires to <= |xs| {
    multiset(rd.rows) == multiset(MissRows(rd.cached, start, xs[..to]))
  }

  lemma StepSenders(p: Process, m: map<Key, Blob>, t: Tables, rows: seq<Row>)
    requires !p.pc.QuerySenders?
    ensures var p' := Step(p, m, t, rows);
      p'.senders == p.senders && p'.look == p.look && p'.cp == p.cp && p'.maxSenders == p.maxSenders
  {
  }

  lemma StepHasSenders(p: Process, m: map<Key, Blob>, t: Tables, rows: seq<Row>)
    requires !p.pc.QuerySenders?
    ensures HasSenders(Step(p, m, t, rows).pc) ==> HasSenders(p.pc)
  {
  }

  lemma StepWritesNoSenders(p: Process, m: map<Key, Blob>, t: Tables, rows: seq<Row>)
    requires !p.pc.QuerySenders?
    ensures !Step(p, m, t, rows).pc.WriteSenders?
  {
    if p.pc.Gate? || p.pc.QueryDb? || p.pc.EndCheck? || p.pc.TotalRow? {
      BranchWritesNoSenders(p, m, t, rows);
    }
  }

  lemma BranchWritesNoSenders(p: Process, m: map<Key, Blob>, t: Tables, rows: seq<Row>)
    requires p.pc.Gate? || p.pc.QueryDb? || p.pc.EndCheck? || p.pc.TotalRow?
    ensures !Step(p, m, t, rows).pc.WriteSenders?
  {
  }

  lemma OrderSenderStep(l: Ledger, m: map<Key, Blob>, t: Tables, p: Process, rows: seq<Row>, m': map<Key, Blob>)
    requires Holds(t, l) && PcOk(l, p) && SendersOrdered(l, p) && CanStep(p, m, t, rows, m')
    ensures SendersOrdered(l, Step(p, m, t, rows))
  {
    if p.pc.QuerySenders? {
      var values := Hits(p.pc.cached) + Values(rows);
      if AllSenders(values) {
        EncodedSenderValues(values);
        SenderRowsEntered(rows);
        SenderOrderRead(t.nullifier, EncodeSenders(l.senders), p.cp.senderIndex, p.maxSenders, Look(p.pc.cached, rows),
          values);
      }
    } else {
      StepSenders(p, m, t, rows);
      StepHasSenders(p, m, t, rows);
      StepWritesNoSenders(p, m, t, rows);
    }
  }

  /** Every step of a request keeps the order, whatever happened to tables and cache since the one before. */
  lemma StepKeepsOrder(l: Ledger, m: map<Key, Blob>, t: Tables, p: Process, rows: seq<Row>, m': map<Key, Blob>)
    requires Holds(t, l) && PcOk(l, p) && Ordered(l, p) && CanStep(p, m, t, rows, m')
    ensures !Step(p, m, t, rows).pc.Failed? ==> Ordered(l, Step(p, m, t, rows))
  {
    OrderReceiverStep(l, m, t, p, rows, m');
    OrderSenderStep(l, m, t, p, rows, m');
  }
}
