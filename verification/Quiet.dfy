/** A request during which nothing is committed: step by step it computes exactly what the pull server computes over
    fixed tables (`Pull.Pulled`), whatever the cache does meanwhile. This ties the two views of the pull code
    together. */
module Quiet {
  import opened Types
  import opened Keys
  import opened Rows
  import opened Db
  import opened Partition
  import opened Pull
  import opened Serving

  /** The loop's variables after the first s shards. */
  ghost predicate LoopOk(l: Ledger, p: Process, s: nat) {
    PullState(l, p.cp.receiverIndex, p.maxReceivers, s, Batch(p.more, p.next, p.receivers, false))
  }

  /** The receivers' part of the answer. */
  ghost predicate ReceiversPlain(l: Ledger, p: Process)
    requires |l.shards| == FOREST_WIDTH
  {
    GreedyBatch(l, p.cp.receiverIndex, p.maxReceivers, p.more, p.next, p.receivers)
  }

  ghost predicate SendersPlain(l: Ledger, p: Process) {
    SendersPulled(l, p.cp.senderIndex, p.maxSenders, p.senders)
  }

  ghost predicate FlagPlain(l: Ledger, p: Process) {
    p.moreSenders <==> p.cp.senderIndex + p.maxSenders < |l.senders|
  }

  ghost predicate SegmentExact(l: Ledger, p: Process, s: Shard, seg: seq<Receiver>)
    requires |l.shards| == FOREST_WIDTH
  {
    && LoopOk(l, p, s) && p.cp.receiverIndex[s] < |l.shards[s]| && InShard(seg, s)
    && multiset(seg) == multiset(Slice(l.shards[s], p.cp.receiverIndex[s], p.Remain()))
  }

  ghost predicate Exact(l: Ledger, p: Process)
    requires |l.shards| == FOREST_WIDTH
  {
    match p.pc
    case Gate(s) => LoopOk(l, p, s)
    case ReadCache(s) => LoopOk(l, p, s)
    case QueryDb(s, _) => LoopOk(l, p, s)
    case WriteBack(s, seg, _) => SegmentExact(l, p, s, seg)
    case EndCheck(s, seg) => SegmentExact(l, p, s, seg)
    case ReadSenders => ReceiversPlain(l, p)
    case QuerySenders(_) => ReceiversPlain(l, p)
    case WriteSenders(_) => ReceiversPlain(l, p) && SendersPlain(l, p)
    case SenderEnd => ReceiversPlain(l, p) && SendersPlain(l, p)
    case TotalRow => ReceiversPlain(l, p) && SendersPlain(l, p) && FlagPlain(l, p)
    case Done(_) => ReceiversPlain(l, p) && SendersPlain(l, p) && FlagPlain(l, p)
    case Failed(_) => true
  }

  lemma QuietBegin(l: Ledger, cp: Checkpoint, maxReceivers: nat, maxSenders: nat)
    requires |l.shards| == FOREST_WIDTH
    ensures Exact(l, Begin(l, cp, maxReceivers, maxSenders))
  {
    PullStart(l, cp.receiverIndex, Min(maxReceivers, MAX_RECEIVERS));
  }

  lemma QuietGate(l: Ledger, t: Tables, p: Process, s: nat)
    requires Holds(t, l) && Exact(l, p) && p.pc == Gate(s)
    ensures Exact(l, Step(p, map[], t, []))
  {
    var b := Batch(p.more, p.next, p.receivers, false);
    if s >= FOREST_WIDTH {
      PullDone(l, p.cp.receiverIndex, p.maxReceivers, s, b);
    } else {
      PullGate(t, l, s, p.cp.receiverIndex[s], HasIdx(RowsOf(t.shards, s), p.cp.receiverIndex[s]));
      if p.cp.receiverIndex[s] >= |l.shards[s]| {
        PullSkip(l, p.cp.receiverIndex, p.maxReceivers, s, b);
      }
    }
  }

  lemma QuietQuery(l: Ledger, t: Tables, p: Process, s: Shard, cached: seq<Option<Blob>>, rows: seq<Row>,
                   values: seq<Blob>)
    requires l.Valid() && Holds(t, l) && PcOk(l, p) && Exact(l, p) && p.pc == QueryDb(s, cached)
    requires multiset(rows) == multiset(Matching(RowsOf(t.shards, s), Misses(cached, p.cp.receiverIndex[s])))
    requires values == Hits(cached) + Values(rows) && AllReceivers(values)
    ensures SegmentExact(l, p, s, ReceiversIn(values))
  {
    var start := p.cp.receiverIndex[s];
    QueryAnswer(RowsOf(t.shards, s), l.shards[s], start, cached, rows, values);
    SegmentPlaced(l, s, start, p.Remain(), ReceiversIn(values));
  }

  lemma QuietFlag(t: Tables, l: Ledger, s: Shard, start: nat, amount: nat, seg: seq<Receiver>)
    requires Holds(t, l) && multiset(seg) == multiset(Slice(l.shards[s], start, amount))
    ensures |seg| == amount && HasIdx(RowsOf(t.shards, s), start + amount) <==> start + amount < |l.shards[s]|
  {
    BagSize(seg, Slice(l.shards[s], start, amount));
    FlagMeaning(t, l, s, start, amount, |seg|);
  }

  lemma QuietTake(l: Ledger, p: Process, s: Shard, seg: seq<Receiver>, flag: bool, b': Batch)
    requires |l.shards| == FOREST_WIDTH && SegmentExact(l, p, s, seg)
    requires flag <==> p.cp.receiverIndex[s] + p.Remain() < |l.shards[s]|
    requires b' == Batch(p.more || flag, p.next[s := p.cp.receiverIndex[s] + |seg|], p.receivers + seg,
                         |p.receivers + seg| == p.maxReceivers)
    ensures PullState(l, p.cp.receiverIndex, p.maxReceivers, s + 1, b')
  {
    assert p.Remain() == p.maxReceivers - |p.receivers|;
    PullTake(l, p.cp.receiverIndex, p.maxReceivers, s, Batch(p.more, p.next, p.receivers, false), seg, flag, b');
  }

  lemma QuietEnd(l: Ledger, t: Tables, p: Process, s: Shard, seg: seq<Receiver>, p': Process)
    requires Holds(t, l) && SegmentExact(l, p, s, seg) && p.pc == EndCheck(s, seg) && p' == AfterShard(p, t, s, seg)
    ensures Exact(l, p')
  {
    var b' := Batch(p'.more, p'.next, p'.receivers, |p'.receivers| == p.maxReceivers);
    QuietFlag(t, l, s, p.cp.receiverIndex[s], p.Remain(), seg);
    QuietTake(l, p, s, seg, |seg| == p.Remain() && HasIdx(RowsOf(t.shards, s), p.cp.receiverIndex[s] + p.Remain()), b');
    if b'.filled {
      PullDone(l, p.cp.receiverIndex, p.maxReceivers, s + 1, b');
    }
  }

  lemma QuietSenders(l: Ledger, t: Tables, p: Process, cached: seq<Option<Blob>>, rows: seq<Row>, values: seq<Blob>)
    requires Holds(t, l) && PcOk(l, p) && p.pc == QuerySenders(cached)
    requires multiset(rows) == multiset(Matching(t.nullifier, Misses(cached, p.cp.senderIndex)))
    requires values == Hits(cached) + Values(rows) && AllSenders(values)
    ensures SendersPlain(l, p.(senders := SendersIn(values)))
  {
    SendersRead(l, t, p, cached, rows, values);
  }

  lemma QuietFetch(l: Ledger, p: Process, s: Shard, cached: seq<Option<Blob>>, rows: seq<Row>, values: seq<Blob>)
    requires |l.shards| == FOREST_WIDTH && AllReceivers(values) && SegmentExact(l, p, s, ReceiversIn(values))
    ensures Exact(l, AfterFetch(p, s, cached, rows, values))
  {
  }

  lemma QuietQueryStep(l: Ledger, m: map<Key, Blob>, t: Tables, p: Process, rows: seq<Row>, m': map<Key, Blob>,
                       s: Shard, cached: seq<Option<Blob>>)
    requires l.Valid() && Holds(t, l) && PcOk(l, p) && Exact(l, p) && CanStep(p, m, t, rows, m')
    requires p.pc == QueryDb(s, cached)
    ensures Exact(l, Step(p, m, t, rows))
  {
    var values := Hits(cached) + Values(rows);
    if AllReceivers(values) {
      QuietQuery(l, t, p, s, cached, rows, values);
      QuietFetch(l, p, s, cached, rows, values);
    }
  }

  lemma QuietLoopStep(l: Ledger, m: map<Key, Blob>, t: Tables, p: Process, rows: seq<Row>)
    requires Holds(t, l) && Exact(l, p) && (p.pc.Gate? || p.pc.EndCheck?)
    ensures Exact(l, Step(p, m, t, rows))
  {
    if p.pc.Gate? {
      QuietGate(l, t, p, p.pc.s);
    } else {
      QuietEnd(l, t, p, p.pc.shard, p.pc.seg, Step(p, m, t, rows));
    }
  }

  lemma QuietSenderStep(l: Ledger, m: map<Key, Blob>, t: Tables, p: Process, rows: seq<Row>, m': map<Key, Blob>)
    requires Holds(t, l) && PcOk(l, p) && Exact(l, p) && CanStep(p, m, t, rows, m')
    requires p.pc.QuerySenders? || p.pc.SenderEnd?
    ensures Exact(l, Step(p, m, t, rows))
  {
    if p.pc.SenderEnd? {
      SenderGate(t, l, p.cp.senderIndex + p.maxSenders, HasIdx(t.nullifier, p.cp.senderIndex + p.maxSenders));
    } else {
      var values := Hits(p.pc.cached) + Values(rows);
      if AllSenders(values) {
        QuietSenders(l, t, p, p.pc.cached, rows, values);
      }
    }
  }

  lemma QuietCacheStep(l: Ledger, m: map<Key, Blob>, t: Tables, p: Process, rows: seq<Row>)
    requires |l.shards| == FOREST_WIDTH && Exact(l, p) && (p.pc.ReadCache? || p.pc.WriteBack?)
    ensures Exact(l, Step(p, m, t, rows))
  {
  }

  lemma QuietLastStep(l: Ledger, m: map<Key, Blob>, t: Tables, p: Process, rows: seq<Row>)
    requires |l.shards| == FOREST_WIDTH && Exact(l, p)
    requires p.pc.ReadSenders? || p.pc.WriteSenders? || p.pc.TotalRow? || p.pc.Done? || p.pc.Failed?
    ensures Exact(l, Step(p, m, t, rows))
  {
  }

  /** While the tables hold the same ledger, every step keeps the request on the path of the plain pull. */
  lemma QuietStep(l: Ledger, m: map<Key, Blob>, t: Tables, p: Process, rows: seq<Row>, m': map<Key, Blob>)
    requires l.Valid() && Holds(t, l) && PcOk(l, p) && Exact(l, p) && CanStep(p, m, t, rows, m')
    ensures Exact(l, Step(p, m, t, rows))
  {
    if p.pc.QueryDb? {
      QuietQueryStep(l, m, t, p, rows, m', p.pc.shard, p.pc.cached);
    } else if p.pc.Gate? || p.pc.EndCheck? {
      QuietLoopStep(l, m, t, p, rows);
    } else if p.pc.QuerySenders? || p.pc.SenderEnd? {
      QuietSenderStep(l, m, t, p, rows, m');
    } else if p.pc.ReadCache? || p.pc.WriteBack? {
      QuietCacheStep(l, m, t, p, rows);
    } else {
      QuietLastStep(l, m, t, p, rows);
    }
  }

  lemma QuietDone(l: Ledger, p: Process)
    requires |l.shards| == FOREST_WIDTH && Exact(l, p) && p.pc.Done?
    ensures Pulled(l, p.cp, p.maxReceivers, p.maxSenders, p.Response(), p.NextCheckpoint())
  {
  }
}
