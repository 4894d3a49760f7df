/** One pull request as a process: the existence gate, the cache read, the database read, the write-back and the end
    check are separate steps (src/indexer/pull.rs:57-238), between which the tables and the cache may change.

    `l` is the ledger that the tables hold at the moment; `PullOk` is what a request relies on and
    achieves. It survives every growth of the ledger (`PullGrows`), and every step keeps it (`StepKeepsPull`). */
module Serving {
  import opened Types
  import opened Keys
  import opened Lru
  import opened Rows
  import opened Db
  import opened Coherence
  import opened Partition
  import opened Pull

  datatype Pc =
    | Gate(s: nat)
    | ReadCache(shard: Shard)
    | QueryDb(shard: Shard, cached: seq<Option<Blob>>)
    | WriteBack(shard: Shard, seg: seq<Receiver>, writes: seq<Access>)
    | EndCheck(shard: Shard, seg: seq<Receiver>)
    | ReadSenders
    | QuerySenders(cached: seq<Option<Blob>>)
    | WriteSenders(writes: seq<Access>)
    | SenderEnd
    | TotalRow
    | Done(total: Total)
    | Failed(error: Error)

  /** The variables of a request. The rest is history: `begun` remembers what the tables held when it began, `seen` and
      `look` what the reads of the shards and of the senders saw. */
  datatype Process = Process(begun: Ledger, cp: Checkpoint, maxReceivers: nat, maxSenders: nat,
                             more: bool, next: Cursors, receivers: seq<Receiver>,
                             moreSenders: bool, senders: seq<Sender>,
                             seen: map<Shard, Look>, look: Look, pc: Pc) {
    /** The budget that is left. */
    function Remain(): nat { maxReceivers - Min(maxReceivers, |receivers|) }

    function Response(): PullResponse
      requires pc.Done?
    {
      PullResponse(more || moreSenders, receivers, senders, pc.total)
    }

    function NextCheckpoint(): Checkpoint { Checkpoint(next, cp.senderIndex + maxSenders) }
  }

  /** A new request, with both limits clamped. */
  function Begin(l: Ledger, cp: Checkpoint, maxReceivers: nat, maxSenders: nat): Process {
    Process(l, cp, Min(maxReceivers, MAX_RECEIVERS), Min(maxSenders, MAX_SENDERS),
            false, cp.receiverIndex, [], false, [], map[], Look([], []), Gate(0))
  }

  predicate AllReceivers(bs: seq<Blob>) { forall i :: 0 <= i < |bs| ==> bs[i].ReceiverBlob? }
  predicate AllSenders(bs: seq<Blob>) { forall i :: 0 <= i < |bs| ==> bs[i].SenderBlob? }

  function ReceiversIn(bs: seq<Blob>): seq<Receiver>
    requires AllReceivers(bs)
  {
    seq(|bs|, i requires 0 <= i < |bs| => bs[i].r)
  }

  function SendersIn(bs: seq<Blob>): seq<Sender>
    requires AllSenders(bs)
  {
    seq(|bs|, i requires 0 <= i < |bs| => bs[i].s)
  }

  /** The step may be taken with cache `m` and tables `t`, reading `rows` and leaving the cache `m'`. */
  ghost predicate CanStep(p: Process, m: map<Key, Blob>, t: Tables, rows: seq<Row>, m': map<Key, Blob>) {
    match p.pc
    case Done(_) => false
    case Failed(_) => false
    case QueryDb(s, cached) =>
      m' == m && multiset(rows) == multiset(Matching(RowsOf(t.shards, s), Misses(cached, p.cp.receiverIndex[s])))
    case QuerySenders(cached) =>
      m' == m && multiset(rows) == multiset(Matching(t.nullifier, Misses(cached, p.cp.senderIndex)))
    case WriteBack(_, _, writes) => PutEvict(m, writes, m')
    case WriteSenders(writes) => PutEvict(m, writes, m')
    case _ => m' == m
  }

  /** After the database step of a shard: what was read is decoded and is to be written back. */
  function AfterFetch(p: Process, s: Shard, cached: seq<Option<Blob>>, rows: seq<Row>, values: seq<Blob>): Process
    requires AllReceivers(values)
  {
    p.(seen := p.seen[s := Look(cached, rows)], pc := WriteBack(s, ReceiversIn(values), ReceiverWrites(s, rows)))
  }

  /** After the database step of the senders. */
  function AfterSenders(p: Process, cached: seq<Option<Blob>>, rows: seq<Row>, values: seq<Blob>): Process
    requires AllSenders(values)
  {
    p.(look := Look(cached, rows), senders := SendersIn(values), pc := WriteSenders(SenderWrites(rows)))
  }

  /** The process after its next step. */
  function Step(p: Process, m: map<Key, Blob>, t: Tables, rows: seq<Row>): Process {
    match p.pc
    case Gate(s) =>
      if s >= FOREST_WIDTH then p.(pc := ReadSenders)
      else if HasIdx(RowsOf(t.shards, s), p.cp.receiverIndex[s]) then p.(pc := ReadCache(s))
      else p.(pc := Gate(s + 1))
    case ReadCache(s) => p.(pc := QueryDb(s, Answers(m, ReceiverKeys(s, p.cp.receiverIndex[s], p.Remain()))))
    case QueryDb(s, cached) =>
      var values := Hits(cached) + Values(rows);
      if AllReceivers(values) then AfterFetch(p, s, cached, rows, values)
      else p.(pc := Failed(DecodeError))
    case WriteBack(s, seg, _) => p.(pc := EndCheck(s, seg))
    case EndCheck(s, seg) => AfterShard(p, t, s, seg)
    case ReadSenders => p.(pc := QuerySenders(Answers(m, SenderKeys(p.cp.senderIndex, p.maxSenders))))
    case QuerySenders(cached) =>
      var values := Hits(cached) + Values(rows);
      if AllSenders(values) then AfterSenders(p, cached, rows, values)
      else p.(pc := Failed(DecodeError))
    case WriteSenders(_) => p.(pc := SenderEnd)
    case SenderEnd => p.(moreSenders := HasIdx(t.nullifier, p.cp.senderIndex + p.maxSenders), pc := TotalRow)
    case TotalRow => p.(pc := if true in t.totals then Done(t.totals[true]) else Failed(RowNotFound))
    case Done(_) => p
    case Failed(_) => p
  }

  /** The end check, the new cursor, and whether the loop goes on. */
  function AfterShard(p: Process, t: Tables, s: Shard, seg: seq<Receiver>): Process {
    var start := p.cp.receiverIndex[s];
    var flag := |seg| == p.Remain() && HasIdx(RowsOf(t.shards, s), start + p.Remain());
    var receivers := p.receivers + seg;
    p.(more := p.more || flag, next := p.next[s := start + |seg|], receivers := receivers,
       pc := if |receivers| == p.maxReceivers then ReadSenders else Gate(s + 1))
  }

  // ---- what holds of a request ----

  ghost predicate Unvisited(c: Cursors, next: Cursors, s: nat) {
    forall s': Shard :: s <= s' ==> next[s'] == c[s']
  }

  /** Some shard has an item at the returned cursor. */
  ghost predicate SomethingLeft(l: Ledger, next: Cursors)
    requires |l.shards| == FOREST_WIDTH
  {
    exists s: Shard :: next[s] < |l.shards[s]|
  }

  /** The batch so far. */
  ghost predicate BatchOk(l: Ledger, p: Process) {
    && |l.shards| == FOREST_WIDTH && p.maxReceivers <= MAX_RECEIVERS && p.maxSenders <= MAX_SENDERS
    && |p.receivers| <= p.maxReceivers
    && Delivered(l, p.cp.receiverIndex, p.next, p.receivers)
    && Reached(l, p.cp.receiverIndex, p.next)
    && Ascending(p.receivers) && Below(p.receivers, FOREST_WIDTH)
    && (p.more ==> |p.receivers| == p.maxReceivers && SomethingLeft(l, p.next))
  }

  /** Shards from s on are still to be visited. */
  ghost predicate Pending(p: Process, s: nat) {
    s <= FOREST_WIDTH && Unvisited(p.cp.receiverIndex, p.next, s) && Below(p.receivers, s) && !p.more
  }

  /** What was read of shard s: a window that starts at the cursor. */
  ghost predicate Segment(xs: seq<Receiver>, start: nat, limit: nat, seg: seq<Receiver>) {
    |seg| <= limit && start + |seg| <= |xs| && multiset(seg) == multiset(Slice(xs, start, |seg|))
  }

  ghost predicate AllTruthful(writes: seq<Access>, l: Ledger) {
    forall a :: a in writes ==> a.Write? && Truthful(a.key, a.value, l)
  }

  /** No index of the sender window wraps onto an existing sender. */
  ghost predicate Unwrapped(l: Ledger, p: Process) {
    NoAlias(p.cp.senderIndex, p.maxSenders, |l.senders|)
  }

  /** The sender batch: at most one sender per index, and, unless the window wraps, a window from the cursor on. */
  ghost predicate SendersOk(l: Ledger, p: Process) {
    && |p.senders| <= p.maxSenders
    && (Unwrapped(l, p) ==> SenderSegment(l.senders, p.cp.senderIndex, p.senders))
  }

  ghost predicate SenderSegment(xs: seq<Sender>, start: nat, got: seq<Sender>) {
    (got == [] || start + |got| <= |xs|) && multiset(got) == multiset(Slice(xs, start, |got|))
  }

  ghost predicate SenderAnswers(l: Ledger, p: Process, cached: seq<Option<Blob>>) {
    && |cached| == p.maxSenders
    && (forall i :: 0 <= i < |cached| && cached[i].Some? ==> cached[i].value.SenderBlob?)
    && (Unwrapped(l, p) ==> Agrees(cached, p.cp.senderIndex, EncodeSenders(l.senders)))
  }

  /** What holds at each point of the request. */
  ghost predicate PcOk(l: Ledger, p: Process)
    requires |l.shards| == FOREST_WIDTH
  {
    match p.pc
    case Gate(s) => Pending(p, s)
    case ReadCache(s) => Pending(p, s) && p.cp.receiverIndex[s] < |l.shards[s]|
    case QueryDb(s, cached) =>
      && Pending(p, s) && p.cp.receiverIndex[s] < |l.shards[s]| && |cached| == p.Remain()
      && Agrees(cached, p.cp.receiverIndex[s], EncodeReceivers(l.shards[s]))
    case WriteBack(s, seg, writes) =>
      && Pending(p, s) && p.cp.receiverIndex[s] < |l.shards[s]|
      && Segment(l.shards[s], p.cp.receiverIndex[s], p.Remain(), seg) && InShard(seg, s) && AllTruthful(writes, l)
    case EndCheck(s, seg) =>
      && Pending(p, s) && p.cp.receiverIndex[s] < |l.shards[s]|
      && Segment(l.shards[s], p.cp.receiverIndex[s], p.Remain(), seg) && InShard(seg, s)
    case ReadSenders => true
    case QuerySenders(cached) => SenderAnswers(l, p, cached)
    case WriteSenders(writes) => SendersOk(l, p) && AllTruthful(writes, l)
    case SenderEnd => SendersOk(l, p)
    case TotalRow => SendersOk(l, p) && (p.moreSenders ==> p.cp.senderIndex + p.maxSenders < |l.senders|)
    case Done(_) => SendersOk(l, p) && (p.moreSenders ==> p.cp.senderIndex + p.maxSenders < |l.senders|)
    case Failed(e) => e == RowNotFound
  }

  ghost predicate PullOk(l: Ledger, p: Process) {
    BatchOk(l, p) && PcOk(l, p)
  }

  /** The shards below s are delivered at least up to what was committed when the request began. */
  ghost predicate Covered(p: Process, s: nat) {
    forall s': Shard :: s' < s && s' < |p.begun.shards| ==> |p.begun.shards[s']| <= p.next[s']
  }

  /** A window that was not filled reaches at least the end of what was committed when the request began. */
  ghost predicate FilledOr(n: nat, limit: nat, start: nat, size: nat) {
    n == limit || size <= start + n
  }

  ghost predicate CoverOk(p: Process) {
    && |p.begun.shards| == FOREST_WIDTH
    && match p.pc
       case Gate(s) => Covered(p, s)
       case ReadCache(s) => Covered(p, s)
       case QueryDb(s, _) => Covered(p, s)
       case WriteBack(s, seg, _) =>
         Covered(p, s) && FilledOr(|seg|, p.Remain(), p.cp.receiverIndex[s], |p.begun.shards[s]|)
       case EndCheck(s, seg) => Covered(p, s) && FilledOr(|seg|, p.Remain(), p.cp.receiverIndex[s], |p.begun.shards[s]|)
       case ReadSenders => ReceiversCovered(p)
       case QuerySenders(_) => ReceiversCovered(p)
       case WriteSenders(_) => ReceiversCovered(p) && SendersCovered(p)
       case SenderEnd => ReceiversCovered(p) && SendersCovered(p)
       case TotalRow => ReceiversCovered(p) && SendersCovered(p) && ClearFlagCovered(p)
       case Done(_) => ReceiversCovered(p) && SendersCovered(p) && ClearFlagCovered(p)
       case Failed(_) => true
  }

  /** The shards below v were visited and are complete up to what was committed when the request began; the others were
      not visited. */
  ghost predicate VisitedBelow(p: Process, v: nat) {
    v <= FOREST_WIDTH && Covered(p, v) && Unvisited(p.cp.receiverIndex, p.next, v)
  }

  /** A short batch has everything that was committed when the request began. A clear flag means that the visited shards
      are complete in this sense. */
  ghost predicate ReceiversCovered(p: Process) {
    && (|p.receivers| == p.maxReceivers || Covered(p, FOREST_WIDTH))
    && (!p.more ==> exists v: nat :: VisitedBelow(p, v))
  }

  ghost predicate SendersCovered(p: Process) {
    FilledOr(|p.senders|, p.maxSenders, p.cp.senderIndex, |p.begun.senders|)
  }

  /** A clear sender flag means that the new cursor is past what was committed when the request began. */
  ghost predicate ClearFlagCovered(p: Process) {
    !p.moreSenders ==> |p.begun.senders| <= p.NextCheckpoint().senderIndex
  }

  // ---- growth ----

  lemma SegmentGrows<T>(xs: seq<T>, ys: seq<T>, from: nat, n: nat)
    requires xs <= ys && (n == 0 || from + n <= |xs|)
    ensures Slice(xs, from, n) == Slice(ys, from, n)
  {
  }

  lemma ShardGrows(xs: seq<Receiver>, ys: seq<Receiver>, from: nat, to: nat, got: seq<Receiver>)
    requires xs <= ys && ShardDelivered(xs, from, to, got) && (to == from || to <= |xs|)
    ensures ShardDelivered(ys, from, to, got) && (to == from || to <= |ys|)
  {
    SegmentGrows(xs, ys, from, to - from);
  }

  lemma DeliveredGrows(l: Ledger, l': Ledger, c: Cursors, next: Cursors, rs: seq<Receiver>)
    requires l.PrefixOf(l') && Delivered(l, c, next, rs) && Reached(l, c, next)
    ensures Delivered(l', c, next, rs) && Reached(l', c, next)
  {
    forall s: Shard
      ensures ShardDelivered(l'.shards[s], c[s], next[s], GroupOf(rs, s))
      ensures next[s] == c[s] || next[s] <= |l'.shards[s]|
    {
      ShardGrows(l.shards[s], l'.shards[s], c[s], next[s], GroupOf(rs, s));
    }
  }

  lemma LeftGrows(l: Ledger, l': Ledger, next: Cursors)
    requires l.PrefixOf(l') && SomethingLeft(l, next)
    ensures SomethingLeft(l', next)
  {
    var s: Shard :| next[s] < |l.shards[s]|;
    assert l.shards[s] <= l'.shards[s];
  }

  lemma AgreesGrows(cached: seq<Option<Blob>>, start: nat, xs: seq<Blob>, ys: seq<Blob>)
    requires Agrees(cached, start, xs) && xs <= ys
    ensures Agrees(cached, start, ys)
  {
  }

  lemma EncodedPrefix(xs: seq<Receiver>, ys: seq<Receiver>)
    requires xs <= ys
    ensures EncodeReceivers(xs) <= EncodeReceivers(ys)
  {
  }

  lemma EncodedSendersPrefix(xs: seq<Sender>, ys: seq<Sender>)
    requires xs <= ys
    ensures EncodeSenders(xs) <= EncodeSenders(ys)
  {
  }

  lemma SendersGrow(l: Ledger, l': Ledger, p: Process)
    requires l.PrefixOf(l') && SendersOk(l, p)
    ensures SendersOk(l', p)
  {
    if Unwrapped(l', p) {
      NoAliasPart(p.cp.senderIndex, p.maxSenders, p.cp.senderIndex, p.maxSenders, |l'.senders|, |l.senders|);
      SegmentGrows(l.senders, l'.senders, p.cp.senderIndex, |p.senders|);
    }
  }

  lemma PcGrows(l: Ledger, l': Ledger, p: Process)
    requires l.PrefixOf(l') && PcOk(l, p)
    ensures PcOk(l', p)
  {
    match p.pc
    case ReadCache(s) => assert l.shards[s] <= l'.shards[s];
    case QueryDb(s, cached) =>
      assert l.shards[s] <= l'.shards[s];
      EncodedPrefix(l.shards[s], l'.shards[s]);
      AgreesGrows(cached, p.cp.receiverIndex[s], EncodeReceivers(l.shards[s]), EncodeReceivers(l'.shards[s]));
    case WriteBack(s, seg, writes) =>
      SegmentGrows(l.shards[s], l'.shards[s], p.cp.receiverIndex[s], |seg|);
    case EndCheck(s, seg) =>
      SegmentGrows(l.shards[s], l'.shards[s], p.cp.receiverIndex[s], |seg|);
    case QuerySenders(cached) =>
      EncodedSendersPrefix(l.senders, l'.senders);
      if Unwrapped(l', p) {
        NoAliasPart(p.cp.senderIndex, p.maxSenders, p.cp.senderIndex, p.maxSenders, |l'.senders|, |l.senders|);
        AgreesGrows(cached, p.cp.senderIndex, EncodeSenders(l.senders), EncodeSenders(l'.senders));
      }
    case _ =>
      if SendersOk(l, p) { SendersGrow(l, l', p); }
  }

  /** What a request relies on and has achieved outlives commits. */
  lemma PullGrows(l: Ledger, l': Ledger, p: Process)
    requires l.PrefixOf(l') && PullOk(l, p)
    ensures PullOk(l', p)
  {
    DeliveredGrows(l, l', p.cp.receiverIndex, p.next, p.receivers);
    if p.more { LeftGrows(l, l', p.next); }
    PcGrows(l, l', p);
  }

  // ---- steps ----

  lemma BeginOk(l: Ledger, cp: Checkpoint, maxReceivers: nat, maxSenders: nat)
    requires |l.shards| == FOREST_WIDTH
    ensures PullOk(l, Begin(l, cp, maxReceivers, maxSenders)) && CoverOk(Begin(l, cp, maxReceivers, maxSenders))
  {
    EmptyDelivery(l, cp.receiverIndex);
  }

  lemma GateStep(l: Ledger, t: Tables, p: Process, s: nat)
    requires Holds(t, l) && PullOk(l, p) && p.pc == Gate(s)
    ensures PullOk(l, Step(p, map[], t, []))
  {
    if s < FOREST_WIDTH {
      PullGate(t, l, s, p.cp.receiverIndex[s], HasIdx(RowsOf(t.shards, s), p.cp.receiverIndex[s]));
    }
  }

  lemma ReadCacheStep(l: Ledger, m: map<Key, Blob>, p: Process, s: Shard, p': Process)
    requires Coherent(m, l) && Fits(l, MAX_RECEIVERS) && PullOk(l, p) && p.pc == ReadCache(s)
    requires p' == p.(pc := QueryDb(s, Answers(m, ReceiverKeys(s, p.cp.receiverIndex[s], p.Remain()))))
    ensures PullOk(l, p')
  {
    assert |l.shards[s]| + MAX_RECEIVERS <= TWO_48;
    ReceiverWindowAgrees(m, l, s, p.cp.receiverIndex[s], p.Remain());
  }

  lemma BlobsAreReceivers(values: seq<Blob>, xs: seq<Receiver>, start: nat, n: nat)
    requires multiset(values) == multiset(Slice(EncodeReceivers(xs), start, n))
    ensures AllReceivers(values) && EncodeReceivers(ReceiversIn(values)) == values
  {
    forall i | 0 <= i < |values| ensures values[i].ReceiverBlob? {
      assert values[i] in multiset(Slice(EncodeReceivers(xs), start, n));
    }
  }

  lemma ShortSlice<T>(xs: seq<T>, start: nat, n: nat, got: seq<T>)
    requires multiset(got) == multiset(Slice(xs, start, n))
    ensures |got| <= n && (got == [] || start + |got| <= |xs|) && multiset(got) == multiset(Slice(xs, start, |got|))
    ensures start <= |xs| ==> |got| == Min(n, |xs| - start)
  {
    BagSize(got, Slice(xs, start, n));
    assert |got| > 0 ==> Slice(xs, start, |got|) == Slice(xs, start, n);
  }

  /** The answer for a shard is that of the tables at the database step: the hits were read earlier, but they are
      rows that do not change. */
  lemma QueryAnswer(stored: seq<Row>, xs: seq<Receiver>, start: nat, cached: seq<Option<Blob>>, rows: seq<Row>,
                    values: seq<Blob>)
    requires Dense(stored, EncodeReceivers(xs)) && Agrees(cached, start, EncodeReceivers(xs))
    requires multiset(rows) == multiset(Matching(stored, Misses(cached, start)))
    requires values == Hits(cached) + Values(rows)
    ensures AllReceivers(values)
    ensures multiset(ReceiversIn(values)) == multiset(Slice(xs, start, |cached|))
  {
    ReadThrough(cached, start, stored, EncodeReceivers(xs), rows, values);
    OverlayWindow(cached, start, EncodeReceivers(xs));
    BlobsAreReceivers(values, xs, start, |cached|);
    ReceiverWindow(stored, xs, start, cached, rows, ReceiversIn(values));
  }

  lemma QuerySegment(l: Ledger, t: Tables, s: Shard, start: nat, cached: seq<Option<Blob>>, rows: seq<Row>,
                     values: seq<Blob>)
    requires l.Valid() && Dense(RowsOf(t.shards, s), EncodeReceivers(l.shards[s])) && start < |l.shards[s]|
    requires Agrees(cached, start, EncodeReceivers(l.shards[s]))
    requires multiset(rows) == multiset(Matching(RowsOf(t.shards, s), Misses(cached, start)))
    requires values == Hits(cached) + Values(rows)
    ensures AllReceivers(values) && Segment(l.shards[s], start, |cached|, ReceiversIn(values))
    ensures InShard(ReceiversIn(values), s)
  {
    QueryAnswer(RowsOf(t.shards, s), l.shards[s], start, cached, rows, values);
    SegmentPlaced(l, s, start, |cached|, ReceiversIn(values));
    ShortSlice(l.shards[s], start, |cached|, ReceiversIn(values));
  }

  lemma QueryStep(l: Ledger, t: Tables, p: Process, s: Shard, cached: seq<Option<Blob>>, rows: seq<Row>,
                  values: seq<Blob>)
    requires l.Valid() && Fits(l, 0) && Holds(t, l) && PullOk(l, p) && p.pc == QueryDb(s, cached)
    requires multiset(rows) == multiset(Matching(RowsOf(t.shards, s), Misses(cached, p.cp.receiverIndex[s])))
    requires values == Hits(cached) + Values(rows)
    ensures AllReceivers(values)
    ensures PullOk(l, AfterFetch(p, s, cached, rows, values))
  {
    QuerySegment(l, t, s, p.cp.receiverIndex[s], cached, rows, values);
    QueryWrites(l, t, s, rows, Misses(cached, p.cp.receiverIndex[s]));
  }

  lemma QueryWrites(l: Ledger, t: Tables, s: Shard, rows: seq<Row>, want: seq<nat>)
    requires Fits(l, 0) && Holds(t, l) && multiset(rows) == multiset(Matching(RowsOf(t.shards, s), want))
    ensures AllTruthful(ReceiverWrites(s, rows), l)
  {
    ReceiverRowFacts(s, rows, want, t, l);
  }

  /** The segment joins the batch. */
  lemma EndDelivered(l: Ledger, p: Process, s: Shard, seg: seq<Receiver>, next': Cursors)
    requires PullOk(l, p) && p.pc == EndCheck(s, seg) && next' == p.next[s := p.cp.receiverIndex[s] + |seg|]
    ensures Delivered(l, p.cp.receiverIndex, next', p.receivers + seg) && Reached(l, p.cp.receiverIndex, next')
    ensures Ascending(p.receivers + seg) && Below(p.receivers + seg, s + 1)
    ensures Unvisited(p.cp.receiverIndex, next', s + 1)
    ensures |p.receivers + seg| <= p.maxReceivers
  {
    AppendSegment(l, p.cp.receiverIndex, p.next, p.receivers, s, |seg|, seg, next');
    AscendingAppend(p.receivers, seg, s);
  }

  /** A flag is set by a full batch only, and then an item at the returned cursor exists. */
  lemma EndFlag(l: Ledger, t: Tables, p: Process, s: Shard, seg: seq<Receiver>, p': Process)
    requires Holds(t, l) && PullOk(l, p) && p.pc == EndCheck(s, seg) && p' == AfterShard(p, t, s, seg)
    ensures p'.more ==> |p'.receivers| == p.maxReceivers && SomethingLeft(l, p'.next)
  {
    CountIsCursor(t, l);
    if p'.more {
      assert p'.next[s] < |l.shards[s]|;
    }
  }

  lemma EndBatch(l: Ledger, t: Tables, p: Process, s: Shard, seg: seq<Receiver>, p': Process)
    requires Holds(t, l) && PullOk(l, p) && p.pc == EndCheck(s, seg) && p' == AfterShard(p, t, s, seg)
    ensures BatchOk(l, p') && Below(p'.receivers, s + 1) && Unvisited(p.cp.receiverIndex, p'.next, s + 1)
  {
    EndDelivered(l, p, s, seg, p'.next);
    EndFlag(l, t, p, s, seg, p');
  }

  lemma EndStep(l: Ledger, t: Tables, p: Process, s: Shard, seg: seq<Receiver>, p': Process)
    requires Holds(t, l) && PullOk(l, p) && p.pc == EndCheck(s, seg) && p' == AfterShard(p, t, s, seg)
    ensures PullOk(l, p')
  {
    EndBatch(l, t, p, s, seg, p');
  }

  lemma ReadSendersStep(l: Ledger, m: map<Key, Blob>, p: Process, cached: seq<Option<Blob>>)
    requires Coherent(m, l) && PullOk(l, p) && p.pc.ReadSenders?
    requires cached == Answers(m, SenderKeys(p.cp.senderIndex, p.maxSenders))
    ensures PullOk(l, p.(pc := QuerySenders(cached)))
  {
    SenderAnswersDecode(m, l, p.cp.senderIndex, p.maxSenders);
    if Unwrapped(l, p) {
      SenderWindowAgrees(m, l, p.cp.senderIndex, p.maxSenders);
    }
  }

  lemma {:induction false} HitsAreSenders(cached: seq<Option<Blob>>)
    requires forall i :: 0 <= i < |cached| && cached[i].Some? ==> cached[i].value.SenderBlob?
    ensures AllSenders(Hits(cached))
  {
    if cached != [] { HitsAreSenders(cached[..|cached| - 1]); }
  }

  lemma QuerySendersStep(l: Ledger, t: Tables, p: Process, cached: seq<Option<Blob>>, rows: seq<Row>, values: seq<Blob>)
    requires Fits(l, 0) && Holds(t, l) && PullOk(l, p) && p.pc == QuerySenders(cached)
    requires multiset(rows) == multiset(Matching(t.nullifier, Misses(cached, p.cp.senderIndex)))
    requires values == Hits(cached) + Values(rows)
    ensures AllSenders(values)
    ensures PullOk(l, AfterSenders(p, cached, rows, values))
  {
    SenderRowFacts(rows, Misses(cached, p.cp.senderIndex), t, l);
    HitsAreSenders(cached);
    SendersRead(l, t, p, cached, rows, values);
  }

  /** The answer for the senders is that of the tables at the database step. */
  lemma SendersRead(l: Ledger, t: Tables, p: Process, cached: seq<Option<Blob>>, rows: seq<Row>, values: seq<Blob>)
    requires Holds(t, l) && SenderAnswers(l, p, cached)
    requires multiset(rows) == multiset(Matching(t.nullifier, Misses(cached, p.cp.senderIndex)))
    requires values == Hits(cached) + Values(rows) && AllSenders(values)
    ensures SendersPulled(l, p.cp.senderIndex, p.maxSenders, SendersIn(values))
    ensures SendersOk(l, p.(senders := SendersIn(values)))
  {
    var start, n, got := p.cp.senderIndex, p.maxSenders, SendersIn(values);
    assert EncodeSenders(got) == values;
    SenderOverlay(t.nullifier, l.senders, start, cached, rows, got);
    if Unwrapped(l, p) {
      SenderWindow(l.senders, start, cached, got);
      ShortSlice(l.senders, start, n, got);
    }
  }

  lemma SenderWindow(xs: seq<Sender>, start: nat, cached: seq<Option<Blob>>, got: seq<Sender>)
    requires Agrees(cached, start, EncodeSenders(xs))
    requires multiset(EncodeSenders(got)) == multiset(Overlay(cached, start, EncodeSenders(xs)))
    ensures multiset(got) == multiset(Slice(xs, start, |cached|))
  {
    OverlayWindow(cached, start, EncodeSenders(xs));
    EncodedSenders([], [], xs, start, |cached|);
    DecodeSendersBag(got, Slice(xs, start, |cached|));
  }

  lemma SenderEndStep(l: Ledger, t: Tables, p: Process)
    requires Holds(t, l) && PullOk(l, p) && p.pc.SenderEnd?
    ensures PullOk(l, p.(moreSenders := HasIdx(t.nullifier, p.cp.senderIndex + p.maxSenders), pc := TotalRow))
  {
    CountIsCursor(t, l);
  }

  lemma ReceiverStep(l: Ledger, m: map<Key, Blob>, t: Tables, p: Process, rows: seq<Row>, m': map<Key, Blob>)
    requires l.Valid() && Fits(l, MAX_RECEIVERS) && Holds(t, l) && Coherent(m, l)
    requires PullOk(l, p) && CanStep(p, m, t, rows, m')
    requires p.pc.Gate? || p.pc.ReadCache? || p.pc.QueryDb? || p.pc.EndCheck?
    ensures PullOk(l, Step(p, m, t, rows)) && !Step(p, m, t, rows).pc.Failed?
  {
    match p.pc
    case Gate(s) => GateStep(l, t, p, s);
    case ReadCache(s) => ReadCacheStep(l, m, p, s, Step(p, m, t, rows));
    case QueryDb(s, cached) => QueryStep(l, t, p, s, cached, rows, Hits(cached) + Values(rows));
    case EndCheck(s, seg) => EndStep(l, t, p, s, seg, Step(p, m, t, rows));
  }

  lemma SenderStep(l: Ledger, m: map<Key, Blob>, t: Tables, p: Process, rows: seq<Row>, m': map<Key, Blob>)
    requires Fits(l, 0) && Holds(t, l) && Coherent(m, l)
    requires PullOk(l, p) && CanStep(p, m, t, rows, m')
    requires p.pc.ReadSenders? || p.pc.QuerySenders? || p.pc.SenderEnd? || p.pc.TotalRow?
    ensures PullOk(l, Step(p, m, t, rows)) && (Step(p, m, t, rows).pc.Failed? ==> true !in t.totals)
  {
    match p.pc
    case ReadSenders => ReadSendersStep(l, m, p, Answers(m, SenderKeys(p.cp.senderIndex, p.maxSenders)));
    case QuerySenders(cached) => QuerySendersStep(l, t, p, cached, rows, Hits(cached) + Values(rows));
    case SenderEnd => SenderEndStep(l, t, p);
    case TotalRow =>
  }

  lemma WriteStep(l: Ledger, m: map<Key, Blob>, t: Tables, p: Process, rows: seq<Row>, m': map<Key, Blob>)
    requires Coherent(m, l) && PullOk(l, p) && CanStep(p, m, t, rows, m') && (p.pc.WriteBack? || p.pc.WriteSenders?)
    ensures PullOk(l, Step(p, m, t, rows)) && Coherent(m', l) && !Step(p, m, t, rows).pc.Failed?
  {
    PutEvictCoherent(m, p.pc.writes, m', l);
  }

  /** Every step of a request, whatever happened to tables and cache since the one before, keeps what holds of it,
      keeps the cache truthful, and fails only for want of a total. */
  lemma StepKeepsPull(l: Ledger, m: map<Key, Blob>, t: Tables, p: Process, rows: seq<Row>, m': map<Key, Blob>)
    requires l.Valid() && Fits(l, MAX_RECEIVERS) && Holds(t, l) && Coherent(m, l)
    requires PullOk(l, p) && CanStep(p, m, t, rows, m')
    ensures PullOk(l, Step(p, m, t, rows)) && Coherent(m', l)
    ensures Step(p, m, t, rows).pc.Failed? ==> true !in t.totals
  {
    if p.pc.WriteBack? || p.pc.WriteSenders? {
      WriteStep(l, m, t, p, rows, m');
    } else if p.pc.Gate? || p.pc.ReadCache? || p.pc.QueryDb? || p.pc.EndCheck? {
      ReceiverStep(l, m, t, p, rows, m');
    } else {
      SenderStep(l, m, t, p, rows, m');
    }
  }

  lemma CoverGate(l: Ledger, t: Tables, p: Process, s: nat)
    requires Holds(t, l) && PullOk(l, p) && CoverOk(p) && p.begun.PrefixOf(l) && p.pc == Gate(s)
    ensures CoverOk(Step(p, map[], t, []))
  {
    CountIsCursor(t, l);
    forall s': Shard | s' == s ensures |p.begun.shards[s']| <= |l.shards[s']| {
      assert p.begun.shards[s'] <= l.shards[s'];
    }
    if s >= FOREST_WIDTH {
      assert VisitedBelow(p.(pc := ReadSenders), FOREST_WIDTH);
    }
  }

  lemma CoverQuery(l: Ledger, t: Tables, p: Process, s: Shard, cached: seq<Option<Blob>>, rows: seq<Row>,
                   values: seq<Blob>)
    requires Holds(t, l) && PullOk(l, p) && p.begun.PrefixOf(l) && CoverOk(p) && p.pc == QueryDb(s, cached)
    requires multiset(rows) == multiset(Matching(RowsOf(t.shards, s), Misses(cached, p.cp.receiverIndex[s])))
    requires values == Hits(cached) + Values(rows) && AllReceivers(values)
    ensures CoverOk(AfterFetch(p, s, cached, rows, values))
  {
    var start := p.cp.receiverIndex[s];
    QueryAnswer(RowsOf(t.shards, s), l.shards[s], start, cached, rows, values);
    ShortSlice(l.shards[s], start, p.Remain(), ReceiversIn(values));
    assert p.begun.shards[s] <= l.shards[s];
  }

  lemma CoverSenders(l: Ledger, t: Tables, p: Process, cached: seq<Option<Blob>>, rows: seq<Row>, values: seq<Blob>)
    requires Holds(t, l) && SenderAnswers(l, p, cached) && p.begun.PrefixOf(l) && CoverOk(p)
    requires p.pc == QuerySenders(cached)
    requires multiset(rows) == multiset(Matching(t.nullifier, Misses(cached, p.cp.senderIndex)))
    requires values == Hits(cached) + Values(rows) && AllSenders(values)
    ensures CoverOk(AfterSenders(p, cached, rows, values))
  {
    CoverFrame(p, AfterSenders(p, cached, rows, values));
    SendersRead(l, t, p, cached, rows, values);
  }

  /** Unless the flag is set, the shard is complete up to what was committed when the request began. */
  lemma EndCovers(l: Ledger, t: Tables, p: Process, s: Shard, seg: seq<Receiver>, p': Process)
    requires Holds(t, l) && PullOk(l, p) && CoverOk(p) && p.begun.PrefixOf(l) && p.pc == EndCheck(s, seg)
    requires p' == AfterShard(p, t, s, seg)
    ensures !p'.more || |seg| < p.Remain() ==> |p.begun.shards[s]| <= p'.next[s]
  {
    CountIsCursor(t, l);
    assert p.begun.shards[s] <= l.shards[s];
  }

  lemma CoverEnd(l: Ledger, t: Tables, p: Process, s: Shard, seg: seq<Receiver>, p': Process)
    requires Holds(t, l) && PullOk(l, p) && CoverOk(p) && p.begun.PrefixOf(l) && p.pc == EndCheck(s, seg)
    requires p' == AfterShard(p, t, s, seg)
    ensures CoverOk(p')
  {
    EndCovers(l, t, p, s, seg, p');
    if !p'.more {
      assert VisitedBelow(p', s + 1);
    }
  }

  lemma CoverSenderEnd(l: Ledger, t: Tables, p: Process)
    requires Holds(t, l) && CoverOk(p) && p.begun.PrefixOf(l) && p.pc.SenderEnd?
    ensures CoverOk(Step(p, map[], t, []))
  {
    CountIsCursor(t, l);
    CoverFrame(p, Step(p, map[], t, []));
  }

  /** The receivers' part of the answer does not change any more. */
  lemma CoverFrame(p: Process, p': Process)
    requires ReceiversCovered(p) && p'.begun == p.begun && p'.cp == p.cp && p'.maxReceivers == p.maxReceivers
    requires p'.more == p.more && p'.next == p.next && p'.receivers == p.receivers
    ensures ReceiversCovered(p')
  {
    if !p.more {
      var v: nat :| VisitedBelow(p, v);
      assert VisitedBelow(p', v);
    }
  }

  lemma CoverReceiverStep(l: Ledger, m: map<Key, Blob>, t: Tables, p: Process, rows: seq<Row>, m': map<Key, Blob>)
    requires Holds(t, l) && PullOk(l, p) && CoverOk(p) && p.begun.PrefixOf(l) && CanStep(p, m, t, rows, m')
    requires p.pc.Gate? || p.pc.QueryDb? || p.pc.EndCheck?
    ensures CoverOk(Step(p, m, t, rows))
  {
    match p.pc
    case Gate(s) => CoverGate(l, t, p, s);
    case QueryDb(s, cached) =>
      if AllReceivers(Hits(cached) + Values(rows)) {
        CoverQuery(l, t, p, s, cached, rows, Hits(cached) + Values(rows));
      }
    case EndCheck(s, seg) => CoverEnd(l, t, p, s, seg, Step(p, m, t, rows));
  }

  lemma CoverSenderStep(l: Ledger, m: map<Key, Blob>, t: Tables, p: Process, rows: seq<Row>, m': map<Key, Blob>)
    requires Holds(t, l) && PullOk(l, p) && CoverOk(p) && p.begun.PrefixOf(l) && CanStep(p, m, t, rows, m')
    requires p.pc.QuerySenders?
    ensures CoverOk(Step(p, m, t, rows))
  {
    var values := Hits(p.pc.cached) + Values(rows);
    if AllSenders(values) {
      CoverSenders(l, t, p, p.pc.cached, rows, values);
    }
  }

  lemma CoverOtherStep(m: map<Key, Blob>, t: Tables, p: Process, rows: seq<Row>)
    requires CoverOk(p) && !p.pc.Gate? && !p.pc.QueryDb? && !p.pc.EndCheck? && !p.pc.QuerySenders? && !p.pc.SenderEnd?
    ensures CoverOk(Step(p, m, t, rows))
  {
    if p.pc.ReadSenders? || p.pc.WriteSenders? || p.pc.TotalRow? {
      CoverFrame(p, Step(p, m, t, rows));
    }
  }

  /** A request never falls behind what was committed when it began. */
  lemma StepKeepsCover(l: Ledger, m: map<Key, Blob>, t: Tables, p: Process, rows: seq<Row>, m': map<Key, Blob>)
    requires Holds(t, l) && PullOk(l, p) && CoverOk(p) && p.begun.PrefixOf(l) && CanStep(p, m, t, rows, m')
    ensures CoverOk(Step(p, m, t, rows))
  {
    if p.pc.Gate? || p.pc.QueryDb? || p.pc.EndCheck? {
      CoverReceiverStep(l, m, t, p, rows, m');
    } else if p.pc.QuerySenders? {
      CoverSenderStep(l, m, t, p, rows, m');
    } else if p.pc.SenderEnd? {
      CoverSenderEnd(l, t, p);
    } else {
      CoverOtherStep(m, t, p, rows);
    }
  }
}
