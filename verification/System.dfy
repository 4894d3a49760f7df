/** The whole indexer as a step system: the full node, the sync job, the tables, the cache and any number of pull
    requests, interleaved step by step, with failures, crashes and evictions at any point
    (src/indexer/sync.rs:98-260, src/indexer/pull.rs:57-238, src/service.rs:110-127). */
module System {
  import opened Types
  import opened Keys
  import opened Lru
  import opened Rows
  import opened Db
  import opened Coherence
  import opened Partition
  import opened Pull
  import opened Commit
  import FullNode
  import Refresh
  import opened Serving
  import Order
  import Quiet

  /** Where the sync job is: between runs, about to ask, with an answer, or with a committed batch that is not
      in the cache yet. */
  datatype Writer =
    | Idle
    | Ask(cp: Checkpoint)
    | Fetched(cp: Checkpoint, resp: PullResponse)
    | Caching(cp: Checkpoint, resp: PullResponse, base: nat, todo: set<Shard>, sendersLeft: bool)

  datatype Service = Closed | OpenedBySync | OpenedByShutdown

  /** `replica` and `lastTotal` are history: the ledger committed so far, and the total of the last committed batch. */
  datatype State = State(node: Ledger, db: Tables, cache: map<Key, Blob>, writer: Writer, syncFinished: bool,
                         service: Service, pulls: map<nat, Process>, replica: Ledger, lastTotal: Option<Total>)

  datatype Action =
    | Grow(node: Ledger)                          // the node's ledger grows
    | SyncStart                                   // the job starts a run from COUNT(*)
    | Fetch(resp: PullResponse)                   // the node answers, every UTXO can be placed
    | CommitTx(order: seq<Shard>)                 // one transaction, groups in some hash-map order
    | CacheShard(s: Shard, after: map<Key, Blob>) // one group goes into the cache
    | CacheSenders(after: map<Key, Blob>)
    | AdvanceCursor                               // next request, or end of the run
    | SyncFail                                    // the run ends with an error
    | Crash                                       // of the process: only tables, node and sent answers survive
    | Evict(after: map<Key, Blob>)
    | OpenService(shutdown: bool)
    | StartPull(id: nat, from: Checkpoint, maxReceivers: nat, maxSenders: nat)
    | PullStep(id: nat, rows: seq<Row>, after: map<Key, Blob>)

  function EmptyLedger(): Ledger { Ledger(seq(FOREST_WIDTH, s => []), []) }

  function Init(): State {
    State(EmptyLedger(), EmptyTables(), map[], Idle, false, Closed, map[], EmptyLedger(), None)
  }

  function GroupShards(rs: seq<Receiver>): set<Shard> {
    set s: Shard | GroupOf(rs, s) != []
  }

  /** The cache writes for one group. */
  function GroupWrites(cp: Checkpoint, resp: PullResponse, s: Shard): seq<Access> {
    ReceiverWrites(s, Numbered(cp.receiverIndex[s], GroupOf(resp.receivers, s)))
  }

  ghost predicate Enabled(st: State, a: Action) {
    match a
    case Grow(node) => st.node.PrefixOf(node) && node.Valid() && Fits(node, MAX_RECEIVERS)
    case SyncStart => st.writer.Idle?
    case Fetch(resp) => st.writer.Ask? && Serves(st.node, st.writer.cp, resp) && AllPlaced(resp.receivers)
    case CommitTx(order) => st.writer.Fetched? && Listing(order, st.writer.resp.receivers)
    case CacheShard(s, after) => st.writer.Caching? && s in st.writer.todo
      && PutEvict(st.cache, GroupWrites(st.writer.cp, st.writer.resp, s), after)
    case CacheSenders(after) => st.writer.Caching? && st.writer.todo == {} && st.writer.sendersLeft
      && PutEvict(st.cache, SenderWrites(NumberedSenders(st.writer.base, st.writer.resp.senders)), after)
    case AdvanceCursor => st.writer.Caching? && st.writer.todo == {} && !st.writer.sendersLeft
    case SyncFail => true
    case Crash => true
    case Evict(after) => PutEvict(st.cache, [], after)
    case OpenService(shutdown) => st.service.Closed? && (st.syncFinished || shutdown)
    case StartPull(id, _, _, _) => !st.service.Closed? && id !in st.pulls
    case PullStep(id, rows, after) => id in st.pulls && CanStep(st.pulls[id], st.cache, st.db, rows, after)
  }

  function TakeBatch(st: State, order: seq<Shard>): State
    requires st.writer.Fetched? && |st.replica.shards| == FOREST_WIDTH
  {
    var (cp, resp) := (st.writer.cp, st.writer.resp);
    st.(db := Committed(st.db, order, cp, resp),
        writer := Caching(cp, resp, |st.db.nullifier|, GroupShards(resp.receivers), true),
        replica := Extended(st.replica, resp.receivers, resp.senders),
        lastTotal := Some(resp.total))
  }

  function AdvanceWriter(st: State): State
    requires st.writer.Caching?
  {
    var (cp, resp) := (st.writer.cp, st.writer.resp);
    if resp.shouldContinue then st.(writer := Ask(Advance(cp, resp.receivers, |resp.senders|)))
    else st.(writer := Idle, syncFinished := true)
  }

  /** The requests that were answered: what a client has got, it keeps. */
  function AnsweredOf(pulls: map<nat, Process>): map<nat, Process> {
    map id | id in pulls && pulls[id].pc.Done? :: pulls[id]
  }

  function Restarted(st: State): State {
    st.(cache := map[], writer := Idle, syncFinished := false, service := Closed, pulls := AnsweredOf(st.pulls))
  }

  function After(st: State, a: Action): State
    requires |st.replica.shards| == FOREST_WIDTH && Enabled(st, a)
  {
    match a
    case Grow(node) => st.(node := node)
    case SyncStart => st.(writer := Ask(LatestCheckPoint(st.db)))
    case Fetch(resp) => st.(writer := Fetched(st.writer.cp, resp))
    case CommitTx(order) => TakeBatch(st, order)
    case CacheShard(s, after) => st.(cache := after, writer := st.writer.(todo := st.writer.todo - {s}))
    case CacheSenders(after) => st.(cache := after, writer := st.writer.(sendersLeft := false))
    case AdvanceCursor => AdvanceWriter(st)
    case SyncFail => st.(writer := Idle)
    case Crash => Restarted(st)
    case Evict(after) => st.(cache := after)
    case OpenService(_) => st.(service := if st.syncFinished then OpenedBySync else OpenedByShutdown)
    case StartPull(id, from, maxReceivers, maxSenders) =>
      st.(pulls := st.pulls[id := Begin(st.replica, from, maxReceivers, maxSenders)])
    case PullStep(id, rows, after) =>
      st.(cache := after, pulls := st.pulls[id := Step(st.pulls[id], st.cache, st.db, rows)])
  }

  // ---- the invariant ----

  /** What the sync job relies on. The in-memory cursor is the cursor of the tables, except between a commit and
      the advance that follows it. */
  ghost predicate WriterOk(node: Ledger, replica: Ledger, w: Writer)
    requires |replica.shards| == FOREST_WIDTH
  {
    match w
    case Idle => true
    case Ask(cp) => cp == CursorOf(replica)
    case Fetched(cp, resp) => cp == CursorOf(replica) && Serves(node, cp, resp)
    case Caching(cp, resp, base, _, _) =>
      && Advance(cp, resp.receivers, |resp.senders|) == CursorOf(replica)
      && base == cp.senderIndex && Serves(replica, cp, resp)
  }

  ghost predicate PullsOk(l: Ledger, pulls: map<nat, Process>) {
    forall id :: id in pulls ==> ProcessOk(l, pulls[id])
  }

  /** ... and as long as nothing was committed since the request began, it is on the path of the plain pull. */
  ghost predicate ProcessOk(l: Ledger, p: Process) {
    && PullOk(l, p) && CoverOk(p) && p.begun.PrefixOf(l) && (p.begun == l ==> Quiet.Exact(l, p))
    && (!p.pc.Failed? ==> Order.Ordered(l, p))
  }

  ghost predicate NoFailure(pulls: map<nat, Process>) {
    forall id :: id in pulls ==> !pulls[id].pc.Failed?
  }

  /** The totals table has at most one row: the total of the last committed batch. */
  ghost predicate TotalsOk(st: State) {
    && st.db.totals == (if st.lastTotal.Some? then map[true := st.lastTotal.value] else map[])
    && (st.syncFinished || st.service.OpenedBySync? || st.writer.Caching? ==> st.lastTotal.Some?)
    && (st.service.Closed? ==> forall id :: id in st.pulls ==> st.pulls[id].pc.Done?)
    && (st.service.OpenedBySync? ==> NoFailure(st.pulls))
  }

  ghost predicate DataOk(st: State) {
    && st.node.Valid() && Fits(st.node, MAX_RECEIVERS)
    && st.replica.PrefixOf(st.node)
    && Holds(st.db, st.replica)
    && Coherent(st.cache, st.replica)
  }

  ghost predicate Inv(st: State) {
    DataOk(st) && WriterOk(st.node, st.replica, st.writer) && PullsOk(st.replica, st.pulls) && TotalsOk(st)
  }

  lemma ReplicaFits(l: Ledger, node: Ledger)
    requires l.PrefixOf(node) && node.Valid() && Fits(node, MAX_RECEIVERS)
    ensures l.Valid() && Fits(l, MAX_RECEIVERS) && Fits(l, 0)
  {
    forall s: Shard ensures |l.shards[s]| + MAX_RECEIVERS <= TWO_48 {
      assert l.shards[s] <= node.shards[s];
    }
    forall s: Shard, i: nat | i < |l.shards[s]| ensures l.shards[s][i].utxo.tree == Some(s) {
      assert l.shards[s][i] == node.shards[s][i];
    }
  }

  lemma InitOk()
    ensures Inv(Init())
  {
    forall s: Shard ensures Dense(RowsOf([], s), EncodeReceivers(EmptyLedger().shards[s])) {
      assert Image(EncodeReceivers([])) == [];
    }
    assert Image(EncodeSenders([])) == [];
  }

  // ---- the writer's steps ----

  lemma GrowKeeps(st: State, node: Ledger)
    requires Inv(st) && Enabled(st, Grow(node))
    ensures Inv(After(st, Grow(node)))
  {
    FullNode.PrefixTransitive(st.replica, st.node, node);
    if st.writer.Fetched? {
      ServesGrows(st.node, node, st.writer.cp, st.writer.resp);
    }
  }

  lemma StartKeeps(st: State)
    requires Inv(st) && Enabled(st, SyncStart)
    ensures Inv(After(st, SyncStart))
  {
    CountIsCursor(st.db, st.replica);
  }

  lemma PullsGrow(l: Ledger, l': Ledger, pulls: map<nat, Process>)
    requires PullsOk(l, pulls) && l.PrefixOf(l')
    ensures PullsOk(l', pulls)
  {
    forall id | id in pulls ensures ProcessOk(l', pulls[id]) {
      assert ProcessOk(l, pulls[id]);
      ProcessGrows(l, l', pulls[id]);
    }
  }

  lemma ProcessGrows(l: Ledger, l': Ledger, p: Process)
    requires ProcessOk(l, p) && l.PrefixOf(l')
    ensures ProcessOk(l', p)
  {
    PullGrows(l, l', p);
    FullNode.PrefixTransitive(p.begun, l, l');
    if p.begun == l' { SameLedger(l, l'); }
    if !p.pc.Failed? { Order.OrderedGrows(l, l', p); }
  }

  lemma SameLedger(l: Ledger, l': Ledger)
    requires l.PrefixOf(l') && l'.PrefixOf(l)
    ensures l == l'
  {
    forall s: Shard ensures l.shards[s] == l'.shards[s] {
      assert l.shards[s] <= l'.shards[s] && l'.shards[s] <= l.shards[s];
    }
    assert l.shards == l'.shards;
  }

  lemma CommitData(st: State, order: seq<Shard>)
    requires DataOk(st) && WriterOk(st.node, st.replica, st.writer) && Enabled(st, CommitTx(order))
    ensures DataOk(TakeBatch(st, order)) && st.replica.PrefixOf(TakeBatch(st, order).replica)
  {
    var resp := st.writer.resp;
    ExtendedIsPrefix(st.replica, st.node, resp);
    CommitExtends(st.db, st.replica, order, st.writer.cp, resp);
    CoherentGrows(st.cache, st.replica, Extended(st.replica, resp.receivers, resp.senders));
  }

  lemma CommitWriter(st: State, order: seq<Shard>)
    requires DataOk(st) && WriterOk(st.node, st.replica, st.writer) && Enabled(st, CommitTx(order))
    ensures var st' := TakeBatch(st, order); WriterOk(st'.node, st'.replica, st'.writer)
    ensures TakeBatch(st, order).db.totals == st.db.totals[true := st.writer.resp.total]
  {
    var resp := st.writer.resp;
    ExtendedCursor(st.replica, resp.receivers, resp.senders);
    Refresh.ExtendedServes(st.replica, resp);
    CountIsCursor(st.db, st.replica);
    CommittedRest(st.db, order, st.writer.cp, resp);
  }

  lemma CommitKeeps(st: State, order: seq<Shard>)
    requires Inv(st) && Enabled(st, CommitTx(order))
    ensures Inv(After(st, CommitTx(order)))
  {
    CommitData(st, order);
    CommitWriter(st, order);
    PullsGrow(st.replica, TakeBatch(st, order).replica, st.pulls);
    CommitTotals(st, TakeBatch(st, order));
  }

  lemma CommitTotals(st: State, st': State)
    requires TotalsOk(st) && st'.lastTotal.Some? && st'.db.totals == st.db.totals[true := st'.lastTotal.value]
    requires st'.service == st.service && st'.pulls == st.pulls
    ensures TotalsOk(st')
  {
  }

  lemma CacheShardKeeps(st: State, s: Shard, after: map<Key, Blob>)
    requires Inv(st) && Enabled(st, CacheShard(s, after))
    ensures Inv(After(st, CacheShard(s, after)))
  {
    var w := st.writer;
    ReplicaFits(st.replica, st.node);
    Refresh.BatchReceiversTruthful(st.replica, w.cp, w.resp, s);
    PutEvictCoherent(st.cache, GroupWrites(w.cp, w.resp, s), after, st.replica);
  }

  lemma CacheSendersKeeps(st: State, after: map<Key, Blob>)
    requires Inv(st) && Enabled(st, CacheSenders(after))
    ensures Inv(After(st, CacheSenders(after)))
  {
    var w := st.writer;
    ReplicaFits(st.replica, st.node);
    Refresh.BatchSendersTruthful(st.replica, w.cp, w.resp);
    PutEvictCoherent(st.cache, SenderWrites(NumberedSenders(w.base, w.resp.senders)), after, st.replica);
  }

  lemma CrashKeeps(st: State)
    requires Inv(st)
    ensures Inv(Restarted(st))
  {
  }

  // ---- the other steps ----

  lemma EvictKeeps(st: State, after: map<Key, Blob>)
    requires Inv(st) && Enabled(st, Evict(after))
    ensures Inv(After(st, Evict(after)))
  {
    PutEvictCoherent(st.cache, [], after, st.replica);
  }

  lemma StartPullKeeps(st: State, id: nat, from: Checkpoint, maxReceivers: nat, maxSenders: nat)
    requires Inv(st) && Enabled(st, StartPull(id, from, maxReceivers, maxSenders))
    ensures Inv(After(st, StartPull(id, from, maxReceivers, maxSenders)))
  {
    BeginOk(st.replica, from, maxReceivers, maxSenders);
    Quiet.QuietBegin(st.replica, from, maxReceivers, maxSenders);
    Order.OrderedBegin(st.replica, from, maxReceivers, maxSenders);
  }

  lemma PullStepKeeps(st: State, id: nat, rows: seq<Row>, after: map<Key, Blob>)
    requires Inv(st) && Enabled(st, PullStep(id, rows, after))
    ensures Inv(After(st, PullStep(id, rows, after)))
  {
    ReplicaFits(st.replica, st.node);
    assert ProcessOk(st.replica, st.pulls[id]);
    ProcessStep(st.replica, st.cache, st.db, st.pulls[id], rows, after);
  }

  lemma ProcessStep(l: Ledger, m: map<Key, Blob>, t: Tables, p: Process, rows: seq<Row>, m': map<Key, Blob>)
    requires l.Valid() && Fits(l, MAX_RECEIVERS) && Holds(t, l) && Coherent(m, l)
    requires ProcessOk(l, p) && CanStep(p, m, t, rows, m')
    ensures ProcessOk(l, Step(p, m, t, rows)) && Coherent(m', l)
    ensures Step(p, m, t, rows).pc.Failed? ==> true !in t.totals
  {
    StepKeepsPull(l, m, t, p, rows, m');
    StepKeepsCover(l, m, t, p, rows, m');
    assert Step(p, m, t, rows).begun == p.begun;
    if p.begun == l { Quiet.QuietStep(l, m, t, p, rows, m'); }
    if !p.pc.Failed? { Order.StepKeepsOrder(l, m, t, p, rows, m'); }
  }

  lemma FetchKeeps(st: State, resp: PullResponse)
    requires Inv(st) && Enabled(st, Fetch(resp))
    ensures Inv(After(st, Fetch(resp)))
  {
  }

  lemma AdvanceKeeps(st: State)
    requires Inv(st) && Enabled(st, AdvanceCursor)
    ensures Inv(AdvanceWriter(st))
  {
  }

  lemma FailKeeps(st: State)
    requires Inv(st)
    ensures Inv(st.(writer := Idle))
  {
  }

  lemma OpenKeeps(st: State, shutdown: bool)
    requires Inv(st) && Enabled(st, OpenService(shutdown))
    ensures Inv(After(st, OpenService(shutdown)))
  {
  }

  lemma WriterKeeps(st: State, a: Action)
    requires Inv(st) && Enabled(st, a)
    requires || a.SyncStart? || a.Fetch? || a.CommitTx? || a.CacheShard?
             || a.CacheSenders? || a.AdvanceCursor? || a.SyncFail?
    ensures Inv(After(st, a))
  {
    match a
    case SyncStart => StartKeeps(st);
    case Fetch(resp) => FetchKeeps(st, resp);
    case CommitTx(order) => CommitKeeps(st, order);
    case CacheShard(s, after) => CacheShardKeeps(st, s, after);
    case CacheSenders(after) => CacheSendersKeeps(st, after);
    case AdvanceCursor => AdvanceKeeps(st);
    case SyncFail => FailKeeps(st);
  }

  /** Every action keeps the invariant. */
  lemma StepKeepsInv(st: State, a: Action)
    requires Inv(st) && Enabled(st, a)
    ensures Inv(After(st, a))
  {
    match a
    case Grow(node) => GrowKeeps(st, node);
    case Crash => CrashKeeps(st);
    case Evict(after) => EvictKeeps(st, after);
    case StartPull(id, from, maxReceivers, maxSenders) => StartPullKeeps(st, id, from, maxReceivers, maxSenders);
    case PullStep(id, rows, after) => PullStepKeeps(st, id, rows, after);
    case OpenService(shutdown) => OpenKeeps(st, shutdown);
    case _ => WriterKeeps(st, a);
  }
}
