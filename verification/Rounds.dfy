/** The two views of the sync writer meet: a round of `Sync.SyncRound` that goes through is a run of the step system
    (src/indexer/sync.rs:109-202). */
module Rounds {
  import opened Types
  import opened Keys
  import opened Lru
  import opened Rows
  import opened Db
  import opened Coherence
  import opened Partition
  import opened Pull
  import opened Commit
  import opened Refresh
  import opened Sync
  import opened System
  import opened Runs
  import opened Liveness
  import opened Serving
  import opened Effects
  import Order

  /** What the cache holds after the first k groups of `listing`, when it started as `c`. */
  function CacheAfter(c: LruCache, cp: Checkpoint, resp: PullResponse, listing: seq<Shard>, k: nat): map<Key, Blob>
    requires c.Valid() && k <= |listing|
  {
    Contents(Run(c, RefreshReceivers(listing[..k], cp.receiverIndex, resp.receivers)).0.entries)
  }

  function TodoAfter(resp: PullResponse, listing: seq<Shard>, k: nat): set<Shard>
    requires k <= |listing|
  {
    GroupShards(resp.receivers) - (set s | s in listing[..k])
  }

  /** The state between the commit and the end of the cache refresh, with the first k groups in the cache. */
  function MidRound(st: State, c: LruCache, cp: Checkpoint, resp: PullResponse, listing: seq<Shard>, k: nat): State
    requires c.Valid() && k <= |listing|
  {
    st.(cache := CacheAfter(c, cp, resp, listing, k),
        writer := Caching(cp, resp, cp.senderIndex, TodoAfter(resp, listing, k), true))
  }

  lemma TodoStep(resp: PullResponse, listing: seq<Shard>, k: nat)
    requires Listing(listing, resp.receivers) && k < |listing|
    ensures listing[k] in TodoAfter(resp, listing, k)
    ensures TodoAfter(resp, listing, k + 1) == TodoAfter(resp, listing, k) - {listing[k]}
  {
    assert listing[k] in listing;
    assert listing[..k + 1] == listing[..k] + [listing[k]];
  }

  lemma CacheStep(c: LruCache, cp: Checkpoint, resp: PullResponse, listing: seq<Shard>, k: nat)
    requires c.Valid() && NoRepeat(c.entries) && k < |listing|
    ensures PutEvict(CacheAfter(c, cp, resp, listing, k), GroupWrites(cp, resp, listing[k]),
                     CacheAfter(c, cp, resp, listing, k + 1))
  {
    var done := RefreshReceivers(listing[..k], cp.receiverIndex, resp.receivers);
    assert listing[..k + 1][..k] == listing[..k];
    RunNoRepeat(c, done);
    RunConcat(c, done, GroupWrites(cp, resp, listing[k]));
    WritesPutEvict(Run(c, done).0, GroupWrites(cp, resp, listing[k]));
  }

  lemma RefreshStep(st: State, c: LruCache, cp: Checkpoint, resp: PullResponse, listing: seq<Shard>, k: nat, a: Action)
    requires c.Valid() && NoRepeat(c.entries) && Listing(listing, resp.receivers) && k < |listing|
    requires |st.replica.shards| == FOREST_WIDTH
    requires a == CacheShard(listing[k], CacheAfter(c, cp, resp, listing, k + 1))
    ensures Enabled(MidRound(st, c, cp, resp, listing, k), a)
    ensures After(MidRound(st, c, cp, resp, listing, k), a) == MidRound(st, c, cp, resp, listing, k + 1)
  {
    TodoStep(resp, listing, k);
    CacheStep(c, cp, resp, listing, k);
  }

  /** Actions that lead from state to state. */
  ghost predicate Path(actions: seq<Action>, states: seq<State>) {
    && |states| == |actions| + 1
    && forall i :: 0 <= i < |actions| ==> Leads(states[i], actions[i], states[i + 1])
  }

  ghost predicate Leads(st: State, a: Action, st': State) {
    |st.replica.shards| == FOREST_WIDTH && Enabled(st, a) && After(st, a) == st'
  }

  lemma PathFront(actions: seq<Action>, states: seq<State>)
    requires Path(actions, states) && actions != []
    ensures var n := |actions| - 1;
      Path(actions[..n], states[..n + 1]) && Leads(states[n], actions[n], states[n + 1])
  {
    var n := |actions| - 1;
    forall i | 0 <= i < n ensures Leads(states[..n + 1][i], actions[..n][i], states[..n + 1][i + 1]) {
      assert Leads(states[i], actions[i], states[i + 1]);
    }
  }

  lemma LeadsOn(actions: seq<Action>, st: State, a: Action, st': State)
    requires Exec(actions) == st && Leads(st, a, st')
    ensures Exec(actions + [a]) == st'
  {
    ExecSnoc(actions, a);
  }

  lemma {:induction false} PathIsRun(start: seq<Action>, actions: seq<Action>, states: seq<State>)
    requires Path(actions, states) && Exec(start) == states[0]
    ensures Exec(start + actions) == states[|actions|]
  {
    if actions == [] {
      assert start + actions == start;
    } else {
      var n := |actions| - 1;
      PathFront(actions, states);
      PathIsRun(start, actions[..n], states[..n + 1]);
      LeadsOn(start + actions[..n], states[n], actions[n], states[n + 1]);
      assert start + actions == start + actions[..n] + [actions[n]];
    }
  }

  /** The cache refresh as actions, group by group. */
  function RefreshActions(c: LruCache, cp: Checkpoint, resp: PullResponse, listing: seq<Shard>): seq<Action>
    requires c.Valid()
  {
    seq(|listing|, k requires 0 <= k < |listing| => CacheShard(listing[k], CacheAfter(c, cp, resp, listing, k + 1)))
  }

  lemma RefreshRun(actions: seq<Action>, st: State, c: LruCache, cp: Checkpoint, resp: PullResponse,
                   listing: seq<Shard>)
    requires c.Valid() && NoRepeat(c.entries) && Listing(listing, resp.receivers)
    requires |st.replica.shards| == FOREST_WIDTH && Exec(actions) == MidRound(st, c, cp, resp, listing, 0)
    ensures Exec(actions + RefreshActions(c, cp, resp, listing)) == MidRound(st, c, cp, resp, listing, |listing|)
  {
    var steps := RefreshActions(c, cp, resp, listing);
    var states := seq(|listing| + 1, k requires 0 <= k <= |listing| => MidRound(st, c, cp, resp, listing, k));
    forall k | 0 <= k < |listing| ensures Leads(states[k], steps[k], states[k + 1]) {
      RefreshStep(st, c, cp, resp, listing, k, steps[k]);
    }
    PathIsRun(actions, steps, states);
  }

  /** The state after a round that goes through: tables, total and cache as `Sync.SyncRound` leaves them, the cursor
      advanced or the run finished. */
  function RoundDone(st: State, cp: Checkpoint, resp: PullResponse, order: seq<Shard>, c': LruCache): State
    requires |st.replica.shards| == FOREST_WIDTH
  {
    st.(db := Committed(st.db, order, cp, resp),
        replica := Extended(st.replica, resp.receivers, resp.senders),
        lastTotal := Some(resp.total),
        cache := Contents(c'.entries),
        writer := if resp.shouldContinue then Ask(Advance(cp, resp.receivers, |resp.senders|)) else Idle,
        syncFinished := st.syncFinished || !resp.shouldContinue)
  }

  lemma CommitRun(actions: seq<Action>, c: LruCache, resp: PullResponse, order: seq<Shard>, listing: seq<Shard>)
    requires Exec(actions).writer.Ask? && Enabled(Exec(actions), Fetch(resp)) && Listing(order, resp.receivers)
    requires c.Valid() && Contents(c.entries) == Exec(actions).cache
    ensures var st, cp := Exec(actions), Exec(actions).writer.cp;
      Exec(actions + [Fetch(resp), CommitTx(order)])
      == MidRound(TakeBatch(st.(writer := Fetched(cp, resp)), order), c, cp, resp, listing, 0)
  {
    var st, cp := Exec(actions), Exec(actions).writer.cp;
    EveryRun(actions);
    CountIsCursor(st.db, st.replica);
    ExecTwo(actions, Fetch(resp), CommitTx(order));
    StartOfRefresh(TakeBatch(st.(writer := Fetched(cp, resp)), order), c, cp, resp, listing);
  }

  lemma ExecTwo(actions: seq<Action>, a: Action, b: Action)
    requires Enabled(Exec(actions), a) && Enabled(After(Exec(actions), a), b)
    requires |After(Exec(actions), a).replica.shards| == FOREST_WIDTH
    ensures Exec(actions + [a, b]) == After(After(Exec(actions), a), b)
  {
    ExecSnoc(actions, a);
    ExecSnoc(actions + [a], b);
    assert actions + [a, b] == actions + [a] + [b];
  }

  lemma StartOfRefresh(st: State, c: LruCache, cp: Checkpoint, resp: PullResponse, listing: seq<Shard>)
    requires c.Valid() && st.cache == Contents(c.entries)
    requires st.writer == Caching(cp, resp, cp.senderIndex, GroupShards(resp.receivers), true)
    ensures st == MidRound(st, c, cp, resp, listing, 0)
  {
    assert listing[..0] == [];
  }

  /** The end of a round, once every group is in the cache. */
  function EndActions(c': LruCache): seq<Action> { [CacheSenders(Contents(c'.entries)), AdvanceCursor] }

  lemma AllListed(resp: PullResponse, listing: seq<Shard>)
    requires Listing(listing, resp.receivers)
    ensures TodoAfter(resp, listing, |listing|) == {}
  {
    assert listing[..|listing|] == listing;
  }

  lemma SendersStep(c: LruCache, cp: Checkpoint, resp: PullResponse, listing: seq<Shard>, c': LruCache)
    requires c.Valid() && NoRepeat(c.entries) && c' == Run(c, RefreshWrites(listing, cp, resp)).0
    ensures PutEvict(CacheAfter(c, cp, resp, listing, |listing|),
                     SenderWrites(NumberedSenders(cp.senderIndex, resp.senders)), Contents(c'.entries))
  {
    var done := RefreshReceivers(listing, cp.receiverIndex, resp.receivers);
    var writes := SenderWrites(NumberedSenders(cp.senderIndex, resp.senders));
    assert listing[..|listing|] == listing;
    RunNoRepeat(c, done);
    RunConcat(c, done, writes);
    WritesPutEvict(Run(c, done).0, writes);
  }

  lemma FinishRun(actions: seq<Action>, st: State, c: LruCache, cp: Checkpoint, resp: PullResponse, listing: seq<Shard>,
                  c': LruCache)
    requires c.Valid() && NoRepeat(c.entries) && Listing(listing, resp.receivers)
    requires Exec(actions) == MidRound(st, c, cp, resp, listing, |listing|)
    requires c' == Run(c, RefreshWrites(listing, cp, resp)).0
    ensures Exec(actions + EndActions(c'))
         == AdvanceWriter(st.(cache := Contents(c'.entries), writer := Caching(cp, resp, cp.senderIndex, {}, false)))
  {
    AllListed(resp, listing);
    SendersStep(c, cp, resp, listing, c');
    var a := CacheSenders(Contents(c'.entries));
    ExecSnoc(actions, a);
    ExecSnoc(actions + [a], AdvanceCursor);
    assert actions + EndActions(c') == actions + [a] + [AdvanceCursor];
  }

  /** The actions of a round that goes through: fetch, commit, one cache step per group, senders, advance. */
  function RoundActions(c: LruCache, cp: Checkpoint, resp: PullResponse, order: seq<Shard>, listing: seq<Shard>,
                        c': LruCache): seq<Action>
    requires c.Valid()
  {
    [Fetch(resp), CommitTx(order)] + RefreshActions(c, cp, resp, listing) + EndActions(c')
  }

  /** A round that goes through, with the order of its commit, the order of its refresh and the bounded cache as
      `Sync.SyncRound` has them, is the run of those actions. */
  lemma RoundIsRun(actions: seq<Action>, c: LruCache, resp: PullResponse, order: seq<Shard>, listing: seq<Shard>,
                   c': LruCache)
    requires Exec(actions).writer.Ask? && Enabled(Exec(actions), Fetch(resp)) && Listing(order, resp.receivers)
    requires c.Valid() && NoRepeat(c.entries) && Contents(c.entries) == Exec(actions).cache
    requires Refreshed(c, c', true, listing, Exec(actions).writer.cp, resp)
    ensures var st, cp := Exec(actions), Exec(actions).writer.cp;
      Exec(actions + RoundActions(c, cp, resp, order, listing, c')) == RoundDone(st, cp, resp, order, c')
  {
    var st, cp := Exec(actions), Exec(actions).writer.cp;
    var begin, groups := [Fetch(resp), CommitTx(order)], RefreshActions(c, cp, resp, listing);
    var taken := TakeBatch(st.(writer := Fetched(cp, resp)), order);
    CommitRun(actions, c, resp, order, listing);
    RefreshRun(actions + begin, taken, c, cp, resp, listing);
    FinishRun(actions + begin + groups, taken, c, cp, resp, listing, c');
    Regrouped(actions, begin, groups, EndActions(c'));
  }

  // ---- write-backs of requests ----

  ghost predicate OnlyWrites(writes: seq<Access>) { forall a :: a in writes ==> a.Write? }

  lemma PendingWrites(l: Ledger, p: Process, s: Shard, seg: seq<Receiver>, writes: seq<Access>)
    requires ProcessOk(l, p) && p.pc == WriteBack(s, seg, writes)
    ensures Order.AllWritten(p.seen, s, writes) && OnlyWrites(writes)
  {
  }

  lemma PendingSenders(l: Ledger, p: Process, writes: seq<Access>)
    requires ProcessOk(l, p) && p.pc == WriteSenders(writes)
    ensures SenderEntries(p.look.rows, writes) && OnlyWrites(writes)
  {
  }

  lemma WrittenBack(c: LruCache, seen: map<Shard, Look>, s: Shard, writes: seq<Access>, c': LruCache)
    requires c.Valid() && NoRepeat(c.entries) && c' == Run(c, writes).0
    requires Order.AllWritten(seen, s, writes) && OnlyWrites(writes)
    ensures Room(c, |writes|) ==> forall r :: r in seen[s].rows ==> ReceiverFields(s, r.idx) in Contents(c'.entries)
  {
    PutGains(c, writes, c');
  }

  lemma SendersWrittenBack(c: LruCache, rows: seq<Row>, writes: seq<Access>, c': LruCache)
    requires c.Valid() && NoRepeat(c.entries) && c' == Run(c, writes).0
    requires SenderEntries(rows, writes) && OnlyWrites(writes)
    ensures Room(c, |writes|) ==> forall r :: r in rows ==> SenderFields(r.idx) in Contents(c'.entries)
  {
    PutGains(c, writes, c');
  }

  /** What the two steps do to a state. */
  lemma WriteBackStep(st: State, id: nat, s: Shard, seg: seq<Receiver>, writes: seq<Access>, after: map<Key, Blob>)
    requires |st.replica.shards| == FOREST_WIDTH && id in st.pulls && st.pulls[id].pc == WriteBack(s, seg, writes)
    requires PutEvict(st.cache, writes, after)
    ensures Enabled(st, PullStep(id, [], after))
    ensures After(st, PullStep(id, [], after))
         == st.(cache := after, pulls := st.pulls[id := st.pulls[id].(pc := EndCheck(s, seg))])
  {
  }

  lemma WriteSendersStep(st: State, id: nat, writes: seq<Access>, after: map<Key, Blob>)
    requires |st.replica.shards| == FOREST_WIDTH && id in st.pulls && st.pulls[id].pc == WriteSenders(writes)
    requires PutEvict(st.cache, writes, after)
    ensures Enabled(st, PullStep(id, [], after))
    ensures After(st, PullStep(id, [], after))
         == st.(cache := after, pulls := st.pulls[id := st.pulls[id].(pc := SenderEnd)])
  {
  }

  /** The bounded cache's own way of taking a write-back is a step of the system, and with room every receiver that the
      request has read is in the cache afterwards. */
  lemma WriteBackIsStep(actions: seq<Action>, id: nat, c: LruCache, s: Shard, seg: seq<Receiver>, writes: seq<Access>,
                        c': LruCache)
    requires id in Exec(actions).pulls && Exec(actions).pulls[id].pc == WriteBack(s, seg, writes)
    requires c.Valid() && NoRepeat(c.entries) && Contents(c.entries) == Exec(actions).cache
    requires c' == Run(c, writes).0
    ensures var st, st' := Exec(actions), Exec(actions + [PullStep(id, [], Contents(c'.entries))]);
      && st'.cache == Contents(c'.entries) && id in st'.pulls && st'.pulls[id] == st.pulls[id].(pc := EndCheck(s, seg))
      && s in st.pulls[id].seen
      && (Room(c, |writes|) ==>
            forall r :: r in st.pulls[id].seen[s].rows ==> ReceiverFields(s, r.idx) in st'.cache)
  {
    RequestIsOk(actions, id);
    PendingWrites(Exec(actions).node, Exec(actions).pulls[id], s, seg, writes);
    WritesPutEvict(c, writes);
    WriteBackStep(Exec(actions), id, s, seg, writes, Contents(c'.entries));
    ExecSnoc(actions, PullStep(id, [], Contents(c'.entries)));
    WrittenBack(c, Exec(actions).pulls[id].seen, s, writes, c');
  }

  /** ... and likewise for senders. */
  lemma WriteSendersIsStep(actions: seq<Action>, id: nat, c: LruCache, writes: seq<Access>, c': LruCache)
    requires id in Exec(actions).pulls && Exec(actions).pulls[id].pc == WriteSenders(writes)
    requires c.Valid() && NoRepeat(c.entries) && Contents(c.entries) == Exec(actions).cache
    requires c' == Run(c, writes).0
    ensures var st, st' := Exec(actions), Exec(actions + [PullStep(id, [], Contents(c'.entries))]);
      && st'.cache == Contents(c'.entries) && id in st'.pulls && st'.pulls[id] == st.pulls[id].(pc := SenderEnd)
      && (Room(c, |writes|) ==> forall r :: r in st.pulls[id].look.rows ==> SenderFields(r.idx) in st'.cache)
  {
    RequestIsOk(actions, id);
    PendingSenders(Exec(actions).node, Exec(actions).pulls[id], writes);
    WritesPutEvict(c, writes);
    WriteSendersStep(Exec(actions), id, writes, Contents(c'.entries));
    ExecSnoc(actions, PullStep(id, [], Contents(c'.entries)));
    SendersWrittenBack(c, Exec(actions).pulls[id].look.rows, writes, c');
  }

  lemma Regrouped<T>(a: seq<T>, b: seq<T>, c: seq<T>, d: seq<T>)
    ensures a + (b + c + d) == a + b + c + d
  {
  }
}
