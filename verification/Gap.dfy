/** A run of the whole system in which a client that does as it is told loses a sender
    (src/indexer/pull.rs:199-206, src/types.rs:88-91). */
module Gap {
  import opened Types
  import opened Keys
  import opened Rows
  import opened Db
  import opened Partition
  import opened Pull
  import Client
  import opened Commit
  import opened Serving
  import opened System
  import opened Runs
  import opened Sessions
  import opened Liveness

  lemma EmptyGroups(s: Shard)
    ensures GroupOf([], s) == []
  {
  }

  lemma NothingGrouped(l: Ledger, ss: seq<Sender>)
    requires |l.shards| == FOREST_WIDTH
    ensures Listing([], []) && GroupShards([]) == {}
    ensures Extended(l, [], ss) == l.(senders := l.senders + ss)
  {
    forall s: Shard ensures GroupOf([], s) == [] && Extended(l, [], ss).shards[s] == l.shards[s] { EmptyGroups(s); }
    assert Extended(l, [], ss).shards == l.shards;
  }

  /** The node gets new senders, and one run of the sync job replicates them. */
  lemma SyncMore(actions: seq<Action>, ss: seq<Sender>, total: Total) returns (more: seq<Action>)
    requires Exec(actions).writer.Idle? && Exec(actions).replica == Exec(actions).node
    requires |Exec(actions).node.senders| + |ss| <= TWO_48
    ensures var st, st' := Exec(actions), Exec(actions + more);
      && st'.node == st'.replica == st.node.(senders := st.node.senders + ss)
      && st'.writer.Idle? && st'.syncFinished && true in st'.db.totals
      && st'.pulls == st.pulls && st'.service == st.service
  {
    EveryRun(actions);
    var st := Exec(actions);
    var node := st.node.(senders := st.node.senders + ss);
    var resp := PullResponse(false, [], ss, total);
    MoreSenders(st.node, ss, node, resp);
    var fetch := [Grow(node), SyncStart, Fetch(resp)];
    FetchMore(actions, node, resp);
    NothingGrouped(st.replica, ss);
    var store := StoreMore(actions + fetch, resp);
    more := fetch + store;
    assert actions + more == (actions + fetch) + store;
  }

  lemma MoreSenders(l: Ledger, ss: seq<Sender>, l': Ledger, resp: PullResponse)
    requires l.Valid() && Fits(l, MAX_RECEIVERS) && |l.senders| + |ss| <= TWO_48 && l' == l.(senders := l.senders + ss)
    requires resp.receivers == [] && resp.senders == ss
    ensures l.PrefixOf(l') && l'.Valid() && Fits(l', MAX_RECEIVERS) && Serves(l', CursorOf(l), resp)
  {
    forall s: Shard ensures GroupOf(resp.receivers, s) == [] { EmptyGroups(s); }
  }

  lemma FetchMore(actions: seq<Action>, node: Ledger, resp: PullResponse)
    requires Exec(actions).writer.Idle? && Exec(actions).replica == Exec(actions).node
    requires Exec(actions).node.PrefixOf(node)
    requires node.Valid() && Fits(node, MAX_RECEIVERS) && resp.receivers == []
    requires Serves(node, CursorOf(Exec(actions).node), resp)
    ensures Exec(actions + [Grow(node), SyncStart, Fetch(resp)])
         == Exec(actions).(node := node, writer := Fetched(CursorOf(Exec(actions).node), resp))
  {
    EveryRun(actions);
    CountIsCursor(Exec(actions).db, Exec(actions).replica);
    ExecSnoc(actions, Grow(node));
    ExecSnoc(actions + [Grow(node)], SyncStart);
    assert actions + [Grow(node), SyncStart] == actions + [Grow(node)] + [SyncStart];
    ExecSnoc(actions + [Grow(node), SyncStart], Fetch(resp));
    assert actions + [Grow(node), SyncStart, Fetch(resp)] == actions + [Grow(node), SyncStart] + [Fetch(resp)];
  }

  /** A fetched batch without receivers, which is the node's last word, is committed and cached. */
  lemma StoreMore(actions: seq<Action>, resp: PullResponse) returns (more: seq<Action>)
    requires Exec(actions).writer.Fetched? && Exec(actions).writer.resp == resp && resp.receivers == []
    requires !resp.shouldContinue
    ensures var st, st' := Exec(actions), Exec(actions + more);
      && st'.replica == Extended(st.replica, [], resp.senders) && st'.node == st.node
      && st'.writer.Idle? && st'.syncFinished && true in st'.db.totals
      && st'.pulls == st.pulls && st'.service == st.service
  {
    var st := Exec(actions);
    NothingGrouped(st.replica, resp.senders);
    ExecSnoc(actions, CommitTx([]));
    var a1 := actions + [CommitTx([])];
    EveryRun(a1);
    ExecSnoc(a1, CacheSenders(st.cache));
    var a2 := a1 + [CacheSenders(st.cache)];
    ExecSnoc(a2, AdvanceCursor);
    more := [CommitTx([]), CacheSenders(st.cache), AdvanceCursor];
    assert actions + more == a2 + [AdvanceCursor];
  }

  /** A request from `cp` for two senders, run to its end. */
  lemma PullTwo(actions: seq<Action>, id: nat, cp: Checkpoint) returns (more: seq<Action>)
    requires id !in Exec(actions).pulls && !Exec(actions).service.Closed? && true in Exec(actions).db.totals
    requires cp.senderIndex + 2 <= TWO_48
    ensures var st, st' := Exec(actions), Exec(actions + more);
      && id in st'.pulls && st' == st.(pulls := st.pulls[id := st'.pulls[id]])
      && var p := st'.pulls[id];
         && p.pc.Done? && p.cp == cp && p.maxSenders == 2
         && multiset(p.senders) == multiset(Slice(st.replica.senders, cp.senderIndex, 2))
  {
    var begin := BeginTwo(actions, id, cp);
    var rest := PullsCanFinish(actions + [begin], id);
    more := [begin] + rest;
    assert actions + more == (actions + [begin]) + rest;
    OneEntry(Exec(actions), id, Exec(actions + [begin]), Exec(actions + more));
    SameTablesPlain(actions + more, id);
  }

  lemma BeginTwo(actions: seq<Action>, id: nat, cp: Checkpoint) returns (a: Action)
    requires id !in Exec(actions).pulls && !Exec(actions).service.Closed?
    ensures var st := Exec(actions);
      Exec(actions + [a]) == st.(pulls := st.pulls[id := Begin(st.replica, cp, 1, 2)])
  {
    a := StartPull(id, cp, 1, 2);
    ExecSnoc(actions, a);
  }

  lemma OneEntry(st: State, id: nat, st1: State, st2: State)
    requires id in st1.pulls && id in st2.pulls
    requires st1 == st.(pulls := st.pulls[id := st1.pulls[id]]) && st2 == st1.(pulls := st1.pulls[id := st2.pulls[id]])
    ensures st2 == st.(pulls := st.pulls[id := st2.pulls[id]])
  {
    assert st1.pulls[id := st2.pulls[id]] == st.pulls[id := st2.pulls[id]];
  }

  /** A request for two senders from the origin, of which there is one so far, has read its batch and is about to make
      its end check. */
  ghost predicate BeforeEndCheck(st: State, x: Sender) {
    && st.pulls.Keys == {0} && !st.service.Closed? && st.writer.Idle?
    && st.node == st.replica && st.node.senders == [x] && true in st.db.totals
    && var p := st.pulls[0];
       p.pc.SenderEnd? && p.cp == Client.Origin() && p.maxSenders == 2 && multiset(p.senders) == multiset{x}
  }

  lemma FirstHalf(x: Sender, total: Total) returns (actions: seq<Action>)
    ensures BeforeEndCheck(Exec(actions), x)
  {
    var sync := SyncMore([], [x], total);
    assert [] + sync == sync;
    ExecSnoc(sync, OpenService(false));
    var open := sync + [OpenService(false)];
    assert Exec(open).replica.senders == [x];
    var begin := BeginTwo(open, 0, Client.Origin());
    var rest := OwnSteps(open + [begin], 0, 2);
    actions := open + [begin] + rest;
    OneEntry(Exec(open), 0, Exec(open + [begin]), Exec(actions));
    BatchRead(actions);
    assert Slice([x], 0, 2) == [x];
  }

  /** At the end check of a request that has seen no other tables, the batch is what its window holds. */
  lemma BatchRead(actions: seq<Action>)
    requires var st := Exec(actions);
      && 0 in st.pulls && st.pulls[0].pc.SenderEnd? && st.pulls[0].begun == st.replica
      && Unwrapped(st.replica, st.pulls[0])
    ensures var st, p := Exec(actions), Exec(actions).pulls[0];
      multiset(p.senders) == multiset(Slice(st.replica.senders, p.cp.senderIndex, p.maxSenders))
  {
    EveryRun(actions);
    assert ProcessOk(Exec(actions).replica, Exec(actions).pulls[0]);
  }

  lemma EndChecked(p: Process, m: map<Key, Blob>, t: Tables)
    requires p.pc.SenderEnd?
    ensures NextRows(p, t) == []
    ensures Step(p, m, t, [])
         == p.(moreSenders := HasIdx(t.nullifier, p.cp.senderIndex + p.maxSenders), pc := TotalRow)
  {
  }

  lemma TotalRead(p: Process, m: map<Key, Blob>, t: Tables)
    requires p.pc.TotalRow? && true in t.totals
    ensures NextRows(p, t) == [] && Step(p, m, t, []) == p.(pc := Done(t.totals[true]))
  {
  }

  /** The last two steps of a request. */
  lemma LastSteps(actions: seq<Action>, id: nat) returns (more: seq<Action>)
    requires id in Exec(actions).pulls && Exec(actions).pulls[id].pc.SenderEnd? && true in Exec(actions).db.totals
    ensures var st := Exec(actions);
      var p := st.pulls[id];
      var more' := HasIdx(st.db.nullifier, p.cp.senderIndex + p.maxSenders);
      Exec(actions + more)
      == st.(pulls := st.pulls[id := p.(moreSenders := more', pc := Done(st.db.totals[true]))])
  {
    var st := Exec(actions);
    var a := OwnStep(actions, id);
    EndChecked(st.pulls[id], st.cache, st.db);
    var b := OwnStep(actions + [a], id);
    TotalRead(Exec(actions + [a]).pulls[id], st.cache, st.db);
    more := [a, b];
    assert actions + more == (actions + [a]) + [b];
    OneEntry(Exec(actions), id, Exec(actions + [a]), Exec(actions + more));
  }

  /** Two more senders are replicated just before the end check: the batch is short, and the answer says continue. */
  lemma SecondHalf(before: seq<Action>, x: Sender, y: Sender, z: Sender, total: Total) returns (actions: seq<Action>)
    requires BeforeEndCheck(Exec(before), x)
    ensures var st := Exec(actions);
      && st.pulls.Keys == {0} && !st.service.Closed? && true in st.db.totals && st.node.senders == [x, y, z]
      && st.node == st.replica
      && var p := st.pulls[0];
         && p.pc.Done? && p.cp == Client.Origin() && p.maxSenders == 2 && multiset(p.senders) == multiset{x}
         && p.moreSenders && p.Response().shouldContinue
  {
    var sync := SyncMore(before, [y, z], total);
    assert Exec(before + sync).replica.senders == [x, y, z];
    var last := LastSteps(before + sync, 0);
    actions := before + sync + last;
    EveryRun(before + sync);
    CountIsCursor(Exec(before + sync).db, Exec(before + sync).replica);
  }

  lemma {:induction false} TwoBatches(ps: seq<Process>)
    requires |ps| == 2
    ensures SendersOf(ps) == ps[0].senders + ps[1].senders
  {
    var front := ps[..1];
    assert front[..0] == [];
    assert SendersOf(front) == SendersOf(front[..0]) + front[0].senders == ps[0].senders;
  }

  /** The gap does happen, to a client that goes on from the server's cursor because it was told to continue: one sender
      is there when the first request reads its batch of two, two more are committed before its end check, and the
      second request gets only the last of the three. */
  lemma SendersAreLost(x: Sender, y: Sender, z: Sender, total: Total) returns (actions: seq<Action>, ps: seq<Process>)
    ensures AllDone(Exec(actions).pulls, ps) && FollowsServer(ps) && |ps| == 2 && NoneWraps(Exec(actions).node, ps)
    ensures ps[0].Response().shouldContinue
    ensures Exec(actions).node.senders == Span(Exec(actions).node, ps) == [x, y, z]
    ensures multiset(SendersOf(ps)) == multiset{x, z}
  {
    var half := FirstHalf(x, total);
    var first := SecondHalf(half, x, y, z, total);
    var p := Exec(first).pulls[0];
    var second := PullTwo(first, 1, p.NextCheckpoint());
    actions := first + second;
    var st := Exec(actions);
    ps := [p, st.pulls[1]];
    assert Slice([x, y, z], 2, 2) == [z];
    OneLost(st.node, ps, x, y, z);
    assert 0 in st.pulls && st.pulls[0] == p && 1 in st.pulls;
  }

  lemma {:induction false} OneLost(l: Ledger, ps: seq<Process>, x: Sender, y: Sender, z: Sender)
    requires |ps| == 2 && l.senders == [x, y, z] && ps[0].cp == Client.Origin() && ps[1].cp == ps[0].NextCheckpoint()
    requires ps[0].maxSenders == ps[1].maxSenders == 2
    requires multiset(ps[0].senders) == multiset{x} && multiset(ps[1].senders) == multiset{z}
    ensures FollowsServer(ps) && NoneWraps(l, ps)
    ensures Span(l, ps) == [x, y, z] && multiset(SendersOf(ps)) == multiset{x, z}
  {
    TwoBatches(ps);
    assert ps[0].NextCheckpoint().senderIndex == 2 && ps[1].NextCheckpoint().senderIndex == 4;
    assert Slice([x, y, z], 0, 4) == [x, y, z];
    assert forall i :: 0 <= i < 2 ==> Unwrapped(l, ps[i]);
  }
}
