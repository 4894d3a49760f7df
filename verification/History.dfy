/** Where the things in a state come from: every request, every opening of the service, every total and every read goes
    back to an action of the run (src/indexer/mod.rs:95-125, src/service.rs:110-127, src/indexer/sync.rs:155-202). */
module History {
  import opened Types
  import opened Keys
  import opened Rows
  import opened Db
  import opened Coherence
  import opened Partition
  import opened Pull
  import opened Serving
  import opened System
  import opened Runs
  import Liveness

  /** The i-th action was possible, so it took place. */
  ghost predicate Taken(actions: seq<Action>, i: nat) {
    i < |actions| && Enabled(Exec(actions[..i]), actions[i])
  }

  function Front(actions: seq<Action>): seq<Action>
    requires actions != []
  {
    actions[..|actions| - 1]
  }

  lemma Earlier(actions: seq<Action>, i: nat)
    requires actions != [] && i < |actions|
    ensures Front(actions)[..i] == actions[..i]
    ensures i < |actions| - 1 ==> (Taken(Front(actions), i) <==> Taken(actions, i))
  {
  }

  lemma EarlierIn(actions: seq<Action>, j: nat, i: nat)
    requires i <= j <= |actions|
    ensures actions[..j][..i] == actions[..i]
    ensures i < j ==> (Taken(actions[..j], i) <==> Taken(actions, i))
  {
  }

  lemma LastTaken(actions: seq<Action>)
    requires actions != []
    ensures var front, a := Front(actions), actions[|actions| - 1];
      && actions[..|actions| - 1] == front
      && (Taken(actions, |actions| - 1) <==> Enabled(Exec(front), a))
      && Exec(actions) == (if Enabled(Exec(front), a) then After(Exec(front), a) else Exec(front))
  {
  }

  // ---- requests ----

  ghost predicate StartOf(actions: seq<Action>, i: nat, id: nat) {
    Taken(actions, i) && actions[i].StartPull? && actions[i].id == id
  }

  /** The request is the one that the action asked for, over what was committed then. */
  ghost predicate AskedFor(p: Process, a: Action, at: State)
    requires a.StartPull?
  {
    && p.cp == a.from && p.begun == at.replica
    && p.maxReceivers == (if a.maxReceivers <= 4096 then a.maxReceivers else 4096)
    && p.maxSenders == (if a.maxSenders <= 4096 then a.maxSenders else 4096)
  }

  lemma StepIsSame(st: State, a: Action, id: nat)
    requires |st.replica.shards| == FOREST_WIDTH && Enabled(st, a) && id in st.pulls && id in After(st, a).pulls
    ensures Liveness.SameRequest(st.pulls[id], After(st, a).pulls[id])
  {
    if a.PullStep? && a.id == id {
      Liveness.StepSameRequest(st.pulls[id], st.cache, st.db, a.rows);
    } else {
      PullUntouched(st, a, id);
    }
  }

  lemma NewRequest(st: State, a: Action, id: nat)
    requires |st.replica.shards| == FOREST_WIDTH && Enabled(st, a) && id !in st.pulls && id in After(st, a).pulls
    ensures a.StartPull? && a.id == id && AskedFor(After(st, a).pulls[id], a, st)
  {
  }

  /** In every run, every request stems from a call of that run: its cursor is the caller's, and its limits are the
      caller's, each capped. */
  lemma {:induction false} RequestsAreAskedFor(actions: seq<Action>, id: nat) returns (i: nat)
    requires id in Exec(actions).pulls
    ensures StartOf(actions, i, id) && AskedFor(Exec(actions).pulls[id], actions[i], Exec(actions[..i]))
  {
    LastTaken(actions);
    var front, a := Front(actions), actions[|actions| - 1];
    if id in Exec(front).pulls {
      i := RequestsAreAskedFor(front, id);
      Earlier(actions, i);
      if Enabled(Exec(front), a) { StepIsSame(Exec(front), a, id); }
    } else {
      i := |actions| - 1;
      NewRequest(Exec(front), a, id);
    }
  }

  /** So a finished request answers the call: no more than the caller wanted and no more than 4096 of each kind, from
      the caller's cursor on. */
  lemma RequestsAreServed(actions: seq<Action>, id: nat) returns (i: nat)
    requires id in Exec(actions).pulls && Exec(actions).pulls[id].pc.Done?
    ensures StartOf(actions, i, id)
    ensures var p, a, l := Exec(actions).pulls[id], actions[i], Exec(actions).node;
      && |p.Response().receivers| <= a.maxReceivers && |p.Response().receivers| <= 4096
      && |p.Response().senders| <= a.maxSenders && |p.Response().senders| <= 4096
      && Delivered(l, a.from.receiverIndex, p.NextCheckpoint().receiverIndex, p.Response().receivers)
      && (Unwrapped(l, p) ==> SenderSegment(l.senders, a.from.senderIndex, p.Response().senders))
  {
    i := RequestsAreAskedFor(actions, id);
    RequestIsOk(actions, id);
  }

  // ---- the opening of the service ----

  ghost predicate NoCrash(actions: seq<Action>, i: nat) {
    forall k :: i <= k < |actions| ==> !actions[k].Crash?
  }

  /** A run of the sync job ended with an answer that says stop, and nothing crashed since. */
  ghost predicate SyncEnded(actions: seq<Action>, i: nat) {
    && Taken(actions, i) && actions[i].AdvanceCursor? && !Exec(actions[..i]).writer.resp.shouldContinue
    && NoCrash(actions, i)
  }

  /** The service was opened, and nothing crashed since. */
  ghost predicate Opening(actions: seq<Action>, j: nat) {
    Taken(actions, j) && actions[j].OpenService? && NoCrash(actions, j)
  }

  lemma SyncEndedOn(actions: seq<Action>, i: nat)
    requires actions != [] && i < |actions| - 1
    ensures SyncEnded(actions, i) <==> SyncEnded(Front(actions), i) && !actions[|actions| - 1].Crash?
  {
    Earlier(actions, i);
    assert NoCrash(actions, i) <==> NoCrash(Front(actions), i) && !actions[|actions| - 1].Crash?;
  }

  lemma OpeningOn(actions: seq<Action>, j: nat)
    requires actions != [] && j < |actions| - 1
    ensures Opening(actions, j) <==> Opening(Front(actions), j) && !actions[|actions| - 1].Crash?
  {
    Earlier(actions, j);
    assert NoCrash(actions, j) <==> NoCrash(Front(actions), j) && !actions[|actions| - 1].Crash?;
  }

  lemma FlagStep(st: State, a: Action)
    requires |st.replica.shards| == FOREST_WIDTH && Enabled(st, a)
    ensures After(st, a).syncFinished <==>
              (st.syncFinished && !a.Crash?) || (a.AdvanceCursor? && !st.writer.resp.shouldContinue)
  {
  }

  lemma SomeSyncEnded(actions: seq<Action>)
    requires actions != []
    ensures (exists i: nat :: SyncEnded(actions, i)) <==>
              || SyncEnded(actions, |actions| - 1)
              || (!actions[|actions| - 1].Crash? && exists i: nat :: SyncEnded(Front(actions), i))
  {
    var n := |actions| - 1;
    if i: nat :| SyncEnded(actions, i) && i != n { SyncEndedOn(actions, i); }
    if i: nat :| SyncEnded(Front(actions), i) && !actions[n].Crash? {
      SyncEndedOn(actions, i);
      assert SyncEnded(actions, i);
    }
  }

  /** In every run, the start-up flag says exactly that a run of the sync job has reached the end since the last
      crash. */
  lemma {:induction false} FlagSaysSynced(actions: seq<Action>)
    ensures Exec(actions).syncFinished <==> exists i: nat :: SyncEnded(actions, i)
  {
    if actions != [] {
      LastTaken(actions);
      FlagSaysSynced(Front(actions));
      SomeSyncEnded(actions);
      if Taken(actions, |actions| - 1) { FlagStep(Exec(Front(actions)), actions[|actions| - 1]); }
    }
  }

  /** How the service was opened: with the flag set, or because of a shutdown. */
  ghost predicate OpenedAs(service: Service, a: Action, at: State)
    requires a.OpenService?
  {
    && service == (if at.syncFinished then OpenedBySync else OpenedByShutdown)
    && (at.syncFinished || a.shutdown)
  }

  lemma ServiceStep(st: State, a: Action)
    requires |st.replica.shards| == FOREST_WIDTH && Enabled(st, a) && !After(st, a).service.Closed?
    ensures if st.service.Closed? then a.OpenService? && OpenedAs(After(st, a).service, a, st)
            else After(st, a).service == st.service && !a.Crash?
  {
  }

  lemma {:induction false} OpenServiceWasOpened(actions: seq<Action>) returns (j: nat)
    requires !Exec(actions).service.Closed?
    ensures Opening(actions, j) && OpenedAs(Exec(actions).service, actions[j], Exec(actions[..j]))
  {
    LastTaken(actions);
    var front, a := Front(actions), actions[|actions| - 1];
    if Enabled(Exec(front), a) { ServiceStep(Exec(front), a); }
    if Exec(front).service.Closed? {
      j := |actions| - 1;
    } else {
      j := OpenServiceWasOpened(front);
      OpeningOn(actions, j);
      Earlier(actions, j);
    }
  }

  /** Since the last crash the service was opened after a run of the sync job had reached the end. */
  ghost predicate GateBySync(actions: seq<Action>, i: nat, j: nat) {
    i < j && SyncEnded(actions, i) && Opening(actions, j)
  }

  /** ... or it was opened for a shutdown, when no run had. */
  ghost predicate GateByShutdown(actions: seq<Action>, j: nat) {
    && Opening(actions, j) && actions[j] == OpenService(true)
    && forall i: nat :: i < j ==> !SyncEnded(actions, i)
  }

  lemma SyncEndedWithin(actions: seq<Action>, i: nat, j: nat)
    requires i < j < |actions| && NoCrash(actions, j)
    ensures SyncEnded(actions[..j], i) <==> SyncEnded(actions, i)
  {
    EarlierIn(actions, j, i);
    assert NoCrash(actions[..j], i) <==> NoCrash(actions, i) by {
      if NoCrash(actions[..j], i) {
        forall k | i <= k < |actions| ensures !actions[k].Crash? {
          if k < j { assert !actions[..j][k].Crash?; }
        }
      }
    }
  }

  /** The gate waits: in every run, a service that is open for the sync was opened after a run of the sync job had
      reached the end since the last crash, and one that is open for a shutdown was opened by a shutdown. */
  lemma GateWaits(actions: seq<Action>)
    ensures Exec(actions).service.OpenedBySync? ==> exists i: nat, j: nat :: GateBySync(actions, i, j)
    ensures Exec(actions).service.OpenedByShutdown? ==> exists j: nat :: GateByShutdown(actions, j)
  {
    if !Exec(actions).service.Closed? {
      var j := OpenServiceWasOpened(actions);
      FlagSaysSynced(actions[..j]);
      if i: nat :| SyncEnded(actions[..j], i) {
        SyncEndedWithin(actions, i, j);
        assert GateBySync(actions, i, j);
      } else {
        forall i: nat | i < j ensures !SyncEnded(actions, i) { SyncEndedWithin(actions, i, j); }
        assert GateByShutdown(actions, j);
      }
    }
  }

  /** Without a shutdown no request ever meets an empty totals table. */
  lemma OpenMeansTotal(actions: seq<Action>)
    requires forall j :: 0 <= j < |actions| ==> actions[j] != OpenService(true)
    requires !Exec(actions).service.Closed?
    ensures var st := Exec(actions);
      && st.service.OpenedBySync? && st.lastTotal.Some? && st.db.totals == map[true := st.lastTotal.value]
      && NoFailure(st.pulls)
  {
    GateWaits(actions);
    EveryRun(actions);
  }

  // ---- totals ----

  ghost predicate CommitAction(actions: seq<Action>, i: nat) { Taken(actions, i) && actions[i].CommitTx? }

  /** The i-th action is the latest commit. */
  ghost predicate LatestCommit(actions: seq<Action>, i: nat) {
    CommitAction(actions, i) && forall j: nat :: i < j ==> !CommitAction(actions, j)
  }

  lemma CommitActionOn(actions: seq<Action>, i: nat)
    requires actions != [] && i < |actions| - 1
    ensures CommitAction(actions, i) <==> CommitAction(Front(actions), i)
  {
    Earlier(actions, i);
  }

  lemma LastTotalStep(st: State, a: Action)
    requires |st.replica.shards| == FOREST_WIDTH && Enabled(st, a)
    ensures After(st, a).lastTotal == if a.CommitTx? then Some(st.writer.resp.total) else st.lastTotal
  {
  }

  /** The total in the tables is that of the latest commit; there is none if nothing was committed. */
  lemma {:induction false} TotalOfLatest(actions: seq<Action>) returns (i: nat)
    ensures Exec(actions).lastTotal.Some? ==>
              LatestCommit(actions, i) && Exec(actions).lastTotal == Some(Exec(actions[..i]).writer.resp.total)
    ensures Exec(actions).lastTotal.None? ==> forall j: nat :: !CommitAction(actions, j)
  {
    i := 0;
    if actions != [] {
      LastTaken(actions);
      var n := |actions| - 1;
      if Taken(actions, n) { LastTotalStep(Exec(Front(actions)), actions[n]); }
      if CommitAction(actions, n) {
        i := n;
      } else {
        i := TotalOfLatest(Front(actions));
        if Exec(Front(actions)).lastTotal.Some? {
          Earlier(actions, i);
          CommitActionOn(actions, i);
        }
        forall j: nat | CommitAction(actions, j) ensures CommitAction(Front(actions), j) { CommitActionOn(actions, j); }
      }
    }
  }

  /** The request's last step read the totals table. */
  ghost predicate TotalStep(actions: seq<Action>, j: nat, id: nat) {
    && Taken(actions, j) && actions[j].PullStep? && actions[j].id == id && Exec(actions[..j]).pulls[id].pc.TotalRow?
  }

  lemma StepToEnd(p: Process, m: map<Key, Blob>, t: Tables, rows: seq<Row>, m': map<Key, Blob>)
    requires CanStep(p, m, t, rows, m') && (Step(p, m, t, rows).pc.Done? || Step(p, m, t, rows).pc.Failed?)
    ensures p.pc.TotalRow? || p.pc.QueryDb? || p.pc.QuerySenders?
    ensures p.pc.TotalRow? && true in t.totals ==> Step(p, m, t, rows).pc == Done(t.totals[true])
    ensures p.pc.TotalRow? && true !in t.totals ==> Step(p, m, t, rows).pc == Failed(RowNotFound)
    ensures !p.pc.TotalRow? ==> Step(p, m, t, rows).pc == Failed(DecodeError)
  {
  }
  lemma EndStep(st: State, a: Action, id: nat)
    requires Inv(st) && Enabled(st, a) && id in After(st, a).pulls && !InProgress(After(st, a).pulls[id])
    requires id in st.pulls ==> InProgress(st.pulls[id])
    ensures id in st.pulls && a.PullStep? && a.id == id && st.pulls[id].pc.TotalRow?
    ensures After(st, a).pulls[id].pc
         == if true in st.db.totals then Done(st.db.totals[true]) else Failed(RowNotFound)
  {
    if id in st.pulls {
      if a.PullStep? && a.id == id {
        ReplicaFits(st.replica, st.node);
        assert ProcessOk(st.replica, st.pulls[id]);
        LastStep(st.replica, st.cache, st.db, st.pulls[id], a.rows, a.after);
      } else {
        PullUntouched(st, a, id);
      }
    } else {
      NewRequest(st, a, id);
    }
  }

  lemma LastStep(l: Ledger, m: map<Key, Blob>, t: Tables, p: Process, rows: seq<Row>, m': map<Key, Blob>)
    requires l.Valid() && Fits(l, MAX_RECEIVERS) && Holds(t, l) && Coherent(m, l)
    requires PullOk(l, p) && CanStep(p, m, t, rows, m') && !InProgress(Step(p, m, t, rows))
    ensures p.pc.TotalRow?
    ensures Step(p, m, t, rows).pc == if true in t.totals then Done(t.totals[true]) else Failed(RowNotFound)
  {
    StepKeepsPull(l, m, t, p, rows, m');
    StepToEnd(p, m, t, rows, m');
  }

  lemma {:induction false} EndWasRead(actions: seq<Action>, id: nat) returns (j: nat)
    requires id in Exec(actions).pulls && !InProgress(Exec(actions).pulls[id])
    ensures TotalStep(actions, j, id)
    ensures var totals := Exec(actions[..j]).db.totals;
      Exec(actions).pulls[id].pc == if true in totals then Done(totals[true]) else Failed(RowNotFound)
  {
    LastTaken(actions);
    var front, n := Front(actions), |actions| - 1;
    EveryRun(front);
    if id in Exec(front).pulls && !InProgress(Exec(front).pulls[id]) {
      j := EndWasRead(front, id);
      Earlier(actions, j);
      if Taken(actions, n) { StaysEnded(Exec(front), actions[n], id); }
    } else {
      j := n;
      EndStep(Exec(front), actions[n], id);
    }
  }

  lemma StaysEnded(st: State, a: Action, id: nat)
    requires |st.replica.shards| == FOREST_WIDTH && Enabled(st, a) && id in st.pulls && !InProgress(st.pulls[id])
    requires id in After(st, a).pulls
    ensures After(st, a).pulls[id] == st.pulls[id]
  {
  }

  /** The i-th action is the latest commit before the j-th. */
  ghost predicate LatestBefore(actions: seq<Action>, j: nat, i: nat) {
    i < j && CommitAction(actions, i) && forall k: nat :: i < k < j ==> !CommitAction(actions, k)
  }

  /** In every run, a finished request has answered with the total of the latest commit before its last step, which is
      when it read it; and a request that failed took that step before anything was ever committed. */
  lemma TotalIsCommitted(actions: seq<Action>, id: nat) returns (j: nat, i: nat)
    requires id in Exec(actions).pulls && !InProgress(Exec(actions).pulls[id])
    ensures TotalStep(actions, j, id)
    ensures Exec(actions).pulls[id].pc.Done? ==>
      && LatestBefore(actions, j, i)
      && Exec(actions).pulls[id].Response().total == Exec(actions[..i]).writer.resp.total
    ensures Exec(actions).pulls[id].pc.Failed? ==> forall k: nat :: k < j ==> !CommitAction(actions, k)
  {
    j := EndWasRead(actions, id);
    i := TotalOfLatest(actions[..j]);
    EveryRun(actions[..j]);
    forall k: nat | k < j ensures CommitAction(actions, k) <==> CommitAction(actions[..j], k) {
      EarlierIn(actions, j, k);
    }
    if Exec(actions[..j]).lastTotal.Some? { EarlierIn(actions, j, i); }
  }
  // ---- rounds of the sync job ----

  ghost predicate CommitsBatch(actions: seq<Action>, c: nat, cp: Checkpoint, resp: PullResponse) {
    CommitAction(actions, c) && Exec(actions[..c]).writer == Fetched(cp, resp)
  }

  ghost predicate GroupCachedAt(actions: seq<Action>, c: nat, j: nat, s: Shard) {
    c < j && Taken(actions, j) && actions[j].CacheShard? && actions[j].s == s
  }

  ghost predicate SendersCachedAt(actions: seq<Action>, c: nat, j: nat) {
    c < j && Taken(actions, j) && actions[j].CacheSenders?
  }

  /** Since the commit of the batch, these groups and perhaps the senders have gone into the cache. */
  ghost predicate CachedSince(actions: seq<Action>, c: nat, cp: Checkpoint, resp: PullResponse, todo: set<Shard>,
                              sendersLeft: bool)
  {
    && CommitsBatch(actions, c, cp, resp) && (forall j: nat :: c < j ==> !CommitAction(actions, j))
    && (forall s: Shard :: GroupOf(resp.receivers, s) != [] && s !in todo ==>
          exists j: nat :: GroupCachedAt(actions, c, j, s))
    && (!sendersLeft ==> exists j: nat :: SendersCachedAt(actions, c, j))
  }

  lemma GroupCachedOn(actions: seq<Action>, c: nat, j: nat, s: Shard)
    requires actions != [] && GroupCachedAt(Front(actions), c, j, s)
    ensures GroupCachedAt(actions, c, j, s)
  {
    Earlier(actions, j);
  }

  lemma SendersCachedOn(actions: seq<Action>, c: nat, j: nat)
    requires actions != [] && SendersCachedAt(Front(actions), c, j)
    ensures SendersCachedAt(actions, c, j)
  {
    Earlier(actions, j);
  }

  lemma CachedSinceOn(actions: seq<Action>, c: nat, cp: Checkpoint, resp: PullResponse, todo: set<Shard>,
                      sendersLeft: bool)
    requires actions != [] && CachedSince(Front(actions), c, cp, resp, todo, sendersLeft)
    requires !CommitAction(actions, |actions| - 1)
    ensures CachedSince(actions, c, cp, resp, todo, sendersLeft)
  {
    Earlier(actions, c);
    CommitActionOn(actions, c);
    forall j: nat | c < j ensures !CommitAction(actions, j) {
      if j < |actions| - 1 { CommitActionOn(actions, j); }
    }
    forall s: Shard | GroupOf(resp.receivers, s) != [] && s !in todo
      ensures exists j: nat :: GroupCachedAt(actions, c, j, s)
    {
      var j: nat :| GroupCachedAt(Front(actions), c, j, s);
      GroupCachedOn(actions, c, j, s);
    }
    if !sendersLeft {
      var j: nat :| SendersCachedAt(Front(actions), c, j);
      SendersCachedOn(actions, c, j);
    }
  }

  /** What an action that leaves the writer refreshing the cache has done. */
  lemma CachingStep(st: State, a: Action)
    requires |st.replica.shards| == FOREST_WIDTH && Enabled(st, a) && After(st, a).writer.Caching?
    ensures var w, w' := st.writer, After(st, a).writer;
      if a.CommitTx? then
        w == Fetched(w'.cp, w'.resp) && w'.todo == GroupShards(w'.resp.receivers) && w'.sendersLeft
      else
        && w.Caching? && w'.cp == w.cp && w'.resp == w.resp
        && w'.todo == (if a.CacheShard? then w.todo - {a.s} else w.todo)
        && w'.sendersLeft == (w.sendersLeft && !a.CacheSenders?)
  {
  }

  lemma CachedSinceCommit(actions: seq<Action>, cp: Checkpoint, resp: PullResponse)
    requires actions != [] && CommitsBatch(actions, |actions| - 1, cp, resp)
    ensures CachedSince(actions, |actions| - 1, cp, resp, GroupShards(resp.receivers), true)
  {
  }

  lemma OneMoreCached(actions: seq<Action>, c: nat, cp: Checkpoint, resp: PullResponse, todo: set<Shard>,
                      sendersLeft: bool)
    requires actions != [] && CachedSince(actions, c, cp, resp, todo, sendersLeft)
    requires Taken(actions, |actions| - 1) && c < |actions| - 1
    ensures var a := actions[|actions| - 1];
      CachedSince(actions, c, cp, resp, if a.CacheShard? then todo - {a.s} else todo, sendersLeft && !a.CacheSenders?)
  {
    var n := |actions| - 1;
    if actions[n].CacheShard? { assert GroupCachedAt(actions, c, n, actions[n].s); }
    if actions[n].CacheSenders? { assert SendersCachedAt(actions, c, n); }
  }

  lemma {:induction false} RefreshFollowsCommit(actions: seq<Action>) returns (c: nat)
    requires Exec(actions).writer.Caching?
    ensures var w := Exec(actions).writer; CachedSince(actions, c, w.cp, w.resp, w.todo, w.sendersLeft)
  {
    LastTaken(actions);
    var n, w := |actions| - 1, Exec(actions).writer;
    if Taken(actions, n) { CachingStep(Exec(Front(actions)), actions[n]); }
    if CommitAction(actions, n) {
      c := n;
      CachedSinceCommit(actions, w.cp, w.resp);
    } else {
      c := RefreshFollowsCommit(Front(actions));
      var v := Exec(Front(actions)).writer;
      CachedSinceOn(actions, c, v.cp, v.resp, v.todo, v.sendersLeft);
      if Taken(actions, n) { OneMoreCached(actions, c, v.cp, v.resp, v.todo, v.sendersLeft); }
    }
  }

  /** In every run, the job goes on, or ends its run, only after every group of the batch and its senders have gone into
      the cache since the batch was committed, and nothing else was committed in between. */
  lemma AdvanceAfterRefresh(actions: seq<Action>, i: nat) returns (c: nat)
    requires Taken(actions, i) && actions[i].AdvanceCursor?
    ensures var w, before := Exec(actions[..i]).writer, actions[..i];
      && CommitsBatch(before, c, w.cp, w.resp) && (forall j: nat :: c < j ==> !CommitAction(before, j))
      && (forall s: Shard :: GroupOf(w.resp.receivers, s) != [] ==> exists j: nat :: GroupCachedAt(before, c, j, s))
      && exists j: nat :: SendersCachedAt(before, c, j)
  {
    c := RefreshFollowsCommit(actions[..i]);
  }
}
