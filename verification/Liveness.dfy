/** Requests finish (src/indexer/pull.rs:57-238): no request is ever stuck, whatever state the system is in. */
module Liveness {
  import opened Types
  import opened Keys
  import opened Rows
  import opened Db
  import opened Serving
  import opened System
  import opened Runs

  /** How many steps a request has before it at most. */
  function StepsLeft(pc: Pc): nat {
    match pc
    case Gate(s) => 5 * (FOREST_WIDTH - Min(s, FOREST_WIDTH)) + 6
    case ReadCache(s) => 5 * (FOREST_WIDTH - s) + 5
    case QueryDb(s, _) => 5 * (FOREST_WIDTH - s) + 4
    case WriteBack(s, _, _) => 5 * (FOREST_WIDTH - s) + 3
    case EndCheck(s, _) => 5 * (FOREST_WIDTH - s) + 2
    case ReadSenders => 5
    case QuerySenders(_) => 4
    case WriteSenders(_) => 3
    case SenderEnd => 2
    case TotalRow => 1
    case Done(_) => 0
    case Failed(_) => 0
  }

  /** The request is still at its receivers. */
  predicate AtReceivers(pc: Pc) { pc.Gate? || pc.ReadCache? || pc.QueryDb? || pc.WriteBack? || pc.EndCheck? }

  lemma ReceiverStepCounts(p: Process, m: map<Key, Blob>, t: Tables, rows: seq<Row>)
    requires AtReceivers(p.pc)
    ensures StepsLeft(Step(p, m, t, rows).pc) < StepsLeft(p.pc)
    ensures !Step(p, m, t, rows).pc.Failed? ==> 5 <= StepsLeft(Step(p, m, t, rows).pc)
  {
  }

  lemma SenderStepCounts(p: Process, m: map<Key, Blob>, t: Tables, rows: seq<Row>)
    requires !AtReceivers(p.pc) && InProgress(p)
    ensures StepsLeft(Step(p, m, t, rows).pc) < StepsLeft(p.pc)
    ensures !Step(p, m, t, rows).pc.Failed? ==> StepsLeft(Step(p, m, t, rows).pc) == StepsLeft(p.pc) - 1
  {
  }

  /** Every step counts; the last five are taken one by one. */
  lemma StepCounts(p: Process, m: map<Key, Blob>, t: Tables, rows: seq<Row>, stop: nat)
    requires InProgress(p) && stop <= 5 && stop < StepsLeft(p.pc)
    ensures StepsLeft(Step(p, m, t, rows).pc) < StepsLeft(p.pc)
    ensures !Step(p, m, t, rows).pc.Failed? ==> stop <= StepsLeft(Step(p, m, t, rows).pc)
  {
    if AtReceivers(p.pc) { ReceiverStepCounts(p, m, t, rows); } else { SenderStepCounts(p, m, t, rows); }
  }

  lemma StepSameRequest(p: Process, m: map<Key, Blob>, t: Tables, rows: seq<Row>)
    ensures SameRequest(p, Step(p, m, t, rows))
  {
  }

  /** The rows that the request's next step may read. */
  function NextRows(p: Process, t: Tables): seq<Row> {
    match p.pc
    case QueryDb(s, cached) => Matching(RowsOf(t.shards, s), Misses(cached, p.cp.receiverIndex[s]))
    case QuerySenders(cached) => Matching(t.nullifier, Misses(cached, p.cp.senderIndex))
    case _ => []
  }

  lemma ExecSnoc(actions: seq<Action>, a: Action)
    requires Enabled(Exec(actions), a)
    ensures Exec(actions + [a]) == After(Exec(actions), a)
  {
    assert (actions + [a])[..|actions|] == actions;
  }

  /** The state after the request's next step, with the cache left alone. */
  function Stepped(st: State, id: nat): State
    requires id in st.pulls
  {
    st.(pulls := st.pulls[id := Step(st.pulls[id], st.cache, st.db, NextRows(st.pulls[id], st.db))])
  }

  lemma OwnStep(actions: seq<Action>, id: nat) returns (a: Action)
    requires id in Exec(actions).pulls && InProgress(Exec(actions).pulls[id]) && true in Exec(actions).db.totals
    ensures Exec(actions + [a]) == Stepped(Exec(actions), id) && !Exec(actions + [a]).pulls[id].pc.Failed?
  {
    EveryRun(actions);
    var st := Exec(actions);
    var rows := NextRows(st.pulls[id], st.db);
    a := PullStep(id, rows, st.cache);
    ExecSnoc(actions, a);
    ReplicaFits(st.replica, st.node);
    assert ProcessOk(st.replica, st.pulls[id]);
    ProcessStep(st.replica, st.cache, st.db, st.pulls[id], rows, st.cache);
  }

  ghost predicate SameRequest(p: Process, p': Process) {
    p'.begun == p.begun && p'.cp == p.cp && p'.maxReceivers == p.maxReceivers && p'.maxSenders == p.maxSenders
  }

  /** The state with one request further on, and nothing else changed. */
  ghost predicate OnlyMoved(st: State, id: nat, st': State)
    requires id in st.pulls
  {
    && id in st'.pulls && st' == st.(pulls := st.pulls[id := st'.pulls[id]])
    && SameRequest(st.pulls[id], st'.pulls[id]) && !st'.pulls[id].pc.Failed?
  }

  lemma MovedLater(st: State, id: nat, st1: State, st2: State)
    requires id in st.pulls && OnlyMoved(st, id, st1) && OnlyMoved(st1, id, st2)
    ensures OnlyMoved(st, id, st2)
  {
    assert st1.pulls[id := st2.pulls[id]] == st.pulls[id := st2.pulls[id]];
  }

  lemma NotMoved(st: State, id: nat)
    requires id in st.pulls && !st.pulls[id].pc.Failed?
    ensures OnlyMoved(st, id, st)
  {
    assert st.pulls[id := st.pulls[id]] == st.pulls;
  }

  lemma OwnStepMoves(actions: seq<Action>, id: nat, stop: nat) returns (a: Action)
    requires id in Exec(actions).pulls && InProgress(Exec(actions).pulls[id]) && true in Exec(actions).db.totals
    requires stop <= 5 && stop < StepsLeft(Exec(actions).pulls[id].pc)
    ensures OnlyMoved(Exec(actions), id, Exec(actions + [a]))
    ensures stop <= StepsLeft(Exec(actions + [a]).pulls[id].pc) < StepsLeft(Exec(actions).pulls[id].pc)
  {
    a := OwnStep(actions, id);
    var st := Exec(actions);
    StepCounts(st.pulls[id], st.cache, st.db, NextRows(st.pulls[id], st.db), stop);
    StepSameRequest(st.pulls[id], st.cache, st.db, NextRows(st.pulls[id], st.db));
  }

  /** The request's own steps, until `stop` of them are left at most. */
  lemma {:induction false} OwnSteps(actions: seq<Action>, id: nat, stop: nat) returns (more: seq<Action>)
    requires id in Exec(actions).pulls && !Exec(actions).pulls[id].pc.Failed? && true in Exec(actions).db.totals
    requires stop <= 5 && stop <= StepsLeft(Exec(actions).pulls[id].pc)
    ensures |more| <= StepsLeft(Exec(actions).pulls[id].pc)
    ensures OnlyMoved(Exec(actions), id, Exec(actions + more)) && StepsLeft(Exec(actions + more).pulls[id].pc) == stop
    decreases StepsLeft(Exec(actions).pulls[id].pc)
  {
    var st := Exec(actions);
    if StepsLeft(st.pulls[id].pc) == stop {
      more := [];
      assert actions + more == actions;
      NotMoved(st, id);
    } else {
      var a := OwnStepMoves(actions, id, stop);
      var rest := OwnSteps(actions + [a], id, stop);
      more := [a] + rest;
      assert actions + more == (actions + [a]) + rest;
      MovedLater(st, id, Exec(actions + [a]), Exec(actions + more));
    }
  }

  /** A request is never stuck: from every state of every run in which there is a total, its own steps finish it, with
      nothing else changed, and there are no more of them than `StepsLeft` says: 1286 from the start. */
  lemma PullsCanFinish(actions: seq<Action>, id: nat) returns (more: seq<Action>)
    requires id in Exec(actions).pulls && !Exec(actions).pulls[id].pc.Failed? && true in Exec(actions).db.totals
    ensures |more| <= StepsLeft(Exec(actions).pulls[id].pc)
    ensures OnlyMoved(Exec(actions), id, Exec(actions + more)) && Exec(actions + more).pulls[id].pc.Done?
  {
    more := OwnSteps(actions, id, 0);
  }
}
