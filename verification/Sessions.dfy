/** Client sessions in a running indexer: finished requests, each started from the cursor of the one before, while the
    ledger grows and the indexer may crash and restart (src/indexer/pull.rs:57-238, src/indexer/mod.rs:72-88). */
module Sessions {
  import opened Types
  import opened Keys
  import opened Rows
  import opened Partition
  import opened Pull
  import Client
  import opened Serving
  import opened System
  import opened Runs

  /** Answered requests of a state. */
  ghost predicate AllDone(pulls: map<nat, Process>, ps: seq<Process>) {
    forall i :: 0 <= i < |ps| ==> ps[i] in pulls.Values && ps[i].pc.Done?
  }

  /** The client follows the server's `next_checkpoint`. */
  ghost predicate FollowsServer(ps: seq<Process>) {
    forall i :: 0 < i < |ps| ==> ps[i].cp == ps[i - 1].NextCheckpoint()
  }

  /** The cursor of a client that counts what it received. */
  function Counted(p: Process): Checkpoint { Advance(p.cp, p.receivers, |p.senders|) }

  /** The client counts for itself. */
  ghost predicate CountsForItself(ps: seq<Process>) {
    forall i :: 0 < i < |ps| ==> ps[i].cp == Counted(ps[i - 1])
  }

  /** All receivers of a session. */
  function ReceiversOf(ps: seq<Process>): seq<Receiver> {
    if ps == [] then [] else ReceiversOf(ps[..|ps| - 1]) + ps[|ps| - 1].receivers
  }

  /** All senders of a session. */
  function SendersOf(ps: seq<Process>): seq<Sender> {
    if ps == [] then [] else SendersOf(ps[..|ps| - 1]) + ps[|ps| - 1].senders
  }

  // ---- receivers ----

  ghost predicate EachDelivered(l: Ledger, ps: seq<Process>) {
    forall i :: 0 <= i < |ps| ==> Delivered(l, ps[i].cp.receiverIndex, ps[i].next, ps[i].receivers)
  }

  lemma {:induction false} ReceiversJoin(l: Ledger, ps: seq<Process>)
    requires EachDelivered(l, ps) && ps != []
    requires forall i :: 0 < i < |ps| ==> ps[i].cp.receiverIndex == ps[i - 1].next
    ensures Delivered(l, ps[0].cp.receiverIndex, ps[|ps| - 1].next, ReceiversOf(ps))
  {
    var front, last := ps[..|ps| - 1], ps[|ps| - 1];
    if front == [] {
      assert ReceiversOf(ps) == last.receivers;
    } else {
      ReceiversJoin(l, front);
      Client.DeliveredJoin(l, ps[0].cp.receiverIndex, ps[|ps| - 2].next, last.next, ReceiversOf(front), last.receivers);
    }
  }

  // ---- senders, by the server's cursor ----

  /** No window of the session wraps onto an existing sender. */
  ghost predicate NoneWraps(l: Ledger, ps: seq<Process>) {
    forall i :: 0 <= i < |ps| ==> Unwrapped(l, ps[i])
  }

  /** Every batch is a window that starts at its cursor. */
  ghost predicate EachSegment(l: Ledger, ps: seq<Process>) {
    forall i :: 0 <= i < |ps| ==> |ps[i].senders| <= ps[i].maxSenders
                                  && SenderSegment(l.senders, ps[i].cp.senderIndex, ps[i].senders)
  }

  /** The sender batch was full, or nothing follows what it has. */
  predicate Full(l: Ledger, p: Process) {
    |p.senders| == p.maxSenders || |l.senders| <= p.cp.senderIndex + |p.senders|
  }

  ghost predicate AllFull(l: Ledger, ps: seq<Process>) {
    forall i :: 0 <= i < |ps| ==> Full(l, ps[i])
  }

  function WindowOf(l: Ledger, p: Process): seq<Sender> { Slice(l.senders, p.cp.senderIndex, p.maxSenders) }

  /** A batch is never larger than what its window holds now, and has all of it exactly when it is full. */
  lemma OneBatch(l: Ledger, p: Process)
    requires |p.senders| <= p.maxSenders && SenderSegment(l.senders, p.cp.senderIndex, p.senders)
    ensures |p.senders| <= |WindowOf(l, p)|
    ensures Full(l, p) <==> |p.senders| == |WindowOf(l, p)|
    ensures Full(l, p) ==> multiset(p.senders) == multiset(WindowOf(l, p))
  {
    if Full(l, p) {
      assert Slice(l.senders, p.cp.senderIndex, |p.senders|) == WindowOf(l, p);
    }
  }

  /** Everything that the windows of a session span. */
  function Span(l: Ledger, ps: seq<Process>): seq<Sender>
    requires ps != []
  {
    var start, end := ps[0].cp.senderIndex, ps[|ps| - 1].NextCheckpoint().senderIndex;
    Slice(l.senders, start, end - Min(start, end))
  }

  lemma {:induction false} CursorsAscend(ps: seq<Process>)
    requires FollowsServer(ps) && ps != []
    ensures ps[0].cp.senderIndex <= ps[|ps| - 1].cp.senderIndex
  {
    if |ps| > 1 { CursorsAscend(ps[..|ps| - 1]); }
  }

  lemma SpanJoin(l: Ledger, ps: seq<Process>, got: seq<Sender>, all: seq<Sender>)
    requires FollowsServer(ps) && |ps| > 1 && all == got + ps[|ps| - 1].senders
    ensures var front, last := ps[..|ps| - 1], ps[|ps| - 1];
      && |Span(l, ps)| == |Span(l, front)| + |WindowOf(l, last)|
      && (multiset(got) == multiset(Span(l, front)) && multiset(last.senders) == multiset(WindowOf(l, last)) ==>
            multiset(all) == multiset(Span(l, ps)))
  {
    var front, last := ps[..|ps| - 1], ps[|ps| - 1];
    CursorsAscend(ps);
    assert last.cp == ps[|ps| - 2].NextCheckpoint() == front[|front| - 1].NextCheckpoint();
    var a, b, c := ps[0].cp.senderIndex, last.cp.senderIndex, last.NextCheckpoint().senderIndex;
    Client.SliceJoin(l.senders, a, b, c);
    assert Span(l, ps) == Span(l, front) + WindowOf(l, last);
  }

  lemma AllFullSnoc(l: Ledger, ps: seq<Process>)
    requires ps != []
    ensures AllFull(l, ps) <==> AllFull(l, ps[..|ps| - 1]) && Full(l, ps[|ps| - 1])
  {
  }

  /** The session has no more than its windows span, and all of it exactly when every batch was full. */
  ghost predicate Judged(l: Ledger, ps: seq<Process>, got: seq<Sender>)
    requires ps != []
  {
    && |got| <= |Span(l, ps)|
    && (AllFull(l, ps) ==> multiset(got) == multiset(Span(l, ps)))
    && (|got| == |Span(l, ps)| ==> AllFull(l, ps))
  }

  lemma JudgedSnoc(l: Ledger, ps: seq<Process>, before: seq<Sender>, got: seq<Sender>)
    requires EachSegment(l, ps) && FollowsServer(ps) && |ps| > 1 && got == before + ps[|ps| - 1].senders
    requires Judged(l, ps[..|ps| - 1], before)
    ensures Judged(l, ps, got)
  {
    OneBatch(l, ps[|ps| - 1]);
    AllFullSnoc(l, ps);
    SpanJoin(l, ps, before, got);
  }

  lemma JudgedOne(l: Ledger, ps: seq<Process>)
    requires EachSegment(l, ps) && |ps| == 1
    ensures Judged(l, ps, ps[0].senders)
  {
    OneBatch(l, ps[0]);
    AllFullSnoc(l, ps);
    assert Span(l, ps) == WindowOf(l, ps[0]);
  }

  lemma {:induction false} ServerSenders(l: Ledger, ps: seq<Process>)
    requires EachSegment(l, ps) && FollowsServer(ps) && ps != []
    ensures Judged(l, ps, SendersOf(ps))
  {
    var front := ps[..|ps| - 1];
    if front == [] {
      assert SendersOf(ps) == ps[0].senders;
      JudgedOne(l, ps);
    } else {
      ServerSenders(l, front);
      JudgedSnoc(l, ps, SendersOf(front), SendersOf(ps));
    }
  }

  lemma SizeIfSame<T>(a: seq<T>, b: seq<T>)
    ensures multiset(a) == multiset(b) ==> |a| == |b|
  {
    if multiset(a) == multiset(b) { BagSize(a, b); }
  }

  /** What a session says about receivers. */
  ghost predicate ReceiversComplete(l: Ledger, ps: seq<Process>)
    requires ps != []
  {
    var first, last := ps[0], ps[|ps| - 1];
    // exactly the items from its first cursor up to its last one, each once
    && Delivered(l, first.cp.receiverIndex, last.next, ReceiversOf(ps))
    // after a short batch, everything that was committed when the last request began
    && |last.begun.shards| == FOREST_WIDTH
    && (|last.receivers| < last.maxReceivers ==> forall s: Shard :: |last.begun.shards[s]| <= last.next[s])
  }

  lemma StateAnswers(actions: seq<Action>, p: Process)
    requires p in Exec(actions).pulls.Values && p.pc.Done?
    ensures Answered(Exec(actions).node, p) && PullOk(Exec(actions).node, p)
    ensures Counted(p).receiverIndex == p.next
  {
    EveryRun(actions);
    var st := Exec(actions);
    var id :| id in st.pulls && st.pulls[id] == p;
    assert ProcessOk(st.replica, p);
    ProcessGrows(st.replica, st.node, p);
    DoneIsAnswered(st.node, p);
    RecomputedCursor(st.node, p.cp, p.next, p.receivers, |p.senders|);
  }

  lemma SessionFacts(actions: seq<Action>, ps: seq<Process>)
    requires AllDone(Exec(actions).pulls, ps)
    ensures EachDelivered(Exec(actions).node, ps)
    ensures NoneWraps(Exec(actions).node, ps) ==> EachSegment(Exec(actions).node, ps)
    ensures forall i :: 0 <= i < |ps| ==> Counted(ps[i]).receiverIndex == ps[i].next
  {
    var l := Exec(actions).node;
    forall i | 0 <= i < |ps|
      ensures Delivered(l, ps[i].cp.receiverIndex, ps[i].next, ps[i].receivers)
      ensures |ps[i].senders| <= ps[i].maxSenders
      ensures Unwrapped(l, ps[i]) ==> SenderSegment(l.senders, ps[i].cp.senderIndex, ps[i].senders)
      ensures Counted(ps[i]).receiverIndex == ps[i].next
    {
      StateAnswers(actions, ps[i]);
    }
  }

  lemma SessionReceivers(actions: seq<Action>, ps: seq<Process>)
    requires AllDone(Exec(actions).pulls, ps) && ps != []
    requires forall i :: 0 < i < |ps| ==> ps[i].cp.receiverIndex == ps[i - 1].next
    ensures ReceiversComplete(Exec(actions).node, ps)
  {
    SessionFacts(actions, ps);
    ReceiversJoin(Exec(actions).node, ps);
    StateAnswers(actions, ps[|ps| - 1]);
  }

  /** In every run, a client that follows the server's cursor gets exactly the receivers between its first and its last
      cursor, each once. Of the senders that its windows span it gets all, each once, if and only if every sender
      batch was full or reached the end of the ledger: the cursor moves past a short batch regardless. */
  lemma SessionsAreExact(actions: seq<Action>, ps: seq<Process>)
    requires AllDone(Exec(actions).pulls, ps) && FollowsServer(ps) && ps != []
    ensures ReceiversComplete(Exec(actions).node, ps)
    ensures NoneWraps(Exec(actions).node, ps) ==>
              (multiset(SendersOf(ps)) == multiset(Span(Exec(actions).node, ps)) <==> AllFull(Exec(actions).node, ps))
  {
    var l := Exec(actions).node;
    SessionReceivers(actions, ps);
    SessionFacts(actions, ps);
    if NoneWraps(l, ps) {
      ServerSenders(l, ps);
      SizeIfSame(SendersOf(ps), Span(l, ps));
    }
  }

  // ---- senders, by counting ----

  lemma CountedJoin(xs: seq<Sender>, start: nat, before: seq<Sender>, at: nat, batch: seq<Sender>, got: seq<Sender>)
    requires multiset(before) == multiset(Slice(xs, start, |before|)) && at == start + |before| && got == before + batch
    requires SenderSegment(xs, at, batch)
    ensures multiset(got) == multiset(Slice(xs, start, |got|))
  {
    Client.SendersJoin(xs, start, |before|, |batch|, before, batch);
  }

  lemma {:induction false} CountedSenders(l: Ledger, ps: seq<Process>, got: seq<Sender>)
    requires EachSegment(l, ps) && ps != [] && got == SendersOf(ps)
    requires forall i :: 0 < i < |ps| ==> ps[i].cp.senderIndex == ps[i - 1].cp.senderIndex + |ps[i - 1].senders|
    ensures ps[|ps| - 1].cp.senderIndex + |ps[|ps| - 1].senders| == ps[0].cp.senderIndex + |got|
    ensures multiset(got) == multiset(Slice(l.senders, ps[0].cp.senderIndex, |got|))
  {
    var front, last := ps[..|ps| - 1], ps[|ps| - 1];
    if front == [] {
      assert got == last.senders;
    } else {
      CountedSenders(l, front, SendersOf(front));
      CountedJoin(l.senders, ps[0].cp.senderIndex, SendersOf(front), last.cp.senderIndex, last.senders, got);
    }
  }

  /** In every run, a client that counts for itself gets every receiver and every sender of its span exactly once; a
      short sender batch brings it to the end of what was committed when its last request began. */
  lemma CountingSessionsAreExact(actions: seq<Action>, ps: seq<Process>)
    requires AllDone(Exec(actions).pulls, ps) && CountsForItself(ps) && ps != []
    ensures ReceiversComplete(Exec(actions).node, ps)
    ensures var l, last, got := Exec(actions).node, ps[|ps| - 1], SendersOf(ps);
      && Counted(last).receiverIndex == last.next
      && (NoneWraps(l, ps) ==> Counted(last).senderIndex == ps[0].cp.senderIndex + |got|)
      && (NoneWraps(l, ps) ==> multiset(got) == multiset(Slice(l.senders, ps[0].cp.senderIndex, |got|)))
      && (|last.senders| < last.maxSenders ==> |last.begun.senders| <= Counted(last).senderIndex)
  {
    SessionFacts(actions, ps);
    SessionReceivers(actions, ps);
    StateAnswers(actions, ps[|ps| - 1]);
    if NoneWraps(Exec(actions).node, ps) {
      CountedSenders(Exec(actions).node, ps, SendersOf(ps));
    }
  }

  // ---- what a stop means ----

  /** In every run, when the last answer says stop, its sender cursor is past every sender, and its receiver cursors are
      past every receiver of the shards it visited, that were committed when the last request began; the shards that
      it did not visit come after those. With `SessionsAreExact` this is what a client that stops then holds. */
  lemma StoppedSessions(actions: seq<Action>, ps: seq<Process>)
    requires AllDone(Exec(actions).pulls, ps) && FollowsServer(ps) && ps != []
    requires !ps[|ps| - 1].Response().shouldContinue
    ensures var last := ps[|ps| - 1];
      && |last.begun.senders| <= last.NextCheckpoint().senderIndex
      && (exists v: nat :: VisitedBelow(last, v))
      && (|last.receivers| < last.maxReceivers ==> VisitedBelow(last, FOREST_WIDTH))
  {
    StateAnswers(actions, ps[|ps| - 1]);
  }
}
