/** A client that follows `next_checkpoint` while `should_continue` holds
    (src/indexer/mod.rs:72-88, src/indexer/sync.rs:362-399, tests/integration-tests/src/stress-test.ts:114-130). */
module Client {
  import opened Types
  import opened Keys
  import opened Rows
  import opened Db
  import opened Coherence
  import opened Partition
  import opened Greedy
  import opened Pull

  // ---- the meaning of the flag ----

  lemma BoundaryNotInside(n: Cursors, c: Cursors, d: nat)
    requires Boundary(n, c, d)
    ensures !Inside(n, c, d)
  {
    var t: Shard :| Before(n, c, t) == d;
    forall s: Shard ensures !InsideAt(n, c, d, s) {
      if s < t { BeforeMonotone(n, c, s + 1, t); } else { BeforeMonotone(n, c, t, s); }
    }
  }

  /** For a positive limit, the flag says that more is left, except when the limit ends a shard exactly. */
  lemma FlagExact(n: Cursors, c: Cursors, limit: nat)
    requires limit > 0
    ensures More(n, c, limit) <==> limit < TotalLeft(n, c) && !Boundary(n, c, limit)
  {
    if More(n, c, limit) {
      MoreMeansLeft(n, c, limit);
    }
    if Boundary(n, c, limit) {
      BoundaryNotInside(n, c, limit);
    } else if limit < TotalLeft(n, c) {
      NotInsideIsBoundary(n, c, limit, FOREST_WIDTH);
    }
  }

  lemma BeforeStep(n: Cursors, c: Cursors, s: Shard)
    ensures Before(n, c, s + 1) == Before(n, c, s) + Left(n, c, s) && (s == 0 ==> Before(n, c, s) == 0)
  {
  }

  /** The exception is real: two shards with one item each, a limit of one, and the flag says stop. */
  lemma ExactFitStops() returns (n: Cursors, c: Cursors)
    ensures !More(n, c, 1) && TotalLeft(n, c) > 1
  {
    c := seq(FOREST_WIDTH, i => 0);
    n := c[0 := 1][1 := 1];
    var first: Shard, second: Shard := 0, 1;
    assert Left(n, c, first) == 1 && Left(n, c, second) == 1;
    BeforeStep(n, c, first);
    BeforeStep(n, c, second);
    BoundaryNotInside(n, c, 1);
    BeforeMonotone(n, c, second + 1, FOREST_WIDTH);
  }

  // ---- how many calls ----

  function CeilDiv(x: nat, m: nat): nat
    requires m > 0
  {
    (x + m - 1) / m
  }

  function Max(a: nat, b: nat): nat { if a >= b then a else b }

  function Behind(cp: Checkpoint, l: Ledger): nat {
    if cp.senderIndex < |l.senders| then |l.senders| - cp.senderIndex else 0
  }

  /** Enough calls to drain the ledger. */
  function CallBound(r: nat, s: nat, m: nat, a: nat): nat
    requires m > 0 && a > 0
  {
    Max(1, Max(CeilDiv(r, m), CeilDiv(s, a)))
  }

  /** k * m, step by step: the loops below add m with each call. */
  function Times(k: nat, m: nat): nat {
    if k == 0 then 0 else Times(k - 1, m) + m
  }

  lemma {:induction false} TimesIs(k: nat, m: nat)
    ensures Times(k, m) == k * m
  {
    if k > 0 { TimesIs(k - 1, m); }
  }

  lemma {:induction false} TimesMonotone(j: nat, k: nat, m: nat)
    requires j <= k
    ensures Times(j, m) <= Times(k, m)
  {
    if j < k { TimesMonotone(j, k - 1, m); }
  }

  lemma CeilAbove(x: nat, m: nat, k: nat)
    requires m > 0 && k * m < x
    ensures k + 1 <= CeilDiv(x, m)
  {
    var q := CeilDiv(x, m);
    assert x + m - 1 == q * m + (x + m - 1) % m;
    assert q <= k ==> q * m <= k * m;
  }

  /** The k-th answer says continue. */
  ghost predicate Continues(n: Cursors, c: Cursors, m: nat, behind: nat, a: nat, k: nat) {
    Inside(n, c, Times(k, m)) || Times(k, a) < behind
  }

  lemma ContinuesBound(n: Cursors, c: Cursors, m: nat, behind: nat, a: nat, k: nat)
    requires m > 0 && a > 0 && k > 0 && Continues(n, c, m, behind, a, k)
    ensures k + 1 <= CallBound(TotalLeft(n, c), behind, m, a)
  {
    TimesIs(k, m);
    TimesIs(k, a);
    if Inside(n, c, k * m) {
      MoreMeansLeft(n, c, k * m);
      CeilAbove(TotalLeft(n, c), m, k);
    } else {
      CeilAbove(behind, a, k);
    }
  }

  /** Some number of calls that has fetched every sender ends a shard exactly, with receivers still missing. */
  ghost predicate StopsEarly(n: Cursors, c: Cursors, m: nat, behind: nat, a: nat) {
    exists k: nat :: StopsAt(n, c, m, behind, a, k)
  }

  ghost predicate StopsAt(n: Cursors, c: Cursors, m: nat, behind: nat, a: nat, k: nat) {
    k > 0 && behind <= k * a && k * m < TotalLeft(n, c) && Boundary(n, c, k * m)
  }

  /** A client that stopped after k calls misses receivers exactly when it could be made to stop early. */
  lemma CompleteIff(n: Cursors, c: Cursors, m: nat, behind: nat, a: nat, k: nat)
    requires m > 0 && a > 0 && k > 0 && !Continues(n, c, m, behind, a, k)
    requires forall j :: 0 < j < k ==> Continues(n, c, m, behind, a, j)
    ensures TotalLeft(n, c) <= k * m <==> !StopsEarly(n, c, m, behind, a)
  {
    TimesIs(k, m);
    TimesIs(k, a);
    if k * m < TotalLeft(n, c) {
      TimesMonotone(1, k, m);
      NotInsideIsBoundary(n, c, k * m, FOREST_WIDTH);
      assert StopsAt(n, c, m, behind, a, k);
    }
    if StopsEarly(n, c, m, behind, a) {
      var j: nat :| StopsAt(n, c, m, behind, a, j);
      TimesIs(j, m);
      TimesIs(j, a);
      BoundaryNotInside(n, c, j * m);
      assert !Continues(n, c, m, behind, a, j);
      TimesMonotone(k, j, m);
    }
  }

  // ---- putting batches together ----

  lemma SliceJoin<T>(xs: seq<T>, a: nat, b: nat, c: nat)
    requires a <= b <= c
    ensures Slice(xs, a, b - a) + Slice(xs, b, c - b) == Slice(xs, a, c - a)
  {
  }

  lemma ShardJoin(xs: seq<Receiver>, a: nat, b: nat, c: nat, g1: seq<Receiver>, g2: seq<Receiver>)
    requires ShardDelivered(xs, a, b, g1) && ShardDelivered(xs, b, c, g2)
    ensures ShardDelivered(xs, a, c, g1 + g2)
  {
    SliceJoin(xs, a, b, c);
  }

  /** Consecutive batches deliver consecutive windows: nothing between them is missed or repeated. */
  lemma DeliveredJoin(l: Ledger, c: Cursors, c1: Cursors, c2: Cursors, rs1: seq<Receiver>, rs2: seq<Receiver>)
    requires Delivered(l, c, c1, rs1) && Delivered(l, c1, c2, rs2)
    ensures Delivered(l, c, c2, rs1 + rs2)
  {
    forall s: Shard ensures ShardDelivered(l.shards[s], c[s], c2[s], GroupOf(rs1 + rs2, s)) {
      ShardJoin(l.shards[s], c[s], c1[s], c2[s], GroupOf(rs1, s), GroupOf(rs2, s));
      GroupOfConcat(rs1, rs2, s);
    }
  }

  lemma SendersJoin(xs: seq<Sender>, s: nat, d: nat, a: nat, got: seq<Sender>, batch: seq<Sender>)
    requires multiset(got) == multiset(Slice(xs, s, d)) && multiset(batch) == multiset(Slice(xs, s + d, a))
    ensures multiset(got + batch) == multiset(Slice(xs, s, d + a))
  {
    SliceJoin(xs, s, s + d, s + d + a);
  }

  // ---- the drain loop ----

  /** One answer, when no shard's window wraps. */
  ghost predicate PulledFully(l: Ledger, cp: Checkpoint, m: nat, a: nat, resp: PullResponse, next: Checkpoint)
    requires |l.shards| == FOREST_WIDTH
  {
    PulledReceivers(l, cp, m, a, resp, next) && SendersPulled(l, cp.senderIndex, a, resp.senders)
  }

  /** The receivers that the client has, after asking for d in all from the cursors c on. */
  ghost predicate GotReceivers(l: Ledger, c: Cursors, d: nat, rs: seq<Receiver>, cur: Cursors) {
    && |l.shards| == FOREST_WIDTH
    && cur == Next(CursorOf(l).receiverIndex, c, d)
    && |rs| == Min(d, TotalLeft(CursorOf(l).receiverIndex, c))
    && Delivered(l, c, cur, rs)
  }

  /** The senders that it has, after asking for e in all from index s on; `fine` when no window wraps. */
  ghost predicate GotSenders(l: Ledger, s: nat, e: nat, fine: bool, ss: seq<Sender>) {
    fine ==> multiset(ss) == multiset(Slice(l.senders, s, e))
  }

  lemma NothingYet(l: Ledger, cp: Checkpoint, fine: bool)
    requires |l.shards| == FOREST_WIDTH
    ensures GotReceivers(l, cp.receiverIndex, 0, [], cp.receiverIndex) && GotSenders(l, cp.senderIndex, 0, fine, [])
  {
    assert Next(CursorOf(l).receiverIndex, cp.receiverIndex, 0) == cp.receiverIndex;
    EmptyDelivery(l, cp.receiverIndex);
  }

  /** Cursor, flag and what is left after the next call, seen from the start. */
  lemma NextCall(n: Cursors, c: Cursors, d: nat, m: nat)
    requires m > 0
    ensures Next(n, Next(n, c, d), m) == Next(n, c, d + m)
    ensures More(n, Next(n, c, d), m) <==> Inside(n, c, d + m)
    ensures TotalLeft(n, Next(n, c, d)) == TotalLeft(n, c) - Min(d, TotalLeft(n, c))
  {
    NextCompose(n, c, d, m);
    InsideCompose(n, c, d, m);
    BeforeAfter(n, c, d, FOREST_WIDTH);
  }

  lemma GetReceivers(l: Ledger, c: Cursors, m: nat, d: nat, rs: seq<Receiver>, cur: Cursors,
                     batch: seq<Receiver>, next: Cursors, d': nat, rs': seq<Receiver>)
    requires m > 0 && d' == d + m && rs' == rs + batch
    requires GotReceivers(l, c, d, rs, cur) && GotReceivers(l, cur, m, batch, next)
    ensures GotReceivers(l, c, d', rs', next)
  {
    NextCall(CursorOf(l).receiverIndex, c, d, m);
    DeliveredJoin(l, c, cur, next, rs, batch);
  }

  lemma GetSenders(l: Ledger, s: nat, a: nat, e: nat, fine: bool, ss: seq<Sender>, batch: seq<Sender>, e': nat,
                   ss': seq<Sender>)
    requires e' == e + a && ss' == ss + batch && GotSenders(l, s, e, fine, ss) && GotSenders(l, s + e, a, fine, batch)
    ensures GotSenders(l, s, e', fine, ss')
  {
    if fine { SendersJoin(l.senders, s, e, a, ss, batch); }
  }

  /** What the client ends up with. */
  datatype Session = Session(calls: nat, receivers: seq<Receiver>, senders: seq<Sender>, lastBatch: nat)

  function Bound(l: Ledger, cp: Checkpoint, m: nat, a: nat): nat
    requires |l.shards| == FOREST_WIDTH && m > 0 && a > 0
  {
    CallBound(TotalLeft(CursorOf(l).receiverIndex, cp.receiverIndex), Behind(cp, l), m, a)
  }

  /** No sender window that the session can ask for wraps onto an existing sender. */
  ghost predicate NeverWraps(l: Ledger, cp: Checkpoint, m: nat, a: nat)
    requires |l.shards| == FOREST_WIDTH && m > 0 && a > 0
  {
    NoAlias(cp.senderIndex, Bound(l, cp, m, a) * a, |l.senders|)
  }

  /** A finished session over a ledger that does not change. */
  ghost predicate Finished(l: Ledger, cp: Checkpoint, m: nat, a: nat, s: Session)
    requires |l.shards| == FOREST_WIDTH && m > 0 && a > 0
  {
    var n, c, behind := CursorOf(l).receiverIndex, cp.receiverIndex, Behind(cp, l);
    // it stops in time
    && 1 <= s.calls <= Bound(l, cp, m, a)
    // it has each receiver of its windows once, lowest shards first filled, and no others
    && |s.receivers| == Min(s.calls * m, TotalLeft(n, c))
    && Delivered(l, c, Next(n, c, s.calls * m), s.receivers)
    // it has every sender once
    && (NeverWraps(l, cp, m, a) ==> multiset(s.senders) == multiset(l.senders[Min(cp.senderIndex, |l.senders|)..]))
    // it has every receiver unless some number of calls that fetches every sender ends a shard exactly
    && (|s.receivers| == TotalLeft(n, c) <==> !StopsEarly(n, c, m, behind, a))
    && (s.lastBatch < m ==> |s.receivers| == TotalLeft(n, c))
  }

  /** How many calls there were, and whether to go on; d receivers and e senders were asked for. */
  ghost predicate Counting(n: Cursors, c: Cursors, m: nat, behind: nat, a: nat, calls: nat, d: nat, e: nat, more: bool,
                           lastBatch: nat)
    requires m > 0 && a > 0
  {
    var bound := CallBound(TotalLeft(n, c), behind, m, a);
    && d == Times(calls, m) && e == Times(calls, a)
    && calls <= bound && (more ==> calls < bound)
    && (if calls == 0 then more else more <==> Continues(n, c, m, behind, a, calls))
    && (forall j :: 0 < j < calls ==> Continues(n, c, m, behind, a, j))
    && (lastBatch < m ==> TotalLeft(n, c) <= d)
  }

  lemma CountMore(n: Cursors, c: Cursors, m: nat, behind: nat, a: nat, calls: nat, d: nat, e: nat, lastBatch: nat,
                  more': bool, lastBatch': nat)
    requires m > 0 && a > 0 && Counting(n, c, m, behind, a, calls, d, e, true, lastBatch)
    requires more' <==> Inside(n, c, d + m) || e + a < behind
    requires lastBatch' < m ==> TotalLeft(n, c) <= d + m
    ensures Counting(n, c, m, behind, a, calls + 1, d + m, e + a, more', lastBatch')
  {
    if more' {
      ContinuesBound(n, c, m, behind, a, calls + 1);
    }
  }

  /** The loop's state: the session so far, how much was asked for, the cursor, and whether to go on. */
  datatype Progress = Progress(s: Session, d: nat, e: nat, cur: Checkpoint, more: bool)

  /** What was counted, and what was collected. */
  ghost predicate Going(l: Ledger, cp: Checkpoint, m: nat, a: nat, p: Progress)
    requires |l.shards| == FOREST_WIDTH && m > 0 && a > 0
  {
    && Counting(CursorOf(l).receiverIndex, cp.receiverIndex, m, Behind(cp, l), a, p.s.calls, p.d, p.e, p.more,
                p.s.lastBatch)
    && GotReceivers(l, cp.receiverIndex, p.d, p.s.receivers, p.cur.receiverIndex)
    && GotSenders(l, cp.senderIndex, p.e, NeverWraps(l, cp, m, a), p.s.senders)
    && p.cur.senderIndex == cp.senderIndex + p.e
  }

  lemma GoingFlag(l: Ledger, cp: Checkpoint, m: nat, a: nat, d: nat, e: nat, cur: Checkpoint, resp: PullResponse,
                  next: Checkpoint)
    requires |l.shards| == FOREST_WIDTH && m > 0
    requires cur == Checkpoint(Next(CursorOf(l).receiverIndex, cp.receiverIndex, d), cp.senderIndex + e)
    requires PulledReceivers(l, cur, m, a, resp, next)
    ensures var n, c := CursorOf(l).receiverIndex, cp.receiverIndex;
            && (resp.shouldContinue <==> Inside(n, c, d + m) || e + a < Behind(cp, l))
            && (|resp.receivers| < m ==> TotalLeft(n, c) <= d + m)
  {
    NextCall(CursorOf(l).receiverIndex, cp.receiverIndex, d, m);
  }

  /** The loop's state after one more answer. */
  function Gone(p: Progress, m: nat, a: nat, resp: PullResponse, next: Checkpoint): Progress {
    var s := Session(p.s.calls + 1, p.s.receivers + resp.receivers, p.s.senders + resp.senders, |resp.receivers|);
    Progress(s, p.d + m, p.e + a, next, resp.shouldContinue)
  }

  lemma DrainStep(l: Ledger, cp: Checkpoint, m: nat, a: nat, p: Progress, resp: PullResponse, next: Checkpoint,
                  p': Progress)
    requires |l.shards| == FOREST_WIDTH && m > 0 && a > 0 && p.more && p' == Gone(p, m, a, resp, next)
    requires Going(l, cp, m, a, p) && PulledReceivers(l, p.cur, m, a, resp, next)
    requires GotSenders(l, p.cur.senderIndex, a, NeverWraps(l, cp, m, a), resp.senders)
    ensures Going(l, cp, m, a, p')
  {
    GoingFlag(l, cp, m, a, p.d, p.e, p.cur, resp, next);
    CountMore(CursorOf(l).receiverIndex, cp.receiverIndex, m, Behind(cp, l), a, p.s.calls, p.d, p.e, p.s.lastBatch,
              p'.more, p'.s.lastBatch);
    GetReceivers(l, cp.receiverIndex, m, p.d, p.s.receivers, p.cur.receiverIndex, resp.receivers, next.receiverIndex,
                 p'.d, p'.s.receivers);
    GetSenders(l, cp.senderIndex, a, p.e, NeverWraps(l, cp, m, a), p.s.senders, resp.senders, p'.e, p'.s.senders);
  }

  lemma DrainEnd(l: Ledger, cp: Checkpoint, m: nat, a: nat, p: Progress)
    requires |l.shards| == FOREST_WIDTH && m > 0 && a > 0 && Going(l, cp, m, a, p) && !p.more
    ensures Finished(l, cp, m, a, p.s)
  {
    TimesIs(p.s.calls, m);
    CompleteIff(CursorOf(l).receiverIndex, cp.receiverIndex, m, Behind(cp, l), a, p.s.calls);
    SendersToEnd(l.senders, cp.senderIndex, p.e);
  }

  lemma SendersToEnd<T>(xs: seq<T>, s: nat, d: nat)
    requires |xs| <= s + d
    ensures Slice(xs, s, d) == xs[Min(s, |xs|)..]
  {
  }

  /** Every window that is asked for is a part of the session's. */
  lemma WindowFits(l: Ledger, cp: Checkpoint, m: nat, a: nat, calls: nat, e: nat, start: nat)
    requires |l.shards| == FOREST_WIDTH && m > 0 && a > 0 && calls < Bound(l, cp, m, a) && e == Times(calls, a)
    requires cp.senderIndex <= start <= cp.senderIndex + e
    ensures NeverWraps(l, cp, m, a) ==> NoAlias(start, a, |l.senders|)
  {
    TimesMonotone(calls + 1, Bound(l, cp, m, a), a);
    TimesIs(Bound(l, cp, m, a), a);
    if NeverWraps(l, cp, m, a) {
      NoAliasPart(cp.senderIndex, Bound(l, cp, m, a) * a, start, a, |l.senders|, |l.senders|);
    }
  }

  lemma FollowStep(l: Ledger, cp: Checkpoint, m: nat, a: nat, p: Progress, resp: PullResponse, next: Checkpoint)
    requires |l.shards| == FOREST_WIDTH && m > 0 && a > 0 && p.more
    requires Going(l, cp, m, a, p) && PulledFully(l, p.cur, m, a, resp, next)
    ensures Going(l, cp, m, a, Gone(p, m, a, resp, next))
  {
    WindowFits(l, cp, m, a, p.s.calls, p.e, p.cur.senderIndex);
    DrainStep(l, cp, m, a, p, resp, next, Gone(p, m, a, resp, next));
  }

  /** One call of the loop below. */
  method DrainCall(indexer: Indexer, cp: Checkpoint, maxReceivers: nat, maxSenders: nat, p: Progress)
    returns (r: Result<Progress>)
    requires indexer.Valid() && 0 < maxReceivers && 0 < maxSenders
    requires Fits(indexer.replica, Min(maxReceivers, MAX_RECEIVERS))
    requires p.more && Going(indexer.replica, cp, Min(maxReceivers, MAX_RECEIVERS), Min(maxSenders, MAX_SENDERS), p)
    modifies indexer`cache
    ensures indexer.Valid() && (r.Ok? <==> true in indexer.pool.tables.totals)
    ensures r.Ok? ==> r.value.s.calls == p.s.calls + 1
    ensures r.Ok? ==>
              Going(indexer.replica, cp, Min(maxReceivers, MAX_RECEIVERS), Min(maxSenders, MAX_SENDERS), r.value)
  {
    var m, a := Min(maxReceivers, MAX_RECEIVERS), Min(maxSenders, MAX_SENDERS);
    FitsNoWrap(indexer.replica, p.cur.receiverIndex, m);
    var answer, _, _ := indexer.PullLedgerDiffImpl(p.cur, maxReceivers, maxSenders);
    if answer.Err? { return Err(answer.error); }
    var (resp, next) := answer.value;
    FollowStep(indexer.replica, cp, m, a, p, resp, next);
    r := Ok(Gone(p, m, a, resp, next));
  }

  function Fresh(cp: Checkpoint, lastBatch: nat): Progress { Progress(Session(0, [], [], lastBatch), 0, 0, cp, true) }

  lemma GoingStart(l: Ledger, cp: Checkpoint, m: nat, a: nat, lastBatch: nat)
    requires |l.shards| == FOREST_WIDTH && 0 < m <= lastBatch && a > 0
    ensures Going(l, cp, m, a, Fresh(cp, lastBatch))
  {
    NothingYet(l, cp, NeverWraps(l, cp, m, a));
  }

  /** The client's loop over a ledger that does not change; the server clamps the limits. */
  method Drain(indexer: Indexer, cp: Checkpoint, maxReceivers: nat, maxSenders: nat) returns (r: Result<Session>)
    requires indexer.Valid() && 0 < maxReceivers && 0 < maxSenders
    requires Fits(indexer.replica, Min(maxReceivers, MAX_RECEIVERS))
    modifies indexer`cache
    ensures indexer.Valid() && (r.Ok? <==> true in indexer.pool.tables.totals)
    ensures r.Ok? ==>
              Finished(indexer.replica, cp, Min(maxReceivers, MAX_RECEIVERS), Min(maxSenders, MAX_SENDERS), r.value)
  {
    ghost var l, m, a := indexer.replica, Min(maxReceivers, MAX_RECEIVERS), Min(maxSenders, MAX_SENDERS);
    var p := Fresh(cp, maxReceivers);
    GoingStart(l, cp, m, a, maxReceivers);
    while p.more
      invariant indexer.Valid() && indexer.replica == l && Going(l, cp, m, a, p)
      invariant p.s.calls > 0 ==> true in indexer.pool.tables.totals
      decreases Bound(l, cp, m, a) - p.s.calls
    {
      var answer := DrainCall(indexer, cp, maxReceivers, maxSenders, p);
      if answer.Err? { return Err(answer.error); }
      p := answer.value;
    }
    DrainEnd(l, cp, m, a, p);
    r := Ok(p.s);
  }

  // ---- the client that counts ----

  lemma PulledReached(l: Ledger, cp: Checkpoint, m: nat)
    requires |l.shards| == FOREST_WIDTH
    ensures Reached(l, cp.receiverIndex, Next(CursorOf(l).receiverIndex, cp.receiverIndex, m))
  {
  }

  /** The client's recomputed cursor agrees with the server's on all shards, and on the senders exactly when the
      sender batch was full; without wrapping that is when the window lies within the table. */
  lemma CursorsAgree(l: Ledger, cp: Checkpoint, m: nat, a: nat, resp: PullResponse, next: Checkpoint)
    requires |l.shards| == FOREST_WIDTH && PulledFully(l, cp, m, a, resp, next)
    ensures var mine := Advance(cp, resp.receivers, |resp.senders|);
            && mine.receiverIndex == next.receiverIndex
            && (mine.senderIndex == next.senderIndex <==> |resp.senders| == a)
            && Min(a, Behind(cp, l)) <= |resp.senders| <= a
            && (NoAlias(cp.senderIndex, a, |l.senders|) ==> |resp.senders| == Min(a, Behind(cp, l)))
  {
    PulledReached(l, cp, m);
    RecomputedCursor(l, cp, next.receiverIndex, resp.receivers, |resp.senders|);
    SendersCounted(l, cp, a, resp.senders);
  }

  lemma SendersCounted(l: Ledger, cp: Checkpoint, a: nat, ss: seq<Sender>)
    requires SendersPulled(l, cp.senderIndex, a, ss)
    ensures Min(a, Behind(cp, l)) <= |ss| <= a
    ensures NoAlias(cp.senderIndex, a, |l.senders|) ==> |ss| == Min(a, Behind(cp, l))
  {
    if NoAlias(cp.senderIndex, a, |l.senders|) {
      BagSize(ss, Slice(l.senders, cp.senderIndex, a));
    }
  }

  /** Both cursors ask for the same items: they differ, if at all, past the last sender. */
  ghost predicate SameView(l: Ledger, cp: Checkpoint, mine: Checkpoint, server: Checkpoint) {
    && mine.receiverIndex == server.receiverIndex && cp.senderIndex <= mine.senderIndex <= server.senderIndex
    && (mine.senderIndex == server.senderIndex || |l.senders| <= mine.senderIndex)
  }

  lemma SameViewNext(l: Ledger, cp: Checkpoint, mine: Checkpoint, server: Checkpoint, a: nat, count: nat,
                     mine': Checkpoint, server': Checkpoint)
    requires SameView(l, cp, mine, server) && Min(a, Behind(mine, l)) <= count <= a
    requires mine'.receiverIndex == server'.receiverIndex
    requires mine'.senderIndex == mine.senderIndex + count && server'.senderIndex == server.senderIndex + a
    ensures SameView(l, cp, mine', server')
    ensures Slice(l.senders, mine.senderIndex, a) == Slice(l.senders, server.senderIndex, a)
  {
  }

  lemma SameAnswer(l: Ledger, cp: Checkpoint, mine: Checkpoint, server: Checkpoint, m: nat, a: nat, resp: PullResponse,
                   next: Checkpoint, mine': Checkpoint, server': Checkpoint)
    requires |l.shards| == FOREST_WIDTH && SameView(l, cp, mine, server) && PulledFully(l, mine, m, a, resp, next)
    requires mine' == Recalculated(mine, mine, resp.receivers, |resp.senders|)
    requires server' == Checkpoint(next.receiverIndex, server.senderIndex + a)
    ensures PulledReceivers(l, server, m, a, resp, server') && SameView(l, cp, mine', server')
    ensures Slice(l.senders, mine.senderIndex, a) == Slice(l.senders, server.senderIndex, a)
  {
    RecalculatedIsAdvance(mine, mine, resp.receivers, |resp.senders|);
    CursorsAgree(l, mine, m, a, resp, next);
    SameViewNext(l, cp, mine, server, a, |resp.senders|, mine', server');
  }

  lemma MirrorStep(l: Ledger, cp: Checkpoint, m: nat, a: nat, p: Progress, mine: Checkpoint, resp: PullResponse,
                   next: Checkpoint, mine': Checkpoint, server': Checkpoint)
    requires |l.shards| == FOREST_WIDTH && m > 0 && a > 0 && p.more
    requires Going(l, cp, m, a, p) && SameView(l, cp, mine, p.cur) && PulledFully(l, mine, m, a, resp, next)
    requires mine' == Recalculated(mine, mine, resp.receivers, |resp.senders|)
    requires server' == Checkpoint(next.receiverIndex, p.cur.senderIndex + a)
    ensures Going(l, cp, m, a, Gone(p, m, a, resp, server')) && SameView(l, cp, mine', server')
  {
    WindowFits(l, cp, m, a, p.s.calls, p.e, mine.senderIndex);
    SameAnswer(l, cp, mine, p.cur, m, a, resp, next, mine', server');
    DrainStep(l, cp, m, a, p, resp, server', Gone(p, m, a, resp, server'));
  }

  /** One call of the loop below: `next` is updated in place. In `p`, the cursor is the server's. */
  method CountingCall(indexer: Indexer, cp: Checkpoint, m: nat, a: nat, p: Progress, current: Checkpoint, next: Cursor)
    returns (r: Result<Progress>)
    requires indexer.Valid() && 0 < m && 0 < a && Fits(indexer.replica, m) && p.more
    requires Going(indexer.replica, cp, m, a, p) && SameView(indexer.replica, cp, current, p.cur)
    requires next.receiverIndex.Length == FOREST_WIDTH && next.Value() == current
    modifies indexer`cache, next, next.receiverIndex
    ensures indexer.Valid() && (r.Ok? <==> true in indexer.pool.tables.totals)
    ensures r.Ok? ==> r.value.s.calls == p.s.calls + 1 && SameView(indexer.replica, cp, next.Value(), r.value.cur)
    ensures r.Ok? ==> Going(indexer.replica, cp, m, a, r.value)
  {
    FitsNoWrap(indexer.replica, current.receiverIndex, m);
    var answer, _, _ := indexer.PullLedgerDiff(current, m, a);
    if answer.Err? { return Err(answer.error); }
    var resp := answer.value.0;
    var shards := ReconstructShards(resp.receivers);
    if shards.Err? { return Err(DecodeError); }
    CalculateNextCheckpoint(shards.value, current, next, |resp.senders|, resp.receivers);
    var server := Checkpoint(answer.value.1.receiverIndex, p.cur.senderIndex + a);
    MirrorStep(indexer.replica, cp, m, a, p, current, resp, answer.value.1, next.Value(), server);
    r := Ok(Gone(p, m, a, resp, server));
  }

  /** A client that ignores the server's cursor and counts for itself has the same session as one that follows it. */
  method DrainByCounting(indexer: Indexer, cp: Checkpoint, m: nat, a: nat) returns (r: Result<Session>)
    requires indexer.Valid() && 0 < m && 0 < a && Fits(indexer.replica, m)
    modifies indexer`cache
    ensures indexer.Valid() && (r.Ok? <==> true in indexer.pool.tables.totals)
    ensures r.Ok? ==> Finished(indexer.replica, cp, m, a, r.value)
  {
    ghost var l := indexer.replica;
    var p, current := Fresh(cp, m), cp;
    var next := new Cursor(current);
    GoingStart(l, cp, m, a, m);
    while p.more
      invariant indexer.Valid() && indexer.replica == l && Going(l, cp, m, a, p)
      invariant fresh(next) && fresh(next.receiverIndex) && next.receiverIndex.Length == FOREST_WIDTH
      invariant next.Value() == current && SameView(l, cp, current, p.cur)
      invariant p.s.calls > 0 ==> true in indexer.pool.tables.totals
      decreases Bound(l, cp, m, a) - p.s.calls
    {
      var answer := CountingCall(indexer, cp, m, a, p, current, next);
      if answer.Err? { return Err(answer.error); }
      p := answer.value;
      current := next.Get();
    }
    DrainEnd(l, cp, m, a, p);
    r := Ok(p.s);
  }

  /** A chain of sender calls over a table that does not change, after k of `calls` calls. */
  ghost predicate Chained(l: Ledger, start: nat, amount: nat, calls: nat, k: nat, next: nat, got: seq<Sender>) {
    && next == start + Times(k, amount)
    && GotSenders(l, start, Times(k, amount), NoAlias(start, Times(calls, amount), |l.senders|), got)
  }

  lemma ChainStep(l: Ledger, start: nat, amount: nat, calls: nat, k: nat, next: nat, got: seq<Sender>,
                  batch: seq<Sender>, got': seq<Sender>)
    requires k < calls && Chained(l, start, amount, calls, k, next, got) && SendersPulled(l, next, amount, batch)
    requires got' == got + batch
    ensures Chained(l, start, amount, calls, k + 1, next + amount, got')
  {
    var fine := NoAlias(start, Times(calls, amount), |l.senders|);
    TimesMonotone(k + 1, calls, amount);
    if fine { NoAliasPart(start, Times(calls, amount), next, amount, |l.senders|, |l.senders|); }
    GetSenders(l, start, amount, Times(k, amount), fine, got, batch, Times(k + 1, amount), got');
  }

  /** Calls of `pull_senders`, each from the cursor that the one before returned: over a table that does not change, k
      calls deliver the senders of [start, start + k * amount) that exist, once each. */
  method ChainSenders(indexer: Indexer, start: nat, amount: nat, calls: nat) returns (r: Result<(nat, seq<Sender>)>)
    requires indexer.Valid()
    modifies indexer`cache
    ensures indexer.Valid() && r.Ok? && r.value.0 == start + calls * amount
    ensures NoAlias(start, calls * amount, |indexer.replica.senders|) ==>
              multiset(r.value.1) == multiset(Slice(indexer.replica.senders, start, calls * amount))
  {
    var next, got: seq<Sender> := start, [];
    for k := 0 to calls
      invariant indexer.Valid() && Chained(indexer.replica, start, amount, calls, k, next, got)
    {
      var batch := NextSenders(indexer, next, amount);
      if batch.Err? { return Err(DecodeError); }
      ChainStep(indexer.replica, start, amount, calls, k, next, got, batch.value.1, got + batch.value.1);
      next, got := batch.value.0, got + batch.value.1;
    }
    TimesIs(calls, amount);
    r := Ok((next, got));
  }

  method NextSenders(indexer: Indexer, start: nat, amount: nat) returns (r: Result<(nat, seq<Sender>)>)
    requires indexer.Valid()
    modifies indexer`cache
    ensures indexer.Valid() && r.Ok? && r.value.0 == start + amount
    ensures SendersPulled(indexer.replica, start, amount, r.value.1)
  {
    var answer, _ := indexer.PullSenders(start, amount);
    if answer.Err? { return Err(DecodeError); }
    r := Ok((answer.value.1, answer.value.2));
  }

  const DRAIN_LIMIT: nat := 1024 * 15

  function Origin(): Checkpoint { Checkpoint(seq(FOREST_WIDTH, i => 0), 0) }

  /** `pull_ledger_diff_from_sqlite`: everything, from the beginning. */
  method PullLedgerDiffFromSqlite(indexer: Indexer) returns (r: Result<Session>)
    requires indexer.Valid() && Fits(indexer.replica, DRAIN_LIMIT)
    modifies indexer`cache
    ensures indexer.Valid() && (r.Ok? <==> true in indexer.pool.tables.totals)
    ensures r.Ok? ==> exists cp: Checkpoint ::
              && cp.senderIndex == 0 && (forall s: Shard :: cp.receiverIndex[s] == 0)
              && Finished(indexer.replica, cp, 15360, 15360, r.value)
  {
    r := DrainByCounting(indexer, Origin(), DRAIN_LIMIT, DRAIN_LIMIT);
  }
}
