/** What the session system guarantees over every run, in its own words. */
module SessionTheorems {
  import opened Common
  import opened Session
  import opened SessionSystem
  import opened SessionInvariant
  import opened SessionSafety
  import opened SessionBooks
  import opened SessionEnds
  import opened SessionLineage
  import opened SessionPaid

  // ---------------------------------------------------------------------------
  // Linearity

  /** No interleaving hands out two snapshots of one step, or sends two answers for it. */
  lemma OneAnswerPerSuspension(actions: seq<Action>)
    ensures
      var sys := Execute(EMPTY, actions);
      && (forall j, k :: 0 <= j < k < |sys.snaps| ==>
          (sys.snaps[j].run, sys.snaps[j].step) != (sys.snaps[k].run, sys.snaps[k].step))
      && (forall i, j :: 0 <= i < j < |sys.log| && sys.log[i].kind.Resume? && sys.log[j].kind.Resume? ==>
          (sys.log[i].run, sys.log[i].step) != (sys.log[j].run, sys.log[j].step))
  {
    hide Apply, Execute, NodesOk, DumpsOk, RunsOk;
    RunKeeps(actions);
    var sys := Execute(EMPTY, actions);
    forall i, j | 0 <= i < j < |sys.log| && sys.log[i].kind.Resume? && sys.log[j].kind.Resume?
      ensures (sys.log[i].run, sys.log[i].step) != (sys.log[j].run, sys.log[j].step)
    {
      if sys.log[i].run == sys.log[j].run {
        assert SameTurn(sys.log[i], sys.log[j]);
      }
    }
  }

  /** Dumping a snapshot never tests for an active turn, yet never reaches a busy worker. */
  lemma NoDumpDuringTurn(actions: seq<Action>, k: nat)
    requires k < |Execute(EMPTY, actions).snaps|
    ensures
      var sys := Execute(EMPTY, actions);
      Active(sys, k) ==> sys.nodes[sys.runs[sys.snaps[k].run].session].turn.NoTurn?
  {
    hide Apply, Execute, Inv;
    RunKeeps(actions);
    if Active(Execute(EMPTY, actions), k) {
      ActiveIsResting(Execute(EMPTY, actions), k);
    }
  }

  // ---------------------------------------------------------------------------
  // What the host knows of its worker and its snapshots

  /** An exchange that ended in an error although the worker lives on, still suspended. */
  predicate HeldEnd(o: Outcome)
  {
    o.Failed? &&
    match o.why
    case Unsent => true
    case AbortRefused => true
    case Withheld(k) => Suspends(k)
    case Undecodable(k) => Suspends(k)
    case _ => false
  }

  /**
   A session that is idle has a living worker that still holds a suspension if and only if its last
   turn or load ended in one of four ways: the resume was refused by the watchdog, the abort of an
   over-budget feed was, or the worker's suspension was withheld by a failed print callback or did
   not decode.
   */
  lemma IdleWorkerHoldsIff(actions: seq<Action>, n: nat)
    requires n < |Execute(EMPTY, actions).nodes| && IsIdle(Execute(EMPTY, actions).nodes[n].s)
    requires !Execute(EMPTY, actions).nodes[n].vm.dead
    ensures
      var nd := Execute(EMPTY, actions).nodes[n];
      nd.vm.suspended <==> HeldEnd(nd.last)
  {
    hide Apply, Execute, CountOk, LiveOk, DumpsOk, RunsOk, SnapsOk, LogOk;
    RunKeeps(actions);
    RunEnds(actions);
    var sys := Execute(EMPTY, actions);
    assert NodeOk(sys, n);
    assert NodeEnds(sys.nodes[n]) && PendingEnds(sys, n);
    IdleHandedNothing(sys, n);
  }

  /** Such a session's dump carries the worker's suspensions and says there were none. */
  lemma HeldDumpSaysNone(actions: seq<Action>, n: nat)
    requires n < |Execute(EMPTY, actions).nodes| && IsIdle(Execute(EMPTY, actions).nodes[n].s)
    requires !Execute(EMPTY, actions).nodes[n].vm.dead
    ensures
      var sys := Execute(EMPTY, actions);
      var b := DoDumpSession(sys, n, Dumped);
      && |b.dumps| == |sys.dumps| + 1 && b.dumps[|sys.dumps|].suspensions == 0
      && (b.dumps[|sys.dumps|].vm.suspended <==> HeldEnd(sys.nodes[n].last))
      && (HeldEnd(sys.nodes[n].last) ==> b.dumps[|sys.dumps|].vm.hist != [])
  {
    hide Execute, TurnOk, LiveOk, DumpsOk, RunsOk, SnapsOk, LogOk, Ready, HeldEnd;
    IdleWorkerHoldsIff(actions, n);
    RunKeeps(actions);
    assert NodeOk(Execute(EMPTY, actions), n);
  }

  // ---------------------------------------------------------------------------
  // Suspension accounting

  /**
   Wherever a snapshot can still be used, the suspensions on its path are distinct, the counter and
   what its chain of dumps forgot add up to their number, and the counter is within the limit in
   force. The counter is right if and only if the chain does not start with a held dump.
   */
  lemma SuspensionsAccounted(actions: seq<Action>, k: nat)
    requires k < |Execute(EMPTY, actions).snaps| && Active(Execute(EMPTY, actions), k)
    ensures
      var sys := Execute(EMPTY, actions);
      var r := sys.snaps[k].run;
      var nd := sys.nodes[sys.runs[r].session];
      && nd.vm.hist != [] && nd.vm.hist[|nd.vm.hist| - 1] == sys.snaps[k].susp
      && (forall i, j :: 0 <= i < j < |nd.vm.hist| ==> nd.vm.hist[i].id != nd.vm.hist[j].id)
      && (sys.runs[r].suspensions + Forgotten(sys, r)) % TWO64 == |nd.vm.hist| % TWO64
      && sys.runs[r].suspensions <= Limit(nd.s)
      && (|nd.vm.hist| < TWO64 && Forgotten(sys, r) < TWO64 ==>
          (sys.runs[r].suspensions == |nd.vm.hist| <==> !FromHeldDump(sys, r)))
  {
    hide Apply, Execute, DumpsOk, RunsOk, SnapsOk, LogOk, TurnOk, Charged, Forgotten, FromHeldDump, Lines, Ready;
    RunKeeps(actions);
    RunLines(actions);
    var sys := Execute(EMPTY, actions);
    var n := sys.runs[sys.snaps[k].run].session;
    assert NodeOk(sys, n);
    assert HandedOut(CtxOf(sys, n, sys.snaps[k].run), sys.snaps[k].susp.id, sys.snaps[k].delay);
    LostIsForgotten(sys, sys.snaps[k].run);
  }

  // ---------------------------------------------------------------------------
  // Sleep accounting

  /**
   A session's sleep usage is the clamped total of its charges. No sleep is charged twice, and each
   charge is exactly what the session in whose turn the sleep arose granted of it, when it handed
   it out. Every system sleep a session ever handed out is granted under its own cap and, unless
   the chain of dumps starts with a held one, stays in its account; under a limit an active one
   leaves the total within it.
   */
  lemma SleepsAccounted(actions: seq<Action>, n: nat)
    requires n < |Execute(EMPTY, actions).nodes|
    ensures
      var sys := Execute(EMPTY, actions);
      var s := sys.nodes[n].s;
      && s.sleepUsed == (if Sum(s.sleeps) > MAX_DURATION then MAX_DURATION else Sum(s.sleeps))
      && DistinctCharges(s.sleeps)
      && (forall i :: 0 <= i < |s.sleeps| ==> ChargeOk(sys, s.sleeps[i]))
      && (forall k :: (0 <= k < |sys.snaps| && sys.snaps[k].run < |sys.runs|
                       && sys.runs[sys.snaps[k].run].session == n) ==>
          && sys.snaps[k].delay == Granted(s.systemSleepMax, sys.snaps[k].susp.delay)
          && (sys.snaps[k].delay.Some? && !FromHeldDump(sys, sys.snaps[k].run) ==> Charged(s.sleeps, sys.snaps[k].susp))
          && (sys.snaps[k].delay.Some? && Active(sys, k) && s.hasSleepLimit ==> s.sleepUsed <= s.maxTotalSleep))
  {
    hide Apply, Execute, DumpsOk, RunsOk, SnapsOk, LogOk, TurnOk, Charged, Ready, ChargeOk, FromHeldDump, Granted,
      Lines;
    RunKeeps(actions);
    RunBooks(actions);
    RunLines(actions);
    var sys := Execute(EMPTY, actions);
    assert NodeOk(sys, n);
    assert ChargesOk(sys, sys.nodes[n].s.sleeps);
    SatSumIsClampedSum(sys.nodes[n].s.sleeps);
    forall k | 0 <= k < |sys.snaps| && sys.snaps[k].run < |sys.runs| && sys.runs[sys.snaps[k].run].session == n
      ensures sys.snaps[k].delay == Granted(sys.nodes[n].s.systemSleepMax, sys.snaps[k].susp.delay)
      ensures sys.snaps[k].delay.Some? && !FromHeldDump(sys, sys.snaps[k].run) ==>
        Charged(sys.nodes[n].s.sleeps, sys.snaps[k].susp)
      ensures sys.snaps[k].delay.Some? && Active(sys, k) && sys.nodes[n].s.hasSleepLimit ==>
        sys.nodes[n].s.sleepUsed <= sys.nodes[n].s.maxTotalSleep
    {
      assert SnapBooked(sys, k);
      LostIsForgotten(sys, sys.snaps[k].run);
      if Active(sys, k) {
        assert HandedOut(CtxOf(sys, n, sys.snaps[k].run), sys.snaps[k].susp.id, sys.snaps[k].delay);
      }
    }
  }

  predicate Covers(cap: Option<Nanos>, asked: Nanos)
  {
    cap.None? || cap.value >= asked
  }

  /** Two caps grant the same of a delay: they are one cap, or neither reaches into it. */
  predicate CapsAgree(a: Option<Nanos>, b: Option<Nanos>, asked: Nanos)
  {
    a == b || (Covers(a, asked) && Covers(b, asked))
  }

  /**
   A system sleep that a snapshot hands out is in its session's account if and only if the session
   in whose turn it arose handed it out. A sleep withheld there that comes back out of a dump is
   never charged to anybody.
   */
  lemma ChargedIffHandedOutAtHome(actions: seq<Action>, k: nat)
    requires k < |Execute(EMPTY, actions).snaps| && Execute(EMPTY, actions).snaps[k].delay.Some?
    ensures
      var sys := Execute(EMPTY, actions);
      var p := sys.snaps[k];
      && p.run < |sys.runs| && sys.runs[p.run].session < |sys.nodes|
      && (Charged(sys.nodes[sys.runs[p.run].session].s.sleeps, p.susp) <==> HandedOutAtHome(sys, p.susp))
  {
    hide Apply, Execute;
    RunBooks(actions);
    RunLedger(actions);
    var sys := Execute(EMPTY, actions);
    assert SnapBooked(sys, k) && SnapPaid(sys, k);
    var p := sys.snaps[k];
    var s := sys.nodes[sys.runs[p.run].session].s;
    if Charged(s.sleeps, p.susp) {
      var i :| 0 <= i < |s.sleeps| && s.sleeps[i].susp == p.susp;
      assert ChargesOk(sys, s.sleeps) && ChargeOk(sys, s.sleeps[i]);
      var j: nat :| PaidFor(sys, s.sleeps[i], j);
      assert Handed(sys, j, p.susp);
    }
  }

  /**
   What a snapshot hands out is what was charged for it if and only if the session where the sleep
   arose handed it out and that session's cap and this one's agree on it. A restore under a cap
   that does not agree hands out a sleep that was charged as another amount.
   */
  lemma ChargedAsGrantedIff(actions: seq<Action>, k: nat)
    requires k < |Execute(EMPTY, actions).snaps| && Execute(EMPTY, actions).snaps[k].delay.Some?
    ensures
      var sys := Execute(EMPTY, actions);
      var p := sys.snaps[k];
      && p.run < |sys.runs| && sys.runs[p.run].session < |sys.nodes| && p.susp.owner < |sys.nodes| && p.susp.delay.Some?
      && var s := sys.nodes[sys.runs[p.run].session].s;
         (Charge(p.susp, p.delay.value) in s.sleeps <==>
           && HandedOutAtHome(sys, p.susp)
           && CapsAgree(sys.nodes[p.susp.owner].s.systemSleepMax, s.systemSleepMax, p.susp.delay.value))
  {
    hide Apply, Execute;
    RunBooks(actions);
    RunLedger(actions);
    var sys := Execute(EMPTY, actions);
    assert SnapBooked(sys, k) && SnapPaid(sys, k);
    var p := sys.snaps[k];
    var s := sys.nodes[sys.runs[p.run].session].s;
    assert ChargesOk(sys, s.sleeps);
    hide Books, Ledger, HandedOutAtHome;
    ChargedIffHandedOutAtHome(actions, k);
    forall i | 0 <= i < |s.sleeps| && s.sleeps[i].susp == p.susp
      ensures s.sleeps[i].delay == p.delay.value <==>
        CapsAgree(sys.nodes[p.susp.owner].s.systemSleepMax, s.systemSleepMax, p.susp.delay.value)
    {
      assert ChargeOk(sys, s.sleeps[i]);
    }
  }

  // ---------------------------------------------------------------------------
  // Two runs that go wrong

  lemma ExecuteOneMore(actions: seq<Action>, a: Action)
    ensures Execute(EMPTY, actions + [a]) == Apply(Execute(EMPTY, actions), a)
  {
    hide Apply;
    assert (actions + [a])[..|actions + [a]| - 1] == actions;
  }

  lemma ExecuteFive(a: Action, b: Action, c: Action, d: Action, e: Action)
    ensures Execute(EMPTY, [a, b, c, d, e]) == Apply(Apply(Apply(Apply(Apply(EMPTY, a), b), c), d), e)
  {
    hide Apply, Execute;
    ExecuteNothing();
    ExecuteOneMore([], a);
    assert [] + [a] == [a];
    ExecuteOneMore([a], b);
    assert [a] + [b] == [a, b];
    ExecuteOneMore([a, b], c);
    assert [a, b] + [c] == [a, b, c];
    ExecuteOneMore([a, b, c], d);
    assert [a, b, c] + [d] == [a, b, c, d];
    ExecuteOneMore([a, b, c, d], e);
    assert [a, b, c, d] + [e] == [a, b, c, d, e];
  }

  lemma ExecuteNothing()
    ensures Execute(EMPTY, []) == EMPTY
  {
  }

  const NAP: Event := Event(OSCall, 0, true, Some(10), 0, None, None)
  const NAPPING: Vm := Vm([Susp(0, 0, Some(10))], true, false)
  const SHORT: Action := NewSession(0, 0, 4, Some(1), 0, false)
  const LONG: Action := NewSession(0, 0, 4, None, 0, false)

  /** A new session 0 has written its first feed. */
  function Fed(a: Action): Sys
    requires a.NewSession?
  {
    Sys([Node(FreshSess(a).(used := true, inTurn := true), Waiting(0, true), Vm([], false, false), false, Completed)],
        [Run(0, 0, 0, false, false, false, 0, None)], [], [], [Req(0, Feed, 0, 0, 0)], 0, multiset{})
  }

  lemma FedByThree(a: Action)
    requires a.NewSession? && !a.backstop
    ensures DoSend(DoBeginFeed(Apply(EMPTY, a), 0), 0) == Fed(a)
  {
    hide DoSend;
    var s2 := DoBeginFeed(Apply(EMPTY, a), 0);
    assert s2 == Fed(a).(nodes := [Fed(a).nodes[0].(turn := Begun(0, true))], log := []);
    FedBySend(a, s2);
  }

  lemma FedBySend(a: Action, s2: Sys)
    requires a.NewSession? && !a.backstop
    requires s2 == Fed(a).(nodes := [Fed(a).nodes[0].(turn := Begun(0, true))], log := [])
    ensures DoSend(s2, 0) == Fed(a)
  {
    assert DoSend(s2, 0).nodes == Fed(a).nodes;
  }

  /** The first answer session 0 gets, and what is made of it. */
  function FirstTurn(a: Action, reply: Reply): seq<Action>
  {
    [a, BeginFeed(0), Send(0), Receive(0, reply), Finish(0, [])]
  }

  lemma FirstTurnFinished(a: Action, reply: Reply)
    requires a.NewSession? && !a.backstop
    ensures Execute(EMPTY, FirstTurn(a, reply)) == Apply(DoReceive(Fed(a), 0, reply), Finish(0, []))
  {
    hide Execute, DoReceive, DoFinish, DoSend, DoBeginFeed, Fed;
    FedByThree(a);
    ExecuteFive(a, BeginFeed(0), Send(0), Receive(0, reply), Finish(0, []));
  }

  // ---------------------------------------------------------------------------
  // A suspension nobody heard of

  /**
   A feed suspends on a sleep of 10 though 4 are allowed in all, but the print callback fails on the
   way; the session looks idle, is dumped, and the dump is loaded into another session.
   */
  function CallbackStory(): seq<Action>
  {
    FirstTurn(LONG, Discarded(NAP, NAPPING)) + [DumpSession(0, Dumped)] + [LONG]
    + [LoadDump(1, 0, Answer(NAP, NAPPING), [])]
  }

  /** The restored snapshot hands the sleep out; by its counters nothing was suspended, nothing slept. */
  lemma DiscardedSuspensionIsForgotten()
    ensures
      var sys := Execute(EMPTY, CallbackStory());
      && |sys.snaps| == 1 && |sys.runs| == 2 && |sys.nodes| == 2 && Active(sys, 0) && sys.snaps[0].run == 1
      && sys.runs[1].session == 1 && sys.runs[1].suspensions == 0 && |sys.nodes[1].vm.hist| == 1
      && sys.snaps[0].delay == Some(10) && sys.nodes[1].s.hasSleepLimit && sys.nodes[1].s.maxTotalSleep == 4
      && sys.nodes[1].s.sleepUsed == 0 && sys.nodes[1].s.sleeps == []
  {
    hide Apply, Execute, FirstTurn;
    var feed := FirstTurn(LONG, Discarded(NAP, NAPPING));
    ExecuteOneMore(feed, DumpSession(0, Dumped));
    ExecuteOneMore(feed + [DumpSession(0, Dumped)], LONG);
    ExecuteOneMore(feed + [DumpSession(0, Dumped)] + [LONG], LoadDump(1, 0, Answer(NAP, NAPPING), []));
    FirstTurnFinished(LONG, Discarded(NAP, NAPPING));
    ForgottenFeed();
    ForgottenRestore(Execute(EMPTY, feed));
  }

  lemma ForgottenFeed()
    ensures
      var s5 := Apply(DoReceive(Fed(LONG), 0, Discarded(NAP, NAPPING)), Finish(0, []));
      && |s5.nodes| == 1 && s5.nodes[0].vm == NAPPING && IsIdle(s5.nodes[0].s) && s5.nodes[0].s.maxDuration == 0
      && s5.nodes[0].s.sleepUsed == 0 && s5.nodes[0].s.sleeps == []
      && s5.snaps == [] && s5.dumps == [] && |s5.runs| == 1 && s5.next == 1
  {
    hide DoFinish;
    var s4 := DoReceive(Fed(LONG), 0, Discarded(NAP, NAPPING));
    assert s4 == Fed(LONG).(next := 1, nodes := [Fed(LONG).nodes[0].(
      turn := Replied(0, true, None, Withheld(OSCall)), vm := NAPPING)]);
    ForgottenFinish(s4);
  }

  lemma ForgottenFinish(s4: Sys)
    requires s4 == Fed(LONG).(next := 1, nodes := [Fed(LONG).nodes[0].(
      turn := Replied(0, true, None, Withheld(OSCall)), vm := NAPPING)])
    ensures
      var s5 := DoFinish(s4, 0, []);
      && |s5.nodes| == 1 && s5.nodes[0].vm == NAPPING && IsIdle(s5.nodes[0].s) && s5.nodes[0].s.maxDuration == 0
      && s5.nodes[0].s.sleepUsed == 0 && s5.nodes[0].s.sleeps == []
      && s5.snaps == [] && s5.dumps == [] && |s5.runs| == 1 && s5.next == 1
  {
  }

  lemma ForgottenRestore(s5: Sys)
    requires |s5.nodes| == 1 && s5.nodes[0].vm == NAPPING && IsIdle(s5.nodes[0].s) && s5.nodes[0].s.maxDuration == 0
    requires s5.nodes[0].s.sleepUsed == 0 && s5.nodes[0].s.sleeps == []
    requires s5.snaps == [] && s5.dumps == [] && |s5.runs| == 1 && s5.next == 1
    ensures
      var s7 := Apply(Apply(s5, DumpSession(0, Dumped)), LONG);
      var sys := Apply(s7, LoadDump(1, 0, Answer(NAP, NAPPING), []));
      && |sys.snaps| == 1 && |sys.runs| == 2 && |sys.nodes| == 2 && Active(sys, 0) && sys.snaps[0].run == 1
      && sys.runs[1].session == 1 && sys.runs[1].suspensions == 0 && |sys.nodes[1].vm.hist| == 1
      && sys.snaps[0].delay == Some(10) && sys.nodes[1].s.hasSleepLimit && sys.nodes[1].s.maxTotalSleep == 4
      && sys.nodes[1].s.sleepUsed == 0 && sys.nodes[1].s.sleeps == []
  {
    hide DoLoad, DoDumpSession;
    ForgottenDump(s5);
    var s7 := Apply(DoDumpSession(s5, 0, Dumped), LONG);
    assert |s7.nodes| == 2 && s7.nodes[1] == Node(FreshSess(LONG), NoTurn, Vm([], false, false), false, Completed);
    ForgottenLoad(s7);
  }

  lemma ForgottenDump(s5: Sys)
    requires |s5.nodes| == 1 && s5.nodes[0].vm == NAPPING && IsIdle(s5.nodes[0].s) && s5.nodes[0].s.maxDuration == 0
    requires s5.nodes[0].s.sleepUsed == 0 && s5.nodes[0].s.sleeps == [] && s5.dumps == []
    ensures
      var s6 := DoDumpSession(s5, 0, Dumped);
      && |s6.dumps| == 1 && s6.dumps[0] == Dump(NAPPING, 0, 0, 0, [], 1, None, s6.dumps[0].last)
      && s6 == s5.(dumps := s6.dumps, log := s6.log)
  {
  }

  lemma ForgottenLoad(s7: Sys)
    requires |s7.nodes| == 2 && s7.nodes[1] == Node(FreshSess(LONG), NoTurn, Vm([], false, false), false, Completed)
    requires |s7.dumps| == 1 && s7.dumps[0] == Dump(NAPPING, 0, 0, 0, [], 1, None, s7.dumps[0].last)
    requires s7.snaps == [] && |s7.runs| == 1 && s7.next == 1
    ensures
      var sys := DoLoad(s7, 1, s7.dumps[0], 0, Answer(NAP, NAPPING), []);
      && |sys.snaps| == 1 && |sys.runs| == 2 && |sys.nodes| == 2 && Active(sys, 0) && sys.snaps[0].run == 1
      && sys.runs[1].session == 1 && sys.runs[1].suspensions == 0 && |sys.nodes[1].vm.hist| == 1
      && sys.snaps[0].delay == Some(10) && sys.nodes[1].s.hasSleepLimit && sys.nodes[1].s.maxTotalSleep == 4
      && sys.nodes[1].s.sleepUsed == 0 && sys.nodes[1].s.sleeps == []
  {
    hide Progress;
    assert Restores(s7.dumps[0], NAP, NAPPING);
    UncappedAnswer(CtxOf(Told(s7, 1, 0, NAP, NAPPING), 1, 1));
  }

  // ---------------------------------------------------------------------------
  // A sleep charged under another cap

  /**
   Session 0 caps sleeps at 1 and allows 4 in all; it is asked for 10 and charges 1. The snapshot
   is dumped and loaded into session 1, which allows 4 in all as well but has no cap.
   */
  function CapStory(): seq<Action>
  {
    FirstTurn(SHORT, Answer(NAP, NAPPING)) + [BeginDump(0)] + [DumpSnapshot(0, Dumped)] + [LONG]
      + [LoadDump(1, 0, Answer(NAP, NAPPING), [])]
  }

  /** Session 1 hands out a sleep of 10, charged as 1, under a total limit of 4. */
  lemma UncappedRestoreOutsleepsItsBudget()
    ensures
      var sys := Execute(EMPTY, CapStory());
      && |sys.snaps| == 2 && |sys.runs| == 2 && |sys.nodes| == 2
      && Active(sys, 1) && sys.runs[sys.snaps[1].run].session == 1
      && sys.snaps[1].delay == Some(10) && !FromHeldDump(sys, sys.snaps[1].run)
      && sys.nodes[1].s.hasSleepLimit && sys.nodes[1].s.maxTotalSleep == 4
      && sys.nodes[1].s.sleepUsed == 1 && sys.nodes[1].s.sleeps == [Charge(Susp(0, 0, Some(10)), 1)]
  {
    hide Apply, Execute, FromHeldDump, FirstTurn;
    var feed := FirstTurn(SHORT, Answer(NAP, NAPPING));
    ExecuteOneMore(feed, BeginDump(0));
    ExecuteOneMore(feed + [BeginDump(0)], DumpSnapshot(0, Dumped));
    ExecuteOneMore(feed + [BeginDump(0)] + [DumpSnapshot(0, Dumped)], LONG);
    ExecuteOneMore(
      feed + [BeginDump(0)] + [DumpSnapshot(0, Dumped)] + [LONG], LoadDump(1, 0, Answer(NAP, NAPPING), []));
    FirstTurnFinished(SHORT, Answer(NAP, NAPPING));
    CappedFeed();
    CappedDump(Execute(EMPTY, feed));
    UncappedRestore(Apply(Apply(Execute(EMPTY, feed), BeginDump(0)), DumpSnapshot(0, Dumped)));
  }

  /** Session 0 waits at a sleep of 10 that it capped and charged. */
  predicate Capped0(s5: Sys)
  {
    && |s5.nodes| == 1 && s5.nodes[0].vm == NAPPING && !s5.nodes[0].s.closed && s5.nodes[0].s.pending == Some(0)
    && s5.nodes[0].s.maxDuration == 0 && s5.nodes[0].s.sleepUsed == 1
    && s5.nodes[0].s.sleeps == [Charge(Susp(0, 0, Some(10)), 1)]
    && |s5.snaps| == 1 && s5.snaps[0].run == 0 && s5.snaps[0].step == 0 && s5.snaps[0].state.Fresh?
    && s5.runs == [Run(0, 0, 1, false, false, false, 0, None)] && s5.next == 1
  }

  lemma CappedFeed()
    ensures
      var s5 := Apply(DoReceive(Fed(SHORT), 0, Answer(NAP, NAPPING)), Finish(0, []));
      Capped0(s5) && s5.dumps == []
  {
    hide DoFinish, Observe, Capped0;
    var s4 := DoReceive(Fed(SHORT), 0, Answer(NAP, NAPPING));
    assert s4 == Fed(SHORT).(next := 1, nodes := [Fed(SHORT).nodes[0].(
      s := Observe(Fed(SHORT).nodes[0].s, NAP), turn := Replied(0, true, Some(NAP), Unexpected), vm := NAPPING)]);
    CappedFinish(s4);
  }

  lemma CappedFinish(s4: Sys)
    requires s4 == Fed(SHORT).(next := 1, nodes := [Fed(SHORT).nodes[0].(
      s := Observe(Fed(SHORT).nodes[0].s, NAP), turn := Replied(0, true, Some(NAP), Unexpected), vm := NAPPING)])
    ensures Capped0(DoFinish(s4, 0, [])) && DoFinish(s4, 0, []).dumps == []
  {
    hide Progress;
    var left := s4.(nodes := s4.nodes[0 := s4.nodes[0].(s := s4.nodes[0].s.(inTurn := false), turn := NoTurn)]);
    var c := CtxOf(left, 0, 0);
    CappedAnswer(c);
  }

  /** The sleep is granted 1 of its 10 and charged as that. */
  lemma CappedAnswer(c: Ctx)
    requires c.s.systemSleepMax == Some(1) && c.s.sleeps == [] && c.s.sleepUsed == 0 && c.n == 0
    requires c.s.hasSleepLimit && c.s.maxTotalSleep == 4 && c.s.maxSuspensions == 0
    requires c.r == Run(0, 0, 0, false, false, false, 0, None)
    ensures
      Progress(c, NAP, []) == Out(c.(r := c.r.(suspensions := 1),
        s := c.s.(sleepUsed := 1, sleeps := [Charge(Susp(0, 0, Some(10)), 1)])), Suspended(0, Some(1)))
  {
    hide Abort;
    assert SuspOf(NAP, 0) == Susp(0, 0, Some(10));
    assert [] + [Charge(SuspOf(NAP, 0), 1)] == [Charge(Susp(0, 0, Some(10)), 1)];
  }

  /** The dump of that session's snapshot. */
  predicate Dumped0(s7: Sys)
  {
    && Capped0(s7) && |s7.dumps| == 1
    && s7.dumps[0] == Dump(NAPPING, 0, 1, 1, [Charge(Susp(0, 0, Some(10)), 1)], 0, Some(0), s7.dumps[0].last)
  }

  lemma CappedDump(s5: Sys)
    requires Capped0(s5) && s5.dumps == []
    ensures Dumped0(Apply(Apply(s5, BeginDump(0)), DumpSnapshot(0, Dumped)))
  {
    hide DoDumpSnapshot;
    var s6 := DoBeginDump(s5, 0);
    assert s6 == s5.(dumping := s5.dumping + multiset{0});
    CappedTaken(s6);
  }

  lemma CappedTaken(s6: Sys)
    requires Capped0(s6) && s6.dumps == [] && 0 in s6.dumping
    ensures Dumped0(DoDumpSnapshot(s6, 0, Dumped))
  {
  }

  lemma UncappedRestore(s7: Sys)
    requires Dumped0(s7)
    ensures
      var sys := Apply(Apply(s7, LONG), LoadDump(1, 0, Answer(NAP, NAPPING), []));
      && |sys.snaps| == 2 && |sys.runs| == 2 && |sys.nodes| == 2
      && Active(sys, 1) && sys.runs[sys.snaps[1].run].session == 1
      && sys.snaps[1].delay == Some(10) && !FromHeldDump(sys, sys.snaps[1].run)
      && sys.nodes[1].s.hasSleepLimit && sys.nodes[1].s.maxTotalSleep == 4
      && sys.nodes[1].s.sleepUsed == 1 && sys.nodes[1].s.sleeps == [Charge(Susp(0, 0, Some(10)), 1)]
  {
    hide DoLoad;
    var s8 := Apply(s7, LONG);
    assert |s8.nodes| == 2 && s8.nodes[1] == Node(FreshSess(LONG), NoTurn, Vm([], false, false), false, Completed);
    UncappedLoad(s8);
    var sys := DoLoad(s8, 1, s8.dumps[0], 0, Answer(NAP, NAPPING), []);
    assert sys.dumps[0].from == Some(0) && sys.runs[0].origin == None;
    assert !FromHeldDump(sys, 0);
  }

  lemma UncappedLoad(s8: Sys)
    requires |s8.nodes| == 2 && s8.nodes[1] == Node(FreshSess(LONG), NoTurn, Vm([], false, false), false, Completed)
    requires |s8.snaps| == 1 && s8.next == 1 && |s8.dumps| == 1
    requires s8.runs == [Run(0, 0, 1, false, false, false, 0, None)]
    requires s8.dumps[0] == Dump(NAPPING, 0, 1, 1, [Charge(Susp(0, 0, Some(10)), 1)], 0, Some(0), s8.dumps[0].last)
    ensures
      var sys := DoLoad(s8, 1, s8.dumps[0], 0, Answer(NAP, NAPPING), []);
      && |sys.snaps| == 2 && |sys.runs| == 2 && |sys.nodes| == 2
      && Active(sys, 1) && sys.runs[sys.snaps[1].run].session == 1
      && sys.snaps[1].run == 1 && sys.runs[1].origin == Some(0) && sys.runs[0] == s8.runs[0] && sys.dumps == s8.dumps
      && sys.snaps[1].delay == Some(10)
      && sys.nodes[1].s.hasSleepLimit && sys.nodes[1].s.maxTotalSleep == 4
      && sys.nodes[1].s.sleepUsed == 1 && sys.nodes[1].s.sleeps == [Charge(Susp(0, 0, Some(10)), 1)]
  {
    hide Progress;
    assert Restores(s8.dumps[0], NAP, NAPPING);
    var told := Told(s8, 1, 0, NAP, NAPPING);
    UncappedAnswer(CtxOf(told, 1, 1));
  }

  /** What the dump has paid for is handed out whole. */
  lemma UncappedAnswer(c: Ctx)
    requires c.s.systemSleepMax == None && c.s.sleepUsed <= 4 && c.s.maxTotalSleep == 4 && c.s.maxSuspensions == 0
    requires c.r.restoring && c.r.restoreSleepCharged && c.r.suspensions <= 1
    ensures Progress(c, NAP, []) == Out(c.(r := c.r.(restoring := false)), Suspended(0, Some(10)))
  {
    hide Abort;
  }

  // ---------------------------------------------------------------------------
  // Closing, and limits

  /** What one action may do to a session it does or does not concern. */
  ghost predicate Orderly(a: Sys, b: Sys)
  {
    && |a.nodes| <= |b.nodes| && a.log <= b.log
    && (forall n :: 0 <= n < |a.nodes| ==>
        && (a.nodes[n].s.closed ==> b.nodes[n].s.closed)
        && SleepTightens(a.nodes[n].s, b.nodes[n].s))
    && (forall i :: |a.log| <= i < |b.log| && b.log[i].session < |a.nodes| && a.nodes[b.log[i].session].s.closed ==>
        b.log[i].kind.Reset?)
  }

  lemma OrderlyTransitive(a: Sys, b: Sys, c: Sys)
    requires Orderly(a, b) && Orderly(b, c)
    ensures Orderly(a, c)
  {
    forall i | |a.log| <= i < |c.log| && c.log[i].session < |a.nodes| && a.nodes[c.log[i].session].s.closed
      ensures c.log[i].kind.Reset?
    {
      if i < |b.log| {
        assert c.log[i] == b.log[i];
      }
    }
  }

  lemma DeliverOrderly(sys: Sys, n: nat, r: nat, out: Result2)
    requires n < |sys.nodes| && r < |sys.runs| && !sys.nodes[n].s.closed
    requires Answered(CtxOf(sys, n, r), out)
    ensures Orderly(sys, Deliver(sys, out))
  {
    hide Accounts, HandedOut, PaysOnly;
  }

  lemma OpenOrderly(sys: Sys, a: Action)
    requires a.NewSession?
    ensures Orderly(sys, Apply(sys, a)) && Orderly(sys, sys)
  {
  }

  lemma SendOrderly(sys: Sys, n: nat)
    requires Inv(sys)
    ensures Orderly(sys, DoSend(sys, n)) && Orderly(sys, DoBeginFeed(sys, n))
  {
    if n < |sys.nodes| {
      assert NodeOk(sys, n);
    }
    hide Inv, CountOk, LiveOk, MayExecute, NoSnapOf, NoSnapAtStep, NotYetSent;
  }

  lemma CloseOrderly(sys: Sys, n: nat, survives: bool)
    ensures Orderly(sys, DoCloseReset(sys, n)) && Orderly(sys, DoCloseBegin(sys, n))
    ensures Orderly(sys, DoInstallDeps(sys, n, survives))
  {
  }

  lemma ResumeOrderly(sys: Sys, k: nat, state: SnapState, cancels: bool)
    ensures Orderly(sys, DoBeginResume(sys, k)) && Orderly(sys, TakeFlag(sys, k, state))
    ensures Orderly(sys, DoAbandon(sys, k, cancels)) && Orderly(sys, DoBeginDump(sys, k))
  {
  }

  lemma TakeOrderly(sys: Sys, n: nat, answer: DumpReply, suspensions: U64, lost: nat, from: Option<nat>)
    requires n < |sys.nodes| && !sys.nodes[n].s.closed
    ensures Orderly(sys, TakeDump(sys, n, answer, suspensions, lost, from))
  {
  }

  lemma SessionDumpOrderly(sys: Sys, n: nat, answer: DumpReply)
    ensures Orderly(sys, DoDumpSession(sys, n, answer))
  {
    hide TakeDump;
    if n < |sys.nodes| && IsIdle(sys.nodes[n].s) {
      TakeOrderly(sys, n, answer, 0, if sys.nodes[n].vm.suspended then |sys.nodes[n].vm.hist| else 0, None);
    }
  }

  lemma SnapshotDumpOrderly(sys: Sys, k: nat, answer: DumpReply)
    ensures Orderly(sys, DoDumpSnapshot(sys, k, answer))
  {
    hide TakeDump;
    if k < |sys.snaps| && Active(sys, k) {
      var r := sys.runs[sys.snaps[k].run];
      TakeOrderly(sys.(dumping := sys.dumping - multiset{k}), r.session, answer, r.suspensions, r.lost,
                  Some(sys.snaps[k].run));
    }
  }

  lemma ReceiveOrderly(sys: Sys, n: nat, reply: Reply)
    ensures Orderly(sys, DoReceive(sys, n, reply))
  {
    hide TurnObeys, Observe;
    if n < |sys.nodes| && reply.Answer? {
      ObserveFrame(sys.nodes[n].s, reply.e);
    }
  }

  lemma LeavingOrderly(sys: Sys, n: nat)
    requires n < |sys.nodes|
    ensures Orderly(sys, Leaving(sys, n))
  {
  }

  lemma FailedOrderly(sys: Sys, n: nat, aborts: seq<Reply>)
    requires n < |sys.nodes| && sys.nodes[n].turn.Replied? && sys.nodes[n].turn.run < |sys.runs|
    requires sys.nodes[n].turn.event.None?
    ensures Orderly(sys, DoFinish(sys, n, aborts))
  {
  }

  lemma FinishOrderly(sys: Sys, n: nat, aborts: seq<Reply>)
    requires Inv(sys) && n < |sys.nodes| && sys.nodes[n].turn.Replied? && sys.nodes[n].turn.run < |sys.runs|
    ensures Orderly(sys, DoFinish(sys, n, aborts))
  {
    hide Inv, Elsewhere, Answered, Progress, Orderly, Deliver, DoFinish, RunsOk, SnapsOk, LogOk, DumpsOk, NoSnapOf,
      NoSnapAtStep;
    if sys.nodes[n].turn.event.Some? {
      var left, r := Leaving(sys, n), sys.nodes[n].turn.run;
      FinishAnswers(sys, n, aborts);
      LeavingOrderly(sys, n);
      DeliverOrderly(left, n, r, Progress(CtxOf(left, n, r), sys.nodes[n].turn.event.value, aborts));
      OrderlyTransitive(sys, left, DoFinish(sys, n, aborts));
    } else {
      FailedOrderly(sys, n, aborts);
    }
  }

  lemma ToldOrderly(sys: Sys, n: nat, o: nat, e: Event, vm: Vm)
    requires n < |sys.nodes| && IsIdle(sys.nodes[n].s) && o < |sys.dumps| && sys.dumps[o].duration >= 0
    ensures Orderly(sys, Told(sys, n, o, e, vm))
  {
    hide Observe, RestoredDuration;
    ObserveFrame(Restoring(sys, n, sys.dumps[o], o).nodes[n].s, e);
  }

  lemma UnansweredOrderly(sys: Sys, n: nat, o: nat, reply: Reply, aborts: seq<Reply>)
    requires n < |sys.nodes| && IsIdle(sys.nodes[n].s) && o < |sys.dumps| && sys.dumps[o].duration >= 0
    requires Unanswered(sys, n, o, reply)
    ensures Orderly(sys, DoLoad(sys, n, sys.dumps[o], o, reply, aborts))
  {
    hide Observe, RestoredDuration, Restores;
    if reply.Answer? {
      ObserveFrame(Restoring(sys, n, sys.dumps[o], o).nodes[n].s, reply.e);
    }
  }

  lemma LoadOrderly(sys: Sys, n: nat, o: nat, reply: Reply, aborts: seq<Reply>)
    requires Inv(sys) && n < |sys.nodes| && IsIdle(sys.nodes[n].s) && o < |sys.dumps| && sys.dumps[o].duration >= 0
    ensures Orderly(sys, DoLoad(sys, n, sys.dumps[o], o, reply, aborts))
  {
    hide Inv, Orderly, Answered, Elsewhere, Progress, Deliver, DoLoad, Restores, Told, RunsOk, SnapsOk, LogOk, DumpsOk,
      NoSnapOf, NoSnapAtStep;
    if Unanswered(sys, n, o, reply) {
      UnansweredOrderly(sys, n, o, reply, aborts);
    } else {
      var told, r := Told(sys, n, o, reply.e, reply.vm), |sys.runs|;
      LoadAnswers(sys, n, o, reply.e, reply.vm, aborts);
      ToldOrderly(sys, n, o, reply.e, reply.vm);
      DeliverOrderly(told, n, r, NotCompleted(Progress(CtxOf(told, n, r), reply.e, aborts)));
      OrderlyTransitive(sys, told, Deliver(told, NotCompleted(Progress(CtxOf(told, n, r), reply.e, aborts))));
    }
  }

  lemma ActionOrderly(sys: Sys, a: Action)
    requires Inv(sys)
    ensures Orderly(sys, Apply(sys, a))
  {
    hide Inv, Orderly, DoFinish, DoLoad, DoAbandon, DoBeginDump, DoDumpSnapshot, DoDumpSession,
      DoInstallDeps, TakeFlag, DoBeginFeed, DoSend, DoReceive, DoBeginResume, DoCloseBegin, DoCloseReset;
    OpenOrderly(sys, LONG);
    match a {
      case NewSession(_, _, _, _, _, _) => OpenOrderly(sys, a);
      case BeginFeed(n) => SendOrderly(sys, n);
      case Send(n) => SendOrderly(sys, n);
      case Receive(n, reply) => ReceiveOrderly(sys, n, reply);
      case Finish(n, aborts) =>
        if n < |sys.nodes| && sys.nodes[n].turn.Replied? && sys.nodes[n].turn.run < |sys.runs| {
          FinishOrderly(sys, n, aborts);
        }
      case Claim(k) => ResumeOrderly(sys, k, Claimed, false);
      case Drop(k) => ResumeOrderly(sys, k, Spent, false);
      case BeginDump(k) => ResumeOrderly(sys, k, Fresh, false);
      case BeginResume(k) => ResumeOrderly(sys, k, Fresh, false);
      case Abandon(k, cancels) => ResumeOrderly(sys, k, Fresh, cancels);
      case DumpSnapshot(k, answer) => SnapshotDumpOrderly(sys, k, answer);
      case DumpSession(n, answer) => SessionDumpOrderly(sys, n, answer);
      case LoadDump(n, d, reply, aborts) =>
        if n < |sys.nodes| && d < |sys.dumps| && sys.dumps[d].duration >= 0 && IsIdle(sys.nodes[n].s) {
          LoadOrderly(sys, n, d, reply, aborts);
        }
      case InstallDeps(n, survives) => CloseOrderly(sys, n, survives);
      case CloseBegin(n) => CloseOrderly(sys, n, true);
      case CloseReset(n) => CloseOrderly(sys, n, true);
    }
  }

  lemma {:induction false} RunOrderly(actions: seq<Action>, more: seq<Action>)
    ensures Orderly(Execute(EMPTY, actions), Execute(EMPTY, actions + more))
    decreases |more|
  {
    hide Apply, Execute;
    if more == [] {
      assert actions + more == actions;
    } else {
      hide Orderly;
      var k := |more| - 1;
      RunOrderly(actions, more[..k]);
      assert actions + more == (actions + more[..k]) + [more[k]];
      ExecuteOneMore(actions + more[..k], more[k]);
      RunKeeps(actions + more[..k]);
      ActionOrderly(Execute(EMPTY, actions + more[..k]), more[k]);
      OrderlyTransitive(Execute(EMPTY, actions), Execute(EMPTY, actions + more[..k]), Execute(EMPTY, actions + more));
    }
  }

  /** Once closed, a session and its snapshots send nothing but one Reset, whatever they try. */
  lemma OnlyResetAfterClose(actions: seq<Action>, more: seq<Action>, n: nat)
    requires n < |Execute(EMPTY, actions).nodes| && Execute(EMPTY, actions).nodes[n].s.closed
    ensures
      var a, b := Execute(EMPTY, actions), Execute(EMPTY, actions + more);
      && a.log <= b.log
      && (forall i :: |a.log| <= i < |b.log| && b.log[i].session == n ==> b.log[i].kind.Reset?)
      && (forall i, j :: 0 <= i < j < |b.log| && b.log[i].session == b.log[j].session == n ==> !b.log[i].kind.Reset?)
  {
    hide Apply, Execute, NodesOk, DumpsOk, SnapsOk, RunsOk;
    RunOrderly(actions, more);
    RunKeeps(actions + more);
  }

  /** A session's total-sleep limit, once set, is never dropped or raised, by anyone. */
  lemma SleepLimitOnlyTightens(actions: seq<Action>, more: seq<Action>, n: nat)
    requires n < |Execute(EMPTY, actions).nodes|
    ensures n < |Execute(EMPTY, actions + more).nodes|
    ensures SleepTightens(Execute(EMPTY, actions).nodes[n].s, Execute(EMPTY, actions + more).nodes[n].s)
  {
    hide Apply, Execute;
    RunOrderly(actions, more);
  }
}
