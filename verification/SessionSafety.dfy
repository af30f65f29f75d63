/** Every run of the session system keeps the invariant. */
module SessionSafety {
  import opened Common
  import opened Session
  import opened SessionSystem
  import opened SessionInvariant

  /** What an action of session n has to establish; the other sessions then follow. */
  ghost predicate Local(sys: Sys, b: Sys, n: nat)
  {
    && Elsewhere(sys, b, n)
    && RunsOk(b) && DumpsOk(b) && SnapsOk(b) && LogOk(b)
    && |b.nodes| <= |sys.nodes| + (if n == |sys.nodes| then 1 else 0)
    && (n < |b.nodes| ==> NodeOk(b, n))
  }

  lemma LocalIsEnough(sys: Sys, b: Sys, n: nat)
    requires Inv(sys) && Local(sys, b, n)
    ensures Inv(b)
  {
    hide Elsewhere, NodeOk, NodesOk, LogOk, RunsOk, DumpsOk, SnapsOk;
    forall m | |sys.nodes| <= m < |b.nodes| ensures NodeOk(b, m) {
    }
    OthersStay(sys, b, n);
  }

  lemma NewSessionLocal(sys: Sys, a: Action)
    requires Inv(sys) && a.NewSession?
    ensures Local(sys, Apply(sys, a), |sys.nodes|)
  {
    hide NodesOk;
    var b := Apply(sys, a);
    assert Elsewhere(sys, b, |sys.nodes|);
    hide Elsewhere, LogOk;
    LogGrows(sys, b, |sys.nodes|);
  }

  lemma BeginFeedLocal(sys: Sys, n: nat)
    requires Inv(sys) && n < |sys.nodes| && IsIdle(sys.nodes[n].s)
    ensures Local(sys, DoBeginFeed(sys, n), n)
  {
    assert NodeOk(sys, n);
    hide NodesOk, DumpOk, SatSum, HandedOut, Charged, DistinctCharges;
  }

  lemma SendLocal(sys: Sys, n: nat)
    requires Inv(sys) && n < |sys.nodes| && sys.nodes[n].turn.Begun?
    ensures Local(sys, DoSend(sys, n), n)
  {
    SendRecords(sys, n);
    SendNode(sys, n);
    hide Inv, Elsewhere, RunsOk, DumpsOk, SnapsOk, LogOk, NodeOk, MayExecute;
  }

  lemma SendRecords(sys: Sys, n: nat)
    requires Inv(sys) && n < |sys.nodes| && sys.nodes[n].turn.Begun?
    ensures
      var b := DoSend(sys, n);
      Elsewhere(sys, b, n) && RunsOk(b) && DumpsOk(b) && SnapsOk(b) && LogOk(b)
  {
    SendLog(sys, n);
    assert TurnOk(sys, n) by { assert NodeOk(sys, n); }
    SendFrame(sys, n);
    hide NodesOk, NodeOk, DumpOk, LogOk, DoSend, NoSnapAtStep, NoSnapOf, NotYetSent;
  }

  lemma SendFrame(sys: Sys, n: nat)
    requires n < |sys.nodes| && sys.nodes[n].turn.Begun?
    ensures
      var b := DoSend(sys, n);
      && |b.nodes| == |sys.nodes| && b == sys.(nodes := b.nodes, log := b.log)
      && (forall m :: 0 <= m < |sys.nodes| && m != n ==> b.nodes[m] == sys.nodes[m])
      && (b.log == sys.log || (|b.log| == |sys.log| + 1 && sys.log <= b.log
                               && b.log[|sys.log|].session == n && b.log[|sys.log|].run == sys.nodes[n].turn.run))
  {
    hide MayExecute;
  }

  lemma SendLog(sys: Sys, n: nat)
    requires Inv(sys) && n < |sys.nodes| && sys.nodes[n].turn.Begun?
    ensures LogOk(DoSend(sys, n))
  {
    assert TurnOk(sys, n) by { assert NodeOk(sys, n); }
    SendFrame(sys, n);
    SendRequest(sys, n);
    hide NodesOk, DumpsOk, SnapsOk, NodeOk, DoSend, NoSnapAtStep, NoSnapOf;
  }

  lemma SendRequest(sys: Sys, n: nat)
    requires n < |sys.nodes| && sys.nodes[n].turn.Begun? && sys.nodes[n].turn.run < |sys.runs|
    ensures
      var b := DoSend(sys, n);
      && b.nodes[n].resetSent == sys.nodes[n].resetSent
      && (b.log != sys.log ==>
          && |b.log| == |sys.log| + 1 && TurnEntry(b.log[|sys.log|])
          && b.log[|sys.log|].step == sys.runs[sys.nodes[n].turn.run].step)
  {
    hide MayExecute;
  }

  lemma SendNode(sys: Sys, n: nat)
    requires Inv(sys) && n < |sys.nodes| && sys.nodes[n].turn.Begun?
    ensures NodeOk(DoSend(sys, n), n)
  {
    assert NodeOk(sys, n);
    hide NodesOk, DumpsOk, RunsOk, SnapsOk, LogOk, SatSum, HandedOut, Charged, DistinctCharges, MayExecute;
  }

  lemma ReceiveRecords(sys: Sys, n: nat, reply: Reply)
    requires Inv(sys) && n < |sys.nodes| && sys.nodes[n].turn.Waiting?
    requires TurnObeys(sys.nodes[n].turn, sys.nodes[n].vm, reply, sys.next, n)
    ensures
      var b := DoReceive(sys, n, reply);
      Elsewhere(sys, b, n) && RunsOk(b) && DumpsOk(b) && SnapsOk(b) && LogOk(b)
  {
    hide NodesOk, SatSum, DistinctCharges, Observe, TurnObeys, Charged;
  }

  lemma ReceiveNode(sys: Sys, n: nat, reply: Reply)
    requires Inv(sys) && n < |sys.nodes| && sys.nodes[n].turn.Waiting? && NodeOk(sys, n)
    requires TurnObeys(sys.nodes[n].turn, sys.nodes[n].vm, reply, sys.next, n)
    ensures
      var b := DoReceive(sys, n, reply);
      TurnOk(b, n) && CountOk(b, n)
  {
    hide Inv, Accounts, Observe, LiveOk;
    ReceiveTurn(sys, n, reply);
    ReceiveAccounts(sys, n, reply);
    hide TurnOk;
    if reply.Answer? {
      ReceiveReady(sys, n, reply.e, reply.vm);
    }
    hide TurnObeys, CountExact, Ready;
  }

  /** What a session's worker and account are, whatever its run. */
  function Bare(sys: Sys, n: nat): Ctx
    requires n < |sys.nodes|
  {
    Ctx(n, 0, sys.nodes[n].s, Run(n, 0, 0, false, false, false, 0, None), sys.nodes[n].vm, sys.next, [])
  }

  lemma ReceiveAccounts(sys: Sys, n: nat, reply: Reply)
    requires n < |sys.nodes| && sys.nodes[n].turn.Waiting? && Accounts(Bare(sys, n))
    requires TurnObeys(sys.nodes[n].turn, sys.nodes[n].vm, reply, sys.next, n)
    ensures Accounts(Bare(DoReceive(sys, n, reply), n))
  {
    hide SatSum, DistinctCharges, Observe, MayExecute, Asked;
    if reply.Answer? {
      ObserveFrame(sys.nodes[n].s, reply.e);
    }
  }

  /** The suspension a turn has just been answered with is new. */
  lemma ReceiveReady(sys: Sys, n: nat, e: Event, vm: Vm)
    requires n < |sys.nodes| && sys.nodes[n].turn.Waiting? && TurnOk(sys, n) && CountOk(sys, n)
    requires TurnObeys(sys.nodes[n].turn, sys.nodes[n].vm, Answer(e, vm), sys.next, n)
    ensures
      var b := DoReceive(sys, n, Answer(e, vm));
      sys.nodes[n].turn.run < |b.runs| && Ready(CtxOf(b, n, sys.nodes[n].turn.run), e)
  {
    hide SatSum, DistinctCharges, Observe, NoSnapOf, NoSnapAtStep, NotYetSent, VmOk;
    ObserveFrame(sys.nodes[n].s, e);
    NewIsUncharged(Bare(sys, n), sys.next);
  }

  lemma ReceiveTurn(sys: Sys, n: nat, reply: Reply)
    requires n < |sys.nodes| && sys.nodes[n].turn.Waiting? && TurnOk(sys, n)
    ensures TurnOk(DoReceive(sys, n, reply), n)
  {
    hide TurnObeys;
  }

  /** While a turn is being served its session has no live snapshot. */
  lemma TurnHasNoLive(sys: Sys, n: nat)
    requires n < |sys.nodes| && TurnOk(sys, n) && !sys.nodes[n].turn.NoTurn?
    ensures LiveOk(sys, n)
  {
    hide HandedOut, NotYetSent;
  }

  lemma ReceiveLocal(sys: Sys, n: nat, reply: Reply)
    requires Inv(sys) && n < |sys.nodes| && sys.nodes[n].turn.Waiting?
    requires TurnObeys(sys.nodes[n].turn, sys.nodes[n].vm, reply, sys.next, n)
    ensures Local(sys, DoReceive(sys, n, reply), n)
  {
    assert NodeOk(sys, n);
    ReceiveRecords(sys, n, reply);
    ReceiveNode(sys, n, reply);
    hide NodesOk, Elsewhere, RunsOk, DumpsOk, SnapsOk, LogOk, CountOk, LiveOk, TurnOk, TurnObeys;
    TurnHasNoLive(DoReceive(sys, n, reply), n);
  }

  /** Only who may use snapshot k has changed. */
  ghost predicate Flagged(sys: Sys, b: Sys, k: nat)
  {
    && k < |sys.snaps| && |b.snaps| == |sys.snaps|
    && b == sys.(snaps := sys.snaps[k := sys.snaps[k].(state := b.snaps[k].state)], dumping := b.dumping)
  }

  lemma FlaggedLocal(sys: Sys, b: Sys, k: nat)
    requires Inv(sys) && Flagged(sys, b, k)
    ensures Local(sys, b, |sys.nodes|)
  {
    hide NodesOk, NodeOk, DumpOk;
  }

  lemma FlaggedKeeps(sys: Sys, b: Sys, k: nat)
    requires Inv(sys) && Flagged(sys, b, k)
    ensures Inv(b)
  {
    hide Inv, Local, Flagged;
    FlaggedLocal(sys, b, k);
    LocalIsEnough(sys, b, |sys.nodes|);
  }

  /** The snapshot of a resume that gave up. */
  function SpentSnap(sys: Sys, k: nat): Sys
    requires k < |sys.snaps|
  {
    sys.(snaps := sys.snaps[k := sys.snaps[k].(state := Spent)])
  }

  /** A resume that gives up spends its snapshot and may cancel its run's callbacks. */
  lemma AbandonKeeps(sys: Sys, k: nat, cancels: bool)
    requires Inv(sys)
    ensures Inv(DoAbandon(sys, k, cancels))
  {
    if k < |sys.snaps| && sys.snaps[k].state.Claimed? {
      var r := sys.snaps[k].run;
      var spent := SpentSnap(sys, k);
      assert RunsOk(sys) && SnapsOk(sys);
      var n := sys.runs[r].session;
      assert Flagged(sys, spent, k);
      hide Inv, RunsOk, SnapsOk, Flagged;
      FlaggedKeeps(sys, spent, k);
      if cancels {
        CancelKeeps(spent, n, r, sys.nodes[n].last);
        assert Stopped(spent, n, r, sys.nodes[n].last).nodes == sys.nodes;
      }
    }
  }

  /** What a dump call has passed is nothing the invariant speaks of. */
  lemma LockedKeeps(sys: Sys, dumping: multiset<nat>)
    requires Inv(sys)
    ensures Inv(sys.(dumping := dumping))
  {
    var b := sys.(dumping := dumping);
    forall n | 0 <= n < |sys.nodes| ensures NodeOk(b, n) {
      assert NodeOk(sys, n);
      assert Elsewhere(sys, b, |sys.nodes|);
      hide NodesOk, RunsOk, DumpsOk, LogOk;
      TurnStays(sys, b, |sys.nodes|, n);
      CountStays(sys, b, |sys.nodes|, n);
      LiveStays(sys, b, |sys.nodes|, n);
    }
    hide NodeOk, DumpOk;
  }

  lemma BeginResumeRecords(sys: Sys, k: nat)
    requires Inv(sys) && k < |sys.snaps| && sys.snaps[k].state.Claimed?
    ensures
      var b := DoBeginResume(sys, k);
      Elsewhere(sys, b, sys.runs[sys.snaps[k].run].session) && RunsOk(b) && DumpsOk(b) && SnapsOk(b) && LogOk(b)
  {
    hide NodesOk, DumpOk;
  }

  lemma BeginResumeTurn(sys: Sys, k: nat)
    requires Inv(sys) && k < |sys.snaps| && sys.snaps[k].state.Claimed?
    requires Active(sys, k) && !sys.nodes[sys.runs[sys.snaps[k].run].session].s.inTurn
    ensures
      var b := DoBeginResume(sys, k);
      var n := sys.runs[sys.snaps[k].run].session;
      TurnOk(b, n) && CountOk(b, n)
  {
    var n := sys.runs[sys.snaps[k].run].session;
    assert NodeOk(sys, n);
    hide NodesOk, DumpOk, SatSum, Charged, DistinctCharges, Limit;
  }

  lemma BeginResumeLocal(sys: Sys, k: nat)
    requires Inv(sys) && k < |sys.snaps| && sys.snaps[k].state.Claimed?
    ensures Local(sys, DoBeginResume(sys, k), sys.runs[sys.snaps[k].run].session)
  {
    var n := sys.runs[sys.snaps[k].run].session;
    var b := DoBeginResume(sys, k);
    assert NodeOk(sys, n);
    BeginResumeRecords(sys, k);
    if Active(sys, k) && !sys.nodes[n].s.inTurn {
      BeginResumeTurn(sys, k);
      hide NodesOk, Elsewhere, RunsOk, DumpsOk, SnapsOk, LogOk, CountOk, TurnOk, LiveOk;
      TurnHasNoLive(b, n);
    } else {
      hide NodesOk, Elsewhere, DumpsOk, LogOk, Accounts, Ready, HandedOut, NotYetSent;
    }
  }

  /** A dump of a live snapshot records a full account of its run. */
  lemma TakenDumpOk(sys: Sys, n: nat, k: nat)
    requires n < |sys.nodes| && k < |sys.snaps| && Active(sys, k) && sys.runs[sys.snaps[k].run].session == n
    requires NodeOk(sys, n)
    ensures
      var r := sys.runs[sys.snaps[k].run];
      var s := sys.nodes[n].s;
      DumpOk(Dump(sys.nodes[n].vm, s.maxDuration, r.suspensions, s.sleepUsed, s.sleeps, r.lost,
                  Some(sys.snaps[k].run), sys.nodes[n].last), sys.next)
  {
    hide TurnOk, SatSum, Charged, DistinctCharges, Limit, Ready;
    assert HandedOut(CtxOf(sys, n, sys.snaps[k].run), sys.snaps[k].susp.id, sys.snaps[k].delay);
  }

  lemma TakeDumpRecords(sys: Sys, n: nat, answer: DumpReply, suspensions: U64, lost: nat, from: Option<nat>)
    requires Inv(sys) && n < |sys.nodes|
    requires
      var nd := sys.nodes[n];
      DumpOk(Dump(nd.vm, nd.s.maxDuration, suspensions, nd.s.sleepUsed, nd.s.sleeps, lost, from, nd.last), sys.next)
    ensures
      var b := TakeDump(sys, n, answer, suspensions, lost, from);
      Elsewhere(sys, b, n) && RunsOk(b) && DumpsOk(b) && SnapsOk(b) && |b.nodes| == |sys.nodes|
  {
    hide NodesOk, DumpOk, LogOk;
  }

  lemma TakeDumpNode(sys: Sys, n: nat, answer: DumpReply, suspensions: U64, lost: nat, from: Option<nat>)
    requires n < |sys.nodes| && NodeOk(sys, n)
    ensures NodeOk(TakeDump(sys, n, answer, suspensions, lost, from), n)
  {
    hide SatSum, Charged, DistinctCharges, Limit;
  }

  lemma TakeDumpLocal(sys: Sys, n: nat, answer: DumpReply, suspensions: U64, lost: nat, from: Option<nat>)
    requires Inv(sys) && n < |sys.nodes| && !sys.nodes[n].s.closed
    requires
      var nd := sys.nodes[n];
      DumpOk(Dump(nd.vm, nd.s.maxDuration, suspensions, nd.s.sleepUsed, nd.s.sleeps, lost, from, nd.last), sys.next)
    ensures Local(sys, TakeDump(sys, n, answer, suspensions, lost, from), n)
  {
    var b := TakeDump(sys, n, answer, suspensions, lost, from);
    assert NodeOk(sys, n);
    assert !sys.nodes[n].resetSent && !b.nodes[n].resetSent;
    TakeDumpRecords(sys, n, answer, suspensions, lost, from);
    TakeDumpNode(sys, n, answer, suspensions, lost, from);
    assert forall i :: |sys.log| <= i < |b.log| ==> !TurnEntry(b.log[i]) && !b.log[i].kind.Reset?;
    hide NodesOk, NodeOk, Elsewhere, RunsOk, DumpsOk, SnapsOk, LogOk;
    LogGrows(sys, b, n);
  }

  lemma DumpSnapshotKeeps(sys: Sys, k: nat, answer: DumpReply)
    requires Inv(sys)
    ensures Inv(DoDumpSnapshot(sys, k, answer))
  {
    if k < |sys.snaps| && k in sys.dumping {
      var locked := sys.(dumping := sys.dumping - multiset{k});
      hide Inv, DumpOk, Local, NodeOk, TakeDump;
      LockedKeeps(sys, locked.dumping);
      if Active(locked, k) {
        LockedDumpKeeps(locked, k, answer);
      }
    }
  }

  lemma LockedDumpKeeps(sys: Sys, k: nat, answer: DumpReply)
    requires Inv(sys) && k < |sys.snaps| && Active(sys, k)
    ensures
      var r := sys.runs[sys.snaps[k].run];
      Inv(TakeDump(sys, r.session, answer, r.suspensions, r.lost, Some(sys.snaps[k].run)))
  {
    var r := sys.runs[sys.snaps[k].run];
    assert NodeOk(sys, r.session);
    TakenDumpOk(sys, r.session, k);
    hide Inv, DumpOk, Local, NodeOk, TakeDump;
    TakeDumpLocal(sys, r.session, answer, r.suspensions, r.lost, Some(sys.snaps[k].run));
    LocalIsEnough(sys, TakeDump(sys, r.session, answer, r.suspensions, r.lost, Some(sys.snaps[k].run)), r.session);
  }

  lemma DumpSessionLocal(sys: Sys, n: nat, answer: DumpReply)
    requires Inv(sys) && n < |sys.nodes| && IsIdle(sys.nodes[n].s)
    ensures Local(sys, DoDumpSession(sys, n, answer), n)
  {
    assert NodeOk(sys, n);
    hide NodesOk, SatSum, Charged, DistinctCharges, Limit, Local, TakeDump, TurnOk, LiveOk, RunsOk, SnapsOk, LogOk;
    TakeDumpLocal(sys, n, answer, 0, if sys.nodes[n].vm.suspended then |sys.nodes[n].vm.hist| else 0, None);
  }

  lemma InstallRecords(sys: Sys, n: nat, survives: bool)
    requires Inv(sys) && n < |sys.nodes|
    ensures
      var b := DoInstallDeps(sys, n, survives);
      && Elsewhere(sys, b, n) && RunsOk(b) && DumpsOk(b) && SnapsOk(b) && |b.nodes| == |sys.nodes|
      && b.nodes[n].resetSent == sys.nodes[n].resetSent
      && forall i :: |sys.log| <= i < |b.log| ==> !TurnEntry(b.log[i]) && !b.log[i].kind.Reset?
  {
    hide NodesOk, DumpOk, LogOk;
  }

  lemma InstallNode(sys: Sys, n: nat, survives: bool)
    requires n < |sys.nodes| && NodeOk(sys, n)
    ensures NodeOk(DoInstallDeps(sys, n, survives), n)
  {
    hide SatSum, Charged, DistinctCharges, Limit;
  }

  lemma InstallLocal(sys: Sys, n: nat, survives: bool)
    requires Inv(sys) && n < |sys.nodes| && IsIdle(sys.nodes[n].s)
    ensures Local(sys, DoInstallDeps(sys, n, survives), n)
  {
    assert NodeOk(sys, n);
    assert !sys.nodes[n].resetSent;
    InstallRecords(sys, n, survives);
    InstallNode(sys, n, survives);
    hide Apply, NodesOk, NodeOk, Elsewhere, RunsOk, DumpsOk, SnapsOk, LogOk;
    LogGrows(sys, DoInstallDeps(sys, n, survives), n);
  }

  lemma CloseBeginLocal(sys: Sys, n: nat)
    requires Inv(sys) && n < |sys.nodes| && !sys.nodes[n].s.closed && !sys.nodes[n].s.inTurn
    ensures Local(sys, DoCloseBegin(sys, n), n)
  {
    assert NodeOk(sys, n);
    hide NodesOk, DumpOk, SatSum, HandedOut, Charged, DistinctCharges;
  }

  lemma CloseResetRecords(sys: Sys, n: nat)
    requires Inv(sys) && n < |sys.nodes| && sys.nodes[n].s.closed && !sys.nodes[n].resetSent
    ensures
      var b := DoCloseReset(sys, n);
      Elsewhere(sys, b, n) && RunsOk(b) && DumpsOk(b) && SnapsOk(b)
  {
    hide NodesOk, DumpOk;
  }

  lemma CloseResetLog(sys: Sys, n: nat)
    requires Inv(sys) && n < |sys.nodes| && sys.nodes[n].s.closed && !sys.nodes[n].resetSent
    ensures LogOk(DoCloseReset(sys, n))
  {
    var b := DoCloseReset(sys, n);
    hide NodesOk, DumpsOk, SnapsOk, RunsOk, LogOk, DoCloseReset;
    CloseResetAdds(sys, n);
    LastReset(sys, b, n);
  }

  lemma CloseResetAdds(sys: Sys, n: nat)
    requires n < |sys.nodes| && sys.nodes[n].s.closed && !sys.nodes[n].resetSent
    ensures
      var b := DoCloseReset(sys, n);
      && b.runs == sys.runs && |b.nodes| == |sys.nodes| && b.nodes[n].resetSent
      && (forall m :: 0 <= m < |sys.nodes| && m != n ==> b.nodes[m] == sys.nodes[m])
      && (b.log == sys.log || b.log == sys.log + [Req(n, Reset, 0, 0, 0)])
  {
  }

  /** The first Reset of a session may be the last entry about it. */
  lemma LastReset(a: Sys, b: Sys, n: nat)
    requires LogOk(a) && n < |a.nodes| == |b.nodes| && !a.nodes[n].resetSent && b.nodes[n].resetSent
    requires b.runs == a.runs && (forall m :: 0 <= m < |a.nodes| && m != n ==> b.nodes[m] == a.nodes[m])
    requires b.log == a.log || b.log == a.log + [Req(n, Reset, 0, 0, 0)]
    ensures LogOk(b)
  {
    forall i, j | 0 <= i < j < |b.log| && b.log[i].kind.Reset? ensures b.log[j].session != b.log[i].session {
      assert a.log[i] == b.log[i] && a.nodes[a.log[i].session].resetSent;
      if j < |a.log| {
        assert a.log[j] == b.log[j];
      }
    }
    forall i, j | 0 <= i < j < |b.log| && SameTurn(b.log[i], b.log[j]) ensures b.log[i].step < b.log[j].step {
      assert a.log[i] == b.log[i] && a.log[j] == b.log[j];
    }
    forall i | 0 <= i < |b.log| && b.log[i].kind.Reset? ensures b.nodes[b.log[i].session].resetSent {
      if i < |a.log| {
        assert a.log[i] == b.log[i];
      }
    }
  }

  lemma CloseResetLocal(sys: Sys, n: nat)
    requires Inv(sys) && n < |sys.nodes| && sys.nodes[n].s.closed && !sys.nodes[n].resetSent
    ensures Local(sys, DoCloseReset(sys, n), n)
  {
    assert NodeOk(sys, n);
    CloseResetRecords(sys, n);
    CloseResetLog(sys, n);
    hide NodesOk, Elsewhere, RunsOk, DumpsOk, SnapsOk, LogOk, SatSum, HandedOut, Charged, DistinctCharges;
  }

  // ---------------------------------------------------------------------------
  // Actions that answer an event

  lemma DeliverLocal(sys: Sys, n: nat, r: nat, out: Result2)
    requires Ending(sys, n, r) && Answered(CtxOf(sys, n, r), out)
    ensures Local(sys, Deliver(sys, out), n)
  {
    assert out.c.n == n && out.c.run == r && n < |sys.nodes| && r < |sys.runs|;
    hide Ending, Answered, Elsewhere, RunsOk, DumpsOk, SnapsOk, LogOk, NodeOk, Deliver;
    DeliverElsewhere(sys, n, r, out);
    DeliverSnaps(sys, n, r, out);
    DeliverLog(sys, n, r, out);
    DeliverNode(sys, n, r, out);
  }

  /** Two consecutive local changes are one. */
  lemma ElsewhereTransitive(a: Sys, b: Sys, c: Sys, n: nat)
    requires Elsewhere(a, b, n) && Elsewhere(b, c, n)
    ensures Elsewhere(a, c, n)
  {
    forall k | 0 <= k < |a.snaps| ensures c.snaps[k].(state := a.snaps[k].state) == a.snaps[k] {
      assert b.snaps[k].(state := a.snaps[k].state) == a.snaps[k];
    }
    forall i | |a.log| <= i < |c.log| ensures c.log[i].session == n {
      if i < |b.log| { assert c.log[i] == b.log[i]; }
    }
    forall i | |a.log| <= i < |c.log| && TurnEntry(c.log[i])
      ensures c.log[i].run < |c.runs| && c.runs[c.log[i].run].session == n
    {
      if i < |b.log| { assert c.log[i] == b.log[i]; }
    }
    forall k | |a.snaps| <= k < |c.snaps| ensures c.snaps[k].run < |c.runs| && c.runs[c.snaps[k].run].session == n {
      if k < |b.snaps| { assert c.snaps[k].(state := b.snaps[k].state) == b.snaps[k]; }
    }
  }

  ghost predicate FinishedNode(sys: Sys, left: Sys, n: nat)
    requires n < |sys.nodes|
  {
    left == sys.(nodes := sys.nodes[n := sys.nodes[n].(s := sys.nodes[n].s.(inTurn := false), turn := NoTurn)])
  }

  lemma FinishEnding(sys: Sys, left: Sys, n: nat)
    requires Inv(sys) && n < |sys.nodes| && sys.nodes[n].turn.Replied? && sys.nodes[n].turn.event.Some?
    requires FinishedNode(sys, left, n)
    ensures
      var r := sys.nodes[n].turn.run;
      && Ending(left, n, r) && Elsewhere(sys, left, n)
      && Accounts(CtxOf(left, n, r)) && Ready(CtxOf(left, n, r), sys.nodes[n].turn.event.value)
  {
    assert NodeOk(sys, n);
    FinishingElsewhere(sys, left, n);
    hide Elsewhere, NodesOk, DumpOk, SatSum, HandedOut, Charged, DistinctCharges;
  }

  lemma FinishingElsewhere(sys: Sys, left: Sys, n: nat)
    requires n < |sys.nodes| && FinishedNode(sys, left, n)
    ensures Elsewhere(sys, left, n)
  {
  }

  lemma FinishFailedLocal(sys: Sys, n: nat, aborts: seq<Reply>)
    requires Inv(sys) && n < |sys.nodes| && sys.nodes[n].turn.Replied? && sys.nodes[n].turn.event.None?
    ensures sys.nodes[n].turn.run < |sys.runs|
    ensures Local(sys, DoFinish(sys, n, aborts), n)
  {
    assert NodeOk(sys, n);
    FinishFailedRecords(sys, n, aborts);
    FinishFailedNode(sys, n, aborts);
    hide Inv, NodeOk, Elsewhere, RunsOk, DumpsOk, SnapsOk, LogOk;
  }

  lemma FinishFailedRecords(sys: Sys, n: nat, aborts: seq<Reply>)
    requires Inv(sys) && n < |sys.nodes| && sys.nodes[n].turn.Replied? && sys.nodes[n].turn.event.None?
    requires sys.nodes[n].turn.run < |sys.runs| && sys.runs[sys.nodes[n].turn.run].session == n
    ensures
      var b := DoFinish(sys, n, aborts);
      Elsewhere(sys, b, n) && RunsOk(b) && DumpsOk(b) && SnapsOk(b) && LogOk(b)
  {
    hide NodesOk, DumpOk;
  }

  lemma FinishFailedNode(sys: Sys, n: nat, aborts: seq<Reply>)
    requires n < |sys.nodes| && sys.nodes[n].turn.Replied? && sys.nodes[n].turn.event.None? && NodeOk(sys, n)
    requires sys.nodes[n].turn.run < |sys.runs|
    ensures NodeOk(DoFinish(sys, n, aborts), n)
  {
    hide SatSum, HandedOut, DistinctCharges, VmOk, Ready;
  }

  /** The state in which an event is answered: its turn left, the lock held. */
  function Leaving(sys: Sys, n: nat): (left: Sys)
    requires n < |sys.nodes|
    ensures FinishedNode(sys, left, n)
  {
    sys.(nodes := sys.nodes[n := sys.nodes[n].(s := sys.nodes[n].s.(inTurn := false), turn := NoTurn)])
  }

  /** Finishing a turn that brought an event is answering it and delivering the outcome. */
  lemma FinishAnswers(sys: Sys, n: nat, aborts: seq<Reply>)
    requires Inv(sys) && n < |sys.nodes| && sys.nodes[n].turn.Replied? && sys.nodes[n].turn.event.Some?
    ensures
      var left, r := Leaving(sys, n), sys.nodes[n].turn.run;
      && r < |sys.runs| && Ending(left, n, r) && Elsewhere(sys, left, n)
      && Answered(CtxOf(left, n, r), Progress(CtxOf(left, n, r), sys.nodes[n].turn.event.value, aborts))
      && DoFinish(sys, n, aborts)
           == Deliver(left, Progress(CtxOf(left, n, r), sys.nodes[n].turn.event.value, aborts))
  {
    var left := Leaving(sys, n);
    FinishEnding(sys, left, n);
    hide Inv, Ending, Elsewhere, Accounts, Ready, Answered, Progress, Deliver;
    ProgressAnswers(CtxOf(left, n, sys.nodes[n].turn.run), sys.nodes[n].turn.event.value, aborts);
  }

  lemma FinishLocal(sys: Sys, n: nat, aborts: seq<Reply>)
    requires Inv(sys) && n < |sys.nodes| && sys.nodes[n].turn.Replied?
    ensures sys.nodes[n].turn.run < |sys.runs|
    ensures Local(sys, DoFinish(sys, n, aborts), n)
  {
    assert NodeOk(sys, n);
    hide Inv, NodeOk, Ending, Answered, Elsewhere, Deliver, DoFinish, Progress;
    if sys.nodes[n].turn.event.None? {
      FinishFailedLocal(sys, n, aborts);
    } else {
      var left, r := Leaving(sys, n), sys.nodes[n].turn.run;
      FinishAnswers(sys, n, aborts);
      DeliverLocal(left, n, r, Progress(CtxOf(left, n, r), sys.nodes[n].turn.event.value, aborts));
      ElsewhereTransitive(sys, left, DoFinish(sys, n, aborts), n);
    }
  }

  /** The destination of a restore, just before the worker's answer is looked at. */
  function Restoring(sys: Sys, n: nat, d: Dump, o: nat): (t: Sys)
    requires n < |sys.nodes| && d.duration >= 0
  {
    var nd := sys.nodes[n];
    var s := nd.s.(used := true, sleepUsed := d.sleepUsed, sleeps := d.sleeps,
                   maxDuration := RestoredDuration(nd.s.maxDuration, d.duration));
    sys.(runs := sys.runs + [Run(n, 0, d.suspensions, true, true, false, d.lost, Some(o))],
         nodes := sys.nodes[n := nd.(s := s)])
  }

  lemma RestoringLocal(sys: Sys, n: nat, d: Dump, o: nat)
    requires Inv(sys) && n < |sys.nodes| && IsIdle(sys.nodes[n].s) && d.duration >= 0 && DumpOk(d, sys.next)
    ensures Local(sys, Restoring(sys, n, d, o), n)
    ensures NoSnapOf(Restoring(sys, n, d, o), |sys.runs|)
  {
    assert NodeOk(sys, n);
    hide NodesOk, SatSum, HandedOut, Charged, DistinctCharges;
  }

  /** Any worker state and history may follow, as long as its identities are taken. */
  lemma AskedLocal(sys: Sys, n: nat, vm: Vm, last: Outcome, r: nat)
    requires Inv(sys) && n < |sys.nodes| && IsIdle(sys.nodes[n].s)
    requires VmOk(vm, sys.next)
    ensures
      var b := sys.(log := sys.log + [Req(n, LoadState, r, 0, 0)],
                    nodes := sys.nodes[n := sys.nodes[n].(vm := vm, last := last)]);
      Local(sys, b, n)
  {
    assert NodeOk(sys, n);
    hide NodesOk, DumpOk, SatSum, HandedOut, Charged, DistinctCharges;
  }

  lemma ObservedLocal(sys: Sys, n: nat, e: Event)
    requires Inv(sys) && n < |sys.nodes| && IsIdle(sys.nodes[n].s)
    ensures Local(sys, sys.(nodes := sys.nodes[n := sys.nodes[n].(s := Observe(sys.nodes[n].s, e))]), n)
  {
    assert NodeOk(sys, n);
    hide NodesOk, DumpOk, SatSum, HandedOut, Charged, DistinctCharges, Observe;
    ObserveFrame(sys.nodes[n].s, e);
  }

  /** A restored suspension is already counted and already paid for. */
  lemma RestoredReady(sys: Sys, n: nat, d: Dump, o: nat, e: Event, vm': Vm, told: Sys)
    requires DumpOk(d, sys.next) && Restores(d, e, vm')
    requires n < |told.nodes| && told.nodes[n].vm == vm' && told.next == sys.next
    requires told.nodes[n].s.sleeps == d.sleeps
    requires |told.runs| > 0
    requires told.runs[|told.runs| - 1] == Run(n, 0, d.suspensions, true, true, false, d.lost, Some(o))
    ensures Ready(CtxOf(told, n, |told.runs| - 1), e)
  {
    hide SatSum, DistinctCharges;
  }

  lemma RestoredIds(d: Dump, next: nat, e: Event, vm': Vm)
    requires VmOk(d.vm, next) && Restores(d, e, vm')
    ensures VmOk(vm', next)
  {
  }

  /** The destination before and after its worker was asked to load. */
  lemma AskedKeeps(sys: Sys, n: nat, d: Dump, o: nat, vm: Vm, last: Outcome)
    requires Inv(sys) && n < |sys.nodes| && IsIdle(sys.nodes[n].s) && d.duration >= 0
    requires DumpOk(d, sys.next) && VmOk(vm, sys.next)
    ensures
      var t := Restoring(sys, n, d, o);
      var b := t.(log := t.log + [Req(n, LoadState, |sys.runs|, 0, 0)],
                  nodes := t.nodes[n := t.nodes[n].(vm := vm, last := last)]);
      && Inv(t) && Inv(b) && NoSnapOf(b, |sys.runs|)
      && b.nodes[n].turn.NoTurn? && !b.nodes[n].resetSent && VmOk(sys.nodes[n].vm, sys.next)
  {
    var t := Restoring(sys, n, d, o);
    assert NodeOk(sys, n);
    RestoringLocal(sys, n, d, o);
    hide Local, NodesOk, SnapsOk, LogOk, RunsOk, DumpsOk, SatSum, HandedOut, Charged, DistinctCharges;
    LocalIsEnough(sys, t, n);
    AskedLocal(t, n, vm, last, |sys.runs|);
    var b := t.(log := t.log + [Req(n, LoadState, |sys.runs|, 0, 0)],
                nodes := t.nodes[n := t.nodes[n].(vm := vm, last := last)]);
    LocalIsEnough(t, b, n);
  }

  /** A run whose callbacks are cancelled, in a session that remembers some end. */
  function Stopped(sys: Sys, n: nat, r: nat, last: Outcome): Sys
    requires n < |sys.nodes| && r < |sys.runs|
  {
    sys.(runs := sys.runs[r := sys.runs[r].(cancelled := true)],
         nodes := sys.nodes[n := sys.nodes[n].(last := last)])
  }

  /** Cancelling a run's callbacks touches nothing the invariant speaks of. */
  lemma CancelLocal(sys: Sys, n: nat, r: nat, last: Outcome)
    requires Inv(sys) && n < |sys.nodes| && r < |sys.runs| && sys.runs[r].session == n
    ensures Local(sys, Stopped(sys, n, r, last), n)
  {
    CancelRecords(sys, n, r, last);
    CancelNode(sys, n, r, last);
    hide Inv, Elsewhere, RunsOk, DumpsOk, SnapsOk, LogOk, NodeOk;
  }

  lemma CancelRecords(sys: Sys, n: nat, r: nat, last: Outcome)
    requires Inv(sys) && n < |sys.nodes| && r < |sys.runs| && sys.runs[r].session == n
    ensures
      var b := Stopped(sys, n, r, last);
      Elsewhere(sys, b, n) && RunsOk(b) && DumpsOk(b) && SnapsOk(b) && LogOk(b)
  {
    hide NodesOk, DumpOk;
  }

  lemma CancelNode(sys: Sys, n: nat, r: nat, last: Outcome)
    requires Inv(sys) && n < |sys.nodes| && r < |sys.runs| && sys.runs[r].session == n
    ensures NodeOk(Stopped(sys, n, r, last), n)
  {
    assert NodeOk(sys, n);
    hide NodesOk, RunsOk, DumpsOk, SnapsOk, LogOk, SatSum, Charged, DistinctCharges, Limit, SuspOf;
  }

  lemma CancelKeeps(sys: Sys, n: nat, r: nat, last: Outcome)
    requires Inv(sys) && n < |sys.nodes| && r < |sys.runs| && sys.runs[r].session == n
    ensures Inv(Stopped(sys, n, r, last))
  {
    hide Inv, Local;
    CancelLocal(sys, n, r, last);
    LocalIsEnough(sys, Stopped(sys, n, r, last), n);
  }

  lemma LoadKeeps(sys: Sys, n: nat, o: nat, reply: Reply, aborts: seq<Reply>)
    requires Inv(sys) && n < |sys.nodes| && IsIdle(sys.nodes[n].s) && o < |sys.dumps| && sys.dumps[o].duration >= 0
    ensures Inv(DoLoad(sys, n, sys.dumps[o], o, reply, aborts))
  {
    var d := sys.dumps[o];
    var nd := sys.nodes[n];
    assert DumpOk(d, sys.next);
    if nd.vm.dead {
      LoadRefusedKeeps(sys, n, d, o);
    } else if reply.Answer? && Restores(d, reply.e, reply.vm) {
      LoadAnsweredKeeps(sys, n, o, reply.e, reply.vm, aborts);
    } else {
      assert VmOk(nd.vm.(dead := true), sys.next) by { assert NodeOk(sys, n); }
      if reply.Discarded? && Restores(d, reply.e, reply.vm) {
        RestoredIds(d, sys.next, reply.e, reply.vm);
      }
      hide Inv, DumpOk, NoSnapOf, VmOk, Restores, Progress, Deliver;
      AskedKeeps(sys, n, d, o, nd.vm.(dead := true), Failed(Gone));
      if reply.Discarded? && Restores(d, reply.e, reply.vm) {
        AskedKeeps(sys, n, d, o, reply.vm, Failed(Withheld(reply.e.kind)));
      }
    }
  }

  lemma LoadRefusedKeeps(sys: Sys, n: nat, d: Dump, o: nat)
    requires Inv(sys) && n < |sys.nodes| && IsIdle(sys.nodes[n].s) && d.duration >= 0 && DumpOk(d, sys.next)
    ensures
      var t := Restoring(sys, n, d, o);
      Inv(t.(nodes := t.nodes[n := t.nodes[n].(last := Failed(Gone))]))
  {
    var t := Restoring(sys, n, d, o);
    RestoringLocal(sys, n, d, o);
    LocalIsEnough(sys, t, n);
    hide DumpOk, Restoring;
    LastLocal(t, n, Failed(Gone));
    LocalIsEnough(t, t.(nodes := t.nodes[n := t.nodes[n].(last := Failed(Gone))]), n);
  }

  lemma LastLocal(sys: Sys, n: nat, last: Outcome)
    requires Inv(sys) && n < |sys.nodes|
    ensures Local(sys, sys.(nodes := sys.nodes[n := sys.nodes[n].(last := last)]), n)
  {
    var b := sys.(nodes := sys.nodes[n := sys.nodes[n].(last := last)]);
    assert NodeOk(sys, n);
    assert NodeOk(b, n) by {
      hide NodesOk, DumpOk, RunsOk, SnapsOk, LogOk, SatSum, HandedOut, Charged, DistinctCharges;
    }
    hide NodeOk;
    hide NodesOk, DumpOk, SatSum, HandedOut, Charged, DistinctCharges;
  }

  /** The destination once its worker has re-emitted what the dump holds. */
  function Told(sys: Sys, n: nat, o: nat, e: Event, vm: Vm): (t: Sys)
    requires n < |sys.nodes| && o < |sys.dumps| && sys.dumps[o].duration >= 0
  {
    var t := Restoring(sys, n, sys.dumps[o], o);
    t.(log := t.log + [Req(n, LoadState, |sys.runs|, 0, 0)],
       nodes := t.nodes[n := t.nodes[n].(s := Observe(t.nodes[n].s, e), vm := vm)])
  }

  lemma ToldKeeps(sys: Sys, n: nat, o: nat, e: Event, vm: Vm)
    requires Inv(sys) && n < |sys.nodes| && IsIdle(sys.nodes[n].s) && o < |sys.dumps| && sys.dumps[o].duration >= 0
    requires Restores(sys.dumps[o], e, vm)
    ensures
      var told := Told(sys, n, o, e, vm);
      && Inv(told) && NoSnapOf(told, |sys.runs|)
      && told.nodes[n].turn.NoTurn? && !told.nodes[n].resetSent && IsIdle(told.nodes[n].s)
  {
    var d := sys.dumps[o];
    assert DumpOk(d, sys.next);
    RestoredIds(d, sys.next, e, vm);
    hide Inv, NoSnapOf, Observe, Restores, VmOk, DumpOk, Local;
    AskedKeeps(sys, n, d, o, vm, sys.nodes[n].last);
    var t := Restoring(sys, n, d, o);
    var heard := t.(log := t.log + [Req(n, LoadState, |sys.runs|, 0, 0)],
                    nodes := t.nodes[n := t.nodes[n].(vm := vm, last := sys.nodes[n].last)]);
    ObserveFrame(heard.nodes[n].s, e);
    ObservedLocal(heard, n, e);
    var told := heard.(nodes := heard.nodes[n := heard.nodes[n].(s := Observe(heard.nodes[n].s, e))]);
    LocalIsEnough(heard, told, n);
    assert told == Told(sys, n, o, e, vm);
    SameSnapsHaveNoneOf(heard, told, |sys.runs|);
  }

  lemma SameSnapsHaveNoneOf(a: Sys, b: Sys, r: nat)
    requires NoSnapOf(a, r) && b.snaps == a.snaps
    ensures NoSnapOf(b, r)
  {
  }

  lemma ToldHasRun(sys: Sys, n: nat, o: nat, e: Event, vm: Vm)
    requires n < |sys.nodes| && o < |sys.dumps| && sys.dumps[o].duration >= 0
    ensures |Told(sys, n, o, e, vm).runs| == |sys.runs| + 1 && |Told(sys, n, o, e, vm).nodes| == |sys.nodes|
  {
  }

  lemma ToldElsewhere(sys: Sys, n: nat, o: nat, e: Event, vm: Vm)
    requires Inv(sys) && n < |sys.nodes| && IsIdle(sys.nodes[n].s) && o < |sys.dumps| && sys.dumps[o].duration >= 0
    ensures Elsewhere(sys, Told(sys, n, o, e, vm), n)
  {
    hide NodesOk, DumpsOk, LogOk, SnapsOk, Observe;
  }

  /** A re-emitted suspension is ready to be answered. */
  lemma ToldReady(sys: Sys, n: nat, o: nat, e: Event, vm: Vm)
    requires Inv(sys) && n < |sys.nodes| && IsIdle(sys.nodes[n].s) && o < |sys.dumps| && sys.dumps[o].duration >= 0
    requires Restores(sys.dumps[o], e, vm)
    ensures
      var told, r := Told(sys, n, o, e, vm), |sys.runs|;
      Ending(told, n, r) && Accounts(CtxOf(told, n, r)) && Ready(CtxOf(told, n, r), e)
  {
    var d := sys.dumps[o];
    var told, r := Told(sys, n, o, e, vm), |sys.runs|;
    assert DumpOk(d, sys.next);
    ToldKeeps(sys, n, o, e, vm);
    ObserveFrame(Restoring(sys, n, d, o).nodes[n].s, e);
    RestoredReady(sys, n, d, o, e, vm, told);
    assert NodeOk(told, n);
    hide Observe, Ready, DumpOk, Restores, NodesOk, TurnOk, LiveOk, RunsOk, DumpsOk, SnapsOk, LogOk, NoSnapOf, VmOk;
  }

  /** A load that brought an event is answering it and delivering the outcome. */
  lemma LoadAnswers(sys: Sys, n: nat, o: nat, e: Event, vm: Vm, aborts: seq<Reply>)
    requires Inv(sys) && n < |sys.nodes| && IsIdle(sys.nodes[n].s) && o < |sys.dumps| && sys.dumps[o].duration >= 0
    requires !sys.nodes[n].vm.dead && Restores(sys.dumps[o], e, vm) && !e.kind.OkEvent?
    ensures
      var told, r := Told(sys, n, o, e, vm), |sys.runs|;
      && Ending(told, n, r) && Elsewhere(sys, told, n)
      && Answered(CtxOf(told, n, r), NotCompleted(Progress(CtxOf(told, n, r), e, aborts)))
      && DoLoad(sys, n, sys.dumps[o], o, Answer(e, vm), aborts)
         == Deliver(told, NotCompleted(Progress(CtxOf(told, n, r), e, aborts)))
  {
    ToldElsewhere(sys, n, o, e, vm);
    ToldReady(sys, n, o, e, vm);
    hide Inv, Ending, Elsewhere, Accounts, Ready, Answered, Progress, Deliver, Observe, Restores;
    ProgressAnswers(CtxOf(Told(sys, n, o, e, vm), n, |sys.runs|), e, aborts);
    var c := CtxOf(Told(sys, n, o, e, vm), n, |sys.runs|);
    NotCompletedAnswers(c, Progress(c, e, aborts));
  }

  lemma LoadAnsweredKeeps(sys: Sys, n: nat, o: nat, e: Event, vm: Vm, aborts: seq<Reply>)
    requires Inv(sys) && n < |sys.nodes| && IsIdle(sys.nodes[n].s) && o < |sys.dumps| && sys.dumps[o].duration >= 0
    requires !sys.nodes[n].vm.dead && Restores(sys.dumps[o], e, vm)
    ensures Inv(DoLoad(sys, n, sys.dumps[o], o, Answer(e, vm), aborts))
  {
    var told, r := Told(sys, n, o, e, vm), |sys.runs|;
    ToldKeeps(sys, n, o, e, vm);
    hide Inv, NoSnapOf, Observe, Restores, Progress, Deliver, Local, Ending, Elsewhere, Answered;
    if e.kind.OkEvent? {
      CancelKeeps(told, n, r, Completed);
    } else {
      LoadAnswers(sys, n, o, e, vm, aborts);
      DeliverLocal(told, n, r, NotCompleted(Progress(CtxOf(told, n, r), e, aborts)));
      LocalIsEnough(told, Deliver(told, NotCompleted(Progress(CtxOf(told, n, r), e, aborts))), n);
    }
  }

  // ---------------------------------------------------------------------------
  // Every action, every run

  lemma BeginFeedKeeps(sys: Sys, n: nat)
    requires Inv(sys)
    ensures Inv(DoBeginFeed(sys, n))
  {
    hide Inv, Local;
    if n < |sys.nodes| && IsIdle(sys.nodes[n].s) {
      BeginFeedLocal(sys, n);
      LocalIsEnough(sys, DoBeginFeed(sys, n), n);
    }
  }

  lemma SendKeeps(sys: Sys, n: nat)
    requires Inv(sys)
    ensures Inv(DoSend(sys, n))
  {
    hide Inv, Local, MayExecute;
    if n < |sys.nodes| && sys.nodes[n].turn.Begun? {
      SendLocal(sys, n);
      LocalIsEnough(sys, DoSend(sys, n), n);
    }
  }

  lemma ReceiveKeeps(sys: Sys, n: nat, reply: Reply)
    requires Inv(sys)
    ensures Inv(DoReceive(sys, n, reply))
  {
    hide Inv, Local, TurnObeys, Observe;
    if n < |sys.nodes| && sys.nodes[n].turn.Waiting?
       && TurnObeys(sys.nodes[n].turn, sys.nodes[n].vm, reply, sys.next, n) {
      ReceiveLocal(sys, n, reply);
      LocalIsEnough(sys, DoReceive(sys, n, reply), n);
    }
  }

  lemma BeginResumeKeeps(sys: Sys, k: nat)
    requires Inv(sys)
    ensures Inv(DoBeginResume(sys, k))
  {
    hide Inv, Local;
    if k < |sys.snaps| && sys.snaps[k].state.Claimed? && sys.snaps[k].run < |sys.runs| {
      BeginResumeLocal(sys, k);
      LocalIsEnough(sys, DoBeginResume(sys, k), sys.runs[sys.snaps[k].run].session);
    }
  }

  lemma DumpSessionKeeps(sys: Sys, n: nat, answer: DumpReply)
    requires Inv(sys)
    ensures Inv(DoDumpSession(sys, n, answer))
  {
    hide Inv, Local, TakeDump;
    if n < |sys.nodes| && IsIdle(sys.nodes[n].s) {
      DumpSessionLocal(sys, n, answer);
      LocalIsEnough(sys, DoDumpSession(sys, n, answer), n);
    }
  }

  lemma InstallKeeps(sys: Sys, n: nat, survives: bool)
    requires Inv(sys)
    ensures Inv(DoInstallDeps(sys, n, survives))
  {
    hide Inv, Local;
    if n < |sys.nodes| && IsIdle(sys.nodes[n].s) {
      InstallLocal(sys, n, survives);
      LocalIsEnough(sys, DoInstallDeps(sys, n, survives), n);
    }
  }

  lemma CloseBeginKeeps(sys: Sys, n: nat)
    requires Inv(sys)
    ensures Inv(DoCloseBegin(sys, n))
  {
    hide Inv, Local;
    if n < |sys.nodes| && !sys.nodes[n].s.closed && !sys.nodes[n].s.inTurn {
      CloseBeginLocal(sys, n);
      LocalIsEnough(sys, DoCloseBegin(sys, n), n);
    }
  }

  lemma CloseResetKeeps(sys: Sys, n: nat)
    requires Inv(sys)
    ensures Inv(DoCloseReset(sys, n))
  {
    hide Inv, Local;
    if n < |sys.nodes| && sys.nodes[n].s.closed && !sys.nodes[n].resetSent {
      CloseResetLocal(sys, n);
      LocalIsEnough(sys, DoCloseReset(sys, n), n);
    }
  }

  lemma FlagKeeps(sys: Sys, k: nat, state: SnapState)
    requires Inv(sys)
    ensures Inv(TakeFlag(sys, k, state)) && Inv(DoBeginDump(sys, k))
  {
    hide Inv;
    LockedKeeps(sys, sys.dumping + multiset{k});
    if k < |sys.snaps| && sys.snaps[k].state.Fresh? {
      FlaggedKeeps(sys, TakeFlag(sys, k, state), k);
    }
  }

  lemma ActionKeeps(sys: Sys, a: Action)
    requires Inv(sys)
    ensures Inv(Apply(sys, a))
  {
    hide Inv, Local, DoFinish, DoLoad, DoBeginFeed, DoSend, DoReceive, DoBeginResume, DoAbandon, DoBeginDump,
      DoDumpSnapshot, DoDumpSession, DoInstallDeps, DoCloseBegin, DoCloseReset, TakeFlag;
    match a {
      case NewSession(_, _, _, _, _, _) =>
        NewSessionLocal(sys, a);
        LocalIsEnough(sys, Apply(sys, a), |sys.nodes|);
      case BeginFeed(n) => BeginFeedKeeps(sys, n);
      case Send(n) => SendKeeps(sys, n);
      case Receive(n, reply) => ReceiveKeeps(sys, n, reply);
      case Finish(n, aborts) =>
        if n < |sys.nodes| && sys.nodes[n].turn.Replied? {
          FinishLocal(sys, n, aborts);
          LocalIsEnough(sys, Apply(sys, a), n);
        }
      case Claim(k) => FlagKeeps(sys, k, Claimed);
      case Drop(k) => FlagKeeps(sys, k, Spent);
      case BeginDump(k) => FlagKeeps(sys, k, Fresh);
      case BeginResume(k) => BeginResumeKeeps(sys, k);
      case Abandon(k, cancels) => AbandonKeeps(sys, k, cancels);
      case DumpSnapshot(k, answer) => DumpSnapshotKeeps(sys, k, answer);
      case DumpSession(n, answer) => DumpSessionKeeps(sys, n, answer);
      case LoadDump(n, d, reply, aborts) =>
        if n < |sys.nodes| && d < |sys.dumps| && sys.dumps[d].duration >= 0 && IsIdle(sys.nodes[n].s) {
          LoadKeeps(sys, n, d, reply, aborts);
        }
      case InstallDeps(n, survives) => InstallKeeps(sys, n, survives);
      case CloseBegin(n) => CloseBeginKeeps(sys, n);
      case CloseReset(n) => CloseResetKeeps(sys, n);
    }
  }

  /** The invariant holds after any sequence of actions whatever. */
  lemma {:induction false} RunKeeps(actions: seq<Action>)
    ensures Inv(Execute(EMPTY, actions))
    decreases |actions|
  {
    hide Apply;
    if actions == [] {
      EmptyIsOk();
    } else {
      RunKeeps(actions[..|actions| - 1]);
      ActionKeeps(Execute(EMPTY, actions[..|actions| - 1]), actions[|actions| - 1]);
    }
  }

  lemma EmptyIsOk()
    ensures Inv(EMPTY)
  {
    hide NodeOk, DumpOk, TurnEntry, SameTurn, RunsOk, SnapsOk, LogOk, DumpsOk, NodesOk;
    EmptyRecords(EMPTY);
    EmptyLog(EMPTY);
  }

  lemma EmptyRecords(sys: Sys)
    requires sys.nodes == [] && sys.runs == [] && sys.snaps == [] && sys.dumps == []
    ensures RunsOk(sys) && SnapsOk(sys) && DumpsOk(sys) && NodesOk(sys)
  {
    hide NodeOk, DumpOk;
  }

  lemma EmptyLog(sys: Sys)
    requires sys.log == []
    ensures LogOk(sys)
  {
    hide TurnEntry, SameTurn;
  }
}
