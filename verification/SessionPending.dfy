/** When a suspended feed can still be answered, and when its session can only be closed. */
module SessionPending {
  import opened Common
  import opened Session
  import opened SessionSystem
  import opened SessionInvariant
  import opened SessionSafety
  import opened SessionEnds
  import opened SessionTheorems

  /** The next resume of snapshot k, or its next dump, passes its one-shot flag and the guards behind it. */
  ghost predicate Usable(sys: Sys, n: nat, k: nat)
  {
    Live(sys, n, k) && sys.snaps[k].state.Fresh?
  }

  ghost predicate HasUsable(sys: Sys, n: nat)
  {
    exists k: nat :: Usable(sys, n, k)
  }

  /** A resume or a dump of snapshot k is still to reach session n. */
  ghost predicate Underway(sys: Sys, n: nat, k: nat)
  {
    Live(sys, n, k) && (!sys.snaps[k].state.Spent? || k in sys.dumping)
  }

  predicate Takes(a: Action, k: nat)
  {
    a == Claim(k) || a == Drop(k)
  }

  /** Somewhere in the run snapshot k was resumed, whatever came of it, or let go of. */
  ghost predicate Tried(actions: seq<Action>, k: nat)
  {
    exists i :: 0 <= i < |actions| && Takes(actions[i], k) && k < |Execute(EMPTY, actions[..i]).snaps|
  }

  // ---------------------------------------------------------------------------
  // The one-shot flag

  ghost predicate FlagsBy(sys: Sys, a: Action, b: Sys)
  {
    && |sys.snaps| <= |b.snaps|
    && (forall k :: 0 <= k < |sys.snaps| ==> (b.snaps[k].state.Fresh? <==> sys.snaps[k].state.Fresh? && !Takes(a, k)))
    && (forall k :: |sys.snaps| <= k < |b.snaps| ==> b.snaps[k].state.Fresh?)
    && (forall k :: 0 <= k < |sys.snaps| && sys.snaps[k].state.Spent? ==> b.snaps[k].state.Spent?)
    && (forall k :: k in b.dumping && k !in sys.dumping ==> k < |sys.snaps| && sys.snaps[k].state.Fresh?)
  }

  /** At most new snapshots, fresh ones. */
  ghost predicate Issues(sys: Sys, b: Sys)
  {
    && |sys.snaps| <= |b.snaps| && b.dumping == sys.dumping
    && (forall k :: 0 <= k < |sys.snaps| ==> b.snaps[k] == sys.snaps[k])
    && (forall k :: |sys.snaps| <= k < |b.snaps| ==> b.snaps[k].state.Fresh?)
  }

  lemma TurnsIssue(sys: Sys, n: nat, reply: Reply)
    ensures Issues(sys, DoBeginFeed(sys, n)) && Issues(sys, DoSend(sys, n)) && Issues(sys, DoReceive(sys, n, reply))
  {
    hide MayExecute, TurnObeys, Observe;
  }

  lemma EventsIssue(sys: Sys, a: Action)
    requires a.Finish? || a.LoadDump? || a.NewSession?
    ensures Issues(sys, Apply(sys, a))
  {
    hide Progress, Observe, Restores, Last, RestoredDuration;
  }

  lemma ClosesIssue(sys: Sys, n: nat, survives: bool, answer: DumpReply)
    ensures Issues(sys, DoInstallDeps(sys, n, survives)) && Issues(sys, DoCloseBegin(sys, n))
    ensures Issues(sys, DoCloseReset(sys, n)) && Issues(sys, DoDumpSession(sys, n, answer))
  {
  }

  lemma TakingFlags(sys: Sys, a: Action)
    requires a.Claim? || a.Drop?
    ensures FlagsBy(sys, a, TakeFlag(sys, a.k, if a.Claim? then Claimed else Spent))
  {
  }

  /** Only what is spent already, or taken, becomes spent; no dump passes a flag that is not fresh. */
  lemma SpendingFlags(sys: Sys, k: nat, cancels: bool, a: Action)
    requires forall j: nat :: !Takes(a, j)
    ensures FlagsBy(sys, a, DoAbandon(sys, k, cancels)) && FlagsBy(sys, a, DoBeginResume(sys, k))
  {
    hide Takes, Active;
  }

  lemma BeginDumpFlags(sys: Sys, k: nat, a: Action)
    requires forall j: nat :: !Takes(a, j)
    ensures FlagsBy(sys, a, DoBeginDump(sys, k))
  {
    hide Takes;
  }

  lemma TakeKeepsSnaps(sys: Sys, n: nat, answer: DumpReply, suspensions: U64, lost: nat, from: Option<nat>)
    requires n < |sys.nodes|
    ensures
      var b := TakeDump(sys, n, answer, suspensions, lost, from);
      b.snaps == sys.snaps && b.dumping == sys.dumping
  {
  }

  lemma DumpFlags(sys: Sys, k: nat, answer: DumpReply, a: Action)
    requires forall j: nat :: !Takes(a, j)
    ensures FlagsBy(sys, a, DoDumpSnapshot(sys, k, answer))
  {
    var b := DoDumpSnapshot(sys, k, answer);
    assert b.snaps == sys.snaps && b.dumping <= sys.dumping by {
      hide TakeDump, Takes;
      if k < |sys.snaps| && Active(sys, k) {
        var r := sys.runs[sys.snaps[k].run];
        var locked := sys.(dumping := sys.dumping - multiset{k});
        TakeKeepsSnaps(locked, r.session, answer, r.suspensions, r.lost, Some(sys.snaps[k].run));
      }
    }
    hide Takes, Active, DoDumpSnapshot;
  }

  lemma IssuingFlags(sys: Sys, b: Sys, a: Action)
    requires Issues(sys, b) && forall j: nat :: !Takes(a, j)
    ensures FlagsBy(sys, a, b)
  {
  }

  lemma ActionIssues(sys: Sys, a: Action)
    requires !a.Claim? && !a.Drop? && !a.Abandon? && !a.BeginResume? && !a.BeginDump? && !a.DumpSnapshot?
    ensures Issues(sys, Apply(sys, a))
  {
    hide Issues, DoFinish, DoLoad, DoDumpSession, DoInstallDeps, DoBeginFeed, DoSend, DoReceive, DoCloseBegin,
      DoCloseReset;
    match a {
      case BeginFeed(n) => TurnsIssue(sys, n, Crash);
      case Send(n) => TurnsIssue(sys, n, Crash);
      case Receive(n, reply) => TurnsIssue(sys, n, reply);
      case DumpSession(n, answer) => ClosesIssue(sys, n, true, answer);
      case InstallDeps(n, survives) => ClosesIssue(sys, n, survives, Refused);
      case CloseBegin(n) => ClosesIssue(sys, n, true, Refused);
      case CloseReset(n) => ClosesIssue(sys, n, true, Refused);
      case _ => EventsIssue(sys, a);
    }
  }

  /** Snapshots are issued fresh, and only a first resume or letting go ends that. */
  lemma ActionFlags(sys: Sys, a: Action)
    ensures FlagsBy(sys, a, Apply(sys, a))
  {
    hide FlagsBy, Issues, DoFinish, DoLoad, DoAbandon, DoBeginDump, DoDumpSnapshot, DoDumpSession, DoInstallDeps,
      TakeFlag, DoBeginFeed, DoSend, DoReceive, DoBeginResume, DoCloseBegin, DoCloseReset;
    match a {
      case Claim(_) => TakingFlags(sys, a);
      case Drop(_) => TakingFlags(sys, a);
      case Abandon(k, cancels) => SpendingFlags(sys, k, cancels, a);
      case BeginResume(k) => SpendingFlags(sys, k, true, a);
      case BeginDump(k) => BeginDumpFlags(sys, k, a);
      case DumpSnapshot(k, answer) => DumpFlags(sys, k, answer, a);
      case _ =>
        hide Apply;
        ActionIssues(sys, a);
        IssuingFlags(sys, Apply(sys, a), a);
    }
  }

  lemma {:induction false} FreshUnlessTried(actions: seq<Action>, k: nat)
    requires k < |Execute(EMPTY, actions).snaps|
    ensures Execute(EMPTY, actions).snaps[k].state.Fresh? <==> !Tried(actions, k)
    decreases |actions|
  {
    hide Apply;
    if actions != [] {
      var m := |actions| - 1;
      var before, a := Execute(EMPTY, actions[..m]), actions[m];
      ActionFlags(before, a);
      hide Execute, Takes;
      assert actions == actions[..m] + [a];
      ExecuteOneMore(actions[..m], a);
      TriedGrows(actions, k);
      if k < |before.snaps| {
        FreshUnlessTried(actions[..m], k);
      } else {
        UnissuedIsUntried(actions[..m], k);
      }
    } else {
      hide Execute;
      ExecuteNothing();
    }
  }

  lemma TriedGrows(actions: seq<Action>, k: nat)
    requires actions != []
    ensures
      var m := |actions| - 1;
      Tried(actions, k) <==>
        (Tried(actions[..m], k) || (Takes(actions[m], k) && k < |Execute(EMPTY, actions[..m]).snaps|))
  {
    hide Execute, Takes;
    var m := |actions| - 1;
    assert forall i :: 0 <= i < m ==> actions[..m][..i] == actions[..i] && actions[..m][i] == actions[i];
    if Tried(actions[..m], k) {
      var i :| 0 <= i < m && Takes(actions[..m][i], k) && k < |Execute(EMPTY, actions[..m][..i]).snaps|;
      assert Takes(actions[i], k) && k < |Execute(EMPTY, actions[..i]).snaps|;
    }
    if Tried(actions, k) {
      var i :| 0 <= i < |actions| && Takes(actions[i], k) && k < |Execute(EMPTY, actions[..i]).snaps|;
      assert i < m ==> Takes(actions[..m][i], k) && k < |Execute(EMPTY, actions[..m][..i]).snaps|;
    }
  }

  lemma {:induction false} UnissuedIsUntried(actions: seq<Action>, k: nat)
    requires k >= |Execute(EMPTY, actions).snaps|
    ensures !Tried(actions, k)
    decreases |actions|
  {
    hide Apply;
    if actions != [] {
      var m := |actions| - 1;
      ActionFlags(Execute(EMPTY, actions[..m]), actions[m]);
      hide Execute, Takes;
      assert actions == actions[..m] + [actions[m]];
      ExecuteOneMore(actions[..m], actions[m]);
      TriedGrows(actions, k);
      UnissuedIsUntried(actions[..m], k);
    }
  }

  /** A session waits at one suspension, so it has one live snapshot. */
  lemma LiveIsUnique(sys: Sys, n: nat, j: nat, k: nat)
    requires SnapsOk(sys) && Live(sys, n, j) && Live(sys, n, k)
    ensures j == k
  {
  }

  /**
   Between turns, an open session's feed can still be resumed or dumped if and only if the last turn
   or load returned a snapshot of it that nobody has tried to resume or let go of. A resume that fails
   before it has anything to send counts as a try: the feed then stays pending for good.
   */
  lemma PendingIsUsableIff(actions: seq<Action>, n: nat)
    requires n < |Execute(EMPTY, actions).nodes|
    requires
      var nd := Execute(EMPTY, actions).nodes[n];
      !nd.s.inTurn && !nd.s.closed
    ensures
      var sys := Execute(EMPTY, actions);
      && (HasUsable(sys, n) <==>
          sys.nodes[n].last.Suspended? && forall k: nat :: Live(sys, n, k) ==> !Tried(actions, k))
      && (sys.nodes[n].last.Suspended? ==> sys.nodes[n].s.pending.Some? && exists k: nat :: Live(sys, n, k))
      && (forall j: nat, k: nat :: Live(sys, n, j) && Live(sys, n, k) ==> j == k)
  {
    hide Apply, Execute, CountOk, LiveOk, DumpsOk, RunsOk, LogOk, NodeEnds, Tried, SnapsOk, Active;
    RunKeeps(actions);
    RunEnds(actions);
    var sys := Execute(EMPTY, actions);
    assert NodeOk(sys, n) && PendingEnds(sys, n);
    PendingIsLive(sys, n);
    forall j: nat, k: nat | Live(sys, n, j) && Live(sys, n, k) ensures j == k {
      LiveIsUnique(sys, n, j, k);
    }
    forall k: nat | Live(sys, n, k) ensures Usable(sys, n, k) <==> !Tried(actions, k) {
      FreshUnlessTried(actions, k);
    }
    if HasUsable(sys, n) {
      var k: nat :| Usable(sys, n, k);
      assert Live(sys, n, k);
    }
  }

  lemma PendingIsLive(sys: Sys, n: nat)
    requires n < |sys.nodes| && TurnOk(sys, n) && PendingEnds(sys, n)
    requires !sys.nodes[n].s.inTurn && !sys.nodes[n].s.closed
    ensures HasLive(sys, n) <==> sys.nodes[n].last.Suspended?
    ensures sys.nodes[n].last.Suspended? ==> sys.nodes[n].s.pending.Some?
  {
  }

  // ---------------------------------------------------------------------------
  // A session that can only be closed

  /** Closed, or waiting at a suspension that nothing on its way can answer or dump. */
  ghost predicate Stuck(sys: Sys, n: nat)
  {
    && n < |sys.nodes| && sys.nodes[n].turn.NoTurn?
    && (sys.nodes[n].s.closed || (sys.nodes[n].s.pending.Some? && forall k: nat :: !Underway(sys, n, k)))
  }

  ghost predicate OnlyResets(a: Sys, b: Sys, n: nat)
  {
    a.log <= b.log && forall i :: |a.log| <= i < |b.log| && b.log[i].session == n ==> b.log[i].kind.Reset?
  }

  /** Another session's step neither frees a stuck session nor speaks for it. */
  lemma StuckElsewhere(a: Sys, b: Sys, n: nat, m: nat, step: Action)
    requires RunsOk(a) && SnapsOk(a) && Stuck(a, n) && Elsewhere(a, b, m) && m != n && FlagsBy(a, step, b)
    ensures Stuck(b, n) && OnlyResets(a, b, n)
  {
    forall k: nat ensures !Underway(b, n, k) || b.nodes[n].s.closed {
      if Underway(b, n, k) && !b.nodes[n].s.closed {
        assert k < |a.snaps|;
        assert b.snaps[k].(state := a.snaps[k].state) == a.snaps[k];
        assert b.runs[a.snaps[k].run] == a.runs[a.snaps[k].run];
        assert Live(a, n, k) && !Underway(a, n, k);
      }
    }
  }

  /** A finished turn's deliveries, and a load's, concern its own session only. */
  lemma FinishElsewhere(sys: Sys, n: nat, aborts: seq<Reply>)
    requires Inv(sys) && n < |sys.nodes| && sys.nodes[n].turn.Replied? && sys.nodes[n].turn.run < |sys.runs|
    ensures Elsewhere(sys, DoFinish(sys, n, aborts), n)
  {
    FinishLocal(sys, n, aborts);
    hide Inv, DoFinish, Elsewhere, RunsOk, SnapsOk, LogOk, DumpsOk, NodeOk;
  }

  lemma UnansweredElsewhere(sys: Sys, n: nat, o: nat, reply: Reply, aborts: seq<Reply>)
    requires Inv(sys) && n < |sys.nodes| && o < |sys.dumps| && sys.dumps[o].duration >= 0
    requires Unanswered(sys, n, o, reply)
    ensures Elsewhere(sys, DoLoad(sys, n, sys.dumps[o], o, reply, aborts), n)
  {
    hide NodesOk, DumpsOk, LogOk, SnapsOk, Observe, Restores, RestoredDuration, Progress, Deliver;
  }

  lemma LoadElsewhere(sys: Sys, n: nat, o: nat, reply: Reply, aborts: seq<Reply>)
    requires Inv(sys) && n < |sys.nodes| && IsIdle(sys.nodes[n].s) && o < |sys.dumps| && sys.dumps[o].duration >= 0
    ensures Elsewhere(sys, DoLoad(sys, n, sys.dumps[o], o, reply, aborts), n)
  {
    hide Inv, Ending, Answered, Elsewhere, Progress, Deliver, DoLoad, Restores, Told;
    if Unanswered(sys, n, o, reply) {
      UnansweredElsewhere(sys, n, o, reply, aborts);
    } else {
      var told, r := Told(sys, n, o, reply.e, reply.vm), |sys.runs|;
      ToldHasRun(sys, n, o, reply.e, reply.vm);
      LoadAnswers(sys, n, o, reply.e, reply.vm, aborts);
      DeliverElsewhere(told, n, r, NotCompleted(Progress(CtxOf(told, n, r), reply.e, aborts)));
      ElsewhereTransitive(sys, told, Deliver(told, NotCompleted(Progress(CtxOf(told, n, r), reply.e, aborts))), n);
    }
  }

  /** The session whose lock or worker an action needs, if it is one action of one session. */
  function Concerns(sys: Sys, a: Action): nat
  {
    match a
    case BeginFeed(n) => n
    case Send(n) => n
    case Receive(n, _) => n
    case Finish(n, _) => n
    case DumpSession(n, _) => n
    case LoadDump(n, _, _, _) => n
    case InstallDeps(n, _) => n
    case CloseBegin(n) => n
    case CloseReset(n) => n
    case BeginResume(k) => SnapSession(sys, k)
    case DumpSnapshot(k, _) => SnapSession(sys, k)
    case Abandon(k, _) => SnapSession(sys, k)
    case _ => |sys.nodes|
  }

  function SnapSession(sys: Sys, k: nat): nat
  {
    if k < |sys.snaps| && sys.snaps[k].run < |sys.runs| then sys.runs[sys.snaps[k].run].session else |sys.nodes|
  }

  lemma NothingElsewhere(sys: Sys, m: nat)
    ensures Elsewhere(sys, sys, m)
  {
  }

  lemma TurnsElsewhere(sys: Sys, n: nat, reply: Reply)
    requires Inv(sys)
    ensures Elsewhere(sys, DoBeginFeed(sys, n), n) && Elsewhere(sys, DoSend(sys, n), n)
    ensures Elsewhere(sys, DoReceive(sys, n, reply), n)
  {
    hide Inv, Elsewhere, MayExecute, TurnObeys, Observe, RunsOk, SnapsOk, LogOk, DumpsOk, NodeOk;
    NothingElsewhere(sys, n);
    if n < |sys.nodes| {
      if IsIdle(sys.nodes[n].s) {
        BeginFeedLocal(sys, n);
      }
      if sys.nodes[n].turn.Begun? {
        SendLocal(sys, n);
      }
      if sys.nodes[n].turn.Waiting? && TurnObeys(sys.nodes[n].turn, sys.nodes[n].vm, reply, sys.next, n) {
        ReceiveLocal(sys, n, reply);
      }
    }
  }

  lemma ClosesElsewhere(sys: Sys, n: nat, survives: bool)
    requires Inv(sys)
    ensures Elsewhere(sys, DoInstallDeps(sys, n, survives), n) && Elsewhere(sys, DoCloseBegin(sys, n), n)
    ensures Elsewhere(sys, DoCloseReset(sys, n), n)
  {
    hide Inv, Elsewhere, RunsOk, SnapsOk, LogOk, DumpsOk, NodeOk;
    NothingElsewhere(sys, n);
    if n < |sys.nodes| {
      if IsIdle(sys.nodes[n].s) {
        InstallLocal(sys, n, survives);
      }
      if !sys.nodes[n].s.closed && !sys.nodes[n].s.inTurn {
        CloseBeginLocal(sys, n);
      }
      if sys.nodes[n].s.closed && !sys.nodes[n].resetSent {
        CloseResetLocal(sys, n);
      }
    }
  }

  lemma SessionDumpElsewhere(sys: Sys, n: nat, answer: DumpReply)
    requires Inv(sys)
    ensures Elsewhere(sys, DoDumpSession(sys, n, answer), n)
  {
    hide Inv, Elsewhere, TakeDump, RunsOk, SnapsOk, LogOk, DumpsOk, NodeOk;
    NothingElsewhere(sys, n);
    if n < |sys.nodes| && IsIdle(sys.nodes[n].s) {
      DumpSessionLocal(sys, n, answer);
    }
  }

  lemma AbandonElsewhere(sys: Sys, k: nat, cancels: bool)
    requires Inv(sys)
    ensures Elsewhere(sys, DoAbandon(sys, k, cancels), SnapSession(sys, k))
  {
    hide RunsOk, NodesOk, LogOk, DumpsOk;
  }

  lemma SnapshotDumpElsewhere(sys: Sys, k: nat, answer: DumpReply)
    ensures Elsewhere(sys, DoDumpSnapshot(sys, k, answer), SnapSession(sys, k))
  {
    hide TakeDump;
    if k < |sys.snaps| && Active(sys, k) {
      var r := sys.runs[sys.snaps[k].run];
      var locked := sys.(dumping := sys.dumping - multiset{k});
      TakeElsewhere(locked, r.session, answer, r.suspensions, r.lost, Some(sys.snaps[k].run));
    }
  }

  lemma TakeElsewhere(sys: Sys, n: nat, answer: DumpReply, suspensions: U64, lost: nat, from: Option<nat>)
    requires n < |sys.nodes|
    ensures Elsewhere(sys, TakeDump(sys, n, answer, suspensions, lost, from), n)
  {
  }

  lemma ResumeElsewhere(sys: Sys, k: nat)
    requires Inv(sys)
    ensures Elsewhere(sys, DoBeginResume(sys, k), SnapSession(sys, k))
  {
    assert SnapsOk(sys);
    hide Inv, Elsewhere, RunsOk, SnapsOk, LogOk, DumpsOk;
    NothingElsewhere(sys, SnapSession(sys, k));
    if k < |sys.snaps| && sys.snaps[k].state.Claimed? && sys.snaps[k].run < |sys.runs| {
      BeginResumeRecords(sys, k);
    }
  }

  lemma FlagsElsewhere(sys: Sys, a: Action)
    requires a.NewSession? || a.Claim? || a.Drop? || a.BeginDump?
    ensures Elsewhere(sys, Apply(sys, a), |sys.nodes|)
  {
  }

  /** Whatever an action does, it does to the session it concerns. */
  lemma ActionElsewhere(sys: Sys, a: Action)
    requires Inv(sys)
    ensures Elsewhere(sys, Apply(sys, a), Concerns(sys, a))
  {
    hide Inv, Elsewhere, DoFinish, DoLoad, DoAbandon, DoBeginDump, DoDumpSnapshot, DoDumpSession, DoInstallDeps,
      TakeFlag, DoBeginFeed, DoSend, DoReceive, DoBeginResume, DoCloseBegin, DoCloseReset, SnapSession;
    NothingElsewhere(sys, Concerns(sys, a));
    match a {
      case BeginFeed(n) => TurnsElsewhere(sys, n, Crash);
      case Send(n) => TurnsElsewhere(sys, n, Crash);
      case Receive(n, reply) => TurnsElsewhere(sys, n, reply);
      case Finish(n, aborts) =>
        if n < |sys.nodes| && sys.nodes[n].turn.Replied? && sys.nodes[n].turn.run < |sys.runs| {
          FinishElsewhere(sys, n, aborts);
        }
      case BeginResume(k) => ResumeElsewhere(sys, k);
      case Abandon(k, cancels) => AbandonElsewhere(sys, k, cancels);
      case DumpSnapshot(k, answer) => SnapshotDumpElsewhere(sys, k, answer);
      case DumpSession(n, answer) => SessionDumpElsewhere(sys, n, answer);
      case LoadDump(n, d, reply, aborts) =>
        if n < |sys.nodes| && d < |sys.dumps| && sys.dumps[d].duration >= 0 && IsIdle(sys.nodes[n].s) {
          LoadElsewhere(sys, n, d, reply, aborts);
        }
      case InstallDeps(n, survives) => ClosesElsewhere(sys, n, survives);
      case CloseBegin(n) => ClosesElsewhere(sys, n, true);
      case CloseReset(n) => ClosesElsewhere(sys, n, true);
      case _ => FlagsElsewhere(sys, a);
    }
  }

  /** Of its own actions, a stuck session can only be closed and reset. */
  lemma StuckRefuses(sys: Sys, a: Action, n: nat)
    requires Stuck(sys, n) && Concerns(sys, a) == n
    requires a.BeginFeed? || a.Send? || a.Receive? || a.Finish? || a.DumpSession? || a.LoadDump? || a.InstallDeps?
    ensures Apply(sys, a) == sys
  {
    hide Underway, DoFinish, DoLoad, TakeDump, MayExecute, TurnObeys;
  }

  lemma StuckCloses(sys: Sys, n: nat)
    requires Stuck(sys, n)
    ensures Stuck(DoCloseBegin(sys, n), n) && OnlyResets(sys, DoCloseBegin(sys, n), n)
    ensures Stuck(DoCloseReset(sys, n), n) && OnlyResets(sys, DoCloseReset(sys, n), n)
  {
    forall k: nat ensures Underway(DoCloseReset(sys, n), n, k) ==> Underway(sys, n, k) {
    }
  }

  /** Resumes and dumps of a stuck session's snapshots come to nothing. */
  lemma StuckDump(sys: Sys, k: nat, answer: DumpReply, n: nat)
    requires Stuck(sys, n) && SnapSession(sys, k) == n
    ensures Stuck(DoDumpSnapshot(sys, k, answer), n) && OnlyResets(sys, DoDumpSnapshot(sys, k, answer), n)
  {
    hide TakeDump;
    assert k < |sys.snaps| && Active(sys, k) ==> Live(sys, n, k) && !Underway(sys, n, k);
    forall j: nat ensures Underway(DoDumpSnapshot(sys, k, answer), n, j) ==> Underway(sys, n, j) {
    }
  }

  lemma StuckResume(sys: Sys, k: nat, n: nat)
    requires Stuck(sys, n) && SnapSession(sys, k) == n
    ensures Stuck(DoBeginResume(sys, k), n) && OnlyResets(sys, DoBeginResume(sys, k), n)
  {
    assert k < |sys.snaps| && Active(sys, k) ==> Live(sys, n, k) && !Underway(sys, n, k);
    forall j: nat ensures Underway(DoBeginResume(sys, k), n, j) ==> Underway(sys, n, j) {
    }
  }

  lemma StuckAbandon(sys: Sys, k: nat, cancels: bool, n: nat)
    requires Stuck(sys, n) && SnapSession(sys, k) == n
    ensures Stuck(DoAbandon(sys, k, cancels), n) && OnlyResets(sys, DoAbandon(sys, k, cancels), n)
  {
    forall j: nat ensures Underway(DoAbandon(sys, k, cancels), n, j) ==> Underway(sys, n, j) {
    }
  }

  lemma StuckStays(sys: Sys, a: Action, n: nat)
    requires Inv(sys) && Stuck(sys, n)
    ensures Stuck(Apply(sys, a), n) && OnlyResets(sys, Apply(sys, a), n)
  {
    if Concerns(sys, a) != n {
      ActionElsewhere(sys, a);
      ActionFlags(sys, a);
      hide Apply, LogOk, DumpsOk, NodesOk, Elsewhere, Stuck, RunsOk, SnapsOk;
      StuckElsewhere(sys, Apply(sys, a), n, Concerns(sys, a), a);
    } else {
      hide Inv, Stuck, DoFinish, DoLoad, DoAbandon, DoBeginDump, DoDumpSnapshot, DoDumpSession, DoInstallDeps, TakeFlag,
        DoBeginFeed, DoSend, DoReceive, DoBeginResume, DoCloseBegin, DoCloseReset, SnapSession;
      assert n < |sys.nodes| by { StuckExists(sys, n); }
      match a {
        case CloseBegin(_) => StuckCloses(sys, n);
        case CloseReset(_) => StuckCloses(sys, n);
        case BeginResume(k) => StuckResume(sys, k, n);
        case Abandon(k, cancels) => StuckAbandon(sys, k, cancels, n);
        case DumpSnapshot(k, answer) => StuckDump(sys, k, answer, n);
        case _ => StuckRefuses(sys, a, n);
      }
    }
  }

  lemma StuckExists(sys: Sys, n: nat)
    requires Stuck(sys, n)
    ensures n < |sys.nodes|
  {
  }

  lemma {:induction false} StuckForGood(actions: seq<Action>, more: seq<Action>, n: nat)
    requires Stuck(Execute(EMPTY, actions), n)
    ensures Stuck(Execute(EMPTY, actions + more), n)
    ensures OnlyResets(Execute(EMPTY, actions), Execute(EMPTY, actions + more), n)
    decreases |more|
  {
    hide Apply, Execute, Stuck;
    if more == [] {
      assert actions + more == actions;
    } else {
      var m := |more| - 1;
      StuckForGood(actions, more[..m], n);
      assert actions + more == (actions + more[..m]) + [more[m]];
      ExecuteOneMore(actions + more[..m], more[m]);
      RunKeeps(actions + more[..m]);
      hide Inv;
      StuckStays(Execute(EMPTY, actions + more[..m]), more[m], n);
    }
  }

  // ---------------------------------------------------------------------------
  // Exactly when

  /** Some continuation has session n write a request that is not its Reset. */
  ghost predicate MaySpeak(actions: seq<Action>, n: nat)
  {
    exists more :: !OnlyResets(Execute(EMPTY, actions), Execute(EMPTY, actions + more), n)
  }

  /** A dump that has passed the one-shot flag reaches the worker. */
  lemma DumpSpeaks(sys: Sys, n: nat, k: nat)
    requires Live(sys, n, k) && k in sys.dumping && !sys.nodes[n].vm.dead
    ensures !OnlyResets(sys, DoDumpSnapshot(sys, k, Refused), n)
  {
    var b := DoDumpSnapshot(sys, k, Refused);
    assert b.log[|sys.log|] == Req(n, DumpState, 0, 0, 0);
  }

  /** A claimed resume enters its turn. */
  lemma ClaimedEnters(sys: Sys, n: nat, k: nat)
    requires Live(sys, n, k) && sys.snaps[k].state.Claimed? && !sys.nodes[n].s.inTurn
    ensures
      var b, r := DoBeginResume(sys, k), sys.snaps[k].run;
      && |b.nodes| == |sys.nodes| && b.nodes[n].turn == Begun(r, false) && r < |b.runs| && b.log == sys.log
      && b.nodes[n].vm == sys.nodes[n].vm && b.nodes[n].s == sys.nodes[n].s.(inTurn := true)
  {
  }

  lemma BegunSpeaks(sys: Sys, n: nat)
    requires n < |sys.nodes| && sys.nodes[n].turn.Begun? && sys.nodes[n].turn.run < |sys.runs| && !sys.nodes[n].vm.dead
    requires MayExecute(sys.nodes[n].s)
    ensures !OnlyResets(sys, DoSend(sys, n), n)
  {
    hide MayExecute;
    var b := DoSend(sys, n);
    assert b.log[|sys.log|].session == n && !b.log[|sys.log|].kind.Reset?;
  }

  /** A resume the watchdog refuses leaves the session idle, and its dump reaches the worker. */
  lemma RefusedSpeaks(sys: Sys, n: nat)
    requires n < |sys.nodes| && sys.nodes[n].turn.Begun? && sys.nodes[n].turn.run < |sys.runs| && !sys.nodes[n].vm.dead
    requires !sys.nodes[n].turn.feed && !sys.nodes[n].s.closed && !MayExecute(sys.nodes[n].s)
    ensures
      var idle := Apply(DoSend(sys, n), Finish(n, []));
      !OnlyResets(sys, DoDumpSession(idle, n, Refused), n)
  {
    hide MayExecute, DoFinish;
    var sent := DoSend(sys, n);
    assert sent.nodes[n] == sys.nodes[n].(turn := Replied(sys.nodes[n].turn.run, false, None, Unsent));
    var idle := DoFinish(sent, n, []);
    RefusedIsIdle(sent, n);
    var b := DoDumpSession(idle, n, Refused);
    assert b.log[|sys.log|] == Req(n, DumpState, 0, 0, 0);
  }

  lemma RefusedIsIdle(sent: Sys, n: nat)
    requires n < |sent.nodes| && sent.nodes[n].turn.Replied? && sent.nodes[n].turn.event.None?
    requires !sent.nodes[n].turn.feed && !sent.nodes[n].s.closed && sent.nodes[n].turn.run < |sent.runs|
    ensures
      var idle := DoFinish(sent, n, []);
      IsIdle(idle.nodes[n].s) && idle.nodes[n].vm == sent.nodes[n].vm && idle.log == sent.log
  {
  }

  lemma {:induction false} ExecuteConcat(actions: seq<Action>, more: seq<Action>)
    ensures Execute(EMPTY, actions + more) == Execute(Execute(EMPTY, actions), more)
    decreases |more|
  {
    hide Apply;
    if more == [] {
      assert actions + more == actions;
    } else {
      var m := |more| - 1;
      ExecuteConcat(actions, more[..m]);
      assert actions + more == (actions + more[..m]) + [more[m]];
      hide Execute;
      ExecuteOneMore(actions + more[..m], more[m]);
      ExecuteLast(Execute(EMPTY, actions), more);
    }
  }

  lemma ExecuteLast(sys: Sys, more: seq<Action>)
    requires more != []
    ensures Execute(sys, more) == Apply(Execute(sys, more[..|more| - 1]), more[|more| - 1])
  {
  }

  lemma ExecuteTwo(actions: seq<Action>, a: Action, b: Action)
    ensures Execute(EMPTY, actions + [a, b]) == Apply(Apply(Execute(EMPTY, actions), a), b)
  {
    hide Apply, Execute;
    assert actions + [a, b] == (actions + [a]) + [b];
    ExecuteOneMore(actions, a);
    ExecuteOneMore(actions + [a], b);
  }

  lemma ExecuteFour(actions: seq<Action>, a: Action, b: Action, c: Action, d: Action)
    ensures Execute(EMPTY, actions + [a, b, c, d])
         == Apply(Apply(Apply(Apply(Execute(EMPTY, actions), a), b), c), d)
  {
    hide Apply, Execute;
    assert actions + [a, b, c, d] == (actions + [a, b]) + [c, d];
    ExecuteTwo(actions, a, b);
    ExecuteTwo(actions + [a, b], c, d);
  }

  lemma SpeaksAfter(actions: seq<Action>, more: seq<Action>, begun: Sys, n: nat)
    requires Execute(EMPTY, actions).log == begun.log && !OnlyResets(begun, Execute(EMPTY, actions + more), n)
    ensures MaySpeak(actions, n)
  {
    hide Execute;
    SameLogSpeaks(Execute(EMPTY, actions), begun, Execute(EMPTY, actions + more), n);
  }

  lemma ClaimedSpeaks(actions: seq<Action>, n: nat, k: nat)
    requires Live(Execute(EMPTY, actions), n, k) && Execute(EMPTY, actions).snaps[k].state.Claimed?
    requires
      var nd := Execute(EMPTY, actions).nodes[n];
      !nd.s.inTurn && !nd.vm.dead
    ensures MaySpeak(actions, n)
  {
    hide Execute, MaySpeak, OnlyResets, DoBeginResume, DoSend, DoDumpSession, DoFinish, MayExecute;
    var sys := Execute(EMPTY, actions);
    ClaimedEnters(sys, n, k);
    assert !sys.nodes[n].s.closed;
    hide Live;
    var begun := DoBeginResume(sys, k);
    if MayExecute(begun.nodes[n].s) {
      ExecuteTwo(actions, BeginResume(k), Send(n));
      BegunSpeaks(begun, n);
      SpeaksAfter(actions, [BeginResume(k), Send(n)], begun, n);
    } else {
      ExecuteFour(actions, BeginResume(k), Send(n), Finish(n, []), DumpSession(n, Refused));
      RefusedSpeaks(begun, n);
      SpeaksAfter(actions, [BeginResume(k), Send(n), Finish(n, []), DumpSession(n, Refused)], begun, n);
    }
  }

  lemma UnderwaySpeaks(actions: seq<Action>, n: nat, k: nat)
    requires Underway(Execute(EMPTY, actions), n, k)
    requires
      var nd := Execute(EMPTY, actions).nodes[n];
      !nd.s.inTurn && !nd.vm.dead
    ensures MaySpeak(actions, n)
  {
    hide Execute, OnlyResets, DoDumpSnapshot;
    var sys := Execute(EMPTY, actions);
    if k in sys.dumping {
      ExecuteOneMore(actions, DumpSnapshot(k, Refused));
      DumpSpeaks(sys, n, k);
      assert !OnlyResets(sys, Execute(EMPTY, actions + [DumpSnapshot(k, Refused)]), n);
    } else if sys.snaps[k].state.Fresh? {
      ExecuteTwo(actions, BeginDump(k), DumpSnapshot(k, Refused));
      DumpSpeaks(DoBeginDump(sys, k), n, k);
      SpeaksAfter(actions, [BeginDump(k), DumpSnapshot(k, Refused)], DoBeginDump(sys, k), n);
    } else {
      ClaimedSpeaks(actions, n, k);
    }
  }

  lemma SameLogSpeaks(a: Sys, b: Sys, c: Sys, n: nat)
    requires a.log == b.log && !OnlyResets(b, c, n)
    ensures !OnlyResets(a, c, n)
  {
  }

  /**
   A session that waits at a suspension between turns, with a living worker, can ever again write
   anything but its Reset if and only if a snapshot of that suspension is unclaimed, or a resume or
   dump of it is still on its way. Otherwise it can only be closed: it is never resumed or dumped,
   takes no feed, no dump and no installation.
   */
  lemma MaySpeakIff(actions: seq<Action>, n: nat)
    requires n < |Execute(EMPTY, actions).nodes|
    requires
      var nd := Execute(EMPTY, actions).nodes[n];
      !nd.s.inTurn && !nd.s.closed && nd.s.pending.Some? && !nd.vm.dead
    ensures MaySpeak(actions, n) <==> exists k: nat :: Underway(Execute(EMPTY, actions), n, k)
  {
    hide Apply, Execute, Underway;
    var sys := Execute(EMPTY, actions);
    RunKeeps(actions);
    assert sys.nodes[n].turn.NoTurn? by { assert NodeOk(sys, n); }
    hide Inv;
    if exists k: nat :: Underway(sys, n, k) {
      var k: nat :| Underway(sys, n, k);
      UnderwayExists(sys, n, k);
      UnderwaySpeaks(actions, n, k);
    } else {
      hide OnlyResets;
      forall more ensures OnlyResets(sys, Execute(EMPTY, actions + more), n) {
        StuckForGood(actions, more, n);
      }
    }
  }

  lemma UnderwayExists(sys: Sys, n: nat, k: nat)
    requires Underway(sys, n, k)
    ensures n < |sys.nodes|
  {
  }

  // ---------------------------------------------------------------------------
  // How a feed gets stranded

  /** A resume that is claimed and gives up, or LoadSession, which drops the snapshot its load got. */
  function Losing(k: nat, resume: bool, cancels: bool): seq<Action>
  {
    if resume then [Claim(k), Abandon(k, cancels)] else [Drop(k)]
  }

  lemma LosingStrands(actions: seq<Action>, n: nat, k: nat, resume: bool, cancels: bool)
    requires Usable(Execute(EMPTY, actions), n, k) && k !in Execute(EMPTY, actions).dumping
    requires !Execute(EMPTY, actions).nodes[n].s.inTurn
    ensures
      var sys := Execute(EMPTY, actions);
      var b := Execute(EMPTY, actions + Losing(k, resume, cancels));
      && b.nodes == sys.nodes && b.nodes[n].s.pending == Some(sys.snaps[k].run) && !b.nodes[n].s.closed
      && Live(b, n, k) && Stuck(b, n)
  {
    hide Apply, Execute, CountOk, LiveOk, DumpsOk, RunsOk, LogOk;
    RunKeeps(actions);
    var sys := Execute(EMPTY, actions);
    assert NodeOk(sys, n);
    if resume {
      ExecuteTwo(actions, Claim(k), Abandon(k, cancels));
      LosingByResume(sys, k, cancels);
    } else {
      ExecuteOneMore(actions, Drop(k));
      LosingByDrop(sys, k);
    }
    var b := Execute(EMPTY, actions + Losing(k, resume, cancels));
    assert Live(b, n, k) && b.snaps[k].state.Spent?;
    forall j: nat ensures Underway(b, n, j) ==> Live(sys, n, j) {
    }
    forall j: nat ensures Live(sys, n, j) ==> j == k {
      if Live(sys, n, j) {
        LiveIsUnique(sys, n, j, k);
      }
    }
  }

  lemma LosingByResume(sys: Sys, k: nat, cancels: bool)
    requires k < |sys.snaps| && sys.snaps[k].state.Fresh? && sys.snaps[k].run < |sys.runs|
    ensures
      var b := Apply(Apply(sys, Claim(k)), Abandon(k, cancels));
      b == SpentSnap(sys, k).(runs := b.runs) && |b.runs| == |sys.runs|
      && forall r :: 0 <= r < |sys.runs| ==>
           b.runs[r].step == sys.runs[r].step && b.runs[r].session == sys.runs[r].session
  {
  }

  lemma LosingByDrop(sys: Sys, k: nat)
    requires k < |sys.snaps| && sys.snaps[k].state.Fresh?
    ensures Apply(sys, Drop(k)) == SpentSnap(sys, k)
  {
  }

  const LOOKUP: Event := Event(NameLookup, 0, true, None, 0, None, None)
  const LOOKING: Vm := Vm([Susp(0, 0, None)], true, false)

  /** A feed asks for a name; the value it is resumed with does not encode. */
  function StrandedStory(): seq<Action>
  {
    FirstTurn(LONG, Answer(LOOKUP, LOOKING)) + Losing(0, true, false)
  }

  /**
   The feed is pending and its worker alive and waiting, the last turn returned a snapshot, and
   nothing will ever be written for the session again but its Reset.
   */
  lemma FailedAnswerStrandsTheFeed()
    ensures
      var sys := Execute(EMPTY, StrandedStory());
      && |sys.nodes| == 1 && sys.nodes[0].s.pending == Some(0) && sys.nodes[0].last.Suspended?
      && sys.nodes[0].vm == LOOKING
      && !sys.nodes[0].s.closed && !sys.nodes[0].s.inTurn && Live(sys, 0, 0) && !HasUsable(sys, 0)
      && !MaySpeak(StrandedStory(), 0)
  {
    hide Execute, OnlyResets, Stuck;
    var feed := FirstTurn(LONG, Answer(LOOKUP, LOOKING));
    hide FirstTurn;
    FirstTurnFinished(LONG, Answer(LOOKUP, LOOKING));
    LookedUp();
    LosingStrands(feed, 0, 0, true, false);
    var sys := Execute(EMPTY, StrandedStory());
    forall more ensures OnlyResets(sys, Execute(EMPTY, StrandedStory() + more), 0) {
      StuckForGood(StrandedStory(), more, 0);
    }
    StuckIsUnusable(sys, 0);
  }

  lemma StuckIsUnusable(sys: Sys, n: nat)
    requires Stuck(sys, n) && !sys.nodes[n].s.closed
    ensures !HasUsable(sys, n)
  {
    forall k: nat ensures Usable(sys, n, k) ==> Underway(sys, n, k) {
    }
  }

  lemma LookedUp()
    ensures
      var s5 := Apply(DoReceive(Fed(LONG), 0, Answer(LOOKUP, LOOKING)), Finish(0, []));
      && |s5.nodes| == 1 && s5.nodes[0].s.pending == Some(0) && s5.nodes[0].last.Suspended? && s5.nodes[0].vm == LOOKING
      && !s5.nodes[0].s.inTurn && Usable(s5, 0, 0) && s5.dumping == multiset{}
  {
    hide DoFinish, Observe;
    var s4 := DoReceive(Fed(LONG), 0, Answer(LOOKUP, LOOKING));
    assert s4 == Fed(LONG).(next := 1, nodes := [Fed(LONG).nodes[0].(
      s := Observe(Fed(LONG).nodes[0].s, LOOKUP), turn := Replied(0, true, Some(LOOKUP), Unexpected), vm := LOOKING)]);
    LookupFinished(s4);
  }

  lemma LookupFinished(s4: Sys)
    requires s4 == Fed(LONG).(next := 1, nodes := [Fed(LONG).nodes[0].(
      s := Observe(Fed(LONG).nodes[0].s, LOOKUP), turn := Replied(0, true, Some(LOOKUP), Unexpected), vm := LOOKING)])
    ensures
      var s5 := DoFinish(s4, 0, []);
      && |s5.nodes| == 1 && s5.nodes[0].s.pending == Some(0) && s5.nodes[0].last.Suspended? && s5.nodes[0].vm == LOOKING
      && !s5.nodes[0].s.inTurn && Usable(s5, 0, 0) && s5.dumping == multiset{}
  {
    hide Abort, Observe;
    ObserveFrame(Fed(LONG).nodes[0].s, LOOKUP);
  }
}
