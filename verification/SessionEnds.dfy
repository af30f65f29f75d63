/** What the end of a session's last turn tells the host: about its worker, its snapshots and its dumps. */
module SessionEnds {
  import opened Common
  import opened Session
  import opened SessionSystem
  import opened SessionInvariant
  import opened SessionSafety

  // ---------------------------------------------------------------------------
  // The worker

  /** Whether a living worker holds a suspension follows from what the host has seen of it. */
  ghost predicate NodeEnds(nd: Node)
  {
    && (!nd.turn.NoTurn? && nd.turn.feed ==> !nd.last.Suspended?)
    && (!nd.vm.dead ==>
        match nd.turn
        case NoTurn => nd.vm.suspended <==> Holds(nd.last)
        case Begun(_, feed) => nd.vm.suspended <==> !feed || Holds(nd.last)
        case Waiting(_, feed) => nd.vm.suspended <==> !feed || Holds(nd.last)
        case Replied(_, feed, Some(e), _) => nd.vm.suspended <==> Suspends(e.kind)
        case Replied(_, feed, None, Unsent) => nd.vm.suspended <==> !feed || Holds(nd.last)
        case Replied(_, _, None, Withheld(k)) => nd.vm.suspended <==> Suspends(k)
        case Replied(_, _, None, _) => false)
  }

  // ---------------------------------------------------------------------------
  // Snapshots

  /** Snapshot k is for the suspension session n is waiting at, whoever has claimed it. */
  ghost predicate Live(sys: Sys, n: nat, k: nat)
  {
    k < |sys.snaps| && Active(sys, k) && sys.runs[sys.snaps[k].run].session == n
  }

  ghost predicate HasLive(sys: Sys, n: nat)
  {
    exists k: nat :: Live(sys, n, k)
  }

  /** A session's pending feed has a live snapshot just when the last turn handed one out. */
  ghost predicate PendingEnds(sys: Sys, n: nat)
    requires n < |sys.nodes|
  {
    var nd := sys.nodes[n];
    nd.turn.NoTurn? && !nd.s.closed ==>
      && (nd.last.Suspended? ==> HasLive(sys, n))
      && (!nd.last.Suspended? && nd.s.pending.Some? && nd.s.pending.value < |sys.runs| ==>
          NoSnapAtStep(sys, nd.s.pending.value))
  }

  ghost predicate Ends(sys: Sys)
  {
    forall n :: 0 <= n < |sys.nodes| ==> NodeEnds(sys.nodes[n]) && PendingEnds(sys, n)
  }

  /** All that changes concerns session n. */
  ghost predicate Apart(a: Sys, b: Sys, n: nat)
  {
    && |a.nodes| <= |b.nodes| && |a.runs| <= |b.runs|
    && (forall m :: 0 <= m < |a.nodes| && m != n ==> b.nodes[m] == a.nodes[m])
    && (forall r :: 0 <= r < |a.runs| ==> b.runs[r].session == a.runs[r].session)
    && (forall r :: 0 <= r < |a.runs| && a.runs[r].session != n ==> b.runs[r] == a.runs[r])
    && SameSnaps(a, b)
    && (forall k :: |a.snaps| <= k < |b.snaps| ==> b.snaps[k].run < |b.runs| && b.runs[b.snaps[k].run].session == n)
  }

  lemma OthersEnd(a: Sys, b: Sys, n: nat, m: nat)
    requires RunsOk(a) && SnapsOk(a) && Apart(a, b, n) && m < |a.nodes| && m != n && TurnOk(a, m) && PendingEnds(a, m)
    ensures PendingEnds(b, m)
  {
    hide NotYetSent, NoSnapOf;
    var nd := a.nodes[m];
    if nd.turn.NoTurn? && !nd.s.closed && nd.last.Suspended? {
      var k: nat :| Live(a, m, k);
      assert b.snaps[k].(state := a.snaps[k].state) == a.snaps[k];
      assert Live(b, m, k);
    }
  }

  lemma EndsApart(a: Sys, b: Sys, n: nat)
    requires Inv(a) && Ends(a) && Apart(a, b, n)
    requires forall m :: |a.nodes| <= m < |b.nodes| ==> NodeEnds(b.nodes[m]) && PendingEnds(b, m)
    requires n < |b.nodes| ==> NodeEnds(b.nodes[n]) && PendingEnds(b, n)
    ensures Ends(b)
  {
    forall m | 0 <= m < |b.nodes| ensures NodeEnds(b.nodes[m]) && PendingEnds(b, m) {
      if m < |a.nodes| && m != n {
        assert NodeOk(a, m);
        hide Inv, NodeEnds, PendingEnds, Apart;
        OthersEnd(a, b, n, m);
      }
    }
  }

  /** Nothing but a worker's life, a one-shot flag or a callback's cancellation has changed. */
  ghost predicate Steady(a: Sys, b: Sys)
  {
    && |b.nodes| == |a.nodes| && |b.runs| == |a.runs| && |b.snaps| == |a.snaps| && SameSnaps(a, b)
    && (forall n :: 0 <= n < |a.nodes| ==>
        && b.nodes[n].turn == a.nodes[n].turn && b.nodes[n].last == a.nodes[n].last && b.nodes[n].s == a.nodes[n].s
        && (!b.nodes[n].vm.dead ==> b.nodes[n].vm == a.nodes[n].vm))
    && (forall r :: 0 <= r < |a.runs| ==> b.runs[r].session == a.runs[r].session && b.runs[r].step == a.runs[r].step)
  }

  lemma SteadyPending(a: Sys, b: Sys, n: nat)
    requires SnapsOk(a) && Steady(a, b) && n < |a.nodes| && PendingEnds(a, n)
    ensures PendingEnds(b, n)
  {
    var nd := a.nodes[n];
    if nd.turn.NoTurn? && !nd.s.closed && nd.last.Suspended? {
      var k: nat :| Live(a, n, k);
      assert b.snaps[k].(state := a.snaps[k].state) == a.snaps[k];
      assert Live(b, n, k);
    }
  }

  lemma SteadyEnds(a: Sys, b: Sys)
    requires Inv(a) && Ends(a) && Steady(a, b)
    ensures Ends(b)
  {
    assert SnapsOk(a);
    hide Inv;
    forall n | 0 <= n < |b.nodes| ensures NodeEnds(b.nodes[n]) && PendingEnds(b, n) {
      hide PendingEnds, SnapsOk;
      SteadyPending(a, b, n);
    }
  }

  // ---------------------------------------------------------------------------
  // Every action

  lemma OpenEnds(sys: Sys, a: Action)
    requires Inv(sys) && Ends(sys) && a.NewSession?
    ensures Ends(Apply(sys, a))
  {
    var b := Apply(sys, a);
    assert Apart(sys, b, |sys.nodes|);
    hide Inv;
    EndsApart(sys, b, |sys.nodes|);
  }

  /** An idle session's last turn handed nothing out. */
  lemma IdleHandedNothing(sys: Sys, n: nat)
    requires n < |sys.nodes| && IsIdle(sys.nodes[n].s) && TurnOk(sys, n) && PendingEnds(sys, n)
    ensures sys.nodes[n].turn.NoTurn? && !sys.nodes[n].last.Suspended?
  {
    hide NotYetSent, NoSnapOf, NoSnapAtStep;
  }

  lemma BeginFeedEnds(sys: Sys, n: nat)
    requires Inv(sys) && Ends(sys)
    ensures Ends(DoBeginFeed(sys, n))
  {
    if n < |sys.nodes| && IsIdle(sys.nodes[n].s) {
      assert NodeOk(sys, n);
      IdleHandedNothing(sys, n);
      assert Apart(sys, DoBeginFeed(sys, n), n);
      hide Inv;
      EndsApart(sys, DoBeginFeed(sys, n), n);
    }
  }

  lemma SendEnds(sys: Sys, n: nat)
    requires Inv(sys) && Ends(sys)
    ensures Ends(DoSend(sys, n))
  {
    hide MayExecute;
    if n < |sys.nodes| {
      assert Apart(sys, DoSend(sys, n), n);
      hide Inv;
      EndsApart(sys, DoSend(sys, n), n);
    }
  }

  lemma ReceiveEnds(sys: Sys, n: nat, reply: Reply)
    requires Inv(sys) && Ends(sys)
    ensures Ends(DoReceive(sys, n, reply))
  {
    hide Observe;
    if n < |sys.nodes| {
      assert Apart(sys, DoReceive(sys, n, reply), n);
      hide Inv;
      EndsApart(sys, DoReceive(sys, n, reply), n);
    }
  }

  /** A snapshot that can be resumed was handed out, so a living worker holds it. */
  lemma ResumedEnds(sys: Sys, k: nat)
    requires Inv(sys) && Ends(sys) && k < |sys.snaps| && sys.snaps[k].state.Claimed?
    requires Active(sys, k) && !sys.nodes[sys.runs[sys.snaps[k].run].session].s.inTurn
    ensures Ends(DoBeginResume(sys, k))
  {
    var n := sys.runs[sys.snaps[k].run].session;
    var b := DoBeginResume(sys, k);
    assert NodeOk(sys, n);
    assert HandedOut(CtxOf(sys, n, sys.snaps[k].run), sys.snaps[k].susp.id, sys.snaps[k].delay);
    assert Apart(sys, b, n);
    hide Inv;
    EndsApart(sys, b, n);
  }

  lemma BeginResumeEnds(sys: Sys, k: nat)
    requires Inv(sys) && Ends(sys)
    ensures Ends(DoBeginResume(sys, k))
  {
    hide Inv, Ends;
    if k < |sys.snaps| && sys.snaps[k].state.Claimed? && Active(sys, k)
       && !sys.nodes[sys.runs[sys.snaps[k].run].session].s.inTurn {
      ResumedEnds(sys, k);
    } else {
      assert Steady(sys, DoBeginResume(sys, k));
      SteadyEnds(sys, DoBeginResume(sys, k));
    }
  }

  lemma FlagsAreSteady(sys: Sys, k: nat, state: SnapState, cancels: bool)
    ensures Steady(sys, TakeFlag(sys, k, state)) && Steady(sys, DoBeginDump(sys, k))
    ensures Steady(sys, DoAbandon(sys, k, cancels))
  {
  }

  lemma DumpsAreSteady(sys: Sys, n: nat, answer: DumpReply, suspensions: U64, lost: nat, from: Option<nat>)
    requires n < |sys.nodes|
    ensures Steady(sys, TakeDump(sys, n, answer, suspensions, lost, from))
  {
  }

  lemma SnapshotDumpIsSteady(sys: Sys, k: nat, answer: DumpReply)
    ensures Steady(sys, DoDumpSnapshot(sys, k, answer))
  {
    if k < |sys.snaps| && Active(sys, k) {
      hide TakeDump;
      var r := sys.runs[sys.snaps[k].run];
      DumpsAreSteady(sys.(dumping := sys.dumping - multiset{k}), r.session, answer, r.suspensions, r.lost,
                     Some(sys.snaps[k].run));
    }
  }

  lemma SessionDumpIsSteady(sys: Sys, n: nat, answer: DumpReply)
    ensures Steady(sys, DoDumpSession(sys, n, answer))
  {
    if n < |sys.nodes| {
      hide TakeDump;
      DumpsAreSteady(sys, n, answer, 0, if sys.nodes[n].vm.suspended then |sys.nodes[n].vm.hist| else 0, None);
    }
  }

  lemma InstallIsSteady(sys: Sys, n: nat, survives: bool)
    ensures Steady(sys, DoInstallDeps(sys, n, survives))
  {
  }

  lemma CloseEnds(sys: Sys, n: nat)
    requires Inv(sys) && Ends(sys)
    ensures Ends(DoCloseBegin(sys, n))
  {
    if n < |sys.nodes| {
      assert NodeOk(sys, n);
      assert Apart(sys, DoCloseBegin(sys, n), n);
      hide Inv;
      EndsApart(sys, DoCloseBegin(sys, n), n);
    }
  }

  lemma ResetEnds(sys: Sys, n: nat)
    requires Inv(sys) && Ends(sys)
    ensures Ends(DoCloseReset(sys, n))
  {
    if n < |sys.nodes| {
      assert Apart(sys, DoCloseReset(sys, n), n);
      hide Inv;
      EndsApart(sys, DoCloseReset(sys, n), n);
    }
  }

  lemma DeliverEnds(sys: Sys, n: nat, r: nat, out: Result2)
    requires Ending(sys, n, r) && Answered(CtxOf(sys, n, r), out)
    ensures
      var b := Deliver(sys, out);
      Apart(sys, b, n) && NodeEnds(b.nodes[n]) && PendingEnds(b, n)
  {
    hide LogOk, DumpsOk, Accounts, SleepTightens, OnlyAborts, HandedOut, CountExact, PaysOnly;
    var b := Deliver(sys, out);
    assert Apart(sys, b, n);
    if out.o.Suspended? {
      assert Live(b, n, |sys.snaps|);
    }
  }

  lemma ElsewhereIsApart(a: Sys, b: Sys, n: nat)
    requires Elsewhere(a, b, n)
    ensures Apart(a, b, n)
  {
  }

  lemma FailedEnds(sys: Sys, n: nat, aborts: seq<Reply>)
    requires Inv(sys) && n < |sys.nodes| && sys.nodes[n].turn.Replied? && sys.nodes[n].turn.event.None? && Ends(sys)
    requires sys.nodes[n].turn.run < |sys.runs|
    ensures
      var b := DoFinish(sys, n, aborts);
      Apart(sys, b, n) && NodeEnds(b.nodes[n]) && PendingEnds(b, n)
  {
    assert NodeOk(sys, n) && NodeEnds(sys.nodes[n]);
    hide Inv, Ends, CountOk, LiveOk, NotYetSent;
  }

  lemma FinishEnds(sys: Sys, n: nat, aborts: seq<Reply>)
    requires Inv(sys) && Ends(sys)
    requires n < |sys.nodes| && sys.nodes[n].turn.Replied? && sys.nodes[n].turn.run < |sys.runs|
    ensures Ends(DoFinish(sys, n, aborts))
  {
    hide Inv, Ends, Progress, Answered, Ending, Elsewhere, Deliver, DoFinish, Apart, NodeEnds, PendingEnds;
    var b := DoFinish(sys, n, aborts);
    if sys.nodes[n].turn.event.None? {
      FailedEnds(sys, n, aborts);
    } else {
      var left, r := Leaving(sys, n), sys.nodes[n].turn.run;
      FinishAnswers(sys, n, aborts);
      ElsewhereIsApart(sys, left, n);
      DeliverEnds(left, n, r, Progress(CtxOf(left, n, r), sys.nodes[n].turn.event.value, aborts));
      ApartTransitive(sys, left, b, n);
    }
    EndsApart(sys, b, n);
  }

  lemma ApartTransitive(a: Sys, b: Sys, c: Sys, n: nat)
    requires Apart(a, b, n) && Apart(b, c, n)
    ensures Apart(a, c, n)
  {
    assert forall k :: |a.snaps| <= k < |b.snaps| ==> c.snaps[k].(state := b.snaps[k].state) == b.snaps[k];
  }

  /** The reply brings nothing to answer. */
  predicate Unanswered(sys: Sys, n: nat, o: nat, reply: Reply)
    requires n < |sys.nodes| && o < |sys.dumps|
  {
    sys.nodes[n].vm.dead || !reply.Answer? || !Restores(sys.dumps[o], reply.e, reply.vm) || reply.e.kind.OkEvent?
  }

  lemma UnansweredApart(sys: Sys, n: nat, o: nat, reply: Reply, aborts: seq<Reply>)
    requires RunsOk(sys) && n < |sys.nodes| && o < |sys.dumps| && sys.dumps[o].duration >= 0
    requires Unanswered(sys, n, o, reply)
    ensures Apart(sys, DoLoad(sys, n, sys.dumps[o], o, reply, aborts), n)
  {
    hide Observe, Restores, RestoredDuration;
  }

  /** Nothing of a destination's own is pending, and an unanswered load hands nothing out. */
  lemma UnansweredEnds(sys: Sys, n: nat, o: nat, reply: Reply, aborts: seq<Reply>)
    requires n < |sys.nodes| && IsIdle(sys.nodes[n].s) && sys.nodes[n].turn.NoTurn? && NodeEnds(sys.nodes[n])
    requires o < |sys.dumps| && sys.dumps[o].duration >= 0 && Unanswered(sys, n, o, reply)
    ensures
      var b := DoLoad(sys, n, sys.dumps[o], o, reply, aborts);
      NodeEnds(b.nodes[n]) && PendingEnds(b, n)
  {
    if reply.Answer? {
      ObserveFrame(Restoring(sys, n, sys.dumps[o], o).nodes[n].s, reply.e);
    }
    hide Observe, RestoredDuration;
  }

  lemma LoadEnds(sys: Sys, n: nat, o: nat, reply: Reply, aborts: seq<Reply>)
    requires Inv(sys) && Ends(sys) && n < |sys.nodes| && IsIdle(sys.nodes[n].s)
    requires o < |sys.dumps| && sys.dumps[o].duration >= 0
    ensures Ends(DoLoad(sys, n, sys.dumps[o], o, reply, aborts))
  {
    assert RunsOk(sys) && NodeOk(sys, n) && NodeEnds(sys.nodes[n]);
    hide Inv, RunsOk, Ends, Progress, Answered, Ending, Elsewhere, Deliver, DoLoad, Apart, NodeEnds, PendingEnds,
      Restores, Told, CountOk, LiveOk, NotYetSent, NoSnapOf, NoSnapAtStep;
    var b := DoLoad(sys, n, sys.dumps[o], o, reply, aborts);
    if !sys.nodes[n].vm.dead && reply.Answer? && Restores(sys.dumps[o], reply.e, reply.vm) && !reply.e.kind.OkEvent? {
      var told, r := Told(sys, n, o, reply.e, reply.vm), |sys.runs|;
      ToldHasRun(sys, n, o, reply.e, reply.vm);
      LoadAnswers(sys, n, o, reply.e, reply.vm, aborts);
      ElsewhereIsApart(sys, told, n);
      DeliverEnds(told, n, r, NotCompleted(Progress(CtxOf(told, n, r), reply.e, aborts)));
      ApartTransitive(sys, told, b, n);
    } else {
      UnansweredApart(sys, n, o, reply, aborts);
      UnansweredEnds(sys, n, o, reply, aborts);
    }
    EndsApart(sys, b, n);
  }

  lemma ActionEnds(sys: Sys, a: Action)
    requires Inv(sys) && Ends(sys)
    ensures Ends(Apply(sys, a))
  {
    hide Inv, Ends, Steady, DoFinish, DoLoad, DoAbandon, DoBeginDump, DoDumpSnapshot, DoDumpSession, DoInstallDeps,
      TakeFlag, DoBeginFeed, DoSend, DoReceive, DoBeginResume, DoCloseBegin, DoCloseReset;
    match a {
      case NewSession(_, _, _, _, _, _) => OpenEnds(sys, a);
      case BeginFeed(n) => BeginFeedEnds(sys, n);
      case Send(n) => SendEnds(sys, n);
      case Receive(n, reply) => ReceiveEnds(sys, n, reply);
      case Finish(n, aborts) =>
        if n < |sys.nodes| && sys.nodes[n].turn.Replied? && sys.nodes[n].turn.run < |sys.runs| {
          FinishEnds(sys, n, aborts);
        }
      case BeginResume(k) => BeginResumeEnds(sys, k);
      case Claim(k) =>
        FlagsAreSteady(sys, k, Claimed, false);
        SteadyEnds(sys, Apply(sys, a));
      case Drop(k) =>
        FlagsAreSteady(sys, k, Spent, false);
        SteadyEnds(sys, Apply(sys, a));
      case BeginDump(k) =>
        FlagsAreSteady(sys, k, Fresh, false);
        SteadyEnds(sys, Apply(sys, a));
      case Abandon(k, cancels) =>
        FlagsAreSteady(sys, k, Spent, cancels);
        SteadyEnds(sys, Apply(sys, a));
      case DumpSnapshot(k, answer) =>
        SnapshotDumpIsSteady(sys, k, answer);
        SteadyEnds(sys, Apply(sys, a));
      case DumpSession(n, answer) =>
        SessionDumpIsSteady(sys, n, answer);
        SteadyEnds(sys, Apply(sys, a));
      case LoadDump(n, d, reply, aborts) =>
        if n < |sys.nodes| && d < |sys.dumps| && sys.dumps[d].duration >= 0 && IsIdle(sys.nodes[n].s) {
          LoadEnds(sys, n, d, reply, aborts);
        }
      case InstallDeps(n, survives) =>
        InstallIsSteady(sys, n, survives);
        SteadyEnds(sys, Apply(sys, a));
      case CloseBegin(n) => CloseEnds(sys, n);
      case CloseReset(n) => ResetEnds(sys, n);
    }
  }

  lemma {:induction false} RunEnds(actions: seq<Action>)
    ensures Ends(Execute(EMPTY, actions))
    decreases |actions|
  {
    hide Apply, Inv, Ends;
    if actions == [] {
      NothingEnds();
    } else {
      RunEnds(actions[..|actions| - 1]);
      RunKeeps(actions[..|actions| - 1]);
      ActionEnds(Execute(EMPTY, actions[..|actions| - 1]), actions[|actions| - 1]);
    }
  }

  lemma NothingEnds()
    ensures Ends(EMPTY)
  {
  }
}
