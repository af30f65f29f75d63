/** What the sleep accounts and the dumps of the whole system record, and where it came from. */
module SessionBooks {
  import opened Common
  import opened Session
  import opened SessionSystem
  import opened SessionInvariant
  import opened SessionSafety

  // ---------------------------------------------------------------------------
  // The sleep books

  /** Snapshot k handed out the sleep this charge paid for, in the session where it arose. */
  ghost predicate PaidFor(sys: Sys, ch: Charge, k: nat)
  {
    && k < |sys.snaps| && sys.snaps[k].susp == ch.susp && sys.snaps[k].delay == Some(ch.delay)
    && sys.snaps[k].run < |sys.runs| && sys.runs[sys.snaps[k].run].session == ch.susp.owner
  }

  /** A charge is what the session where the sleep arose granted of the delay asked for. */
  ghost predicate ChargeOk(sys: Sys, ch: Charge)
  {
    && ch.susp.owner < |sys.nodes|
    && Some(ch.delay) == Granted(sys.nodes[ch.susp.owner].s.systemSleepMax, ch.susp.delay)
    && exists k: nat :: PaidFor(sys, ch, k)
  }

  ghost predicate ChargesOk(sys: Sys, cs: seq<Charge>)
  {
    forall i :: 0 <= i < |cs| ==> ChargeOk(sys, cs[i])
  }

  /** A snapshot grants the delay under its session's cap, and unless its lineage lost it, it is paid for. */
  ghost predicate SnapBooked(sys: Sys, k: nat)
    requires k < |sys.snaps|
  {
    var p := sys.snaps[k];
    && p.run < |sys.runs| && sys.runs[p.run].session < |sys.nodes|
    && var s := sys.nodes[sys.runs[p.run].session].s;
       && p.delay == Granted(s.systemSleepMax, p.susp.delay)
       && (p.delay.Some? && sys.runs[p.run].lost == 0 ==> Charged(s.sleeps, p.susp))
  }

  ghost predicate Books(sys: Sys)
  {
    && (forall r :: 0 <= r < |sys.runs| ==>
        sys.runs[r].session < |sys.nodes| && sys.nodes[sys.runs[r].session].s.used)
    && (forall n :: 0 <= n < |sys.nodes| ==> ChargesOk(sys, sys.nodes[n].s.sleeps))
    && (forall d :: 0 <= d < |sys.dumps| ==> ChargesOk(sys, sys.dumps[d].sleeps))
    && (forall k :: 0 <= k < |sys.snaps| ==> SnapBooked(sys, k))
  }

  /** A session keeps its cap, and once used it only adds to its account. */
  ghost predicate SameBook(a: Node, b: Node)
  {
    && b.s.systemSleepMax == a.s.systemSleepMax
    && (a.s.used ==> b.s.used && a.s.sleeps <= b.s.sleeps)
  }

  /** A charge comes from the session's own account, from a dump, or from a snapshot just handed out. */
  ghost predicate Sourced(a: Sys, b: Sys, m: nat, ch: Charge)
  {
    || (m < |a.nodes| && ch in a.nodes[m].s.sleeps)
    || (exists d :: 0 <= d < |a.dumps| && ch in a.dumps[d].sleeps)
    || (ch.susp.owner == m && exists k: nat :: |a.snaps| <= k && PaidFor(b, ch, k))
  }

  ghost predicate SameRuns(a: Sys, b: Sys)
  {
    && |a.runs| <= |b.runs|
    && forall r :: 0 <= r < |a.runs| ==>
      b.runs[r].session == a.runs[r].session && b.runs[r].lost == a.runs[r].lost && b.runs[r].origin == a.runs[r].origin
  }

  ghost predicate Grows(a: Sys, b: Sys)
  {
    && |a.nodes| <= |b.nodes| && (forall m :: 0 <= m < |a.nodes| ==> SameBook(a.nodes[m], b.nodes[m]))
    && SameRuns(a, b) && SameSnaps(a, b) && a.dumps <= b.dumps
    && (forall r :: |a.runs| <= r < |b.runs| ==> b.runs[r].session < |b.nodes| && b.nodes[b.runs[r].session].s.used)
    && (forall k :: |a.snaps| <= k < |b.snaps| ==> SnapBooked(b, k))
    && (forall d :: |a.dumps| <= d < |b.dumps| ==>
        exists m :: 0 <= m < |a.nodes| && b.dumps[d].sleeps == a.nodes[m].s.sleeps)
    && (forall m, i :: 0 <= m < |b.nodes| && 0 <= i < |b.nodes[m].s.sleeps| ==>
        Sourced(a, b, m, b.nodes[m].s.sleeps[i]))
  }

  lemma ChargeStays(a: Sys, b: Sys, ch: Charge)
    requires Grows(a, b) && ChargeOk(a, ch)
    ensures ChargeOk(b, ch)
  {
    var k: nat :| PaidFor(a, ch, k);
    assert b.snaps[k].(state := a.snaps[k].state) == a.snaps[k];
    assert PaidFor(b, ch, k);
  }

  lemma SnapStays(a: Sys, b: Sys, k: nat)
    requires Grows(a, b) && Books(a) && k < |a.snaps|
    ensures SnapBooked(b, k)
  {
    assert SnapBooked(a, k);
    var p := a.snaps[k];
    assert b.snaps[k].(state := p.state) == p;
    var n := a.runs[p.run].session;
    assert a.nodes[n].s.used;
    if p.delay.Some? && a.runs[p.run].lost == 0 {
      var i :| 0 <= i < |a.nodes[n].s.sleeps| && a.nodes[n].s.sleeps[i].susp == p.susp;
      assert b.nodes[n].s.sleeps[i] == a.nodes[n].s.sleeps[i];
    }
  }

  lemma SourcedIsOk(a: Sys, b: Sys, m: nat, ch: Charge)
    requires Grows(a, b) && Books(a) && m < |b.nodes| && Sourced(a, b, m, ch)
    requires forall k :: 0 <= k < |b.snaps| ==> SnapBooked(b, k)
    ensures ChargeOk(b, ch)
  {
    if m < |a.nodes| && ch in a.nodes[m].s.sleeps {
      assert ChargesOk(a, a.nodes[m].s.sleeps);
      ChargeStays(a, b, ch);
    } else if exists d :: 0 <= d < |a.dumps| && ch in a.dumps[d].sleeps {
      var d :| 0 <= d < |a.dumps| && ch in a.dumps[d].sleeps;
      assert ChargesOk(a, a.dumps[d].sleeps);
      ChargeStays(a, b, ch);
    } else {
      var k: nat :| |a.snaps| <= k && PaidFor(b, ch, k);
      assert SnapBooked(b, k);
    }
  }

  lemma BooksGrow(a: Sys, b: Sys)
    requires Books(a) && Grows(a, b)
    ensures Books(b)
  {
    hide ChargeOk, SnapBooked, Sourced;
    forall k | 0 <= k < |b.snaps| ensures SnapBooked(b, k) {
      if k < |a.snaps| {
        SnapStays(a, b, k);
      }
    }
    forall n | 0 <= n < |b.nodes| ensures ChargesOk(b, b.nodes[n].s.sleeps) {
      forall i | 0 <= i < |b.nodes[n].s.sleeps| ensures ChargeOk(b, b.nodes[n].s.sleeps[i]) {
        SourcedIsOk(a, b, n, b.nodes[n].s.sleeps[i]);
      }
    }
    forall d | 0 <= d < |b.dumps| ensures ChargesOk(b, b.dumps[d].sleeps) {
      var cs := b.dumps[d].sleeps;
      if d < |a.dumps| {
        assert cs == a.dumps[d].sleeps;
        assert ChargesOk(a, cs);
      } else {
        var m :| 0 <= m < |a.nodes| && cs == a.nodes[m].s.sleeps;
        assert ChargesOk(a, cs);
      }
      forall i | 0 <= i < |cs| ensures ChargeOk(b, cs[i]) {
        ChargeStays(a, b, cs[i]);
      }
    }
  }

  // ---------------------------------------------------------------------------
  // Every action keeps the books

  /** A step that hands nothing out, charges nothing and takes at most a dump. */
  ghost predicate Quietly(a: Sys, b: Sys)
  {
    && |a.nodes| <= |b.nodes| && SameRuns(a, b) && SameSnaps(a, b) && |a.snaps| == |b.snaps| && a.dumps <= b.dumps
    && (forall m :: 0 <= m < |a.nodes| ==>
        && b.nodes[m].s.systemSleepMax == a.nodes[m].s.systemSleepMax && b.nodes[m].s.sleeps == a.nodes[m].s.sleeps
        && (a.nodes[m].s.used ==> b.nodes[m].s.used))
    && (forall m :: |a.nodes| <= m < |b.nodes| ==> b.nodes[m].s.sleeps == [])
    && (forall r :: |a.runs| <= r < |b.runs| ==> b.runs[r].session < |b.nodes| && b.nodes[b.runs[r].session].s.used)
    && (forall d :: |a.dumps| <= d < |b.dumps| ==>
        exists m :: 0 <= m < |a.nodes| && b.dumps[d].sleeps == a.nodes[m].s.sleeps)
  }

  lemma QuietlyGrows(a: Sys, b: Sys)
    requires Quietly(a, b)
    ensures Grows(a, b)
  {
    hide SameSnaps, SameRuns;
    forall m, i | 0 <= m < |b.nodes| && 0 <= i < |b.nodes[m].s.sleeps|
      ensures Sourced(a, b, m, b.nodes[m].s.sleeps[i])
    {
      assert m < |a.nodes|;
    }
  }

  lemma OpeningIsQuiet(sys: Sys, a: Action)
    requires a.NewSession?
    ensures Quietly(sys, Apply(sys, a))
  {
  }

  lemma EnteringIsQuiet(sys: Sys, n: nat)
    ensures Quietly(sys, DoBeginFeed(sys, n)) && Quietly(sys, DoSend(sys, n))
  {
    hide MayExecute;
  }

  lemma ResumingIsQuiet(sys: Sys, k: nat)
    ensures Quietly(sys, DoBeginResume(sys, k))
  {
  }

  lemma AbandoningIsQuiet(sys: Sys, k: nat, cancels: bool)
    ensures Quietly(sys, DoAbandon(sys, k, cancels))
  {
  }

  lemma FlagsAreQuiet(sys: Sys, k: nat, state: SnapState)
    ensures Quietly(sys, TakeFlag(sys, k, state)) && Quietly(sys, DoBeginDump(sys, k))
  {
  }

  lemma ReceivingIsQuiet(sys: Sys, n: nat, reply: Reply)
    ensures Quietly(sys, DoReceive(sys, n, reply))
  {
    hide TurnObeys, Observe;
    if n < |sys.nodes| && reply.Answer? {
      ObserveFrame(sys.nodes[n].s, reply.e);
    }
  }

  lemma SnapshotDumpIsQuiet(sys: Sys, k: nat, answer: DumpReply)
    ensures Quietly(sys, DoDumpSnapshot(sys, k, answer))
  {
  }

  lemma SessionDumpIsQuiet(sys: Sys, n: nat, answer: DumpReply)
    ensures Quietly(sys, DoDumpSession(sys, n, answer))
  {
    hide IsIdle;
  }

  lemma ClosingIsQuiet(sys: Sys, n: nat, survives: bool)
    ensures Quietly(sys, DoInstallDeps(sys, n, survives))
    ensures Quietly(sys, DoCloseBegin(sys, n)) && Quietly(sys, DoCloseReset(sys, n))
  {
    hide IsIdle;
  }

  lemma DeliverBooked(sys: Sys, n: nat, r: nat, out: Result2)
    requires n < |sys.nodes| && r < |sys.runs| && sys.runs[r].session == n
    requires Answered(CtxOf(sys, n, r), out)
    ensures forall k :: |sys.snaps| <= k < |Deliver(sys, out).snaps| ==> SnapBooked(Deliver(sys, out), k)
  {
    hide Accounts, SleepTightens, OnlyAborts, CountExact, Limit, Granted, PaysOnly, Charged;
    var b := Deliver(sys, out);
    forall k | |sys.snaps| <= k < |b.snaps| ensures SnapBooked(b, k) {
      assert HandedOut(out.c, out.o.id, out.o.delay);
    }
  }

  lemma DeliverSourced(sys: Sys, n: nat, r: nat, out: Result2)
    requires n < |sys.nodes| && r < |sys.runs| && sys.runs[r].session == n
    requires Answered(CtxOf(sys, n, r), out)
    ensures
      var b := Deliver(sys, out);
      forall m, i :: 0 <= m < |b.nodes| && 0 <= i < |b.nodes[m].s.sleeps| ==> Sourced(sys, b, m, b.nodes[m].s.sleeps[i])
  {
    hide Accounts, SleepTightens, OnlyAborts, HandedOut;
    var b := Deliver(sys, out);
    forall m, i | 0 <= m < |b.nodes| && 0 <= i < |b.nodes[m].s.sleeps|
      ensures Sourced(sys, b, m, b.nodes[m].s.sleeps[i])
    {
      if m != n || i < |sys.nodes[n].s.sleeps| {
        assert b.nodes[m].s.sleeps[i] == sys.nodes[m].s.sleeps[i];
      } else {
        assert PaidFor(b, b.nodes[n].s.sleeps[i], |sys.snaps|);
      }
    }
  }

  lemma DeliverGrows(sys: Sys, n: nat, r: nat, out: Result2)
    requires n < |sys.nodes| && r < |sys.runs| && sys.runs[r].session == n && sys.nodes[n].s.used
    requires Answered(CtxOf(sys, n, r), out)
    ensures Grows(sys, Deliver(sys, out))
  {
    DeliverBooked(sys, n, r, out);
    DeliverSourced(sys, n, r, out);
    hide Accounts, SleepTightens, OnlyAborts, HandedOut, SnapBooked, Sourced;
    var b := Deliver(sys, out);
    assert forall m :: 0 <= m < |sys.nodes| ==> SameBook(sys.nodes[m], b.nodes[m]);
  }

  lemma FailingIsQuiet(sys: Sys, n: nat, aborts: seq<Reply>)
    requires n < |sys.nodes| && sys.nodes[n].turn.Replied? && sys.nodes[n].turn.run < |sys.runs|
    requires sys.nodes[n].turn.event.None?
    ensures Quietly(sys, DoFinish(sys, n, aborts))
  {
  }

  lemma LeavingIsQuiet(sys: Sys, n: nat)
    requires n < |sys.nodes|
    ensures Quietly(sys, Leaving(sys, n))
  {
  }

  /** A session in a turn has been used. */
  lemma TurnUses(sys: Sys, n: nat)
    requires Inv(sys) && Books(sys) && n < |sys.nodes| && !sys.nodes[n].turn.NoTurn?
    ensures sys.nodes[n].s.used
    ensures sys.nodes[n].turn.run < |sys.runs| && sys.runs[sys.nodes[n].turn.run].session == n
  {
    assert NodeOk(sys, n);
    hide NodesOk, DumpsOk, LogOk, SnapsOk, LiveOk, CountOk, ChargesOk, SnapBooked, NotYetSent, NoSnapOf, NoSnapAtStep;
  }

  lemma FinishBooks(sys: Sys, n: nat, aborts: seq<Reply>)
    requires Inv(sys) && Books(sys)
    requires n < |sys.nodes| && sys.nodes[n].turn.Replied? && sys.nodes[n].turn.run < |sys.runs|
    ensures Books(DoFinish(sys, n, aborts))
  {
    TurnUses(sys, n);
    hide Inv, Books, Quietly, Grows, DoFinish, Elsewhere, Answered, Progress, Deliver;
    if sys.nodes[n].turn.event.None? {
      FailingIsQuiet(sys, n, aborts);
      QuietlyGrows(sys, DoFinish(sys, n, aborts));
      BooksGrow(sys, DoFinish(sys, n, aborts));
    } else {
      var left, r := Leaving(sys, n), sys.nodes[n].turn.run;
      FinishAnswers(sys, n, aborts);
      hide Ending;
      LeavingIsQuiet(sys, n);
      QuietlyGrows(sys, left);
      BooksGrow(sys, left);
      DeliverGrows(left, n, r, Progress(CtxOf(left, n, r), sys.nodes[n].turn.event.value, aborts));
      BooksGrow(left, DoFinish(sys, n, aborts));
    }
  }

  /** The destination takes over a dump's account whole; its own is still empty. */
  lemma RestoringGrows(sys: Sys, n: nat, o: nat, b: Sys)
    requires RunsOk(sys) && n < |sys.nodes| && !sys.nodes[n].s.used && o < |sys.dumps| && sys.dumps[o].duration >= 0
    requires
      var t := Restoring(sys, n, sys.dumps[o], o);
      && |b.nodes| == |t.nodes| && (forall m :: 0 <= m < |t.nodes| && m != n ==> b.nodes[m] == t.nodes[m])
      && b.nodes[n].s.sleeps == sys.dumps[o].sleeps && b.nodes[n].s.used
      && b.nodes[n].s.systemSleepMax == sys.nodes[n].s.systemSleepMax
      && SameRuns(t, b) && |b.runs| == |t.runs| && b.snaps == sys.snaps && b.dumps == sys.dumps
    ensures Grows(sys, b)
  {
    forall m, i | 0 <= m < |b.nodes| && 0 <= i < |b.nodes[m].s.sleeps|
      ensures Sourced(sys, b, m, b.nodes[m].s.sleeps[i])
    {
      if m == n {
        assert b.nodes[m].s.sleeps[i] in sys.dumps[o].sleeps;
      }
    }
  }

  lemma ToldGrows(sys: Sys, n: nat, o: nat, e: Event, vm: Vm)
    requires RunsOk(sys) && n < |sys.nodes| && !sys.nodes[n].s.used && o < |sys.dumps| && sys.dumps[o].duration >= 0
    ensures Grows(sys, Told(sys, n, o, e, vm)) && Told(sys, n, o, e, vm).nodes[n].s.used
  {
    hide Observe, Grows, RestoredDuration;
    ObserveFrame(Restoring(sys, n, sys.dumps[o], o).nodes[n].s, e);
    RestoringGrows(sys, n, o, Told(sys, n, o, e, vm));
  }

  /** A load whose worker brings nothing to answer still adopts the dump's account. */
  lemma UnansweredGrows(sys: Sys, n: nat, o: nat, reply: Reply, aborts: seq<Reply>)
    requires RunsOk(sys) && n < |sys.nodes| && !sys.nodes[n].s.used && o < |sys.dumps| && sys.dumps[o].duration >= 0
    requires
      || sys.nodes[n].vm.dead || !reply.Answer? || !Restores(sys.dumps[o], reply.e, reply.vm)
      || reply.e.kind.OkEvent?
    ensures Grows(sys, DoLoad(sys, n, sys.dumps[o], o, reply, aborts))
  {
    hide RunsOk, Observe, Grows, Restores, RestoredDuration, Progress, Deliver;
    if reply.Answer? {
      ObserveFrame(Restoring(sys, n, sys.dumps[o], o).nodes[n].s, reply.e);
    }
    RestoringGrows(sys, n, o, DoLoad(sys, n, sys.dumps[o], o, reply, aborts));
  }

  lemma LoadBooks(sys: Sys, n: nat, o: nat, reply: Reply, aborts: seq<Reply>)
    requires Inv(sys) && Books(sys) && n < |sys.nodes| && IsIdle(sys.nodes[n].s) && !sys.nodes[n].s.used
    requires o < |sys.dumps| && sys.dumps[o].duration >= 0
    ensures Books(DoLoad(sys, n, sys.dumps[o], o, reply, aborts))
  {
    InvRuns(sys);
    hide Inv, RunsOk, Books, Grows, Restores, DoLoad;
    if !sys.nodes[n].vm.dead && reply.Answer? && Restores(sys.dumps[o], reply.e, reply.vm) && !reply.e.kind.OkEvent? {
      LoadAnswerBooks(sys, n, o, reply.e, reply.vm, aborts);
    } else {
      UnansweredGrows(sys, n, o, reply, aborts);
      BooksGrow(sys, DoLoad(sys, n, sys.dumps[o], o, reply, aborts));
    }
  }

  lemma InvRuns(sys: Sys)
    requires Inv(sys)
    ensures RunsOk(sys)
  {
  }

  lemma LoadAnswerBooks(sys: Sys, n: nat, o: nat, e: Event, vm: Vm, aborts: seq<Reply>)
    requires Inv(sys) && Books(sys) && n < |sys.nodes| && IsIdle(sys.nodes[n].s) && !sys.nodes[n].s.used
    requires o < |sys.dumps| && sys.dumps[o].duration >= 0 && !sys.nodes[n].vm.dead
    requires Restores(sys.dumps[o], e, vm) && !e.kind.OkEvent?
    ensures Books(DoLoad(sys, n, sys.dumps[o], o, Answer(e, vm), aborts))
  {
    InvRuns(sys);
    hide Inv, RunsOk, SnapsOk, LogOk, DumpsOk, NoSnapOf, NoSnapAtStep, Books, Grows, Restores, DoLoad, Deliver,
      Progress, Answered, Elsewhere, Told;
    var told, r := Told(sys, n, o, e, vm), |sys.runs|;
    LoadAnswers(sys, n, o, e, vm, aborts);
    ToldGrows(sys, n, o, e, vm);
    BooksGrow(sys, told);
    DeliverGrows(told, n, r, NotCompleted(Progress(CtxOf(told, n, r), e, aborts)));
    BooksGrow(told, Deliver(told, NotCompleted(Progress(CtxOf(told, n, r), e, aborts))));
  }

  /** Every action but two hands nothing out. */
  lemma QuietActions(sys: Sys, a: Action)
    requires !a.Finish? && !a.LoadDump?
    ensures Quietly(sys, Apply(sys, a))
  {
    hide Quietly, DoBeginFeed, DoSend, DoReceive, DoBeginResume, DoAbandon, DoBeginDump, DoDumpSnapshot, DoDumpSession,
      DoInstallDeps, DoCloseBegin, DoCloseReset, TakeFlag;
    match a {
      case NewSession(_, _, _, _, _, _) => OpeningIsQuiet(sys, a);
      case BeginFeed(n) => EnteringIsQuiet(sys, n);
      case Send(n) => EnteringIsQuiet(sys, n);
      case Receive(n, reply) => ReceivingIsQuiet(sys, n, reply);
      case BeginResume(k) => ResumingIsQuiet(sys, k);
      case Abandon(k, cancels) => AbandoningIsQuiet(sys, k, cancels);
      case Claim(k) => FlagsAreQuiet(sys, k, Claimed);
      case Drop(k) => FlagsAreQuiet(sys, k, Spent);
      case BeginDump(k) => FlagsAreQuiet(sys, k, Fresh);
      case DumpSnapshot(k, answer) => SnapshotDumpIsQuiet(sys, k, answer);
      case DumpSession(n, answer) => SessionDumpIsQuiet(sys, n, answer);
      case InstallDeps(n, survives) => ClosingIsQuiet(sys, n, survives);
      case CloseBegin(n) => ClosingIsQuiet(sys, n, false);
      case CloseReset(n) => ClosingIsQuiet(sys, n, false);
    }
  }

  lemma ActionBooks(sys: Sys, a: Action)
    requires Inv(sys) && Books(sys)
    ensures Books(Apply(sys, a))
  {
    if a.Finish? && a.n < |sys.nodes| && sys.nodes[a.n].turn.Replied? && sys.nodes[a.n].turn.run < |sys.runs| {
      hide Inv, Books, DoFinish;
      FinishBooks(sys, a.n, a.aborts);
    } else if a.LoadDump? && a.n < |sys.nodes| && a.d < |sys.dumps| && sys.dumps[a.d].duration >= 0
              && IsIdle(sys.nodes[a.n].s) && !sys.nodes[a.n].s.used {
      hide Inv, Books, DoLoad;
      LoadBooks(sys, a.n, a.d, a.reply, a.aborts);
    } else if !a.Finish? && !a.LoadDump? {
      hide Inv, Books, Grows, Quietly, Apply;
      QuietActions(sys, a);
      QuietlyGrows(sys, Apply(sys, a));
      BooksGrow(sys, Apply(sys, a));
    } else {
      hide Inv, Books;
    }
  }

  /** The books are in order after any sequence of actions whatever. */
  lemma {:induction false} RunBooks(actions: seq<Action>)
    ensures Books(Execute(EMPTY, actions))
    decreases |actions|
  {
    hide Apply, Inv, Books;
    if actions == [] {
      NoBooks();
    } else {
      RunBooks(actions[..|actions| - 1]);
      RunKeeps(actions[..|actions| - 1]);
      ActionBooks(Execute(EMPTY, actions[..|actions| - 1]), actions[|actions| - 1]);
    }
  }

  lemma NoBooks()
    ensures Books(EMPTY)
  {
  }
}
