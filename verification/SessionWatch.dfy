/** What the watchdog and the answers to events come to in every run of the session system. */
module SessionWatch {
  import opened Common
  import opened Session
  import opened SessionOutcome
  import opened SessionSystem
  import opened SessionInvariant
  import opened SessionSafety
  import opened SessionEnds
  import opened SessionTheorems
  import SessionPending
  import SessionObjects

  /** Requests that run code in the sandbox. */
  predicate RunsCode(q: Req) { q.kind.Feed? || q.kind.Resume? || q.kind.AbortFeed? }

  /** If arithmetic is exact and there is a budget, this report left time. */
  predicate InTime(s: Sess, micros: U64)
  {
    Watched(s) && NoOverflow(s, micros) ==> TimeLeft(s, micros)
  }

  predicate SameBudget(s: Sess, t: Sess)
  {
    t.maxDuration == s.maxDuration && t.grace == s.grace && t.backstop == s.backstop
  }

  /** The clock is the last report, a session with a feed is used, and an answer in hand is that report. */
  ghost predicate NodeWatched(nd: Node)
  {
    && Clocked(nd.s)
    && (!nd.turn.NoTurn? || nd.s.pending.Some? ==> nd.s.used)
    && (nd.turn.Replied? && nd.turn.event.Some? ==> nd.s.heard == nd.turn.event.value.micros)
  }

  ghost predicate EntryInTime(sys: Sys, q: Req)
  {
    RunsCode(q) ==> q.session < |sys.nodes| && sys.nodes[q.session].s.used && InTime(sys.nodes[q.session].s, q.heard)
  }

  ghost predicate AllWatched(sys: Sys)
  {
    && (forall n :: 0 <= n < |sys.nodes| ==> NodeWatched(sys.nodes[n]))
    && (forall i :: 0 <= i < |sys.log| ==> EntryInTime(sys, sys.log[i]))
  }

  /** One step, seen from the clocks: budgets of used sessions stay, and what is written is in time. */
  ghost predicate Ticks(a: Sys, b: Sys)
  {
    && |a.nodes| <= |b.nodes| && a.log <= b.log
    && (forall n :: 0 <= n < |a.nodes| && NodeWatched(a.nodes[n]) ==> NodeWatched(b.nodes[n]))
    && (forall n :: 0 <= n < |a.nodes| && a.nodes[n].s.used ==>
        b.nodes[n].s.used && SameBudget(a.nodes[n].s, b.nodes[n].s))
    && (forall n :: |a.nodes| <= n < |b.nodes| ==> NodeWatched(b.nodes[n]))
    && (forall i :: |a.log| <= i < |b.log| && (forall n :: 0 <= n < |a.nodes| ==> NodeWatched(a.nodes[n])) ==>
        EntryInTime(b, b.log[i]))
  }

  lemma TicksKeep(a: Sys, b: Sys)
    requires AllWatched(a) && Ticks(a, b)
    ensures AllWatched(b)
  {
    hide NodeWatched;
    forall i | 0 <= i < |b.log| ensures EntryInTime(b, b.log[i]) {
      if i < |a.log| {
        assert EntryInTime(a, a.log[i]) && b.log[i] == a.log[i];
      }
    }
  }

  lemma NothingTicks(sys: Sys)
    ensures Ticks(sys, sys)
  {
  }

  // ---------------------------------------------------------------------------
  // Answering an event

  ghost predicate ContextTicks(c: Ctx, d: Ctx)
  {
    && d.n == c.n && c.log <= d.log && SameBudget(c.s, d.s) && d.s.used == c.s.used
    && (Clocked(c.s) ==> Clocked(d.s))
    && (d.s.pending == c.s.pending || d.s.pending == None)
    && (Clocked(c.s) ==> forall i :: |c.log| <= i < |d.log| ==>
        d.log[i].session == c.n && InTime(d.s, d.log[i].heard))
  }

  lemma ContextTicksOn(a: Ctx, b: Ctx, c: Ctx)
    requires ContextTicks(a, b) && ContextTicks(b, c)
    ensures ContextTicks(a, c)
  {
  }

  /** An abort is written only in time. */
  lemma AbortWritten(c: Ctx, d: Ctx)
    requires MayExecute(c.s) && d.n == c.n && SameBudget(c.s, d.s) && d.s.used == c.s.used && d.s.pending == c.s.pending
    requires Clocked(c.s) ==> Clocked(d.s)
    requires d.log == c.log + [Req(c.n, AbortFeed, c.run, c.r.step, c.s.heard)]
    ensures ContextTicks(c, d)
  {
    if Measured(c.s) {
      WatchdogMeasures(c.s);
    }
    hide MayExecute;
  }

  lemma {:induction false} AbortTicks(c: Ctx, aborts: seq<Reply>)
    ensures ContextTicks(c, Abort(c, aborts).c)
    decreases |aborts|, 0
  {
    hide Progress, MayExecute, Observe, Continues, ContextTicks;
    var out := Abort(c, aborts);
    if !MayExecute(c.s) || c.vm.dead {
      SameContext(c, out.c);
    } else if aborts != [] && Admit(c, aborts[0]).Answer? {
      var e := aborts[0].e;
      var d := c.(log := c.log + [Req(c.n, AbortFeed, c.run, c.r.step, c.s.heard)], s := Observe(c.s, e),
                  vm := aborts[0].vm, next := c.next + 1);
      ObserveFrame(c.s, e);
      ObserveClocks(c.s, e);
      AbortWritten(c, d);
      ProgressTicks(d, e, aborts[1..]);
      ContextTicksOn(c, d, out.c);
    } else {
      AbortWritten(c, out.c);
    }
  }

  lemma SameContext(c: Ctx, d: Ctx)
    requires d.n == c.n && d.s == c.s && d.log == c.log
    ensures ContextTicks(c, d)
  {
  }

  lemma {:induction false} ProgressTicks(c: Ctx, e: Event, aborts: seq<Reply>)
    ensures ContextTicks(c, Progress(c, e, aborts).c)
    decreases |aborts|, 1
  {
    hide Abort, MayExecute, OverSleepBudget, CapDelay, SatAdd, Limit, CountedRun;
    if Suspends(e.kind) {
      AbortTicks(c.(r := CountedRun(c.r, e.kind)), aborts);
    } else {
      EndingFrames(c, e, aborts);
      hide Progress;
    }
  }

  // ---------------------------------------------------------------------------
  // Every action

  lemma DeliverTicks(sys: Sys, n: nat, r: nat, e: Event, aborts: seq<Reply>)
    requires n < |sys.nodes| && r < |sys.runs| && sys.nodes[n].turn.NoTurn? && sys.nodes[n].s.used
    ensures Ticks(sys, Deliver(sys, Progress(CtxOf(sys, n, r), e, aborts)))
    ensures Ticks(sys, Deliver(sys, NotCompleted(Progress(CtxOf(sys, n, r), e, aborts))))
  {
    hide Progress;
    ProgressTicks(CtxOf(sys, n, r), e, aborts);
  }

  lemma TicksOn(a: Sys, b: Sys, c: Sys)
    requires Ticks(a, b) && Ticks(b, c)
    ensures Ticks(a, c)
  {
    hide NodeWatched;
    forall i | |a.log| <= i < |c.log| && (forall n :: 0 <= n < |a.nodes| ==> NodeWatched(a.nodes[n]))
      ensures EntryInTime(c, c.log[i])
    {
      if i < |b.log| {
        assert EntryInTime(b, b.log[i]) && c.log[i] == b.log[i];
      }
    }
  }

  lemma FinishTicks(sys: Sys, n: nat, aborts: seq<Reply>)
    requires n < |sys.nodes| && sys.nodes[n].turn.Replied? && sys.nodes[n].turn.run < |sys.runs| && sys.nodes[n].s.used
    ensures Ticks(sys, DoFinish(sys, n, aborts))
  {
    hide Progress, Deliver;
    var nd := sys.nodes[n];
    if nd.turn.event.Some? {
      var left := sys.(nodes := sys.nodes[n := nd.(s := nd.s.(inTurn := false), turn := NoTurn)]);
      LeavingTicks(sys, left, n);
      DeliverTicks(left, n, nd.turn.run, nd.turn.event.value, aborts);
      TicksOn(sys, left, DoFinish(sys, n, aborts));
    }
  }

  lemma LeavingTicks(sys: Sys, left: Sys, n: nat)
    requires n < |sys.nodes| && sys.nodes[n].s.used
    requires left == sys.(nodes := sys.nodes[n := sys.nodes[n].(s := sys.nodes[n].s.(inTurn := false), turn := NoTurn)])
    ensures Ticks(sys, left)
  {
  }

  lemma ToldTicks(sys: Sys, n: nat, o: nat, e: Event, vm: Vm)
    requires n < |sys.nodes| && o < |sys.dumps| && sys.dumps[o].duration >= 0 && IsIdle(sys.nodes[n].s)
    requires !sys.nodes[n].s.used && sys.nodes[n].turn.NoTurn?
    ensures Ticks(sys, Told(sys, n, o, e, vm))
  {
    hide RestoredDuration, Observe;
    var s := Restoring(sys, n, sys.dumps[o], o).nodes[n].s;
    ObserveFrame(s, e);
    ObserveClocks(s, e);
  }

  lemma UnansweredTicks(sys: Sys, n: nat, o: nat, reply: Reply, aborts: seq<Reply>)
    requires n < |sys.nodes| && o < |sys.dumps| && sys.dumps[o].duration >= 0 && IsIdle(sys.nodes[n].s)
    requires !sys.nodes[n].s.used && sys.nodes[n].turn.NoTurn? && Unanswered(sys, n, o, reply)
    ensures Ticks(sys, DoLoad(sys, n, sys.dumps[o], o, reply, aborts))
  {
    hide RestoredDuration, Observe, Restores, Progress, Deliver;
    if reply.Answer? {
      var s := Restoring(sys, n, sys.dumps[o], o).nodes[n].s;
      ObserveFrame(s, reply.e);
      ObserveClocks(s, reply.e);
      }
  }

  lemma LoadTicks(sys: Sys, n: nat, o: nat, reply: Reply, aborts: seq<Reply>)
    requires Inv(sys) && n < |sys.nodes| && o < |sys.dumps| && sys.dumps[o].duration >= 0 && IsIdle(sys.nodes[n].s)
    requires !sys.nodes[n].s.used
    ensures Ticks(sys, DoLoad(sys, n, sys.dumps[o], o, reply, aborts))
  {
    assert sys.nodes[n].turn.NoTurn? by { assert NodeOk(sys, n); }
    hide Inv, Ticks, Ending, Answered, Elsewhere, Progress, NotCompleted, Deliver, DoLoad, Restores, Told, CtxOf;
    if Unanswered(sys, n, o, reply) {
      UnansweredTicks(sys, n, o, reply, aborts);
    } else {
      var told, r := Told(sys, n, o, reply.e, reply.vm), |sys.runs|;
      LoadAnswers(sys, n, o, reply.e, reply.vm, aborts);
      ToldTicks(sys, n, o, reply.e, reply.vm);
      DeliverTicks(told, n, r, reply.e, aborts);
      TicksOn(sys, told, Deliver(told, NotCompleted(Progress(CtxOf(told, n, r), reply.e, aborts))));
    }
  }

  lemma OpenTicks(sys: Sys, a: Action)
    requires a.NewSession?
    ensures Ticks(sys, Apply(sys, a))
  {
  }

  lemma BeginTicks(sys: Sys, n: nat)
    ensures Ticks(sys, DoBeginFeed(sys, n))
  {
  }

  lemma SendTicks(sys: Sys, n: nat)
    requires n < |sys.nodes| && !sys.nodes[n].turn.NoTurn? ==> sys.nodes[n].s.used
    ensures Ticks(sys, DoSend(sys, n))
  {
    if n < |sys.nodes| && Measured(sys.nodes[n].s) {
      WatchdogMeasures(sys.nodes[n].s);
    }
    hide MayExecute;
  }

  lemma ReceiveTicks(sys: Sys, n: nat, reply: Reply)
    ensures Ticks(sys, DoReceive(sys, n, reply))
  {
    if n < |sys.nodes| && reply.Answer? {
      ObserveFrame(sys.nodes[n].s, reply.e);
      ObserveClocks(sys.nodes[n].s, reply.e);
    }
    hide Observe, TurnObeys;
  }

  lemma ResumeTicks(sys: Sys, k: nat)
    ensures Ticks(sys, DoBeginResume(sys, k))
  {
  }

  lemma TakeTicks(sys: Sys, n: nat, answer: DumpReply, suspensions: U64, lost: nat, from: Option<nat>)
    requires n < |sys.nodes|
    ensures Ticks(sys, TakeDump(sys, n, answer, suspensions, lost, from))
  {
  }

  lemma DumpTicks(sys: Sys, k: nat, n: nat, answer: DumpReply)
    ensures Ticks(sys, DoDumpSnapshot(sys, k, answer)) && Ticks(sys, DoDumpSession(sys, n, answer))
  {
    NothingTicks(sys);
    if n < |sys.nodes| && IsIdle(sys.nodes[n].s) {
      TakeTicks(sys, n, answer, 0, if sys.nodes[n].vm.suspended then |sys.nodes[n].vm.hist| else 0, None);
    }
    if k < |sys.snaps| && Active(sys, k) {
      var r, locked := sys.runs[sys.snaps[k].run], sys.(dumping := sys.dumping - multiset{k});
      TakeTicks(locked, r.session, answer, r.suspensions, r.lost, Some(sys.snaps[k].run));
    }
    hide TakeDump, NodeWatched, InTime, Active;
  }

  lemma CloseTicks(sys: Sys, n: nat, survives: bool)
    ensures Ticks(sys, DoInstallDeps(sys, n, survives)) && Ticks(sys, DoCloseReset(sys, n))
  {
  }

  lemma LeaveTicks(sys: Sys, n: nat)
    ensures Ticks(sys, DoCloseBegin(sys, n))
  {
  }

  lemma FlagTicks(sys: Sys, k: nat, state: SnapState, cancels: bool)
    ensures Ticks(sys, TakeFlag(sys, k, state)) && Ticks(sys, DoAbandon(sys, k, cancels))
    ensures Ticks(sys, DoBeginDump(sys, k))
  {
  }

  lemma ActionTicks(sys: Sys, a: Action)
    requires Inv(sys) && AllWatched(sys)
    ensures Ticks(sys, Apply(sys, a))
  {
    hide Inv, Ticks, DoFinish, DoLoad, DoAbandon, DoBeginDump, DoDumpSnapshot, DoDumpSession, DoInstallDeps, TakeFlag,
      DoBeginFeed, DoSend, DoReceive, DoBeginResume, DoCloseBegin, DoCloseReset;
    NothingTicks(sys);
    match a {
      case NewSession(_, _, _, _, _, _) => OpenTicks(sys, a);
      case BeginFeed(n) => BeginTicks(sys, n);
      case Send(n) => SendTicks(sys, n);
      case Receive(n, reply) => ReceiveTicks(sys, n, reply);
      case Finish(n, aborts) =>
        if n < |sys.nodes| && sys.nodes[n].turn.Replied? && sys.nodes[n].turn.run < |sys.runs| {
          FinishTicks(sys, n, aborts);
        }
      case Claim(k) => FlagTicks(sys, k, Claimed, false);
      case Drop(k) => FlagTicks(sys, k, Spent, false);
      case BeginDump(k) => FlagTicks(sys, k, Fresh, false);
      case Abandon(k, cancels) => FlagTicks(sys, k, Fresh, cancels);
      case BeginResume(k) => ResumeTicks(sys, k);
      case DumpSnapshot(k, answer) => DumpTicks(sys, k, 0, answer);
      case DumpSession(n, answer) => DumpTicks(sys, 0, n, answer);
      case LoadDump(n, d, reply, aborts) =>
        if n < |sys.nodes| && d < |sys.dumps| && sys.dumps[d].duration >= 0
           && IsIdle(sys.nodes[n].s) && !sys.nodes[n].s.used {
          LoadTicks(sys, n, d, reply, aborts);
        }
      case InstallDeps(n, survives) => CloseTicks(sys, n, survives);
      case CloseBegin(n) => LeaveTicks(sys, n);
      case CloseReset(n) => CloseTicks(sys, n, true);
    }
  }

  lemma {:induction false} RunWatched(actions: seq<Action>)
    ensures AllWatched(Execute(EMPTY, actions))
    decreases |actions|
  {
    hide Inv, Apply, Ticks;
    if actions == [] {
      hide Execute;
      ExecuteNothing();
    } else {
      hide AllWatched;
      var init, a := actions[..|actions| - 1], actions[|actions| - 1];
      RunWatched(init);
      RunKeeps(init);
      ActionTicks(Execute(EMPTY, init), a);
      TicksKeep(Execute(EMPTY, init), Apply(Execute(EMPTY, init), a));
    }
  }

  // ---------------------------------------------------------------------------
  // The watchdog over whole runs

  /**
   Whatever was written to run code was written in time: the execution time its session had been
   told of last was below the session's budget with its grace, wherever the sums stay in 64 bits.
   */
  lemma CodeRunsInTime(actions: seq<Action>, i: nat)
    requires i < |Execute(EMPTY, actions).log| && RunsCode(Execute(EMPTY, actions).log[i])
    ensures
      var sys := Execute(EMPTY, actions);
      var q := sys.log[i];
      && q.session < |sys.nodes|
      && var s := sys.nodes[q.session].s;
         s.backstop && s.maxDuration > 0 && s.grace >= 0 && s.maxDuration + s.grace < TWO63
         && 1000 * q.heard < TWO63
         ==> 1000 * q.heard < s.maxDuration + s.grace
  {
    hide Execute, NodeWatched;
    RunWatched(actions);
    assert EntryInTime(Execute(EMPTY, actions), Execute(EMPTY, actions).log[i]);
  }

  /**
   A turn's request is refused if and only if its session has a duration budget and the execution
   time reported last has used it up, grace and all. One that is not refused is written, with that
   report, unless the worker is dead.
   */
  lemma TurnRefusedIff(actions: seq<Action>, n: nat)
    requires
      var sys := Execute(EMPTY, actions);
      && n < |sys.nodes| && sys.nodes[n].turn.Begun? && sys.nodes[n].turn.run < |sys.runs|
      && NoOverflow(sys.nodes[n].s, sys.nodes[n].s.heard)
    ensures
      var sys := Execute(EMPTY, actions);
      var b, s := Apply(sys, Send(n)), sys.nodes[n].s;
      var spent := s.backstop && s.maxDuration > 0 && 1000 * s.heard >= s.maxDuration + s.grace;
      && n < |b.nodes|
      && (b.nodes[n].turn.Replied? && b.nodes[n].turn.why.Unsent? <==> spent)
      && (spent || sys.nodes[n].vm.dead ==> b.log == sys.log)
      && (!spent && !sys.nodes[n].vm.dead ==>
          && |b.log| == |sys.log| + 1 && sys.log <= b.log && RunsCode(b.log[|sys.log|])
          && b.log[|sys.log|].session == n && b.log[|sys.log|].heard == s.heard)
  {
    hide Execute;
    RunWatched(actions);
    var s := Execute(EMPTY, actions).nodes[n].s;
    assert NodeWatched(Execute(EMPTY, actions).nodes[n]);
    WatchdogMeasures(s);
    hide AllWatched, MayExecute, Clocked;
  }

  // ---------------------------------------------------------------------------
  // What has been heard

  /** The event of a turn or load that is looked at last. */
  function LastLooked(sys: Sys, n: nat, r: nat, e: Event, aborts: seq<Reply>): Verdict
    requires n < |sys.nodes| && r < |sys.runs|
  {
    Decisive(CtxOf(sys, n, r), e, aborts)
  }

  /** The turn is left, its event is about to be looked at. */
  function Leaves(sys: Sys, n: nat): Sys
    requires n < |sys.nodes|
  {
    sys.(nodes := sys.nodes[n := sys.nodes[n].(s := sys.nodes[n].s.(inTurn := false), turn := NoTurn)])
  }

  /** The report session n has after an action: a new one if the action brought it an answer, else the old one. */
  ghost function Report(sys: Sys, a: Action, n: nat): U64
    requires n < |sys.nodes|
  {
    var nd := sys.nodes[n];
    match a
    case Receive(m, Answer(e, _)) =>
      if m == n && nd.turn.Waiting? && TurnObeys(nd.turn, nd.vm, a.reply, sys.next, n) then e.micros else nd.s.heard
    case Finish(m, aborts) =>
      if m == n && nd.turn.Replied? && nd.turn.run < |sys.runs| && nd.turn.event.Some?
      then LastLooked(Leaves(sys, n), n, nd.turn.run, nd.turn.event.value, aborts).e.micros else nd.s.heard
    case LoadDump(m, d, Answer(e, vm), aborts) =>
      if m == n && d < |sys.dumps| && sys.dumps[d].duration >= 0 && IsIdle(nd.s) && !nd.s.used && !nd.vm.dead
         && Restores(sys.dumps[d], e, vm)
      then (if e.kind.OkEvent? then e.micros
            else LastLooked(Told(sys, n, d, e, vm), n, |sys.runs|, e, aborts).e.micros)
      else nd.s.heard
    case _ => nd.s.heard
  }

  lemma ProgressReports(c: Ctx, e: Event, aborts: seq<Reply>)
    requires c.s.heard == e.micros
    ensures Progress(c, e, aborts).c.s.heard == Decisive(c, e, aborts).e.micros
  {
    hide Progress, Decisive, HandsOut, FeedOver;
    ProgressTells(c, e, aborts);
    DecisiveCostsNothing(c, e, aborts);
  }

  lemma DeliverReports(sys: Sys, n: nat, r: nat, e: Event, aborts: seq<Reply>)
    requires n < |sys.nodes| && r < |sys.runs| && sys.nodes[n].s.heard == e.micros
    ensures
      Deliver(sys, Progress(CtxOf(sys, n, r), e, aborts)).nodes[n].s.heard == LastLooked(sys, n, r, e, aborts).e.micros
    ensures
      Deliver(sys, NotCompleted(Progress(CtxOf(sys, n, r), e, aborts))).nodes[n].s.heard
      == LastLooked(sys, n, r, e, aborts).e.micros
  {
    hide Progress, Decisive;
    ProgressReports(CtxOf(sys, n, r), e, aborts);
  }

  lemma FinishReports(sys: Sys, n: nat, aborts: seq<Reply>)
    requires n < |sys.nodes| && NodeWatched(sys.nodes[n])
    ensures Apply(sys, Finish(n, aborts)).nodes[n].s.heard == Report(sys, Finish(n, aborts), n)
  {
    hide LastLooked, Progress, Deliver;
    var nd := sys.nodes[n];
    if nd.turn.Replied? && nd.turn.run < |sys.runs| && nd.turn.event.Some? {
      DeliverReports(Leaves(sys, n), n, nd.turn.run, nd.turn.event.value, aborts);
    }
  }

  lemma LoadReports(sys: Sys, n: nat, d: nat, reply: Reply, aborts: seq<Reply>)
    requires Inv(sys) && n < |sys.nodes|
    ensures Apply(sys, LoadDump(n, d, reply, aborts)).nodes[n].s.heard == Report(sys, LoadDump(n, d, reply, aborts), n)
  {
    hide LastLooked, Progress, Deliver, Restores, Inv, Ending, Answered, Elsewhere;
    if d < |sys.dumps| && sys.dumps[d].duration >= 0 && IsIdle(sys.nodes[n].s) && !sys.nodes[n].s.used
       && !Unanswered(sys, n, d, reply) {
      LoadAnswers(sys, n, d, reply.e, reply.vm, aborts);
      DeliverReports(Told(sys, n, d, reply.e, reply.vm), n, |sys.runs|, reply.e, aborts);
    }
  }

  lemma OtherReports(sys: Sys, a: Action, n: nat)
    requires n < |sys.nodes| && !a.Finish? && !a.LoadDump?
    ensures n < |Apply(sys, a).nodes| && Apply(sys, a).nodes[n].s.heard == Report(sys, a, n)
  {
    hide LastLooked, MayExecute, TurnObeys;
  }

  /**
   What a session takes for its execution time is what the last event it was answered with reported:
   the answer of a turn or load, or of the last abort of an over-budget one.
   */
  lemma ReportIsTheLast(actions: seq<Action>, a: Action, n: nat)
    requires n < |Execute(EMPTY, actions).nodes|
    ensures
      var sys := Execute(EMPTY, actions);
      n < |Apply(sys, a).nodes| && Apply(sys, a).nodes[n].s.heard == Report(sys, a, n)
  {
    hide Execute;
    RunKeeps(actions);
    RunWatched(actions);
    var sys := Execute(EMPTY, actions);
    assert NodeWatched(sys.nodes[n]);
    hide Inv, AllWatched, NodeWatched;
    if (a.Finish? || a.LoadDump?) && a.n == n {
      hide Apply;
      match a {
        case Finish(_, aborts) => FinishReports(sys, n, aborts);
        case LoadDump(_, d, reply, aborts) => LoadReports(sys, n, d, reply, aborts);
      }
    } else if a.Finish? || a.LoadDump? {
      hide Apply, Elsewhere;
      SessionPending.ActionElsewhere(sys, a);
      SameElsewhere(sys, Apply(sys, a), a.n, n);
    } else {
      OtherReports(sys, a, n);
    }
  }

  lemma SameElsewhere(a: Sys, b: Sys, m: nat, n: nat)
    requires Elsewhere(a, b, m) && n < |a.nodes| && n != m
    ensures n < |b.nodes| && b.nodes[n] == a.nodes[n]
  {
  }

  /** Aborts by session n: the first with this report, each further one with that of the answer before. */
  ghost predicate CarryReports(n: nat, heard: U64, reqs: seq<Req>, aborts: seq<Reply>)
  {
    && |reqs| <= |aborts| + 1
    && forall j :: 0 <= j < |reqs| ==>
      && reqs[j].kind.AbortFeed? && reqs[j].session == n
      && (j == 0 ==> reqs[j].heard == heard)
      && (j > 0 ==> !aborts[j - 1].Crash? && reqs[j].heard == aborts[j - 1].e.micros)
  }

  lemma CarryOn(n: nat, first: Req, a: Reply, reqs: seq<Req>, aborts: seq<Reply>)
    requires first.kind.AbortFeed? && first.session == n && !a.Crash? && CarryReports(n, a.e.micros, reqs, aborts)
    ensures CarryReports(n, first.heard, [first] + reqs, [a] + aborts)
  {
    var all, told := [first] + reqs, [a] + aborts;
    forall j | 0 < j < |all| ensures all[j] == reqs[j - 1] && (j > 1 ==> told[j - 1] == aborts[j - 2]) {
    }
  }

  /** An abort is written with the report of the event it is for. */
  lemma {:induction false} AbortsCarryReports(c: Ctx, e: Event, aborts: seq<Reply>)
    ensures
      var log := Progress(c, e, aborts).c.log;
      c.log <= log && CarryReports(c.n, c.s.heard, log[|c.log|..], aborts)
    decreases |aborts|
  {
    hide Progress, Abort, MayExecute, OverBudget, CarryReports, AbortAnswered;
    var log := Progress(c, e, aborts).c.log;
    if OverBudget(c, e) {
      OverAborts(c, e, aborts);
      if AbortAnswered(c, aborts) {
        AnswerIsThere(c, aborts);
        AnsweredAbort(c, aborts);
        var d, rest := Aborted(c, aborts[0]), aborts[1..];
        ObserveClocks(c.s, aborts[0].e);
        AbortsCarryReports(d, aborts[0].e, rest);
        var first := Req(c.n, AbortFeed, c.run, c.r.step, c.s.heard);
        CarryOn(c.n, first, aborts[0], log[|d.log|..], rest);
        assert log[|c.log|..] == [first] + log[|d.log|..] && aborts == [aborts[0]] + rest;
      } else {
        UnansweredLog(c, aborts);
        FewReports(c.n, c.s.heard, log[|c.log|..], aborts);
      }
    } else {
      DecidedAtOnce(c, e, aborts);
      FewReports(c.n, c.s.heard, log[|c.log|..], aborts);
    }
  }

  lemma FewReports(n: nat, heard: U64, reqs: seq<Req>, aborts: seq<Reply>)
    requires reqs == [] || (|reqs| == 1 && reqs[0].kind.AbortFeed? && reqs[0].session == n && reqs[0].heard == heard)
    ensures CarryReports(n, heard, reqs, aborts)
  {
  }

  lemma UnansweredLog(c: Ctx, aborts: seq<Reply>)
    requires !AbortAnswered(c, aborts)
    ensures
      var log := Abort(AfterCounting(c), aborts).c.log;
      log == c.log || log == c.log + [Req(c.n, AbortFeed, c.run, c.r.step, c.s.heard)]
  {
    hide Progress, MayExecute, Observe, Continues;
  }

  lemma DecidedAtOnce(c: Ctx, e: Event, aborts: seq<Reply>)
    requires !OverBudget(c, e)
    ensures Progress(c, e, aborts).c.log == c.log
  {
    hide Abort, MayExecute;
  }

  // ---------------------------------------------------------------------------
  // What a turn comes to, in every run

  /** The context in which a turn's event is answered. */
  function Finishing(sys: Sys, n: nat): Ctx
    requires n < |sys.nodes| && sys.nodes[n].turn.Replied? && sys.nodes[n].turn.run < |sys.runs|
  {
    CtxOf(Leaves(sys, n), n, sys.nodes[n].turn.run)
  }

  /** The session has handed out one more snapshot: this one. */
  ghost predicate Issued(sys: Sys, b: Sys, n: nat, v: Verdict)
  {
    && n < |sys.nodes| == |b.nodes| && v.c.run < |b.runs|
    && b.nodes[n].last.Suspended?
    && var s, r, o := b.nodes[n].s, b.runs[v.c.run], b.nodes[n].last;
       && s.pending == Some(v.c.run)
       && o.id == v.e.id
       && o.delay == (if SystemSleep(v.e) then Some(Allowed(s.systemSleepMax, v.e.delay.value)) else None)
       && r.suspensions == CountWith(v.c.r) <= LimitInForce(s)
       && (SystemSleep(v.e) && s.hasSleepLimit ==>
           && s.sleepUsed <= s.maxTotalSleep
           && (!PaidBefore(v.c.r) ==> o.delay.value <= s.maxTotalSleep - sys.nodes[n].s.sleepUsed))
       && s.sleepUsed == (
            if !SystemSleep(v.e) || PaidBefore(v.c.r) then sys.nodes[n].s.sleepUsed
            else if sys.nodes[n].s.sleepUsed + o.delay.value > MAX_DURATION then MAX_DURATION
            else sys.nodes[n].s.sleepUsed + o.delay.value)
       && |b.snaps| == |sys.snaps| + 1 && sys.snaps <= b.snaps
       && b.snaps[|sys.snaps|] == Snap(v.c.run, r.step, Last(b.nodes[n].vm), o.delay, Fresh)
  }

  /** The session's feed is over and has cost nothing since. */
  ghost predicate Concluded(sys: Sys, b: Sys, n: nat)
  {
    && n < |sys.nodes| == |b.nodes|
    && b.nodes[n].s.pending.None? && !b.nodes[n].s.inTurn && b.nodes[n].turn.NoTurn?
    && b.nodes[n].s.sleepUsed == sys.nodes[n].s.sleepUsed && b.nodes[n].s.sleeps == sys.nodes[n].s.sleeps
    && b.snaps == sys.snaps
  }

  lemma DeliverTells(sys: Sys, left: Sys, n: nat, r: nat, e: Event, aborts: seq<Reply>)
    requires n < |left.nodes| && r < |left.runs| && left.nodes[n].turn.NoTurn? && !left.nodes[n].s.inTurn
    requires |left.nodes| == |sys.nodes| && left.snaps == sys.snaps
    requires left.nodes[n].s.sleepUsed == sys.nodes[n].s.sleepUsed && left.nodes[n].s.sleeps == sys.nodes[n].s.sleeps
    ensures
      var v := Decisive(CtxOf(left, n, r), e, aborts);
      var b := Deliver(left, Progress(CtxOf(left, n, r), e, aborts));
      && b.nodes[n].last == Progress(CtxOf(left, n, r), e, aborts).o
      && (b.nodes[n].last.Completed? <==> Completes(v)) && (b.nodes[n].last.Completed? ==> Concluded(sys, b, n))
      && (b.nodes[n].last.Suspended? <==> SuspendsAt(v)) && (b.nodes[n].last.Suspended? ==> Issued(sys, b, n, v))
      && (!b.nodes[n].last.Suspended? ==> b.snaps == sys.snaps)
  {
    hide Progress, Decisive, Completes, SuspendsAt;
    var c := CtxOf(left, n, r);
    ProgressTells(c, e, aborts);
    DecisiveCostsNothing(c, e, aborts);
    SessionObjects.ProgressStays(c, e, aborts);
    DecisiveKeepsStep(c, e, aborts);
  }

  lemma LoadTells(sys: Sys, told: Sys, n: nat, r: nat, e: Event, aborts: seq<Reply>)
    requires n < |told.nodes| && r < |told.runs| && told.nodes[n].turn.NoTurn? && !told.nodes[n].s.inTurn
    ensures
      var v := Decisive(CtxOf(told, n, r), e, aborts);
      var b := Deliver(told, NotCompleted(Progress(CtxOf(told, n, r), e, aborts)));
      && !b.nodes[n].last.Completed?
      && (b.nodes[n].last.Suspended? <==> SuspendsAt(v)) && (b.nodes[n].last.Suspended? ==> Issued(told, b, n, v))
      && (!b.nodes[n].last.Suspended? ==> b.snaps == told.snaps)
  {
    hide Progress, Decisive, Completes, SuspendsAt, Issued;
    DeliverTells(told, told, n, r, e, aborts);
    hide Issued, Concluded;
  }

  lemma {:induction false} DecisiveKeepsStep(c: Ctx, e: Event, aborts: seq<Reply>)
    ensures
      var v := Decisive(c, e, aborts);
      && v.c.r.step == c.r.step && v.c.s.systemSleepMax == c.s.systemSleepMax && v.c.s.inTurn == c.s.inTurn
    decreases |aborts|
  {
    hide OverBudget, AbortAnswered, Observe;
    if OverBudget(c, e) && AbortAnswered(c, aborts) {
      assert aborts != [] && aborts[0].Answer? by { AnswerIsThere(c, aborts); }
      ObserveFrame(c.s, aborts[0].e);
      DecisiveKeepsStep(Aborted(c, aborts[0]), aborts[0].e, aborts[1..]);
    }
  }

  /**
   In every run a turn that was answered completes if and only if the deciding event is a readable
   completion, and suspends if and only if that is a readable suspension within the budgets; its
   abort is refused if and only if it is over budget when the time is used up.
   */
  lemma FinishedAsDecided(actions: seq<Action>, n: nat, aborts: seq<Reply>)
    requires
      var sys := Execute(EMPTY, actions);
      n < |sys.nodes| && sys.nodes[n].turn.Replied? && sys.nodes[n].turn.run < |sys.runs|
      && sys.nodes[n].turn.event.Some?
    ensures
      var sys := Execute(EMPTY, actions);
      var b := Apply(sys, Finish(n, aborts));
      var v := Decisive(Finishing(sys, n), sys.nodes[n].turn.event.value, aborts);
      && |b.nodes| == |sys.nodes|
      && (b.nodes[n].last.Completed? <==> Completes(v)) && (b.nodes[n].last.Completed? ==> Concluded(sys, b, n))
      && (b.nodes[n].last.Suspended? <==> SuspendsAt(v)) && (b.nodes[n].last.Suspended? ==> Issued(sys, b, n, v))
      && (!b.nodes[n].last.Suspended? ==> b.snaps == sys.snaps)
      && (NoOverflow(v.c.s, v.c.s.heard) ==>
          (b.nodes[n].last == Failed(AbortRefused) <==> OverBudget(v.c, v.e) && OutOfTime(v.c.s)))
  {
    hide Execute, Progress, Decisive, Completes, SuspendsAt, Concluded, Issued, Deliver, OverBudget;
    RunWatched(actions);
    var sys := Execute(EMPTY, actions);
    assert NodeWatched(sys.nodes[n]);
    hide AllWatched;
    var left, r, e := Leaves(sys, n), sys.nodes[n].turn.run, sys.nodes[n].turn.event.value;
    DeliverTells(sys, left, n, r, e, aborts);
    RefusedAsDecided(CtxOf(left, n, r), e, aborts);
  }

  lemma RefusedAsDecided(c: Ctx, e: Event, aborts: seq<Reply>)
    requires Clocked(c.s)
    ensures
      var v, o := Decisive(c, e, aborts), Progress(c, e, aborts).o;
      NoOverflow(v.c.s, v.c.s.heard) ==> (o == Failed(AbortRefused) <==> OverBudget(v.c, v.e) && OutOfTime(v.c.s))
  {
    hide Progress, Decisive, OverBudget, OutOfTime, NoOverflow;
    ProgressTells(c, e, aborts);
    DecisiveCostsNothing(c, e, aborts);
    var v := Decisive(c, e, aborts);
    if Measured(v.c.s) {
      WatchdogMeasures(v.c.s);
    }
  }

  /** The destination of a load, just before what its worker re-emits is answered. */
  function Restored(sys: Sys, n: nat, d: nat, reply: Reply): Sys
    requires n < |sys.nodes| && d < |sys.dumps| && sys.dumps[d].duration >= 0 && reply.Answer?
  {
    Told(sys, n, d, reply.e, reply.vm)
  }

  /**
   In every run a load ends as an idle session if and only if the worker says so, and hands out a
   snapshot if and only if the deciding event is a readable suspension within the budgets; the
   suspension a dump holds is not counted again, and paying starts from what the dump had paid.
   */
  lemma LoadedAsDecided(actions: seq<Action>, n: nat, d: nat, reply: Reply, aborts: seq<Reply>)
    requires
      var sys := Execute(EMPTY, actions);
      && n < |sys.nodes| && d < |sys.dumps| && sys.dumps[d].duration >= 0
      && IsIdle(sys.nodes[n].s) && !sys.nodes[n].s.used && !sys.nodes[n].vm.dead
      && reply.Answer? && Restores(sys.dumps[d], reply.e, reply.vm)
    ensures
      var sys := Execute(EMPTY, actions);
      var b := Apply(sys, LoadDump(n, d, reply, aborts));
      var told, r := Restored(sys, n, d, reply), |sys.runs|;
      && |b.nodes| == |sys.nodes| && |told.nodes| == |sys.nodes| && |told.runs| == r + 1
      && told.nodes[n].s.sleepUsed == sys.dumps[d].sleepUsed && told.snaps == sys.snaps
      && told.runs[r].suspensions == sys.dumps[d].suspensions && CountWith(told.runs[r]) == sys.dumps[d].suspensions
      && var v := Decisive(CtxOf(told, n, r), reply.e, aborts);
         && (b.nodes[n].last.Completed? <==> reply.e.kind.OkEvent?)
         && (b.nodes[n].last.Suspended? <==> !reply.e.kind.OkEvent? && SuspendsAt(v))
         && (b.nodes[n].last.Suspended? ==> Issued(told, b, n, v))
         && (!b.nodes[n].last.Suspended? ==> b.snaps == sys.snaps)
  {
    hide Execute, Progress, Decisive, SuspendsAt, Issued, Deliver, Ending, Answered, Elsewhere, Restores, NotCompleted;
    RunKeeps(actions);
    var sys := Execute(EMPTY, actions);
    assert sys.nodes[n].turn.NoTurn? by { assert NodeOk(sys, n); }
    var told, r := Restored(sys, n, d, reply), |sys.runs|;
    RestoredStarts(sys, n, d, reply);
    hide Inv, Told, Restored;
    if !reply.e.kind.OkEvent? {
      LoadAnswers(sys, n, d, reply.e, reply.vm, aborts);
      LoadTells(sys, told, n, r, reply.e, aborts);
    } else {
      OkIsNoSuspension(CtxOf(told, n, r), reply.e, aborts);
    }
  }

  lemma RestoredStarts(sys: Sys, n: nat, d: nat, reply: Reply)
    requires n < |sys.nodes| && d < |sys.dumps| && sys.dumps[d].duration >= 0 && reply.Answer? && IsIdle(sys.nodes[n].s)
    ensures
      var told, r := Restored(sys, n, d, reply), |sys.runs|;
      && told == Told(sys, n, d, reply.e, reply.vm)
      && |told.nodes| == |sys.nodes| && |told.runs| == r + 1 && told.snaps == sys.snaps
      && told.nodes[n].turn == sys.nodes[n].turn && !told.nodes[n].s.inTurn
      && told.nodes[n].s.sleepUsed == sys.dumps[d].sleepUsed
      && told.runs[r].suspensions == sys.dumps[d].suspensions && CountWith(told.runs[r]) == sys.dumps[d].suspensions
  {
    ObserveFrame(Restoring(sys, n, sys.dumps[d], d).nodes[n].s, reply.e);
    hide Observe, RestoredDuration;
  }

  lemma OkIsNoSuspension(c: Ctx, e: Event, aborts: seq<Reply>)
    requires e.kind.OkEvent?
    ensures !SuspendsAt(Decisive(c, e, aborts))
  {
  }

  /**
   A turn that brought no event cancels its run and hands out nothing; a feed that was not resumed
   yet was not pending, and a resumed one is so no more.
   */
  lemma UnheardTurnsEnd(actions: seq<Action>, n: nat, aborts: seq<Reply>)
    requires
      var sys := Execute(EMPTY, actions);
      n < |sys.nodes| && sys.nodes[n].turn.Replied? && sys.nodes[n].turn.event.None?
    ensures
      var sys := Execute(EMPTY, actions);
      var b, t := Apply(sys, Finish(n, aborts)), sys.nodes[n].turn;
      && |b.nodes| == |sys.nodes| && t.run < |b.runs|
      && b.runs[t.run].cancelled && Concluded(sys, b, n) && b.log == sys.log && b.nodes[n].vm == sys.nodes[n].vm
      && b.nodes[n].last == (if t.feed && t.why.Unsent? then sys.nodes[n].last else Failed(t.why))
  {
    hide Execute;
    RunKeeps(actions);
    var sys := Execute(EMPTY, actions);
    assert NodeOk(sys, n);
    hide Inv;
  }

  // ---------------------------------------------------------------------------
  // A feed that goes well

  /** Written, answered by a completion, finished. */
  function Through(n: nat, e: Event, vm: Vm): seq<Action>
  {
    [Send(n), Receive(n, Answer(e, vm)), Finish(n, [])]
  }

  /**
   In every run, a turn of a feed or of a resume whose worker is alive and whose time is not used up
   completes when the worker answers with a readable completion. The session can be used again, the
   account is as before, and no snapshot is out for it.
   */
  lemma CompletedTurnsComplete(actions: seq<Action>, n: nat, e: Event, vm: Vm)
    requires
      var sys := Execute(EMPTY, actions);
      && n < |sys.nodes| && sys.nodes[n].turn.Begun? && !sys.nodes[n].vm.dead
      && NoOverflow(sys.nodes[n].s, sys.nodes[n].s.heard) && !OutOfTime(sys.nodes[n].s)
      && TurnObeys(Waiting(sys.nodes[n].turn.run, sys.nodes[n].turn.feed), sys.nodes[n].vm, Answer(e, vm), sys.next, n)
    requires e.kind.Complete? && e.decodes
    ensures
      var sys := Execute(EMPTY, actions);
      var b := Execute(EMPTY, actions + Through(n, e, vm));
      && n < |b.nodes| && b.nodes[n].last.Completed? && IsIdle(b.nodes[n].s)
      && b.nodes[n].s.sleepUsed == sys.nodes[n].s.sleepUsed && b.nodes[n].s.sleeps == sys.nodes[n].s.sleeps
      && b.snaps == sys.snaps && b.nodes[n].vm == vm
  {
    RunWatched(actions);
    RunKeeps(actions);
    var sys := Execute(EMPTY, actions);
    assert NodeWatched(sys.nodes[n]) && NodeOk(sys, n);
    assert sys.nodes[n].turn.run < |sys.runs| && !sys.nodes[n].s.closed;
    hide Inv, AllWatched, NodeOk, Execute, OutOfTime, NoOverflow;
    WatchdogMeasures(sys.nodes[n].s);
    ExecuteThrough(actions, n, e, vm);
    CompletesThrough(sys, n, e, vm);
  }

  lemma ExecuteThrough(actions: seq<Action>, n: nat, e: Event, vm: Vm)
    ensures Execute(EMPTY, actions + Through(n, e, vm))
         == Apply(Apply(Apply(Execute(EMPTY, actions), Send(n)), Receive(n, Answer(e, vm))), Finish(n, []))
  {
    hide Execute, Apply;
    var a, b, c := Send(n), Receive(n, Answer(e, vm)), Finish(n, []);
    assert actions + Through(n, e, vm) == (actions + [a, b]) + [c];
    SessionPending.ExecuteTwo(actions, a, b);
    ExecuteOneMore(actions + [a, b], c);
  }

  lemma CompletesThrough(sys: Sys, n: nat, e: Event, vm: Vm)
    requires n < |sys.nodes| && sys.nodes[n].turn.Begun? && !sys.nodes[n].vm.dead && MayExecute(sys.nodes[n].s)
    requires TurnObeys(Waiting(sys.nodes[n].turn.run, sys.nodes[n].turn.feed), sys.nodes[n].vm, Answer(e, vm),
                       sys.next, n)
    requires e.kind.Complete? && e.decodes && sys.nodes[n].turn.run < |sys.runs| && !sys.nodes[n].s.closed
    ensures
      var b := Apply(Apply(Apply(sys, Send(n)), Receive(n, Answer(e, vm))), Finish(n, []));
      && n < |b.nodes| && b.nodes[n].last.Completed? && IsIdle(b.nodes[n].s)
      && b.nodes[n].s.sleepUsed == sys.nodes[n].s.sleepUsed && b.nodes[n].s.sleeps == sys.nodes[n].s.sleeps
      && b.snaps == sys.snaps && b.nodes[n].vm == vm
  {
    hide MayExecute, TurnObeys, Observe, Abort;
    ObserveFrame(sys.nodes[n].s, e);
  }
}
