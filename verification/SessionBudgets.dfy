/** Duration budgets along every chain of dumps and restores, in every run of the session system. */
module SessionBudgets {
  import opened Common
  import opened Session
  import opened SessionOutcome
  import opened SessionSystem
  import opened SessionInvariant
  import opened SessionSafety
  import opened SessionEnds
  import opened SessionTheorems
  import opened SessionWatch
  import SessionLineage
  import SessionPending

  /** A restored run's session has a budget no looser than its dump's, or a negative setting, which is none. */
  ghost predicate RunBudgeted(sys: Sys, r: nat)
    requires r < |sys.runs|
  {
    var run := sys.runs[r];
    run.origin.Some? ==>
      && run.origin.value < |sys.dumps| && run.session < |sys.nodes| && sys.nodes[run.session].s.used
      && (sys.dumps[run.origin.value].duration > 0 ==>
          && sys.nodes[run.session].s.maxDuration <= sys.dumps[run.origin.value].duration
          && sys.nodes[run.session].s.maxDuration != 0)
      && sys.dumps[run.origin.value].duration >= 0
  }

  /** A suspended feed's dump carries its session's budget. */
  ghost predicate DumpBudgeted(sys: Sys, d: nat)
    requires d < |sys.dumps|
  {
    var dump := sys.dumps[d];
    dump.from.Some? ==>
      && dump.from.value < |sys.runs| && sys.runs[dump.from.value].session < |sys.nodes|
      && sys.nodes[sys.runs[dump.from.value].session].s.used
      && dump.duration == sys.nodes[sys.runs[dump.from.value].session].s.maxDuration
  }

  ghost predicate AllBudgeted(sys: Sys)
  {
    && (forall r :: 0 <= r < |sys.runs| ==> RunBudgeted(sys, r))
    && (forall d :: 0 <= d < |sys.dumps| ==> DumpBudgeted(sys, d))
  }

  /** One step, seen from the records: what is there stays, and what is new is in order. */
  ghost predicate Records(a: Sys, b: Sys)
  {
    && |a.runs| <= |b.runs| && a.dumps <= b.dumps
    && (forall r :: 0 <= r < |a.runs| ==>
        b.runs[r].session == a.runs[r].session && b.runs[r].origin == a.runs[r].origin)
    && (forall r :: |a.runs| <= r < |b.runs| ==> RunBudgeted(b, r))
    && (forall d :: |a.dumps| <= d < |b.dumps| ==> DumpBudgeted(b, d))
  }

  lemma RecordsKeep(a: Sys, b: Sys)
    requires AllBudgeted(a) && Records(a, b) && Ticks(a, b)
    ensures AllBudgeted(b)
  {
    hide NodeWatched, EntryInTime;
    forall r | 0 <= r < |b.runs| ensures RunBudgeted(b, r) {
      if r < |a.runs| {
        assert RunBudgeted(a, r);
      }
    }
    forall d | 0 <= d < |b.dumps| ensures DumpBudgeted(b, d) {
      if d < |a.dumps| {
        assert DumpBudgeted(a, d) && b.dumps[d] == a.dumps[d];
      }
    }
  }

  /** No run and no dump is added, and runs stay where they came from. */
  ghost predicate SameRecords(a: Sys, b: Sys)
  {
    && |b.runs| == |a.runs| && b.dumps == a.dumps
    && forall r :: 0 <= r < |a.runs| ==> b.runs[r].origin == a.runs[r].origin
  }

  /** The same, for a step that may add to either. */
  ghost predicate Adds(a: Sys, b: Sys)
  {
    && |a.runs| <= |b.runs| && |a.dumps| <= |b.dumps|
    && (forall r :: 0 <= r < |a.runs| ==> b.runs[r].origin == a.runs[r].origin)
    && (forall r :: |a.runs| <= r < |b.runs| ==> RunBudgeted(b, r))
    && (forall d :: |a.dumps| <= d < |b.dumps| ==> DumpBudgeted(b, d))
  }

  lemma SameAdds(a: Sys, b: Sys)
    requires SameRecords(a, b)
    ensures Adds(a, b)
  {
  }

  lemma TurnRecords(sys: Sys, n: nat, reply: Reply)
    ensures Adds(sys, DoBeginFeed(sys, n)) && SameRecords(sys, DoSend(sys, n))
    ensures SameRecords(sys, DoReceive(sys, n, reply))
  {
    hide MayExecute, TurnObeys, Observe;
  }

  lemma FinishRecords(sys: Sys, n: nat, aborts: seq<Reply>)
    requires n < |sys.nodes| && sys.nodes[n].turn.Replied? && sys.nodes[n].turn.run < |sys.runs|
    ensures SameRecords(sys, DoFinish(sys, n, aborts))
  {
    hide Progress;
    if sys.nodes[n].turn.event.Some? {
      var r, e := sys.nodes[n].turn.run, sys.nodes[n].turn.event.value;
      SessionLineage.ProgressKeepsRun(CtxOf(Leaves(sys, n), n, r), e, aborts);
    }
  }

  /** A snapshot or closing step changes neither. */
  lemma OtherRecords(sys: Sys, a: Action)
    requires !a.BeginFeed? && !a.Send? && !a.Receive? && !a.Finish? && !a.LoadDump?
    requires !a.DumpSnapshot? && !a.DumpSession?
    ensures SameRecords(sys, Apply(sys, a))
  {
    hide Active, IsIdle;
  }

  lemma DumpRecords(sys: Sys, n: nat, answer: DumpReply)
    ensures Adds(sys, DoDumpSession(sys, n, answer))
  {
    hide IsIdle;
  }

  lemma SnapshotRecords(sys: Sys, k: nat, answer: DumpReply)
    requires forall n :: 0 <= n < |sys.nodes| ==> NodeWatched(sys.nodes[n])
    ensures Adds(sys, DoDumpSnapshot(sys, k, answer))
  {
    hide Clocked;
  }

  lemma RestoredBudget(own: I64, d: Nanos)
    ensures d > 0 ==> RestoredDuration(own, d) <= d && RestoredDuration(own, d) != 0
  {
  }

  lemma ToldBudget(sys: Sys, n: nat, d: nat, e: Event, vm: Vm)
    requires n < |sys.nodes| && d < |sys.dumps| && sys.dumps[d].duration >= 0
    ensures
      var told, r := Told(sys, n, d, e, vm), |sys.runs|;
      && |told.runs| == r + 1 && |told.nodes| == |sys.nodes| && told.dumps == sys.dumps
      && (forall q :: 0 <= q < r ==> told.runs[q] == sys.runs[q])
      && told.runs[r].origin == Some(d) && told.runs[r].session == n && told.nodes[n].s.used
      && (sys.dumps[d].duration > 0 ==>
          told.nodes[n].s.maxDuration <= sys.dumps[d].duration && told.nodes[n].s.maxDuration != 0)
  {
    RestoredBudget(sys.nodes[n].s.maxDuration, sys.dumps[d].duration);
    ObserveFrame(Restoring(sys, n, sys.dumps[d], d).nodes[n].s, e);
    hide Observe, RestoredDuration;
  }

  lemma UnansweredRecords(sys: Sys, n: nat, d: nat, reply: Reply, aborts: seq<Reply>)
    requires n < |sys.nodes| && d < |sys.dumps| && sys.dumps[d].duration >= 0 && Unanswered(sys, n, d, reply)
    ensures Adds(sys, DoLoad(sys, n, sys.dumps[d], d, reply, aborts))
  {
    hide Progress, Deliver, Restores, Observe;
    RestoredBudget(sys.nodes[n].s.maxDuration, sys.dumps[d].duration);
    if reply.Answer? {
      ObserveFrame(Restoring(sys, n, sys.dumps[d], d).nodes[n].s, reply.e);
    }
    hide RestoredDuration;
  }

  lemma LoadRecords(sys: Sys, n: nat, d: nat, reply: Reply, aborts: seq<Reply>)
    requires Inv(sys) && n < |sys.nodes| && d < |sys.dumps| && sys.dumps[d].duration >= 0 && IsIdle(sys.nodes[n].s)
    ensures Adds(sys, DoLoad(sys, n, sys.dumps[d], d, reply, aborts))
  {
    hide Inv, Ending, Answered, Elsewhere, Progress, Deliver, DoLoad, Restores, Told, Adds, RunBudgeted;
    if Unanswered(sys, n, d, reply) {
      UnansweredRecords(sys, n, d, reply, aborts);
    } else {
      var told, r := Told(sys, n, d, reply.e, reply.vm), |sys.runs|;
      LoadAnswers(sys, n, d, reply.e, reply.vm, aborts);
      ToldBudget(sys, n, d, reply.e, reply.vm);
      var c := CtxOf(told, n, r);
      SessionLineage.ProgressKeepsRun(c, reply.e, aborts);
      ProgressTicks(c, reply.e, aborts);
      LoadedBudget(told, Progress(c, reply.e, aborts), n, d);
      DeliveredAdds(sys, told, NotCompleted(Progress(c, reply.e, aborts)), r);
    }
  }

  lemma DeliveredAdds(sys: Sys, told: Sys, out: Result2, r: nat)
    requires out.c.n < |told.nodes| && out.c.run == r == |sys.runs| && |told.runs| == r + 1 && told.dumps == sys.dumps
    requires forall q :: 0 <= q < r ==> told.runs[q] == sys.runs[q]
    requires RunBudgeted(Deliver(told, out), r)
    ensures Adds(sys, Deliver(told, out))
  {
    hide RunBudgeted, DumpBudgeted;
  }

  lemma LoadedBudget(told: Sys, out: Result2, n: nat, d: nat)
    requires n < |told.nodes| && |told.runs| > 0 && out.c.n == n && out.c.run == |told.runs| - 1
    requires out.c.r.origin == Some(d) && out.c.r.session == n && out.c.s.used && d < |told.dumps|
    requires told.dumps[d].duration >= 0
    requires told.dumps[d].duration > 0 ==> out.c.s.maxDuration <= told.dumps[d].duration && out.c.s.maxDuration != 0
    ensures RunBudgeted(Deliver(told, out), |told.runs| - 1)
    ensures RunBudgeted(Deliver(told, NotCompleted(out)), |told.runs| - 1)
  {
  }

  // ---------------------------------------------------------------------------
  // Every run

  lemma ActionAdds(sys: Sys, a: Action)
    requires Inv(sys) && AllWatched(sys)
    ensures Adds(sys, Apply(sys, a))
  {
    hide Inv, Adds, SameRecords, AllWatched, DoFinish, DoLoad, DoDumpSnapshot, DoDumpSession, DoBeginFeed, DoSend,
      DoReceive;
    NothingAdded(sys);
    SameAdds(sys, sys);
    match a {
      case BeginFeed(n) => TurnRecords(sys, n, Crash);
      case Send(n) =>
        TurnRecords(sys, n, Crash);
        SameAdds(sys, DoSend(sys, n));
      case Receive(n, reply) =>
        TurnRecords(sys, n, reply);
        SameAdds(sys, DoReceive(sys, n, reply));
      case Finish(n, aborts) =>
        if n < |sys.nodes| && sys.nodes[n].turn.Replied? && sys.nodes[n].turn.run < |sys.runs| {
          FinishRecords(sys, n, aborts);
          SameAdds(sys, DoFinish(sys, n, aborts));
        }
      case LoadDump(n, d, reply, aborts) =>
        if n < |sys.nodes| && d < |sys.dumps| && sys.dumps[d].duration >= 0
           && IsIdle(sys.nodes[n].s) && !sys.nodes[n].s.used {
          LoadRecords(sys, n, d, reply, aborts);
        }
      case DumpSnapshot(k, answer) =>
        assert forall n :: 0 <= n < |sys.nodes| ==> NodeWatched(sys.nodes[n]) by { NodesWatched(sys); }
        SnapshotRecords(sys, k, answer);
      case DumpSession(n, answer) => DumpRecords(sys, n, answer);
      case _ =>
        hide Apply;
        OtherRecords(sys, a);
        SameAdds(sys, Apply(sys, a));
    }
  }

  lemma NothingAdded(sys: Sys)
    ensures SameRecords(sys, sys)
  {
  }

  lemma NodesWatched(sys: Sys)
    requires AllWatched(sys)
    ensures forall n :: 0 <= n < |sys.nodes| ==> NodeWatched(sys.nodes[n])
  {
  }

  lemma AddsRecords(a: Sys, b: Sys, m: nat)
    requires Adds(a, b) && Elsewhere(a, b, m)
    ensures Records(a, b)
  {
    hide RunBudgeted, DumpBudgeted;
  }

  lemma {:induction false} RunBudgets(actions: seq<Action>)
    ensures AllBudgeted(Execute(EMPTY, actions))
    decreases |actions|
  {
    hide Inv, Apply, Ticks, Adds, Records, AllWatched, Elsewhere;
    if actions == [] {
      hide Execute;
      ExecuteNothing();
    } else {
      hide AllBudgeted;
      var init, a := actions[..|actions| - 1], actions[|actions| - 1];
      var sys := Execute(EMPTY, init);
      RunBudgets(init);
      RunKeeps(init);
      RunWatched(init);
      ActionAdds(sys, a);
      ActionTicks(sys, a);
      SessionPending.ActionElsewhere(sys, a);
      AddsRecords(sys, Apply(sys, a), SessionPending.Concerns(sys, a));
      RecordsKeep(sys, Apply(sys, a));
    }
  }

  // ---------------------------------------------------------------------------
  // Lineages

  /** Run r goes back to run q over k restores of suspended feeds. */
  ghost predicate Descends(sys: Sys, r: nat, q: nat, k: nat)
    decreases k
  {
    r < |sys.runs| && q < |sys.runs|
    && if k == 0 then r == q
       else
         && sys.runs[r].origin.Some? && sys.runs[r].origin.value < |sys.dumps|
         && sys.dumps[sys.runs[r].origin.value].from.Some?
         && Descends(sys, sys.dumps[sys.runs[r].origin.value].from.value, q, k - 1)
  }

  /** The duration budget a run is held to: that of its session. */
  ghost function Held(sys: Sys, r: nat): I64
    requires RunsOk(sys) && r < |sys.runs|
  {
    sys.nodes[sys.runs[r].session].s.maxDuration
  }

  /**
   However often a feed is dumped and restored, and into whatever sessions, its duration budget never
   grows past that of any session it has passed through, unless a negative setting has dropped it; and
   a feed that is restored further has no such setting behind it.
   */
  lemma {:induction false} BudgetsNeverGrow(actions: seq<Action>, r: nat, q: nat, k: nat)
    requires Descends(Execute(EMPTY, actions), r, q, k)
    ensures RunsOk(Execute(EMPTY, actions))
    ensures
      var sys := Execute(EMPTY, actions);
      && (Held(sys, q) > 0 ==> Held(sys, r) <= Held(sys, q) && Held(sys, r) != 0)
      && (k > 0 ==> Held(sys, q) >= 0)
    decreases k
  {
    hide Execute;
    RunBudgets(actions);
    RunKeeps(actions);
    var sys := Execute(EMPTY, actions);
    assert RunsOk(sys);
    hide Inv;
    if k > 0 {
      var o := sys.runs[r].origin.value;
      assert RunBudgeted(sys, r) && DumpBudgeted(sys, o);
      BudgetsNeverGrow(actions, sys.dumps[o].from.value, q, k - 1);
    }
  }
}
