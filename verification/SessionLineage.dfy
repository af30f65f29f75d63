/** The chain of dumps and restores behind a run, and what was forgotten on it. */
module SessionLineage {
  import opened Common
  import opened Session
  import opened SessionSystem
  import opened SessionInvariant
  import opened SessionSafety
  import opened SessionEnds

  /**
   Suspensions a run's counter leaves out. A chain of dumps and restores starts with a feed, which
   leaves out none, or with the dump of an idle session; that one leaves out the whole path if,
   by what the session's last turn had ended in, its worker was still holding a suspension.
   */
  function Forgotten(sys: Sys, r: nat): nat
    requires r < |sys.runs|
    decreases r
  {
    match sys.runs[r].origin
    case None => 0
    case Some(d) =>
      if d >= |sys.dumps| then 0
      else
        match sys.dumps[d].from
        case None => if Holds(sys.dumps[d].last) then |sys.dumps[d].vm.hist| else 0
        case Some(q) => if q < r then Forgotten(sys, q) else 0
  }

  /** The chain starts with the dump of a session that only looked idle. */
  predicate FromHeldDump(sys: Sys, r: nat)
    requires r < |sys.runs|
    decreases r
  {
    match sys.runs[r].origin
    case None => false
    case Some(d) =>
      d < |sys.dumps| &&
      match sys.dumps[d].from
      case None => Holds(sys.dumps[d].last)
      case Some(q) => q < r && FromHeldDump(sys, q)
  }

  ghost predicate RunLine(sys: Sys, r: nat)
    requires r < |sys.runs|
  {
    match sys.runs[r].origin
    case None => sys.runs[r].lost == 0
    case Some(d) =>
      && d < |sys.dumps| && sys.runs[r].lost == sys.dumps[d].lost
      && (sys.dumps[d].from.Some? ==> sys.dumps[d].from.value < r)
  }

  ghost predicate DumpLine(sys: Sys, d: nat)
    requires d < |sys.dumps|
  {
    match sys.dumps[d].from
    case Some(r) => r < |sys.runs| && sys.dumps[d].lost == sys.runs[r].lost
    case None =>
      && sys.dumps[d].lost == (if Holds(sys.dumps[d].last) then |sys.dumps[d].vm.hist| else 0)
      && (Holds(sys.dumps[d].last) ==> sys.dumps[d].vm.hist != [])
  }

  ghost predicate Lines(sys: Sys)
  {
    && (forall r :: 0 <= r < |sys.runs| ==> RunLine(sys, r))
    && (forall d :: 0 <= d < |sys.dumps| ==> DumpLine(sys, d))
  }

  /** The counter's gap is exactly what the chain forgot, and there is one just for held dumps. */
  lemma {:induction false} LostIsForgotten(sys: Sys, r: nat)
    requires Lines(sys) && r < |sys.runs|
    ensures sys.runs[r].lost == Forgotten(sys, r)
    ensures Forgotten(sys, r) > 0 <==> FromHeldDump(sys, r)
    decreases r
  {
    assert RunLine(sys, r);
    match sys.runs[r].origin {
      case None =>
      case Some(d) =>
        assert DumpLine(sys, d);
        if sys.dumps[d].from.Some? {
          LostIsForgotten(sys, sys.dumps[d].from.value);
        }
    }
  }

  // ---------------------------------------------------------------------------
  // Every action keeps the lines

  ghost predicate SameLines(a: Sys, b: Sys)
  {
    && |a.runs| <= |b.runs| && a.dumps <= b.dumps
    && (forall r :: 0 <= r < |a.runs| ==> b.runs[r].lost == a.runs[r].lost && b.runs[r].origin == a.runs[r].origin)
    && (forall r :: |a.runs| <= r < |b.runs| ==> RunLine(b, r))
    && (forall d :: |a.dumps| <= d < |b.dumps| ==> DumpLine(b, d))
  }

  lemma LinesStay(a: Sys, b: Sys)
    requires Lines(a) && SameLines(a, b)
    ensures Lines(b)
  {
    forall r | 0 <= r < |b.runs| ensures RunLine(b, r) {
      if r < |a.runs| {
        assert RunLine(a, r);
      }
    }
    forall d | 0 <= d < |b.dumps| ensures DumpLine(b, d) {
      if d < |a.dumps| {
        assert DumpLine(a, d);
      }
    }
  }

  lemma {:induction false} ProgressKeepsRun(c: Ctx, e: Event, aborts: seq<Reply>)
    ensures Progress(c, e, aborts).c.r.lost == c.r.lost && Progress(c, e, aborts).c.r.origin == c.r.origin
    ensures Progress(c, e, aborts).c.r.session == c.r.session
    decreases |aborts|, 1
  {
    hide Abort;
    var counted := c.(r := if Suspends(e.kind) then CountedRun(c.r, e.kind) else c.r.(cancelled := true));
    AbortKeepsRun(counted, aborts);
  }

  lemma {:induction false} AbortKeepsRun(c: Ctx, aborts: seq<Reply>)
    ensures Abort(c, aborts).c.r.lost == c.r.lost && Abort(c, aborts).c.r.origin == c.r.origin
    ensures Abort(c, aborts).c.r.session == c.r.session
    decreases |aborts|, 0
  {
    hide Progress, Observe;
    if aborts != [] {
      var reply := Admit(c, aborts[0]);
      if reply.Answer? {
        var sent := c.(log := c.log + [Req(c.n, AbortFeed, c.run, c.r.step, c.s.heard)]);
        ProgressKeepsRun(sent.(s := Observe(c.s, reply.e), vm := reply.vm, next := c.next + 1), reply.e, aborts[1..]);
      }
    }
  }

  lemma DeliverKeepsLines(sys: Sys, n: nat, r: nat, e: Event, aborts: seq<Reply>)
    requires n < |sys.nodes| && r < |sys.runs| && Lines(sys)
    ensures Lines(Deliver(sys, Progress(CtxOf(sys, n, r), e, aborts)))
    ensures Lines(Deliver(sys, NotCompleted(Progress(CtxOf(sys, n, r), e, aborts))))
  {
    hide Progress, RunLine, DumpLine;
    ProgressKeepsRun(CtxOf(sys, n, r), e, aborts);
    hide Lines;
    LinesStay(sys, Deliver(sys, Progress(CtxOf(sys, n, r), e, aborts)));
    LinesStay(sys, Deliver(sys, NotCompleted(Progress(CtxOf(sys, n, r), e, aborts))));
  }

  lemma FinishLines(sys: Sys, n: nat, aborts: seq<Reply>)
    requires Lines(sys) && n < |sys.nodes| && sys.nodes[n].turn.Replied? && sys.nodes[n].turn.run < |sys.runs|
    ensures Lines(DoFinish(sys, n, aborts))
  {
    hide Progress, Deliver, Lines, RunLine, DumpLine;
    var left := sys.(nodes := sys.nodes[n := sys.nodes[n].(s := sys.nodes[n].s.(inTurn := false), turn := NoTurn)]);
    assert SameLines(sys, left);
    LinesStay(sys, left);
    if sys.nodes[n].turn.event.Some? {
      DeliverKeepsLines(left, n, sys.nodes[n].turn.run, sys.nodes[n].turn.event.value, aborts);
    } else {
      LinesStay(sys, DoFinish(sys, n, aborts));
    }
  }

  /** A restored run takes over its dump's gap. */
  lemma RestoredLines(sys: Sys, n: nat, o: nat, b: Sys)
    requires Lines(sys) && n < |sys.nodes| && o < |sys.dumps| && b.dumps == sys.dumps && |b.runs| == |sys.runs| + 1
    requires forall r :: 0 <= r < |sys.runs| ==> b.runs[r] == sys.runs[r]
    requires b.runs[|sys.runs|].lost == sys.dumps[o].lost && b.runs[|sys.runs|].origin == Some(o)
    ensures Lines(b)
  {
    assert DumpLine(sys, o);
    assert RunLine(b, |sys.runs|);
    hide Lines, DumpLine;
    LinesStay(sys, b);
  }

  lemma LoadLines(sys: Sys, n: nat, o: nat, reply: Reply, aborts: seq<Reply>)
    requires Lines(sys) && n < |sys.nodes| && o < |sys.dumps| && sys.dumps[o].duration >= 0
    ensures Lines(DoLoad(sys, n, sys.dumps[o], o, reply, aborts))
  {
    hide Lines, Progress, Deliver, Observe, Restores;
    var d := sys.dumps[o];
    var b := DoLoad(sys, n, d, o, reply, aborts);
    if !sys.nodes[n].vm.dead && reply.Answer? && Restores(d, reply.e, reply.vm) && !reply.e.kind.OkEvent? {
      var t := Restoring(sys, n, d, o);
      var asked := t.(log := t.log + [Req(n, LoadState, |sys.runs|, 0, 0)]);
      var told := asked.(
        nodes := asked.nodes[n := asked.nodes[n].(s := Observe(asked.nodes[n].s, reply.e), vm := reply.vm)]);
      RestoredLines(sys, n, o, told);
      DeliverKeepsLines(told, n, |sys.runs|, reply.e, aborts);
    } else {
      RestoredLines(sys, n, o, b);
    }
  }

  /** An idle session's dump forgets its path exactly when the session's last end says it holds one. */
  lemma DumpSessionLines(sys: Sys, n: nat, answer: DumpReply)
    requires Inv(sys) && Ends(sys) && Lines(sys)
    ensures Lines(DoDumpSession(sys, n, answer))
  {
    if n < |sys.nodes| {
      assert NodeOk(sys, n) && NodeEnds(sys.nodes[n]);
    }
    hide Inv, Ends, PendingEnds, CountExact, Ready, LiveOk, NotYetSent, NoSnapOf, NoSnapAtStep, Lines;
    var b := DoDumpSession(sys, n, answer);
    if |b.dumps| > |sys.dumps| {
      assert DumpLine(b, |sys.dumps|);
    }
    LinesStay(sys, b);
  }

  lemma DumpSnapshotLines(sys: Sys, k: nat, answer: DumpReply)
    requires Lines(sys)
    ensures Lines(DoDumpSnapshot(sys, k, answer))
  {
    var b := DoDumpSnapshot(sys, k, answer);
    if |b.dumps| > |sys.dumps| {
      assert DumpLine(b, |sys.dumps|);
    }
    LinesStay(sys, b);
  }

  lemma OtherLines(sys: Sys, a: Action)
    requires Lines(sys) && !a.Finish? && !a.LoadDump? && !a.DumpSession? && !a.DumpSnapshot?
    ensures Lines(Apply(sys, a))
  {
    hide Lines, DumpLine, MayExecute, TurnObeys, Observe, IsIdle, DoFinish, DoLoad, DoDumpSession, DoDumpSnapshot;
    LinesStay(sys, Apply(sys, a));
  }

  lemma ActionLines(sys: Sys, a: Action)
    requires Inv(sys) && Ends(sys) && Lines(sys)
    ensures Lines(Apply(sys, a))
  {
    hide Inv, Ends, Lines, DoFinish, DoLoad, DoDumpSession, DoDumpSnapshot;
    match a {
      case Finish(n, aborts) =>
        if n < |sys.nodes| && sys.nodes[n].turn.Replied? && sys.nodes[n].turn.run < |sys.runs| {
          FinishLines(sys, n, aborts);
        }
      case LoadDump(n, d, reply, aborts) =>
        if n < |sys.nodes| && d < |sys.dumps| && sys.dumps[d].duration >= 0 {
          LoadLines(sys, n, d, reply, aborts);
        }
      case DumpSession(n, answer) =>
        DumpSessionLines(sys, n, answer);
      case DumpSnapshot(k, answer) => DumpSnapshotLines(sys, k, answer);
      case _ => OtherLines(sys, a);
    }
  }

  lemma {:induction false} RunLines(actions: seq<Action>)
    ensures Lines(Execute(EMPTY, actions))
    decreases |actions|
  {
    hide Apply, Inv, Ends, Lines;
    if actions == [] {
      NoLines();
    } else {
      RunLines(actions[..|actions| - 1]);
      RunKeeps(actions[..|actions| - 1]);
      RunEnds(actions[..|actions| - 1]);
      ActionLines(Execute(EMPTY, actions[..|actions| - 1]), actions[|actions| - 1]);
    }
  }

  lemma NoLines()
    ensures Lines(EMPTY)
  {
  }
}
