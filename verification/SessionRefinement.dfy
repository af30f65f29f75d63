/** A turn served by the session objects is a run of the interleaved system. */
module SessionRefinement {
  import opened Common
  import opened S = Session
  import opened SessionSystem
  import opened O = SessionObjects

  /** Written, answered and finished, with no other session's action in between. */
  function Served(sys: Sys, n: nat, reply: Reply, aborts: seq<Reply>): (t: Sys)
    ensures |t.nodes| == |sys.nodes| && |t.runs| == |sys.runs|
  {
    Apply(Apply(Apply(sys, Send(n)), Receive(n, reply)), Finish(n, aborts))
  }

  lemma DeliverContext(sys: Sys, n: nat, r: nat, out: Result2)
    requires n < |sys.nodes| && r < |sys.runs| && out.c.n == n && out.c.run == r
    ensures CtxOf(Deliver(sys, out), n, r) == Pend(out).c && Deliver(sys, out).nodes[n].last == out.o
    ensures Deliver(sys, out).snaps == sys.snaps + if out.o.Suspended?
      then [Snap(r, out.c.r.step, Last(out.c.vm), out.o.delay, Fresh)] else []
  {
  }

  /** Once the worker has answered, finishing does what the objects do. */
  lemma FinishRefines(sys: Sys, n: nat, e: Event, aborts: seq<Reply>)
    requires n < |sys.nodes| && sys.nodes[n].turn.Replied? && sys.nodes[n].turn.run < |sys.runs|
    requires sys.nodes[n].turn.event == Some(e)
    ensures
      var r := sys.nodes[n].turn.run;
      var c := CtxOf(sys, n, r);
      var heard := c.(s := c.s.(inTurn := false), vm := if e.kind.Fatal? then c.vm.(dead := true) else c.vm);
      var b := Apply(sys, Finish(n, aborts));
      CtxOf(b, n, r) == Pend(S.Progress(heard, e, aborts)).c && b.nodes[n].last == S.Progress(heard, e, aborts).o
  {
    hide S.Progress, Deliver, Pend;
    var r := sys.nodes[n].turn.run;
    var nd := sys.nodes[n];
    var left := sys.(nodes := sys.nodes[n := nd.(s := nd.s.(inTurn := false), turn := NoTurn)]);
    var c := CtxOf(left, n, r);
    FatalAlready(c, e, aborts);
    DeliverContext(left, n, r, S.Progress(c, e, aborts));
  }

  /** What the session remembers of a turn: how it ended, unless its feed was never sent. */
  function Remembered(last: Outcome, feed: bool, o: Outcome): Outcome
  {
    if feed && o == Failed(Unsent) then last else o
  }

  /** What a turn writes. */
  function Asked(sys: Sys, n: nat, feed: bool, r: nat): Req
    requires n < |sys.nodes| && r < |sys.runs|
  {
    Req(n, if feed then ReqKind.Feed else ReqKind.Resume, r, sys.runs[r].step, sys.nodes[n].s.heard)
  }

  lemma SendRefines(sys: Sys, n: nat, r: nat, feed: bool)
    requires n < |sys.nodes| && r < |sys.runs| && sys.nodes[n].turn == Begun(r, feed)
    ensures
      var b, nd := Apply(sys, Send(n)), sys.nodes[n];
      && |b.nodes| == |sys.nodes| && b.runs == sys.runs && b.next == sys.next
      && if MayExecute(nd.s) && !nd.vm.dead then
           && b.nodes[n] == nd.(turn := Waiting(r, feed))
           && b.log == sys.log + [Asked(sys, n, feed, r)]
         else
           && b.nodes[n] == nd.(turn := Replied(r, feed, None, if MayExecute(nd.s) then Gone else Unsent))
           && b.log == sys.log
  {
    hide MayExecute;
  }

  /** What a turn has come to once its reply, if it was ever waited for, is in. */
  ghost predicate TurnIn(sys: Sys, got: Sys, n: nat, r: nat, feed: bool, reply: Reply)
    requires n < |sys.nodes| && r < |sys.runs|
  {
    && n < |got.nodes| && r < |got.runs|
    && var c, d := CtxOf(sys, n, r), CtxOf(got, n, r);
       var log := c.log + [Req(n, if feed then ReqKind.Feed else ReqKind.Resume, r, c.r.step, c.s.heard)];
       && got.nodes[n].last == sys.nodes[n].last
       && if Answers(c, reply) then
            && d == c.(s := Observe(c.s, reply.e), vm := reply.vm, next := c.next + 1, log := log)
            && got.nodes[n].turn == Replied(r, feed, Some(reply.e), Unexpected)
          else if MayExecute(c.s) && !c.vm.dead then
            && d == c.(vm := After(c.vm, reply), next := c.next + (if reply.Crash? then 0 else 1), log := log)
            && got.nodes[n].turn == Replied(r, feed, None, if reply.Discarded? then Withheld(reply.e.kind) else Gone)
          else
            && d == c
            && got.nodes[n].turn == Replied(r, feed, None, if MayExecute(c.s) then Gone else Unsent)
  }

  lemma ReceiveRefines(sys: Sys, sent: Sys, n: nat, r: nat, feed: bool, reply: Reply)
    requires n < |sys.nodes| && r < |sys.runs| && sys.nodes[n].turn == Begun(r, feed)
    requires TurnObeys(Waiting(r, feed), sys.nodes[n].vm, reply, sys.next, n)
    requires |sent.nodes| == |sys.nodes| && sent.runs == sys.runs && sent.next == sys.next
    requires
      var nd := sys.nodes[n];
      if MayExecute(nd.s) && !nd.vm.dead then
        && sent.nodes[n] == nd.(turn := Waiting(r, feed))
        && sent.log == sys.log + [Asked(sys, n, feed, r)]
      else
        && sent.nodes[n] == nd.(turn := Replied(r, feed, None, if MayExecute(nd.s) then Gone else Unsent))
        && sent.log == sys.log
    ensures TurnIn(sys, Apply(sent, Receive(n, reply)), n, r, feed, reply)
  {
    hide MayExecute, TurnObeys, Observe;
  }

  lemma AnswerRefines(got: Sys, n: nat, r: nat, feed: bool, c: Ctx, reply: Reply, aborts: seq<Reply>)
    requires n < |got.nodes| && r < |got.runs| && c.n == n && c.run == r && Answers(c, reply)
    requires got.nodes[n].turn == Replied(r, feed, Some(reply.e), Unexpected)
    requires
      var kind := if feed then ReqKind.Feed else ReqKind.Resume;
      CtxOf(got, n, r) == c.(s := Observe(c.s, reply.e), vm := reply.vm, next := c.next + 1,
                             log := c.log + [Req(c.n, kind, c.run, c.r.step, c.s.heard)])
    ensures
      var out := TurnOver(c, if feed then ReqKind.Feed else ReqKind.Resume, reply, aborts);
      var b := Apply(got, Finish(n, aborts));
      && CtxOf(b, n, r) == Pend(out).c && b.nodes[n].last == out.o && !(out.o == Failed(Unsent))
  {
    hide S.Progress, Apply, Pend, Observe, MayExecute;
    var kind := if feed then ReqKind.Feed else ReqKind.Resume;
    FinishRefines(got, n, reply.e, aborts);
    ObserveKeepsTurn(c.s, reply.e);
    ProgressSends(TurnHeard(c, kind, reply), reply.e, aborts);
  }

  lemma FailureRefines(got: Sys, n: nat, r: nat, feed: bool, aborts: seq<Reply>)
    requires n < |got.nodes| && r < |got.runs|
    requires got.nodes[n].turn.Replied? && got.nodes[n].turn.event.None?
    requires got.nodes[n].turn.run == r && got.nodes[n].turn.feed == feed
    ensures
      var b, why := Apply(got, Finish(n, aborts)), got.nodes[n].turn.why;
      && CtxOf(b, n, r) == GivenUp(CtxOf(got, n, r), if feed then ReqKind.Feed else ReqKind.Resume)
      && b.nodes[n].last == Remembered(got.nodes[n].last, feed, Failed(why))
  {
  }

  /** The objects' turn, on the state of session n and run r, is the system's. */
  lemma ServedRefines(sys: Sys, n: nat, r: nat, feed: bool, reply: Reply, aborts: seq<Reply>)
    requires n < |sys.nodes| && r < |sys.runs| && sys.nodes[n].turn == Begun(r, feed)
    requires TurnObeys(Waiting(r, feed), sys.nodes[n].vm, reply, sys.next, n)
    ensures
      var b := Served(sys, n, reply, aborts);
      var out := TurnOver(CtxOf(sys, n, r), if feed then ReqKind.Feed else ReqKind.Resume, reply, aborts);
      CtxOf(b, n, r) == Pend(out).c && b.nodes[n].last == Remembered(sys.nodes[n].last, feed, out.o)
  {
    hide Apply, S.Progress, MayExecute, TurnObeys, Answers, TurnHeard, TurnFailed, After, GivenUp;
    var kind, c := if feed then ReqKind.Feed else ReqKind.Resume, CtxOf(sys, n, r);
    var sent := Apply(sys, Send(n));
    SendRefines(sys, n, r, feed);
    var got := Apply(sent, Receive(n, reply));
    ReceiveRefines(sys, sent, n, r, feed, reply);
    if Answers(c, reply) {
      AnswerRefines(got, n, r, feed, c, reply, aborts);
    } else {
      FailureRefines(got, n, r, feed, aborts);
      FailedIsTurnFailed(c, kind, reply, CtxOf(got, n, r), got.nodes[n].turn.why);
    }
  }

  /** Session.FeedStart on an idle session, and RunState.Exchange on a claimed snapshot. */
  lemma FeedStartRefines(sys: Sys, n: nat, reply: Reply, aborts: seq<Reply>)
    requires n < |sys.nodes| && IsIdle(sys.nodes[n].s)
    requires TurnObeys(Waiting(|sys.runs|, true), sys.nodes[n].vm, reply, sys.next, n)
    ensures
      var nd := sys.nodes[n];
      var entered := Ctx(n, |sys.runs|, nd.s.(used := true, inTurn := true), Run(n, 0, 0, false, false, false, 0, None),
                         nd.vm, sys.next, sys.log);
      var b := Served(Apply(sys, BeginFeed(n)), n, reply, aborts);
      var out := TurnOver(entered, ReqKind.Feed, reply, aborts);
      CtxOf(b, n, |sys.runs|) == Pend(out).c && b.nodes[n].last == Remembered(nd.last, true, out.o)
  {
    hide Served, TurnOver, Pend, TurnObeys;
    ServedRefines(Apply(sys, BeginFeed(n)), n, |sys.runs|, true, reply, aborts);
  }

  lemma ResumeRefines(sys: Sys, k: nat, reply: Reply, aborts: seq<Reply>)
    requires k < |sys.snaps| && sys.snaps[k].state.Claimed? && Active(sys, k)
    requires !sys.nodes[sys.runs[sys.snaps[k].run].session].s.inTurn
    requires
      var r := sys.snaps[k].run;
      TurnObeys(Waiting(r, false), sys.nodes[sys.runs[r].session].vm, reply, sys.next, sys.runs[r].session)
    ensures
      var r := sys.snaps[k].run;
      var n := sys.runs[r].session;
      var b := Served(Apply(sys, BeginResume(k)), n, reply, aborts);
      var out := TurnOver(Entered(CtxOf(sys, n, r)), ReqKind.Resume, reply, aborts);
      CtxOf(b, n, r) == Pend(out).c && b.nodes[n].last == out.o
  {
    hide Served, TurnOver, Pend, TurnObeys;
    var r := sys.snaps[k].run;
    ServedRefines(Apply(sys, BeginResume(k)), sys.runs[r].session, r, false, reply, aborts);
  }

  /** Session.Load into a fresh session. */
  lemma LoadRefines(sys: Sys, n: nat, d: Dump, origin: nat, reply: Reply, aborts: seq<Reply>)
    requires n < |sys.nodes| && d.duration >= 0 && (!reply.Crash? ==> Restores(d, reply.e, reply.vm))
    ensures
      var r := |sys.runs|;
      var nd := sys.nodes[n];
      var c := Ctx(n, r, nd.s, Run(n, 0, 0, false, false, false, 0, None), nd.vm, sys.next, sys.log);
      var b := DoLoad(sys, n, d, origin, reply, aborts);
      var out := LoadAnswered(Adopted(c, d, origin), reply, aborts);
      CtxOf(b, n, r) == Pend(out).c && b.nodes[n].last == out.o
  {
    hide S.Progress, Deliver, Restores, Observe;
    var r := |sys.runs|;
    var nd := sys.nodes[n];
    var s := nd.s.(used := true, sleepUsed := d.sleepUsed, sleeps := d.sleeps,
                   maxDuration := RestoredDuration(nd.s.maxDuration, d.duration));
    if !nd.vm.dead && reply.Answer? {
      var told := sys.(
        runs := sys.runs + [Run(n, 0, d.suspensions, true, true, false, d.lost, Some(origin))],
        log := sys.log + [Req(n, LoadState, r, 0, 0)],
        nodes := sys.nodes[n := nd.(s := Observe(s, reply.e), vm := reply.vm)]);
      assert sys.nodes[n := nd.(s := s)][n := nd.(s := s).(s := Observe(s, reply.e), vm := reply.vm)] == told.nodes;
      var c := CtxOf(told, n, r);
      FatalAlready(c, reply.e, aborts);
      DeliverContext(told, n, r, S.NotCompleted(S.Progress(c, reply.e, aborts)));
    }
  }
}
