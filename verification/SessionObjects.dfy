/**
 Sessions, runs and snapshots as the objects the host works with. Each method is one lock window
 or one exchange, and is proved to do to the fields what the value-level step does.
 */
module SessionObjects {
  import opened Common
  import opened S = Session
  import opened SessionSystem
  import opened SessionOutcome

  /** What a worker may answer to a request; anything else reads as a lost worker. */
  predicate Lawful(q: Req, loading: Option<Dump>, vm: Vm, next: nat, e: Event, vm': Vm)
  {
    match q.kind
    case Feed => Starts(vm, e, vm', next, q.session)
    case Resume => Continues(vm, e, vm', next, q.session)
    case AbortFeed => Continues(vm, e, vm', next, q.session)
    case LoadState => loading.Some? && Restores(loading.value, e, vm')
    case _ => !Suspends(e.kind) && vm' == vm
  }

  function Heard(q: Req, loading: Option<Dump>, vm: Vm, next: nat, reply: Reply): Reply
  {
    if !reply.Crash? && Lawful(q, loading, vm, next, reply.e, reply.vm) then reply else Crash
  }

  /** A fatal event, like a failed exchange, costs the worker its life. */
  function After(vm: Vm, reply: Reply): Vm
  {
    match reply
    case Crash => vm.(dead := true)
    case Discarded(_, vm') => vm'
    case Answer(e, vm') => if e.kind.Fatal? then vm'.(dead := true) else vm'
  }

  predicate RunsCode(q: ReqKind) { q.Feed? || q.Resume? || q.AbortFeed? }

  /**
   A worker process, seen from its pipes. What it will answer is a function of every request
   written so far, for as many exchanges as it lives to see; it may be lost at any time.
   */
  class Worker {
    const strategy: seq<Req> -> Reply
    var life: nat
    var vm: Vm
    var next: nat
    var log: seq<Req>

    constructor (strategy: seq<Req> -> Reply, life: nat)
      ensures this.strategy == strategy && this.life == life
      ensures vm == Vm([], false, false) && next == 0 && log == []
    {
      this.strategy, this.life := strategy, life;
      vm, next, log := Vm([], false, false), 0, [];
    }

    method Exchange(q: Req, loading: Option<Dump>) returns (reply: Reply)
      modifies this
      ensures old(vm.dead) ==>
        reply == Crash && vm == old(vm) && next == old(next) && log == old(log) && life == old(life)
      ensures !old(vm.dead) ==>
        && log == old(log) + [q]
        && reply == (if old(life) == 0 then Crash else Heard(q, loading, old(vm), old(next), strategy(log)))
        && life == (if old(life) == 0 then 0 else old(life) - 1)
        && next == old(next) + (if reply.Crash? || !RunsCode(q.kind) then 0 else 1)
        && vm == After(old(vm), reply)
    {
      if vm.dead {
        return Crash;
      }
      log := log + [q];
      reply := Crash;
      if life > 0 {
        life := life - 1;
        reply := Heard(q, loading, vm, next, strategy(log));
      }
      vm := After(vm, reply);
      if !reply.Crash? && RunsCode(q.kind) {
        next := next + 1;
      }
    }
  }

  /** Asked to abort, the worker does not suspend again. */
  ghost predicate AbortsSettle(strategy: seq<Req> -> Reply)
  {
    forall asked: seq<Req> :: asked != [] && asked[|asked| - 1].kind == ReqKind.AbortFeed ==>
      strategy(asked).Answer? ==> !Suspends(strategy(asked).e.kind)
  }

  /** No suspension limit the worker reports exceeds l. */
  ghost predicate ReportsAtMost(strategy: seq<Req> -> Reply, l: U64)
  {
    forall asked: seq<Req> :: strategy(asked).Answer? && strategy(asked).e.maxSuspensions.Some? ==>
      Effective(strategy(asked).e.maxSuspensions.value) <= l
  }

  // ---------------------------------------------------------------------------
  // A whole turn at the level of values

  /** A resumed run moves one step on before its request is written. */
  function Entered(c: Ctx): Ctx
  {
    c.(s := c.s.(inTurn := true), r := c.r.(step := c.r.step + 1))
  }

  /** A turn whose request was refused, or whose exchange brought no event. */
  function TurnFailed(c: Ctx, kind: ReqKind, reply: Reply): Result2
  {
    var left := c.(s := c.s.(inTurn := false, pending := if kind.Feed? then c.s.pending else None),
                   r := c.r.(cancelled := true));
    if !MayExecute(c.s) then Out(left, Failed(Unsent))
    else if c.vm.dead then Out(left, Failed(Gone))
    else
      var sent := left.(vm := After(c.vm, reply), log := c.log + [Req(c.n, kind, c.run, c.r.step, c.s.heard)]);
      if reply.Discarded? then Out(sent.(next := c.next + 1), Failed(Withheld(reply.e.kind)))
      else Out(sent, Failed(Gone))
  }

  /** A turn whose event is about to be looked at. */
  function TurnHeard(c: Ctx, kind: ReqKind, reply: Reply): Ctx
    requires reply.Answer?
  {
    c.(s := Observe(c.s.(inTurn := false), reply.e), vm := After(c.vm, reply),
       log := c.log + [Req(c.n, kind, c.run, c.r.step, c.s.heard)], next := c.next + 1)
  }

  predicate Answers(c: Ctx, reply: Reply)
  {
    MayExecute(c.s) && !c.vm.dead && reply.Answer?
  }

  /** From writing the request to answering the event; `reply` is what the worker sent. */
  function TurnOver(c: Ctx, kind: ReqKind, reply: Reply, aborts: seq<Reply>): Result2
  {
    if Answers(c, reply) then S.Progress(TurnHeard(c, kind, reply), reply.e, aborts) else TurnFailed(c, kind, reply)
  }

  /** The event that decides a turn whose request was answered. */
  function TurnVerdict(c: Ctx, kind: ReqKind, reply: Reply, aborts: seq<Reply>): Verdict
    requires reply.Answer?
  {
    Decisive(TurnHeard(c, kind, reply), reply.e, aborts)
  }

  /** What a turn ends in, whatever it ends in. */
  ghost predicate TurnTells(c: Ctx, kind: ReqKind, reply: Reply, aborts: seq<Reply>, out: Result2)
  {
    if !MayExecute(c.s) then out.o == Failed(Unsent)
    else if c.vm.dead || reply.Crash? then out.o == Failed(Gone)
    else if reply.Discarded? then out.o == Failed(Withheld(reply.e.kind))
    else Tells(TurnVerdict(c, kind, reply, aborts), out)
  }

  /**
   A turn completes, suspends, or fails in one way or another exactly as the event that decides it
   says, and is refused unsent exactly when time is out; a completed one has cost nothing.
   */
  lemma TurnIsTold(c: Ctx, kind: ReqKind, reply: Reply, aborts: seq<Reply>)
    ensures
      var out := TurnOver(c, kind, reply, aborts);
      && TurnTells(c, kind, reply, aborts, out)
      && (out.o.Completed? <==> Answers(c, reply) && Completes(TurnVerdict(c, kind, reply, aborts)))
      && (out.o.Suspended? <==> Answers(c, reply) && SuspendsAt(TurnVerdict(c, kind, reply, aborts)))
      && (out.o.Completed? ==>
          out.c.s.pending == None && out.c.s.sleepUsed == c.s.sleepUsed && out.c.s.sleeps == c.s.sleeps)
      && (Measured(c.s) ==> (out.o == Failed(Unsent) <==> OutOfTime(c.s)))
  {
    hide S.Progress, MayExecute, Decisive, Completes, SuspendsAt, OutOfTime, After;
    if Measured(c.s) {
      WatchdogMeasures(c.s);
    }
    hide Measured;
    if Answers(c, reply) {
      var heard := TurnHeard(c, kind, reply);
      ObserveFrame(c.s.(inTurn := false), reply.e);
      ProgressTells(heard, reply.e, aborts);
      DecisiveCostsNothing(heard, reply.e, aborts);
    }
  }

  /** The budgets a restore starts from. */
  function Adopted(c: Ctx, d: Dump, origin: nat): Ctx
    requires d.duration >= 0
  {
    var s := c.s.(used := true, sleepUsed := d.sleepUsed, sleeps := d.sleeps,
                  maxDuration := RestoredDuration(c.s.maxDuration, d.duration));
    c.(s := s, r := Run(c.n, 0, d.suspensions, true, true, false, d.lost, Some(origin)))
  }

  function LoadAnswered(c: Ctx, reply: Reply, aborts: seq<Reply>): Result2
  {
    if c.vm.dead then Out(c, Failed(Gone))
    else
      var asked := c.(log := c.log + [Req(c.n, LoadState, c.run, 0, 0)], vm := After(c.vm, reply));
      match reply
      case Crash => Out(asked, Failed(Gone))
      case Discarded(e, _) => Out(asked, Failed(Withheld(e.kind)))
      case Answer(e, _) =>
        var told := asked.(s := Observe(c.s, e));
        if e.kind.OkEvent? then Out(told.(r := told.r.(cancelled := true)), Completed)
        else NotCompleted(S.Progress(told, e, aborts))
  }

  /** A suspended feed is the session's pending one. */
  function Pend(out: Result2): Result2
  {
    if out.o.Suspended? then out.(c := out.c.(s := out.c.s.(pending := Some(out.c.run)))) else out
  }

  /** Replies to an abort, if there was one. */
  predicate Settled(aborts: seq<Reply>)
  {
    aborts == [] || (|aborts| == 1 && (aborts[0].Answer? ==> !Suspends(aborts[0].e.kind)))
  }

  lemma {:induction false} ProgressStays(c: Ctx, e: Event, aborts: seq<Reply>)
    ensures
      var out := S.Progress(c, e, aborts);
      && out.c.s.inTurn == c.s.inTurn && out.c.s.closed == c.s.closed
      && (out.o.Suspended? ==> out.c.s.pending == c.s.pending)
    decreases |aborts|, 1
  {
    hide S.Abort, MayExecute, CapDelay, OverSleepBudget, SatAdd, CountedRun, Limit;
    var counted := c.(r := if Suspends(e.kind) then CountedRun(c.r, e.kind) else c.r.(cancelled := true));
    AbortStays(counted, aborts);
  }

  lemma {:induction false} AbortStays(c: Ctx, aborts: seq<Reply>)
    ensures
      var out := S.Abort(c, aborts);
      && out.c.s.inTurn == c.s.inTurn && out.c.s.closed == c.s.closed
      && (out.o.Suspended? ==> out.c.s.pending == c.s.pending)
    decreases |aborts|, 0
  {
    hide S.Progress, MayExecute, Continues, Observe;
    if aborts != [] && Admit(c, aborts[0]).Answer? {
      var e := aborts[0].e;
      ObserveFrame(c.s, e);
      var sent := c.(log := c.log + [Req(c.n, AbortFeed, c.run, c.r.step, c.s.heard)]);
      ProgressStays(sent.(s := Observe(c.s, e), vm := aborts[0].vm, next := c.next + 1), e, aborts[1..]);
    }
  }

  lemma EndingDoesNotSuspend(c: Ctx, e: Event, aborts: seq<Reply>)
    requires !Suspends(e.kind)
    ensures !S.Progress(c, e, aborts).o.Suspended?
    ensures S.Progress(c, e, aborts) == S.Progress(c, e, [])
  {
    hide S.Abort;
  }

  lemma AbortDoesNotSuspend(c: Ctx, aborts: seq<Reply>)
    requires Settled(aborts)
    ensures !S.Abort(c, aborts).o.Suspended?
  {
    hide S.Progress, MayExecute, Continues, Observe;
    if aborts != [] && aborts[0].Answer? {
      var e := aborts[0].e;
      var sent := c.(log := c.log + [Req(c.n, AbortFeed, c.run, c.r.step, c.s.heard)]);
      EndingDoesNotSuspend(sent.(s := Observe(c.s, e), vm := aborts[0].vm, next := c.next + 1), e, aborts[1..]);
    }
  }

  /** A feed that suspends has counted exactly one more suspension, and is within its limit. */
  lemma SuspendedIsCounted(c: Ctx, e: Event, aborts: seq<Reply>)
    requires Settled(aborts)
    ensures
      var out := S.Progress(c, e, aborts);
      out.o.Suspended? ==>
        && (!c.r.restoring ==> out.c.r.suspensions == (c.r.suspensions + 1) % TWO64)
        && out.c.r.suspensions <= Limit(c.s) && !out.c.r.restoring
        && out.c.s.maxSuspensions == c.s.maxSuspensions
  {
    hide S.Abort, MayExecute, CapDelay, OverSleepBudget, SatAdd;
    var counted := c.(r := if Suspends(e.kind) then CountedRun(c.r, e.kind) else c.r.(cancelled := true));
    AbortDoesNotSuspend(counted, aborts);
  }

  class Session {
    const worker: Worker
    const n: nat
    var closed: bool
    var used: bool
    var inTurn: bool
    var pending: RunState?
    var maxDuration: I64
    var maxSuspensions: U64
    var maxTotalSleep: Nanos
    var hasSleepLimit: bool
    var sleepUsed: Nanos
    /** Every sleep paid for; kept for the accounts, not by the source. */
    var sleeps: seq<Charge>
    const systemSleepMax: Option<Nanos>
    var execution: I64
    /** The execution time reported last, in microseconds; kept for the proofs, not by the source. */
    var heard: U64
    const durationGrace: I64
    const durationBackstop: bool
    /** How the last exchange about a feed ended; kept for the proofs, not by the source. */
    var last: Outcome

    ghost function Abs(): Sess
      reads this
    {
      Sess(closed, used, inTurn, if pending == null then None else Some(pending.id),
           maxDuration, maxSuspensions, maxTotalSleep, hasSleepLimit, sleepUsed, sleeps, systemSleepMax,
           execution, heard, durationGrace, durationBackstop)
    }

    constructor (worker: Worker, n: nat, maxDuration: I64, maxSuspensions: U64, maxTotalSleep: Nanos,
                 systemSleepMax: Option<Nanos>, grace: I64, backstop: bool)
      ensures this.worker == worker && this.n == n && pending == null
      ensures Abs() == FreshSess(
        NewSession(maxDuration, maxSuspensions, maxTotalSleep, systemSleepMax, grace, backstop))
    {
      this.worker, this.n := worker, n;
      closed, used, inTurn, pending := false, false, false, null;
      this.maxDuration, this.maxSuspensions := maxDuration, maxSuspensions;
      this.maxTotalSleep, hasSleepLimit := maxTotalSleep, maxTotalSleep > 0;
      sleepUsed, sleeps, execution, heard := 0, [], 0, 0;
      this.systemSleepMax, durationGrace, durationBackstop, last := systemSleepMax, grace, backstop, Completed;
    }

    method ObserveEvent(e: Event)
      modifies this`maxSuspensions, this`execution, this`heard, this`maxTotalSleep, this`hasSleepLimit
      ensures Abs() == Observe(old(Abs()), e)
    {
      if e.maxSuspensions.Some? {
        maxSuspensions := e.maxSuspensions.value;
      }
      execution, heard := Wrap64(e.micros * 1000), e.micros;
      if e.maxSleepMicros.Some? {
        var m := e.maxSleepMicros.value;
        var limit: Nanos := (if m < MAX_DURATION / 1000 then m else MAX_DURATION / 1000) * 1000;
        if !hasSleepLimit || limit < maxTotalSleep {
          maxTotalSleep := limit;
        }
        hasSleepLimit := true;
      }
    }

    /** The watchdog guards every request that can run sandbox code. */
    method ExecutionExchange(q: Req) returns (event: Option<Event>, why: Why, ghost reply: Reply)
      requires RunsCode(q.kind)
      modifies this`maxSuspensions, this`execution, this`heard, this`maxTotalSleep, this`hasSleepLimit, worker
      ensures !MayExecute(old(Abs())) || old(worker.vm.dead) ==>
        && event == None && reply == Crash && Abs() == old(Abs()) && worker.life == old(worker.life)
        && worker.vm == old(worker.vm) && worker.next == old(worker.next) && worker.log == old(worker.log)
        && why == if MayExecute(old(Abs())) then Gone else Unsent
      ensures MayExecute(old(Abs())) && !old(worker.vm.dead) ==>
        && worker.log == old(worker.log) + [q]
        && reply == (if old(worker.life) == 0 then Crash
                     else Heard(q, None, old(worker.vm), old(worker.next), worker.strategy(worker.log)))
        && (!reply.Crash? ==> worker.life < old(worker.life))
        && why == (if reply.Discarded? then Withheld(reply.e.kind) else Gone)
        && worker.next == old(worker.next) + (if reply.Crash? then 0 else 1)
        && worker.vm == After(old(worker.vm), reply)
        && event == (if reply.Answer? then Some(reply.e) else None)
        && Abs() == if reply.Answer? then Observe(old(Abs()), reply.e) else old(Abs())
      ensures Measured(old(Abs())) ==> (why.Unsent? <==> OutOfTime(old(Abs())))
      ensures Clocked(old(Abs())) ==> Clocked(Abs())
      ensures reply.Answer? ==> heard == reply.e.micros
    {
      hide Measured, OutOfTime, Clocked, Tightened, SleepLimit;
      ghost var s := Abs();
      if Measured(s) {
        WatchdogMeasures(s);
      }
      event, why, reply := None, Unsent, Crash;
      if durationBackstop && maxDuration > 0 {
        var remaining := Wrap64(Wrap64(maxDuration - execution) + durationGrace);
        if remaining <= 0 {
          return;
        }
      }
      var r := worker.Exchange(q, None);
      reply := r;
      why := if r.Discarded? then Withheld(r.e.kind) else Gone;
      if r.Answer? {
        ObserveEvent(r.e);
        ObserveClocks(s, r.e);
        event := Some(r.e);
      }
    }

    /** Closing, up to unlocking: from here on nothing but the reset is sent. */
    method CloseBegin() returns (ok: bool)
      modifies this`closed, this`pending, if pending == null then {} else {pending}
      ensures ok <==> !old(closed) && !old(inTurn)
      ensures Abs() == if ok then old(Abs()).(closed := true, pending := None) else old(Abs())
      ensures forall r :: r == old(pending) && r != null ==>
        r.Abs() == if ok then old(r.Abs()).(cancelled := true) else old(r.Abs())
    {
      if closed || inTurn {
        return false;
      }
      closed := true;
      if pending != null {
        pending.cancelled := true;
      }
      pending := null;
      return true;
    }

    /** The other half of Close; says whether the worker may be reused. */
    method CloseReset() returns (reusable: bool)
      modifies worker
      ensures worker.log == old(worker.log) + if old(worker.vm.dead) then [] else [Req(n, Reset, 0, 0, 0)]
      ensures reusable <==>
        && !old(worker.vm.dead) && old(worker.life) > 0
        && Told(worker, old(worker.vm), old(worker.next), Req(n, ReqKind.Reset, 0, 0, 0), OkEvent)
      ensures reusable ==> !worker.vm.dead && worker.vm == old(worker.vm)
    {
      var reply := worker.Exchange(Req(n, Reset, 0, 0, 0), None);
      reusable := reply.Answer? && reply.e.kind.OkEvent?;
    }

    method FeedBegin() returns (ok: bool)
      modifies this`used, this`inTurn
      ensures ok <==> IsIdle(old(Abs()))
      ensures Abs() == if ok then old(Abs()).(used := true, inTurn := true) else old(Abs())
    {
      if closed || pending != null || inTurn {
        return false;
      }
      used, inTurn := true, true;
      return true;
    }

    /** Feeds a snippet and runs it to its first suspension or its end. */
    method FeedStart(id: nat) returns (o: Outcome, run: RunState, ghost reply: Reply, ghost aborts: seq<Reply>)
      modifies this, worker
      ensures AbortsSettle(worker.strategy) ==> Settled(aborts)
      ensures !reply.Crash? ==> reply == worker.strategy(old(worker.log) + [Req(n, Feed, id, 0, old(heard))])
      ensures fresh(run) && run.session == this && run.id == id
      ensures !IsIdle(old(Abs())) ==>
        o == Failed(Rejected) && Abs() == old(Abs()) && worker.log == old(worker.log) && last == old(last)
      ensures IsIdle(old(Abs())) ==>
        var entered := Ctx(n, id, old(Abs()).(used := true, inTurn := true), Run(n, 0, 0, false, false, false, 0, None),
                           old(worker.vm), old(worker.next), old(worker.log));
        && Out(run.Context(), o) == Pend(TurnOver(entered, Feed, reply, aborts))
        && last == (if o == Failed(Unsent) then old(last) else o)
        && (o.Completed? <==> Answers(entered, reply) && Completes(TurnVerdict(entered, Feed, reply, aborts)))
        && (o.Suspended? <==> Answers(entered, reply) && SuspendsAt(TurnVerdict(entered, Feed, reply, aborts)))
        && (o.Completed? ==> pending == null && sleepUsed == old(sleepUsed) && sleeps == old(sleeps))
      ensures IsIdle(old(Abs())) && Measured(old(Abs())) ==> (o == Failed(Unsent) <==> OutOfTime(old(Abs())))
      ensures o.Suspended? ==> pending == run
    {
      hide TurnOver, TurnTells, Answers, TurnVerdict, Completes, SuspendsAt;
      reply, aborts := Crash, [];
      run := new RunState(this, id);
      var ok := FeedBegin();
      if !ok {
        return Failed(Rejected), run, reply, aborts;
      }
      ghost var entered := run.Context();
      o, reply, aborts := run.Serve(Feed);
      TurnIsTold(entered, Feed, reply, aborts);
      if o.Suspended? {
        pending := run;
      }
    }

    method AdoptBudgets(d: Dump)
      requires d.duration >= 0
      modifies this`used, this`sleepUsed, this`sleeps, this`maxDuration
      ensures Abs() == old(Abs()).(used := true, sleepUsed := d.sleepUsed, sleeps := d.sleeps,
                                   maxDuration := RestoredDuration(old(maxDuration), d.duration))
    {
      used, sleepUsed, sleeps := true, d.sleepUsed, d.sleeps;
      if maxDuration == 0 || (d.duration > 0 && d.duration < maxDuration) {
        maxDuration := d.duration;
      }
    }

    /**
     Restores a dump into a fresh session. The dump's counters are adopted before the worker is
     asked, and the re-emitted suspension is answered without being counted again.
     */
    method Load(id: nat, d: Dump, origin: nat)
      returns (o: Outcome, run: RunState, ghost reply: Reply, ghost aborts: seq<Reply>)
      requires d.duration >= 0
      modifies this, worker
      ensures (AbortsSettle(worker.strategy) ==> Settled(aborts)) && fresh(run) && run.session == this && run.id == id
      ensures !IsIdle(old(Abs())) || old(used) ==>
        o == Failed(Rejected) && Abs() == old(Abs()) && worker.log == old(worker.log) && last == old(last)
      ensures IsIdle(old(Abs())) && !old(used) ==>
        && Out(run.Context(), o) == Pend(LoadAnswered(Adopted(
          Ctx(n, id, old(Abs()), Run(n, 0, 0, false, false, false, 0, None),
              old(worker.vm), old(worker.next), old(worker.log)),
          d, origin), reply, aborts))
        && last == o
    {
      hide LoadAnswered, Adopted;
      reply, aborts := Crash, [];
      run := new RunState(this, id);
      if closed || pending != null || inTurn || used {
        return Failed(Rejected), run, reply, aborts;
      }
      run.Adopt(d, origin);
      o, reply, aborts := run.Restore(d);
      last := o;
      if o.Suspended? {
        pending := run;
      }
    }

    /**
     Drives a feed through every callback. Unless the limit is the largest 64-bit number, a
     worker that reports no higher limit is resumed at most that often, however long it lives.
     */
    method FeedRun(id: nat, ghost l: U64) returns (o: Outcome, resumes: nat)
      requires AbortsSettle(worker.strategy) && ReportsAtMost(worker.strategy, l)
      requires Limit(Abs()) <= l < TWO64 - 1
      modifies this, worker
      ensures !o.Suspended? && resumes <= l
    {
      var run;
      o, run := StartCounting(id, l);
      resumes := 0;
      while o.Suspended?
        invariant o.Suspended? ==> run.suspensions == resumes + 1
        invariant o.Suspended? ==> !run.restoring && run.suspensions <= l && Limit(Abs()) <= l
        invariant fresh(run) && run.session == this && resumes <= l
        decreases l - resumes, if o.Suspended? then 1 else 0
      {
        o := run.ResumeNext(o.id, o.delay, l);
        resumes := resumes + 1;
      }
    }

    method StartCounting(id: nat, ghost l: U64) returns (o: Outcome, run: RunState)
      requires AbortsSettle(worker.strategy) && ReportsAtMost(worker.strategy, l)
      requires Limit(Abs()) <= l < TWO64 - 1
      modifies this, worker
      ensures fresh(run) && run.session == this
      ensures o.Suspended? ==> run.suspensions == 1 <= l && !run.restoring && Limit(Abs()) <= l
    {
      hide TurnOver;
      ghost var entered := Ctx(n, id, Abs().(used := true, inTurn := true), Run(n, 0, 0, false, false, false, 0, None),
                               worker.vm, worker.next, worker.log);
      ghost var reply, aborts;
      o, run, reply, aborts := FeedStart(id);
      TurnCounts(entered, Feed, reply, aborts, l);
    }

    /** An idle session's dump starts a new suspension allowance. */
    method Dump() returns (d: Option<Dump>)
      modifies worker
      ensures worker.log == old(worker.log)
        + if IsIdle(old(Abs())) && !old(worker.vm.dead) then [Req(n, DumpState, 0, 0, 0)] else []
      ensures d.Some? <==>
        && IsIdle(old(Abs())) && !old(worker.vm.dead) && old(worker.life) > 0
        && Told(worker, old(worker.vm), old(worker.next), Req(n, ReqKind.DumpState, 0, 0, 0), Kind.DumpEvent)
      ensures d.Some? ==>
        && worker.vm == old(worker.vm)
        && d.value == SessionSystem.Dump(worker.vm, maxDuration, 0, sleepUsed, sleeps,
                                         if worker.vm.suspended then |worker.vm.hist| else 0, None, last)
    {
      if closed || pending != null || inTurn {
        return None;
      }
      var reply := worker.Exchange(Req(n, DumpState, 0, 0, 0), None);
      if !reply.Answer? || !reply.e.kind.DumpEvent? {
        return None;
      }
      var vm := worker.vm;
      return Some(SessionSystem.Dump(vm, maxDuration, 0, sleepUsed, sleeps,
                                     if vm.suspended then |vm.hist| else 0, None, last));
    }
  }

  /** The worker's answer to the request it was sent last is an event of this kind. */
  ghost predicate Told(w: Worker, vm: Vm, next: nat, q: Req, kind: Kind)
    reads w
  {
    var reply := Heard(q, None, vm, next, w.strategy(w.log));
    reply.Answer? && reply.e.kind == kind
  }

  class RunState {
    const session: Session
    const id: nat
    var step: nat
    var suspensions: U64
    var restoring: bool
    var restoreSleepCharged: bool
    var cancelled: bool
    /** Suspensions a dump on this lineage failed to carry over; not kept by the source. */
    var lost: nat
    /** The dump the run was restored from, if it was; not kept by the source either. */
    var origin: Option<nat>

    ghost function Abs(): Run
      reads this
    {
      Run(session.n, step, suspensions, restoring, restoreSleepCharged, cancelled, lost, origin)
    }

    ghost function Context(): Ctx
      reads this, session, session.worker
    {
      Ctx(session.n, id, session.Abs(), Abs(), session.worker.vm, session.worker.next, session.worker.log)
    }

    constructor (session: Session, id: nat)
      ensures this.session == session && this.id == id && Abs() == Run(session.n, 0, 0, false, false, false, 0, None)
    {
      this.session, this.id := session, id;
      step, suspensions, restoring, restoreSleepCharged, cancelled, lost, origin := 0, 0, false, false, false, 0, None;
    }

    /** Tells the worker to give up; the answer, if any, becomes the event. */
    method Abandon() returns (event: Option<Event>, why: Why, ghost reply: Reply)
      modifies this`cancelled, session`maxSuspensions, session`execution, session`heard, session`maxTotalSleep,
        session`hasSleepLimit, session.worker
      ensures event.Some? <==> reply.Answer?
      ensures event.Some? ==> event.value == reply.e && session.worker.life < old(session.worker.life)
      ensures event.None? ==> Out(Context(), Failed(why)) == S.Abort(old(Context()), [reply])
      ensures event.Some? ==>
        && MayExecute(old(session.Abs())) && !old(session.worker.vm.dead)
        && Admit(old(Context()), reply) == reply && Context() == AbortHeard(old(Context()), reply)
      ensures AbortsSettle(session.worker.strategy) && event.Some? ==> !Suspends(reply.e.kind)
    {
      hide S.Progress, MayExecute, Observe;
      ghost var c := Context();
      var q := Req(session.n, ReqKind.AbortFeed, id, step, session.heard);
      event, why, reply := session.ExecutionExchange(q);
      if event.None? {
        if why.Unsent? {
          why := AbortRefused;
        }
        cancelled := true;
      } else {
        var w := session.worker;
        assert w.log[|w.log| - 1] == q;
      }
    }

    /** Takes over the budgets a dump carries. */
    method Adopt(d: Dump, origin: nat)
      requires d.duration >= 0
      modifies this, session
      ensures session.pending == old(session.pending)
      ensures Context() == Adopted(old(Context()), d, origin) && session.last == old(session.last)
    {
      session.AdoptBudgets(d);
      suspensions, restoring, restoreSleepCharged, lost := d.suspensions, true, true, d.lost;
      step, cancelled, this.origin := 0, false, Some(origin);
    }

    /** Sends the dump's state to the worker and answers what it re-emits. */
    method Restore(d: Dump) returns (o: Outcome, ghost reply: Reply, ghost aborts: seq<Reply>)
      modifies this, session, session.worker
      ensures AbortsSettle(session.worker.strategy) ==> Settled(aborts)
      ensures Out(Context(), o) == LoadAnswered(old(Context()), reply, aborts)
      ensures session.pending == null || session.pending == old(session.pending)
    {
      hide S.Progress, Observe, Heard, After;
      aborts := [];
      ghost var c := Context();
      var r := session.worker.Exchange(Req(session.n, LoadState, id, 0, 0), Some(d));
      reply := r;
      if !r.Answer? {
        return Failed(if r.Discarded? then Withheld(r.e.kind) else Gone), reply, aborts;
      }
      ObserveFrame(c.s, r.e);
      session.ObserveEvent(r.e);
      if r.e.kind.OkEvent? {
        cancelled := true;
        return Completed, reply, aborts;
      }
      o, aborts := Progress(r.e);
      if o.Completed? {
        o := Failed(Unexpected);
      }
    }

    /** Resumes the snapshot the run has just handed out, or finds that there is nothing to send. */
    method ResumeNext(id: nat, delay: Option<Nanos>, ghost l: U64) returns (o: Outcome)
      requires AbortsSettle(session.worker.strategy) && ReportsAtMost(session.worker.strategy, l)
      requires Limit(session.Abs()) <= l < TWO64 - 1 && suspensions <= l && !restoring
      modifies this, session, session.worker
      ensures o.Suspended? ==>
        suspensions == old(suspensions) + 1 <= l && !restoring && Limit(session.Abs()) <= l
    {
      hide TurnOver;
      var snapshot := new Snapshot(this, step, id, delay);
      var sends: bool := *;
      if !sends {
        var cancels: bool := *;
        var _ := snapshot.Abandon(cancels);
        return Failed(Rejected);
      }
      ghost var c := Context();
      ghost var reply, aborts;
      o, reply, aborts := snapshot.Resume();
      TurnCounts(Entered(c), ReqKind.Resume, reply, aborts, l);
    }

    predicate CanDump(step: nat)
      reads this, session
    {
      !session.closed && session.pending == this && this.step == step
    }

    /** A suspended feed's dump carries the run's counter along. */
    method Dump(step: nat) returns (d: Option<Dump>)
      modifies session.worker
      ensures session.worker.log == old(session.worker.log)
        + if CanDump(step) && !old(session.worker.vm.dead)
          then [Req(session.n, DumpState, 0, 0, 0)] else []
      ensures d.Some? <==>
        && CanDump(step) && !old(session.worker.vm.dead) && old(session.worker.life) > 0
        && Told(session.worker, old(session.worker.vm), old(session.worker.next),
                Req(session.n, ReqKind.DumpState, 0, 0, 0), Kind.DumpEvent)
      ensures d.Some? ==>
        && session.worker.vm == old(session.worker.vm)
        && d.value == SessionSystem.Dump(session.worker.vm, session.maxDuration, suspensions, session.sleepUsed,
                                         session.sleeps, lost, Some(id), session.last)
    {
      if !CanDump(step) {
        return None;
      }
      var reply := session.worker.Exchange(Req(session.n, DumpState, 0, 0, 0), None);
      if !reply.Answer? || !reply.e.kind.DumpEvent? {
        return None;
      }
      return Some(SessionSystem.Dump(session.worker.vm, session.maxDuration, suspensions, session.sleepUsed,
                                     session.sleeps, lost, Some(id), session.last));
    }

    /** Counts a new suspension, or cancels the run's callbacks at its end. */
    method Count(e: Event) returns (over: bool)
      modifies this`restoring, this`suspensions, this`cancelled
      ensures Abs() == if Suspends(e.kind) then CountedRun(old(Abs()), e.kind) else old(Abs()).(cancelled := true)
      ensures over <==> Suspends(e.kind) && suspensions > Limit(session.Abs())
    {
      if !Suspends(e.kind) {
        cancelled := true;
        return false;
      }
      if restoring {
        restoring := false;
      } else {
        suspensions := (suspensions + 1) % TWO64;
      }
      var limit := if session.maxSuspensions == 0 then DEFAULT_SUSPENSIONS else session.maxSuspensions;
      return suspensions > limit;
    }

    /** Pays for a system sleep, unless its dump already did or the budget is exhausted. */
    method Pay(e: Event, alreadyCharged: bool) returns (over: bool, delay: Nanos)
      requires e.delay.Some?
      modifies session`sleepUsed, session`sleeps
      ensures delay == CapDelay(old(session.Abs()), e.delay.value)
      ensures over <==> OverSleepBudget(old(session.Abs()), delay, alreadyCharged)
      ensures session.Abs() == if over || alreadyCharged then old(session.Abs()) else old(session.Abs()).(
        sleepUsed := SatAdd(old(session.sleepUsed), delay),
        sleeps := old(session.sleeps) + [Charge(SuspOf(e, session.n), delay)])
    {
      delay := e.delay.value;
      if session.systemSleepMax.Some? && session.systemSleepMax.value < delay {
        delay := session.systemSleepMax.value;
      }
      var s := session;
      over := s.hasSleepLimit
        && (s.sleepUsed > s.maxTotalSleep || (!alreadyCharged && delay > s.maxTotalSleep - s.sleepUsed));
      if !over && !alreadyCharged {
        if delay > MAX_DURATION - s.sleepUsed {
          s.sleepUsed := MAX_DURATION;
        } else {
          s.sleepUsed := s.sleepUsed + delay;
        }
        s.sleeps := s.sleeps + [Charge(SuspOf(e, session.n), delay)];
      }
    }

    /** Ends the feed, if the event ends it. */
    method Conclude(e: Event) returns (o: Outcome)
      requires !Suspends(e.kind)
      modifies session`pending, session.worker`vm
      ensures Out(Context(), o).c.r == old(Abs())
      ensures Out(Context().(r := old(Abs()).(cancelled := true)), o) == S.Progress(old(Context()), e, [])
      ensures session.pending == null || session.pending == old(session.pending)
    {
      hide S.Abort;
      match e.kind {
        case Complete =>
          if !e.decodes {
            return Failed(Undecodable(e.kind));
          }
          session.pending := null;
          return Completed;
        case ErrorEvent =>
          session.pending := null;
          return Failed(Raised);
        case TypingError =>
          session.pending := null;
          return Failed(Raised);
        case Fatal =>
          session.pending := null;
          session.worker.vm := session.worker.vm.(dead := true);
          return Failed(Raised);
        case _ =>
          return Failed(Unexpected);
      }
    }

    /** The feed is over budget: abort it and answer whatever the worker says to that. */
    method GiveUp() returns (o: Outcome, ghost aborts: seq<Reply>)
      modifies this, session, session.worker
      ensures Out(Context(), o) == S.Abort(old(Context()), aborts)
      ensures AbortsSettle(session.worker.strategy) ==> Settled(aborts)
      ensures session.pending == null || session.pending == old(session.pending)
      ensures session.last == old(session.last)
      decreases session.worker.life, 0
    {
      hide S.Abort, S.Progress, MayExecute, Observe, Admit, After;
      ghost var c := Context();
      var event, why;
      ghost var reply;
      event, why, reply := Abandon();
      if event.None? {
        return Failed(why), [reply];
      }
      o, aborts := Progress(event.value);
      AbortStep(c, reply, aborts);
      aborts := [reply] + aborts;
    }

    /** Leaves the turn; without an event the feed can go no further. */
    method LeaveTurn(kind: ReqKind, heard: bool)
      modifies this`cancelled, session`inTurn, session`pending
      ensures Context() == if heard then Left(old(Context())) else GivenUp(old(Context()), kind)
      ensures session.pending == null || session.pending == old(session.pending)
    {
      session.inTurn := false;
      if !heard {
        if kind.Resume? {
          session.pending := null;
        }
        cancelled := true;
      }
    }

    /** Writes the request, waits without the lock, and leaves the turn. */
    method Request(kind: ReqKind) returns (event: Option<Event>, why: Why, ghost reply: Reply)
      requires kind.Feed? || kind.Resume?
      modifies this, session, session.worker
      ensures !reply.Crash? ==>
        reply == session.worker.strategy(
          old(session.worker.log) + [Req(session.n, kind, id, old(step), old(session.heard))])
      ensures event == if Answers(old(Context()), reply) then Some(reply.e) else None
      ensures event.Some? ==> Context() == TurnHeard(old(Context()), kind, reply)
      ensures event.None? ==> Out(Context(), Failed(why)) == TurnFailed(old(Context()), kind, reply)
      ensures session.pending == null || session.pending == old(session.pending)
      ensures session.last == old(session.last)
    {
      hide Observe, MayExecute, Heard, After, TurnFailed, TurnHeard, GivenUp, Left;
      var q := Req(session.n, kind, id, step, session.heard);
      ghost var c := Context();
      event, why, reply := session.ExecutionExchange(q);
      HeardIsSaid(q, None, c.vm, c.next, session.worker.strategy(session.worker.log));
      ghost var heard := Context();
      LeaveTurn(kind, event.Some?);
      if event.Some? {
        HeardIsTurnHeard(c, kind, reply, heard);
      } else {
        FailedIsTurnFailed(c, kind, reply, heard, why);
      }
    }

    /** A whole turn: the request, and under the lock again the answer. */
    method Serve(kind: ReqKind) returns (o: Outcome, ghost reply: Reply, ghost aborts: seq<Reply>)
      requires kind.Feed? || kind.Resume?
      modifies this, session, session.worker
      ensures AbortsSettle(session.worker.strategy) ==> Settled(aborts)
      ensures !reply.Crash? ==>
        reply == session.worker.strategy(
          old(session.worker.log) + [Req(session.n, kind, id, old(step), old(session.heard))])
      ensures Out(Context(), o) == TurnOver(old(Context()), kind, reply, aborts)
      ensures session.pending == null || session.pending == old(session.pending)
      ensures session.last == if kind.Feed? && o == Failed(Unsent) then old(session.last) else o
    {
      hide S.Progress, TurnFailed, TurnHeard, Answers;
      aborts := [];
      var event, why;
      event, why, reply := Request(kind);
      if event.None? {
        o := Failed(why);
        if !kind.Feed? || !why.Unsent? {
          session.last := o;
        }
        return;
      }
      ghost var told := Context();
      o, aborts := Progress(event.value);
      ProgressSends(told, event.value, aborts);
      session.last := o;
    }

    /** Answers the suspension a snapshot was issued for, and runs on to the next. */
    method Exchange(step: nat) returns (o: Outcome, ghost reply: Reply, ghost aborts: seq<Reply>)
      modifies this, session, session.worker
      ensures AbortsSettle(session.worker.strategy) ==> Settled(aborts)
      ensures !reply.Crash? ==>
        reply == session.worker.strategy(
          old(session.worker.log) + [Req(session.n, Resume, id, step + 1, old(session.heard))])
      ensures old(session.closed || session.pending != this || session.inTurn || this.step != step) ==>
        o == Failed(Rejected) && Context() == old(Context()) && session.pending == old(session.pending)
        && session.last == old(session.last)
      ensures !old(session.closed || session.pending != this || session.inTurn || this.step != step) ==>
        var c := old(Context());
        Out(Context(), o) == Pend(TurnOver(Entered(c), Resume, reply, aborts)) && session.last == o
      ensures o.Suspended? ==> session.pending == this
    {
      hide TurnOver;
      reply, aborts := Crash, [];
      if session.closed || session.pending != this || session.inTurn || this.step != step {
        return Failed(Rejected), reply, aborts;
      }
      this.step := this.step + 1;
      session.inTurn := true;
      ghost var c := Context();
      o, reply, aborts := Serve(Resume);
      TurnKeepsPending(c, reply, aborts);
    }

    /** Answers an event under the session lock. */
    method Progress(e: Event) returns (o: Outcome, ghost aborts: seq<Reply>)
      modifies this, session, session.worker
      ensures Out(Context(), o) == S.Progress(old(Context()), e, aborts)
      ensures Tells(Decisive(old(Context()), e, aborts), Out(Context(), o))
      ensures session.pending == null || session.pending == old(session.pending)
      ensures session.last == old(session.last)
      ensures AbortsSettle(session.worker.strategy) ==> Settled(aborts)
      ensures !Suspends(e.kind) ==> aborts == []
      decreases session.worker.life, 1
    {
      hide S.Abort, OverSleepBudget, CapDelay, SatAdd, Limit, CountedRun, Tells, Decisive;
      ghost var c := Context();
      aborts := [];
      var alreadyCharged := restoring && restoreSleepCharged;
      if !Suspends(e.kind) {
        o := Conclude(e);
        cancelled := true;
        ProgressTells(c, e, aborts);
        return;
      }
      var over := Count(e);
      var delay: Option<Nanos> := None;
      if !over && e.kind.OSCall? && e.decodes && e.delay.Some? {
        var d;
        over, d := Pay(e, alreadyCharged);
        delay := Some(d);
      }
      if over {
        o, aborts := GiveUp();
      } else if e.decodes || e.kind.ResolveFutures? {
        o := Suspended(e.id, delay);
      } else {
        o := Failed(Undecodable(e.kind));
      }
      ProgressTells(c, e, aborts);
    }
  }

  /** What an abort's answer leaves to be looked at. */
  function AbortHeard(c: Ctx, reply: Reply): Ctx
    requires reply.Answer?
  {
    c.(log := c.log + [Req(c.n, AbortFeed, c.run, c.r.step, c.s.heard)], s := Observe(c.s, reply.e),
       vm := After(c.vm, reply),
       next := c.next + 1)
  }

  lemma AbortStep(c: Ctx, reply: Reply, rest: seq<Reply>)
    requires MayExecute(c.s) && !c.vm.dead && reply.Answer? && Admit(c, reply) == reply
    ensures S.Abort(c, [reply] + rest) == S.Progress(AbortHeard(c, reply), reply.e, rest)
  {
    hide S.Progress, Observe, MayExecute, Continues;
    assert ([reply] + rest)[1..] == rest;
    var heard := c.(log := c.log + [Req(c.n, AbortFeed, c.run, c.r.step, c.s.heard)], s := Observe(c.s, reply.e),
                    vm := reply.vm,
                    next := c.next + 1);
    FatalAlready(heard, reply.e, rest);
  }

  /** Answering an event is never refused for want of a request. */
  lemma {:induction false} ProgressSends(c: Ctx, e: Event, aborts: seq<Reply>)
    ensures S.Progress(c, e, aborts).o != Failed(Unsent)
    decreases |aborts|, 1
  {
    hide S.Abort, MayExecute, CapDelay, OverSleepBudget, SatAdd, CountedRun, Limit;
    var counted := c.(r := if Suspends(e.kind) then CountedRun(c.r, e.kind) else c.r.(cancelled := true));
    AbortSends(counted, aborts);
  }

  lemma {:induction false} AbortSends(c: Ctx, aborts: seq<Reply>)
    ensures S.Abort(c, aborts).o != Failed(Unsent)
    decreases |aborts|, 0
  {
    hide S.Progress, MayExecute, Continues, Observe;
    if aborts != [] && Admit(c, aborts[0]).Answer? {
      var e := aborts[0].e;
      var sent := c.(log := c.log + [Req(c.n, AbortFeed, c.run, c.r.step, c.s.heard)]);
      ProgressSends(sent.(s := Observe(c.s, e), vm := aborts[0].vm, next := c.next + 1), e, aborts[1..]);
    }
  }

  lemma FatalAlready(c: Ctx, e: Event, aborts: seq<Reply>)
    ensures e.kind.Fatal? ==> S.Progress(c.(vm := c.vm.(dead := true)), e, aborts) == S.Progress(c, e, aborts)
  {
  }

  const NO_EVENT: Event := Event(OkEvent, 0, true, None, 0, None, None)

  lemma ObserveKeepsTurn(s: Sess, e: Event)
    ensures Observe(s.(inTurn := false), e) == Observe(s, e).(inTurn := false)
  {
    hide Tightened, Wrap64;
  }

  function Left(c: Ctx): Ctx
  {
    c.(s := c.s.(inTurn := false))
  }

  function GivenUp(c: Ctx, kind: ReqKind): Ctx
  {
    c.(s := c.s.(inTurn := false, pending := if kind.Resume? then None else c.s.pending), r := c.r.(cancelled := true))
  }

  lemma HeardIsTurnHeard(c: Ctx, kind: ReqKind, reply: Reply, heard: Ctx)
    requires reply.Answer?
    requires heard == c.(s := Observe(c.s, reply.e), vm := After(c.vm, reply), next := c.next + 1,
                         log := c.log + [Req(c.n, kind, c.run, c.r.step, c.s.heard)])
    ensures Left(heard) == TurnHeard(c, kind, reply)
  {
    hide Observe, After;
    ObserveKeepsTurn(c.s, reply.e);
  }

  lemma FailedIsTurnFailed(c: Ctx, kind: ReqKind, reply: Reply, heard: Ctx, why: Why)
    requires (kind.Feed? || kind.Resume?) && !Answers(c, reply)
    requires
      if MayExecute(c.s) && !c.vm.dead then
        && heard == c.(vm := After(c.vm, reply), next := c.next + (if reply.Crash? then 0 else 1),
                       log := c.log + [Req(c.n, kind, c.run, c.r.step, c.s.heard)])
        && why == if reply.Discarded? then Withheld(reply.e.kind) else Gone
      else heard == c && why == if MayExecute(c.s) then Gone else Unsent
    ensures Out(GivenUp(heard, kind), Failed(why)) == TurnFailed(c, kind, reply)
  {
    hide MayExecute, After;
  }

  lemma HeardIsSaid(q: Req, loading: Option<Dump>, vm: Vm, next: nat, reply: Reply)
    ensures Heard(q, loading, vm, next, reply) == Crash || Heard(q, loading, vm, next, reply) == reply
  {
  }

  lemma TurnKeepsPending(c: Ctx, reply: Reply, aborts: seq<Reply>)
    ensures
      var out := TurnOver(c, Resume, reply, aborts);
      out.o.Suspended? ==> out.c.s.pending == c.s.pending
  {
    hide S.Progress, MayExecute, After, Observe;
    if reply.Answer? {
      ObserveFrame(c.s.(inTurn := false), reply.e);
      ProgressStays(TurnHeard(c, Resume, reply), reply.e, aborts);
    }
  }

  /** A turn that suspends has counted one suspension, and no limit in force exceeds l. */
  lemma TurnCounts(c: Ctx, kind: ReqKind, reply: Reply, aborts: seq<Reply>, l: U64)
    requires Settled(aborts) && !c.r.restoring && Limit(c.s) <= l
    requires reply.Answer? && reply.e.maxSuspensions.Some? ==> Effective(reply.e.maxSuspensions.value) <= l
    ensures
      var out := TurnOver(c, kind, reply, aborts);
      out.o.Suspended? ==>
        && out.c.r.suspensions == (c.r.suspensions + 1) % TWO64 <= l
        && !out.c.r.restoring && Limit(out.c.s) <= l
  {
    hide S.Progress, MayExecute, After;
    if reply.Answer? {
      var heard := TurnHeard(c, kind, reply);
      assert Limit(heard.s) <= l;
      SuspendedIsCounted(heard, reply.e, aborts);
    }
  }

  /** A handed-out suspension. It answers once, and only while its run is at its step. */
  class Snapshot {
    const state: RunState
    const step: nat
    const id: nat
    const delay: Option<Nanos>
    var used: bool

    constructor (state: RunState, step: nat, id: nat, delay: Option<Nanos>)
      ensures this.state == state && this.step == step && this.id == id && this.delay == delay && !used
    {
      this.state, this.step, this.id, this.delay, used := state, step, id, delay, false;
    }

    method Claim() returns (ok: bool)
      modifies this
      ensures used && ok == !old(used)
    {
      ok := !used;
      used := true;
    }

    /** A resume with nothing to send: its answer does not encode, or waiting for futures came to nothing. */
    method Abandon(cancels: bool) returns (ok: bool)
      modifies this, state`cancelled
      ensures used && ok == !old(used)
      ensures state.Abs() == if ok && cancels then old(state.Abs()).(cancelled := true) else old(state.Abs())
    {
      ok := Claim();
      if ok && cancels {
        state.cancelled := true;
      }
    }

    /** A dump leaves the snapshot to be resumed, unless that was tried before. */
    method Dump() returns (d: Option<SessionSystem.Dump>)
      modifies state.session.worker
      ensures old(used) ==> d.None? && state.Context() == old(state.Context())
      ensures d.Some? <==>
        !used && state.CanDump(step) && old(state.session.worker.life) > 0 && !old(state.session.worker.vm.dead)
        && Told(state.session.worker, old(state.session.worker.vm), old(state.session.worker.next),
                Req(state.session.n, ReqKind.DumpState, 0, 0, 0), Kind.DumpEvent)
      ensures d.Some? ==>
        && state.session.worker.vm == old(state.session.worker.vm)
        && d.value == SessionSystem.Dump(
          state.session.worker.vm, state.session.maxDuration, state.suspensions, state.session.sleepUsed,
          state.session.sleeps, state.lost, Some(state.id), state.session.last)
    {
      if used {
        return None;
      }
      d := state.Dump(step);
    }

    method Resume() returns (o: Outcome, ghost reply: Reply, ghost aborts: seq<Reply>)
      modifies this, state, state.session, state.session.worker
      ensures used && (AbortsSettle(state.session.worker.strategy) ==> Settled(aborts))
      ensures !reply.Crash? ==> reply == state.session.worker.strategy(
        old(state.session.worker.log)
        + [Req(state.session.n, ReqKind.Resume, state.id, step + 1, old(state.session.heard))])
      ensures old(used || state.session.closed || state.session.pending != state || state.session.inTurn
                  || state.step != step) ==>
        o == Failed(Rejected) && state.Context() == old(state.Context())
      ensures !old(used || state.session.closed || state.session.pending != state || state.session.inTurn
                   || state.step != step) ==>
        var c := old(state.Context());
        && Out(state.Context(), o) == Pend(TurnOver(Entered(c), ReqKind.Resume, reply, aborts))
        && (o.Completed? <==>
            Answers(Entered(c), reply) && Completes(TurnVerdict(Entered(c), ReqKind.Resume, reply, aborts)))
        && (o.Suspended? <==>
            Answers(Entered(c), reply) && SuspendsAt(TurnVerdict(Entered(c), ReqKind.Resume, reply, aborts)))
        && (o.Completed? ==> state.session.pending == null
                             && state.session.sleepUsed == c.s.sleepUsed && state.session.sleeps == c.s.sleeps)
        && (Measured(c.s) ==> (o == Failed(Unsent) <==> OutOfTime(c.s)))
    {
      hide TurnOver, TurnTells, Answers, TurnVerdict, Completes, SuspendsAt;
      var ok := Claim();
      if !ok {
        return Failed(Rejected), Crash, [];
      }
      ghost var c := state.Context();
      o, reply, aborts := state.Exchange(step);
      TurnIsTold(Entered(c), ReqKind.Resume, reply, aborts);
    }
  }

  // ---------------------------------------------------------------------------
  // The limit for which there is no bound

  /** A worker that calls a host function in every answer. */
  function Call(c: Ctx): Reply
  {
    Answer(Event(FunctionCall, c.next, true, None, 0, None, None),
           Vm(c.vm.hist + [Susp(c.next, c.n, None)], true, false))
  }

  /** The feed after n resumes by such a worker. */
  function Endless(c: Ctx, n: nat): Result2
  {
    if n == 0 then Pend(TurnOver(c, Feed, Call(c), []))
    else
      var before := Endless(c, n - 1).c;
      Pend(TurnOver(Entered(before), Resume, Call(Entered(before)), []))
  }

  /** With the largest limit the 64-bit counter wraps before it is exceeded: no feed is stopped. */
  lemma {:induction false} LargestLimitNeverStops(c: Ctx, n: nat)
    requires c.s.maxSuspensions == TWO64 - 1 && !c.s.backstop && !c.vm.dead
    ensures
      var out := Endless(c, n);
      out.o.Suspended? && out.c.s.maxSuspensions == TWO64 - 1 && !out.c.s.backstop && !out.c.vm.dead
  {
    hide Endless, TurnOver, S.Progress, S.Abort, Call;
    EndlessStep(c, n);
    if n == 0 {
      EndlessTurn(c, Feed);
    } else {
      LargestLimitNeverStops(c, n - 1);
      var before := Endless(c, n - 1).c;
      EndlessTurn(Entered(before), Resume);
    }
  }

  lemma EndlessStep(c: Ctx, n: nat)
    ensures Endless(c, n)
         == if n == 0 then Pend(TurnOver(c, Feed, Call(c), []))
            else var before := Endless(c, n - 1).c;
              Pend(TurnOver(Entered(before), Resume, Call(Entered(before)), []))
  {
  }

  lemma EndlessTurn(c: Ctx, kind: ReqKind)
    requires c.s.maxSuspensions == TWO64 - 1 && !c.s.backstop && !c.vm.dead
    ensures
      var out := TurnOver(c, kind, Call(c), []);
      out.o.Suspended? && out.c.s.maxSuspensions == TWO64 - 1 && !out.c.s.backstop && !out.c.vm.dead
  {
    hide CapDelay, OverSleepBudget, SatAdd, S.Abort;
  }
}
