/**
 What a turn comes to, in plain terms: which event decides it, which answer the caller gets for
 that event, and when the watchdog lets a request through.
 */
module SessionOutcome {
  import opened Common
  import opened Session

  // ---------------------------------------------------------------------------
  // Limits and the watchdog, as integers

  /** Execution time as the source keeps it does not overflow, and neither does the budget with its grace. */
  predicate NoOverflow(s: Sess, micros: U64)
  {
    micros * 1000 <= MAX_DURATION && s.grace >= 0 && s.maxDuration + s.grace <= MAX_DURATION
  }

  /** There is a duration budget to watch. */
  predicate Watched(s: Sess) { s.backstop && s.maxDuration > 0 }

  /** With this much reported, in microseconds, some of the budget and its grace is left, in nanoseconds. */
  predicate TimeLeft(s: Sess, micros: U64)
  {
    1000 * micros < s.maxDuration + s.grace
  }

  /** The execution field is the report heard last. */
  predicate Clocked(s: Sess)
  {
    s.heard * 1000 <= MAX_DURATION ==> s.execution == 1000 * s.heard
  }

  /** Some execution is reported that the source's arithmetic is exact for. */
  predicate Measured(s: Sess) { Clocked(s) && NoOverflow(s, s.heard) }

  predicate OutOfTime(s: Sess) { Watched(s) && !TimeLeft(s, s.heard) }

  lemma ObserveClocks(s: Sess, e: Event)
    ensures Clocked(Observe(s, e)) && Observe(s, e).heard == e.micros
  {
    hide Tightened;
    if e.micros * 1000 <= MAX_DURATION {
      assert (e.micros * 1000) % TWO64 == e.micros * 1000;
    }
  }

  /** The watchdog lets a request through if and only if there is no budget to watch or time left. */
  lemma WatchdogMeasures(s: Sess)
    requires Measured(s)
    ensures MayExecute(s) <==> !OutOfTime(s)
  {
    if Watched(s) {
      var left := s.maxDuration - s.execution;
      WrapsNot(left);
      WrapsNot(left + s.grace);
    }
  }

  lemma WrapsNot(x: int)
    requires -TWO63 <= x < TWO63
    ensures Wrap64(x) == x
  {
    if x < 0 {
      assert x % TWO64 == x + TWO64;
    } else {
      assert x % TWO64 == x;
    }
  }

  /**
   After an event the suspension limit is the reported one, 1000 if that is zero, or else as before;
   the total-sleep limit is the smallest of those set and reported, in whole microseconds of at most
   the largest duration.
   */
  lemma ObservedLimits(s: Sess, e: Event)
    ensures
      var r := Observe(s, e);
      && (e.maxSuspensions.None? ==> r.maxSuspensions == s.maxSuspensions)
      && (e.maxSuspensions.Some? ==> Limit(r) == if e.maxSuspensions.value == 0 then 1000 else e.maxSuspensions.value)
      && (r.hasSleepLimit <==> s.hasSleepLimit || e.maxSleepMicros.Some?)
      && (e.maxSleepMicros.None? ==> r.maxTotalSleep == s.maxTotalSleep)
      && (e.maxSleepMicros.Some? ==>
          var m := e.maxSleepMicros.value;
          && (s.hasSleepLimit ==> r.maxTotalSleep <= s.maxTotalSleep)
          && r.maxTotalSleep <= 1000 * m
          && (r.maxTotalSleep == 1000 * m || (s.hasSleepLimit && r.maxTotalSleep == s.maxTotalSleep)
              || (1000 * m > MAX_DURATION && r.maxTotalSleep % 1000 == 0 && r.maxTotalSleep + 1000 > MAX_DURATION)))
  {
    hide Wrap64;
  }

  // ---------------------------------------------------------------------------
  // Which event decides

  /** The suspension counter with this event in it; one that was restored is in it already. */
  function CountWith(r: Run): int
  {
    if r.restoring then r.suspensions else if r.suspensions == 0xffff_ffff_ffff_ffff then 0 else r.suspensions + 1
  }

  function LimitInForce(s: Sess): int
  {
    if s.maxSuspensions == 0 then 1000 else s.maxSuspensions
  }

  predicate TooMany(c: Ctx, e: Event)
  {
    Suspends(e.kind) && CountWith(c.r) > LimitInForce(c.s)
  }

  /** A dump has paid for the sleep its restore is told of again. */
  predicate PaidBefore(r: Run) { r.restoring && r.restoreSleepCharged }

  predicate SystemSleep(e: Event) { e.kind.OSCall? && e.decodes && e.delay.Some? }

  /** The delay to sleep: the one asked for, or the cap if that is less. */
  function Allowed(cap: Option<Nanos>, asked: Nanos): Nanos
  {
    match cap
    case None => asked
    case Some(most) => if asked <= most then asked else most
  }

  /** Together with what was used, the sleep does not fit the total; one already paid for must still be within it. */
  predicate TooLong(c: Ctx, e: Event)
  {
    && SystemSleep(e) && c.s.hasSleepLimit
    && c.s.sleepUsed + (if PaidBefore(c.r) then 0 else Allowed(c.s.systemSleepMax, e.delay.value)) > c.s.maxTotalSleep
  }

  predicate OverBudget(c: Ctx, e: Event) { TooMany(c, e) || TooLong(c, e) }

  /** The event has a body the host can read; of a futures request it does not look at one. */
  predicate Readable(e: Event) { e.decodes || e.kind.ResolveFutures? }

  /** The context an over-budget event leaves: counted, and nothing else. */
  function AfterCounting(c: Ctx): Ctx
  {
    c.(r := c.r.(suspensions := CountWith(c.r), restoring := false))
  }

  /** The abort is written and answered. */
  predicate AbortAnswered(c: Ctx, aborts: seq<Reply>)
  {
    MayExecute(c.s) && !c.vm.dead && aborts != [] && Admit(c, aborts[0]).Answer?
  }

  /** Where that answer is looked at. */
  function Aborted(c: Ctx, a: Reply): Ctx
    requires a.Answer?
  {
    var d := AfterCounting(c);
    d.(log := c.log + [Req(c.n, AbortFeed, c.run, c.r.step, c.s.heard)], s := Observe(c.s, a.e), vm := a.vm,
       next := c.next + 1)
  }

  /** The event a turn stops at, where it is looked at, and the answers to aborts not asked for yet. */
  datatype Verdict = Verdict(c: Ctx, e: Event, rest: seq<Reply>)

  /** The first event that is within budget, or else the last one that was answered. */
  function Decisive(c: Ctx, e: Event, aborts: seq<Reply>): (v: Verdict)
    decreases |aborts|
  {
    if OverBudget(c, e) && AbortAnswered(c, aborts)
    then Decisive(Aborted(c, aborts[0]), aborts[0].e, aborts[1..])
    else Verdict(c, e, aborts)
  }

  predicate Completes(v: Verdict) { v.e.kind.Complete? && v.e.decodes }

  predicate SuspendsAt(v: Verdict) { Suspends(v.e.kind) && Readable(v.e) && !OverBudget(v.c, v.e) }

  // ---------------------------------------------------------------------------
  // What the caller is told of it

  /** A snapshot is handed out: counted, within the limit, capped, and within the total and charged. */
  ghost predicate HandsOut(c: Ctx, e: Event, out: Result2)
  {
    && out.o.Suspended? && out.o.id == e.id
    && out.o.delay == (if SystemSleep(e) then Some(Allowed(c.s.systemSleepMax, e.delay.value)) else None)
    && out.c.r.suspensions == CountWith(c.r) <= LimitInForce(out.c.s) && !out.c.r.restoring
    && (SystemSleep(e) && c.s.hasSleepLimit ==>
        && out.c.s.sleepUsed <= c.s.maxTotalSleep
        && (!PaidBefore(c.r) ==> out.o.delay.value <= c.s.maxTotalSleep - c.s.sleepUsed))
    && out.c.s.sleepUsed == (
         if !SystemSleep(e) || PaidBefore(c.r) then c.s.sleepUsed
         else if c.s.sleepUsed + out.o.delay.value > MAX_DURATION then MAX_DURATION
         else c.s.sleepUsed + out.o.delay.value)
    && out.c.s.(sleepUsed := c.s.sleepUsed, sleeps := c.s.sleeps) == c.s
    && out.c.vm == c.vm && out.c.log == c.log && out.c.next == c.next
  }

  /** The feed is over: nothing is pending, the run is cancelled, and account, counter and path are as they were. */
  ghost predicate FeedOver(c: Ctx, out: Result2)
  {
    && out.c.s == c.s.(pending := None) && out.c.r == c.r.(cancelled := true)
    && out.c.vm.(dead := c.vm.dead) == c.vm && out.c.log == c.log && out.c.next == c.next
  }

  /** Every outcome, and exactly when it is the one. */
  ghost predicate Tells(v: Verdict, out: Result2)
  {
    var c, e, o := v.c, v.e, out.o;
    && (o.Completed? <==> Completes(v))
    && (o.Completed? ==> FeedOver(c, out) && out.c.vm == c.vm)
    && (o.Suspended? <==> SuspendsAt(v))
    && (o.Suspended? ==> HandsOut(c, e, out))
    && (o == Failed(Raised) <==> e.kind.ErrorEvent? || e.kind.TypingError? || e.kind.Fatal?)
    && (o == Failed(Raised) ==> FeedOver(c, out) && (out.c.vm.dead <==> c.vm.dead || e.kind.Fatal?))
    && (forall k :: o == Failed(Undecodable(k)) <==>
         k == e.kind && (k.Complete? || Suspends(k)) && !Readable(e) && !OverBudget(c, e))
    && (o == Failed(Unexpected) <==> e.kind.DumpEvent? || e.kind.OkEvent? || e.kind.ShutdownDump?)
    && (o == Failed(AbortRefused) <==> OverBudget(c, e) && !MayExecute(c.s))
    && (o == Failed(Gone) <==>
        OverBudget(c, e) && MayExecute(c.s) && (c.vm.dead || v.rest == [] || Admit(c, v.rest[0]).Crash?))
    && (forall k :: o == Failed(Withheld(k)) <==>
         && OverBudget(c, e) && MayExecute(c.s) && !c.vm.dead && v.rest != []
         && Admit(c, v.rest[0]).Discarded? && v.rest[0].e.kind == k)
    && o != Failed(Unsent) && o != Failed(Rejected)
    && (!o.Completed? && o != Failed(Raised) ==> out.c.s.pending == c.s.pending)
    && (out.c.r.cancelled <==> c.r.cancelled || !Suspends(e.kind) || OverBudget(c, e))
    && out.c.s == c.s.(pending := out.c.s.pending, sleepUsed := out.c.s.sleepUsed, sleeps := out.c.s.sleeps)
    && (!o.Suspended? ==> out.c.s.sleepUsed == c.s.sleepUsed && out.c.s.sleeps == c.s.sleeps)
  }

  /** An over-budget event is answered by an abort. */
  lemma OverAborts(c: Ctx, e: Event, aborts: seq<Reply>)
    requires OverBudget(c, e)
    ensures Progress(c, e, aborts) == Abort(AfterCounting(c), aborts)
  {
    hide Abort;
  }

  lemma AnsweredAbort(c: Ctx, aborts: seq<Reply>)
    requires AbortAnswered(c, aborts)
    ensures Abort(AfterCounting(c), aborts) == Progress(Aborted(c, aborts[0]), aborts[0].e, aborts[1..])
  {
    hide Progress, MayExecute, Observe, Continues;
  }

  lemma UnansweredTells(c: Ctx, e: Event, aborts: seq<Reply>)
    requires OverBudget(c, e) && !AbortAnswered(c, aborts)
    ensures Tells(Verdict(c, e, aborts), Abort(AfterCounting(c), aborts))
  {
    hide Progress, MayExecute, Observe, Continues, HandsOut, FeedOver;
  }

  lemma EndingTells(c: Ctx, e: Event, aborts: seq<Reply>)
    requires !Suspends(e.kind)
    ensures Tells(Verdict(c, e, aborts), Progress(c, e, aborts))
  {
    hide Abort, HandsOut;
  }

  lemma SleepingTells(c: Ctx, e: Event, aborts: seq<Reply>)
    requires SystemSleep(e) && !OverBudget(c, e)
    ensures Tells(Verdict(c, e, aborts), Progress(c, e, aborts))
  {
    hide Abort, FeedOver;
  }

  lemma SuspendingTells(c: Ctx, e: Event, aborts: seq<Reply>)
    requires Suspends(e.kind) && !SystemSleep(e) && !OverBudget(c, e)
    ensures Tells(Verdict(c, e, aborts), Progress(c, e, aborts))
  {
    hide Abort, FeedOver, SatAdd, CapDelay, OverSleepBudget;
  }

  /**
   Answering an event gives the caller exactly what the deciding event calls for: the first event
   within budget, or the one whose abort was refused or brought no answer.
   */
  lemma {:induction false} ProgressTells(c: Ctx, e: Event, aborts: seq<Reply>)
    ensures Tells(Decisive(c, e, aborts), Progress(c, e, aborts))
    decreases |aborts|
  {
    hide Progress, Abort, Tells, MayExecute;
    if !OverBudget(c, e) {
      if SystemSleep(e) {
        SleepingTells(c, e, aborts);
      } else if Suspends(e.kind) {
        SuspendingTells(c, e, aborts);
      } else {
        EndingTells(c, e, aborts);
      }
    } else {
      OverAborts(c, e, aborts);
      if AbortAnswered(c, aborts) {
        AnsweredAbort(c, aborts);
        ProgressTells(Aborted(c, aborts[0]), aborts[0].e, aborts[1..]);
      } else {
        UnansweredTells(c, e, aborts);
      }
    }
  }

  /** Where the deciding event is looked at, nothing has been paid or given up on the way. */
  lemma {:induction false} DecisiveCostsNothing(c: Ctx, e: Event, aborts: seq<Reply>)
    ensures
      var v := Decisive(c, e, aborts);
      && v.c.s.sleepUsed == c.s.sleepUsed && v.c.s.sleeps == c.s.sleeps && v.c.s.pending == c.s.pending
      && v.c.s.maxDuration == c.s.maxDuration && v.c.s.grace == c.s.grace && v.c.s.backstop == c.s.backstop
      && v.c.n == c.n && v.c.run == c.run && (!OverBudget(c, e) ==> v.c == c && v.e == e)
      && (c.s.heard == e.micros ==> v.c.s.heard == v.e.micros) && (Clocked(c.s) ==> Clocked(v.c.s))
    decreases |aborts|
  {
    hide OverBudget, AbortAnswered, Observe, Clocked;
    if OverBudget(c, e) && AbortAnswered(c, aborts) {
      assert aborts != [] && aborts[0].Answer? by { AnswerIsThere(c, aborts); }
      ObserveFrame(c.s, aborts[0].e);
      ObserveClocks(c.s, aborts[0].e);
      DecisiveCostsNothing(Aborted(c, aborts[0]), aborts[0].e, aborts[1..]);
    }
  }

  lemma AnswerIsThere(c: Ctx, aborts: seq<Reply>)
    requires AbortAnswered(c, aborts)
    ensures aborts != [] && aborts[0].Answer?
  {
  }
}
