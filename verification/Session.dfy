/**
 One session and one run: the state a feed carries between turns, and how the host answers a
 worker event while enforcing the suspension and sleep budgets.
 */
module Session {
  import opened Common

  const MAX_DURATION: int := 0x7fff_ffff_ffff_ffff
  const DEFAULT_SUSPENSIONS: int := 1000

  type Nanos = x: int | 0 <= x <= 0x7fff_ffff_ffff_ffff

  function Wrap64(x: int): I64 { ToI64(x % TWO64) }

  // ---------------------------------------------------------------------------
  // The worker's side

  /**
   A suspension of the sandbox: in whose turn it arose and, for a system sleep, the delay the
   sandbox asked for. Re-emitting a suspension keeps all three.
   */
  datatype Susp = Susp(id: nat, owner: nat, delay: Option<Nanos>)

  /** The suspensions on the path of the current feed, oldest first. */
  datatype Vm = Vm(hist: seq<Susp>, suspended: bool, dead: bool)

  datatype Kind =
    | Complete | FunctionCall | OSCall | NameLookup | ResolveFutures
    | ErrorEvent | TypingError | DumpEvent | OkEvent | Fatal | ShutdownDump

  predicate Suspends(k: Kind)
  {
    k.FunctionCall? || k.OSCall? || k.NameLookup? || k.ResolveFutures?
  }

  /**
   A terminal event. `decodes` says whether its body is well formed; `delay` is present for
   system sleeps, whose seconds the decoder has already checked to fit a duration.
   */
  datatype Event = Event(
    kind: Kind, id: nat, decodes: bool, delay: Option<Nanos>,
    micros: U64, maxSuspensions: Option<U64>, maxSleepMicros: Option<U64>)

  predicate IsSleep(e: Event) { e.kind.OSCall? && e.delay.Some? }

  function Asked(e: Event): Option<Nanos> { if IsSleep(e) then e.delay else None }

  function SuspOf(e: Event, n: nat): Susp { Susp(e.id, n, Asked(e)) }

  /** How a request ends: an event, an event consumed but withheld, or a lost worker. */
  datatype Reply = Answer(e: Event, vm: Vm) | Discarded(e: Event, vm: Vm) | Crash

  /** A worker that session n resumes (or tells to abort) either suspends anew or holds nothing. */
  predicate Continues(vm: Vm, e: Event, vm': Vm, next: nat, n: nat)
  {
    if Suspends(e.kind) then e.id == next && vm'.hist == vm.hist + [SuspOf(e, n)] && vm'.suspended
    else vm'.hist == vm.hist && !vm'.suspended
  }

  // ---------------------------------------------------------------------------
  // The host's side

  /** One system sleep paid for, and how much of it. */
  datatype Charge = Charge(susp: Susp, delay: Nanos)

  /** `sleeps` and `heard`, the microseconds of execution reported last, are histories. */
  datatype Sess = Sess(
    closed: bool, used: bool, inTurn: bool, pending: Option<nat>,
    maxDuration: I64, maxSuspensions: U64, maxTotalSleep: Nanos, hasSleepLimit: bool,
    sleepUsed: Nanos, sleeps: seq<Charge>, systemSleepMax: Option<Nanos>,
    execution: I64, heard: U64, grace: I64, backstop: bool)

  /**
   `lost` counts suspensions a dump failed to carry over, and `origin` is the dump the run was
   restored from; see SessionSystem.
   */
  datatype Run = Run(
    session: nat, step: nat, suspensions: U64, restoring: bool, restoreSleepCharged: bool,
    cancelled: bool, lost: nat, origin: Option<nat>)

  /** Zero asks for the default. */
  function Effective(limit: U64): (l: U64)
    ensures l >= 1
  {
    if limit == 0 then DEFAULT_SUSPENSIONS else limit
  }

  function Limit(s: Sess): (l: U64)
    ensures l >= 1
  {
    Effective(s.maxSuspensions)
  }

  /** A reported total-sleep limit, as many whole microseconds as a duration holds. */
  function SleepLimit(micros: U64): Nanos
  {
    (if micros < MAX_DURATION / 1000 then micros else MAX_DURATION / 1000) * 1000
  }

  function Tightened(own: Nanos, limited: bool, micros: Option<U64>): Nanos
  {
    if micros.Some? && (!limited || SleepLimit(micros.value) < own) then SleepLimit(micros.value) else own
  }

  /** Reported limits are recorded; a total-sleep limit can only be lowered. */
  function Observe(s: Sess, e: Event): (r: Sess)
  {
    s.(maxSuspensions := if e.maxSuspensions.Some? then e.maxSuspensions.value else s.maxSuspensions,
       execution := Wrap64(e.micros * 1000), heard := e.micros,
       maxTotalSleep := Tightened(s.maxTotalSleep, s.hasSleepLimit, e.maxSleepMicros),
       hasSleepLimit := s.hasSleepLimit || e.maxSleepMicros.Some?)
  }

  /** The watchdog refuses a request when no execution time is left. */
  predicate MayExecute(s: Sess)
  {
    s.backstop && s.maxDuration > 0 ==> Wrap64(Wrap64(s.maxDuration - s.execution) + s.grace) > 0
  }

  function SatAdd(a: Nanos, b: Nanos): (c: Nanos)
    ensures c == if a + b > MAX_DURATION then MAX_DURATION else a + b
  {
    if b > MAX_DURATION - a then MAX_DURATION else a + b
  }

  function SatSum(cs: seq<Charge>): Nanos
  {
    if cs == [] then 0 else SatAdd(SatSum(cs[..|cs| - 1]), cs[|cs| - 1].delay)
  }

  function Sum(cs: seq<Charge>): nat
  {
    if cs == [] then 0 else Sum(cs[..|cs| - 1]) + cs[|cs| - 1].delay
  }

  /** Charging one at a time with saturation gives the clamped true total. */
  lemma {:induction false} SatSumIsClampedSum(cs: seq<Charge>)
    ensures SatSum(cs) == if Sum(cs) > MAX_DURATION then MAX_DURATION else Sum(cs)
  {
    if cs != [] {
      SatSumIsClampedSum(cs[..|cs| - 1]);
    }
  }

  ghost predicate Charged(cs: seq<Charge>, s: Susp)
  {
    exists i :: 0 <= i < |cs| && cs[i].susp == s
  }

  ghost predicate Uncharged(cs: seq<Charge>, id: nat)
  {
    forall i :: 0 <= i < |cs| ==> cs[i].susp.id != id
  }

  ghost predicate DistinctCharges(cs: seq<Charge>)
  {
    forall i, j :: 0 <= i < j < |cs| ==> cs[i].susp.id != cs[j].susp.id
  }

  /** A delay under a session's cap on one system sleep. */
  function Capped(cap: Option<Nanos>, delay: Nanos): (d: Nanos)
    ensures d <= delay
    ensures cap.Some? ==> d <= cap.value
    ensures d == delay || (cap.Some? && d == cap.value)
  {
    if cap.Some? && cap.value < delay then cap.value else delay
  }

  function CapDelay(s: Sess, delay: Nanos): (d: Nanos) { Capped(s.systemSleepMax, delay) }

  /** The delay handed out with a suspension: none, or the one asked for under the cap. */
  function Granted(cap: Option<Nanos>, asked: Option<Nanos>): Option<Nanos>
  {
    if asked.Some? then Some(Capped(cap, asked.value)) else None
  }

  predicate OverSleepBudget(s: Sess, d: Nanos, alreadyCharged: bool)
  {
    s.hasSleepLimit && (s.sleepUsed > s.maxTotalSleep || (!alreadyCharged && d > s.maxTotalSleep - s.sleepUsed))
  }

  // ---------------------------------------------------------------------------
  // Requests

  datatype ReqKind = Install | Feed | Resume | AbortFeed | DumpState | LoadState | Reset

  /** `heard` is, in requests that run code, the execution time the session had been told of last; a ghost. */
  datatype Req = Req(session: nat, kind: ReqKind, run: nat, step: nat, heard: U64)

  /** Why the host got an error: every case is a different error return of the source. */
  datatype Why =
    | Rejected               // a guard said no, or there was nothing to send
    | Unsent                 // the watchdog refused the request
    | Gone                   // the worker was lost during the exchange
    | Withheld(kind: Kind)   // an event was consumed, but the print callback had failed
    | Undecodable(kind: Kind)
    | AbortRefused           // over budget, and the watchdog refused the abort
    | Raised                 // the sandbox reported an error of its own
    | Unexpected

  datatype Outcome = Failed(why: Why) | Completed | Suspended(id: nat, delay: Option<Nanos>)

  /** What the host received last says whether a living worker still holds a suspension. */
  predicate Holds(o: Outcome)
  {
    match o
    case Suspended(_, _) => true
    case Completed => false
    case Failed(Unsent) => true
    case Failed(Withheld(k)) => Suspends(k)
    case Failed(Undecodable(k)) => Suspends(k)
    case Failed(AbortRefused) => true
    case Failed(_) => false
  }

  /** The host considers the feed over. */
  predicate Over(o: Outcome) { o.Completed? || o == Failed(Raised) }

  /** Everything one critical section touches: session n, its run, its worker, the history. */
  datatype Ctx = Ctx(n: nat, run: nat, s: Sess, r: Run, vm: Vm, next: nat, log: seq<Req>)

  datatype Result2 = Out(c: Ctx, o: Outcome)

  /** A load has no feed that could complete. */
  function NotCompleted(out: Result2): Result2
  {
    if out.o.Completed? then out.(o := Failed(Unexpected)) else out
  }

  /** An abort reply the worker contract rules out counts as a lost worker. */
  function Admit(c: Ctx, a: Reply): Reply
  {
    match a
    case Crash => Crash
    case Answer(e, vm') => if Continues(c.vm, e, vm', c.next, c.n) then a else Crash
    case Discarded(e, vm') => if Continues(c.vm, e, vm', c.next, c.n) then a else Crash
  }

  /** The feed is over budget: tell the worker to abort, and treat its answer as the event. */
  function Abort(c: Ctx, aborts: seq<Reply>): (out: Result2)
    ensures out.c.n == c.n && out.c.run == c.run
    decreases |aborts|, 0
  {
    var gone := c.(r := c.r.(cancelled := true));
    if !MayExecute(c.s) then Out(gone, Failed(AbortRefused))
    else if c.vm.dead then Out(gone, Failed(Gone))
    else
      var sent := c.(log := c.log + [Req(c.n, AbortFeed, c.run, c.r.step, c.s.heard)]);
      var reply := if aborts == [] then Crash else Admit(c, aborts[0]);
      match reply
      case Crash => Out(sent.(r := gone.r, vm := c.vm.(dead := true)), Failed(Gone))
      case Discarded(e, vm') => Out(sent.(r := gone.r, vm := vm', next := c.next + 1), Failed(Withheld(e.kind)))
      case Answer(e, vm') => Progress(sent.(s := Observe(c.s, e), vm := vm', next := c.next + 1), e, aborts[1..])
  }

  function CountedRun(r: Run, k: Kind): Run
  {
    if !Suspends(k) then r
    else if r.restoring then r.(restoring := false)
    else r.(suspensions := (r.suspensions + 1) % TWO64)
  }

  function Progress(c: Ctx, e: Event, aborts: seq<Reply>): (out: Result2)
    ensures out.c.n == c.n && out.c.run == c.run
    decreases |aborts|, 1
  {
    var counted := c.(r := if Suspends(e.kind) then CountedRun(c.r, e.kind) else c.r.(cancelled := true));
    var idle := counted.(s := c.s.(pending := None));
    if Suspends(e.kind) && counted.r.suspensions > Limit(c.s) then Abort(counted, aborts)
    else
      match e.kind
      case Complete => if e.decodes then Out(idle, Completed) else Out(counted, Failed(Undecodable(e.kind)))
      case ErrorEvent => Out(idle, Failed(Raised))
      case TypingError => Out(idle, Failed(Raised))
      case Fatal => Out(idle.(vm := c.vm.(dead := true)), Failed(Raised))
      case OSCall =>
        if !e.decodes then Out(counted, Failed(Undecodable(e.kind)))
        else if e.delay.None? then Out(counted, Suspended(e.id, None))
        else
          var d := CapDelay(c.s, e.delay.value);
          var alreadyCharged := c.r.restoring && c.r.restoreSleepCharged;
          if OverSleepBudget(c.s, d, alreadyCharged) then Abort(counted, aborts)
          else
            var paid := if alreadyCharged then c.s
                        else c.s.(sleepUsed := SatAdd(c.s.sleepUsed, d),
                                  sleeps := c.s.sleeps + [Charge(SuspOf(e, c.n), d)]);
            Out(counted.(s := paid), Suspended(e.id, Some(d)))
      case _ =>
        if !Suspends(e.kind) then Out(counted, Failed(Unexpected))
        else if e.decodes || e.kind.ResolveFutures? then Out(counted, Suspended(e.id, None))
        else Out(counted, Failed(Undecodable(e.kind)))
  }

  // ---------------------------------------------------------------------------
  // What answering an event preserves

  /** A path's suspensions are distinct and known, and a suspended worker has one. */
  ghost predicate VmOk(vm: Vm, next: nat)
  {
    && (forall i :: 0 <= i < |vm.hist| ==> vm.hist[i].id < next)
    && (forall i, j :: 0 <= i < j < |vm.hist| ==> vm.hist[i].id != vm.hist[j].id)
    && (vm.suspended ==> vm.hist != [])
  }

  /** The sleep account balances, no sleep appears in it twice, and identities are taken. */
  ghost predicate Accounts(c: Ctx)
  {
    && c.s.sleepUsed == SatSum(c.s.sleeps)
    && DistinctCharges(c.s.sleeps)
    && (forall i :: 0 <= i < |c.s.sleeps| ==> c.s.sleeps[i].susp.id < c.next)
    && VmOk(c.vm, c.next)
  }

  function Last(vm: Vm): Susp
  {
    if vm.hist == [] then Susp(0, 0, None) else vm.hist[|vm.hist| - 1]
  }

  /** The 64-bit counter, what was lost, and what is still to be counted make up the history. */
  predicate CountExact(r: Run, vm: Vm, offset: nat)
  {
    (r.suspensions + r.lost + offset) % TWO64 == |vm.hist| % TWO64
  }

  /** An event agrees with the worker: new suspensions are the session's, uncounted and uncharged. */
  ghost predicate Ready(c: Ctx, e: Event)
  {
    && (!Suspends(e.kind) ==> !c.vm.suspended)
    && (Suspends(e.kind) ==>
        && c.vm.suspended && c.vm.hist != [] && Last(c.vm).id == e.id && Last(c.vm).delay == Asked(e) && e.id < c.next
        && CountExact(c.r, c.vm, if c.r.restoring then 0 else 1)
        && (c.r.restoring && c.r.restoreSleepCharged ==>
            (c.r.lost == 0 && IsSleep(e) ==> Charged(c.s.sleeps, Last(c.vm))))
        && (!(c.r.restoring && c.r.restoreSleepCharged) ==>
            Uncharged(c.s.sleeps, e.id) && Last(c.vm) == SuspOf(e, c.n)))
  }

  /** A snapshot may be handed out: counted, within the limit, capped, and paid for. */
  ghost predicate HandedOut(c: Ctx, id: nat, delay: Option<Nanos>)
  {
    && c.vm.suspended && c.vm.hist != [] && Last(c.vm).id == id
    && delay == Granted(c.s.systemSleepMax, Last(c.vm).delay)
    && id < c.next
    && CountExact(c.r, c.vm, 0) && !c.r.restoring
    && c.r.suspensions <= Limit(c.s)
    && (delay.Some? && c.r.lost == 0 ==> Charged(c.s.sleeps, Last(c.vm)))
    && (delay.Some? && c.s.hasSleepLimit ==> c.s.sleepUsed <= c.s.maxTotalSleep)
  }

  /** Nothing is paid but the suspension being handed out, and of it exactly what is granted. */
  ghost predicate PaysOnly(before: seq<Charge>, c: Ctx, o: Outcome)
  {
    && before <= c.s.sleeps
    && forall i :: |before| <= i < |c.s.sleeps| ==>
      && o.Suspended? && o.delay.Some? && Last(c.vm).owner == c.n
      && c.s.sleeps[i] == Charge(Last(c.vm), o.delay.value)
  }

  ghost predicate SleepTightens(s: Sess, s': Sess)
  {
    s.hasSleepLimit ==> s'.hasSleepLimit && s'.maxTotalSleep <= s.maxTotalSleep
  }

  ghost predicate OnlyAborts(before: seq<Req>, after: seq<Req>, n: nat)
  {
    && before <= after
    && forall i :: |before| <= i < |after| ==> after[i].kind.AbortFeed? && after[i].session == n
  }

  /** What never changes while an event is answered. */
  ghost predicate Frame(c: Ctx, d: Ctx)
  {
    && d.n == c.n && d.run == c.run && c.next <= d.next
    && d.r.(suspensions := c.r.suspensions, restoring := c.r.restoring, cancelled := c.r.cancelled) == c.r
    && d.s.closed == c.s.closed && d.s.used == c.s.used && d.s.inTurn == c.s.inTurn
    && d.s.maxDuration == c.s.maxDuration && d.s.systemSleepMax == c.s.systemSleepMax
    && (d.s.pending == c.s.pending || d.s.pending == None)
    && SleepTightens(c.s, d.s)
    && OnlyAborts(c.log, d.log, c.n)
  }

  ghost predicate Answered(c: Ctx, out: Result2)
  {
    && Frame(c, out.c)
    && Accounts(out.c)
    && out.c.s.pending == (if Over(out.o) then None else c.s.pending)
    && out.o != Failed(Unsent) && out.o != Failed(Rejected)
    && (!out.c.vm.dead ==> (out.c.vm.suspended <==> Holds(out.o)))
    && PaysOnly(c.s.sleeps, out.c, out.o)
    && (out.o.Suspended? ==> HandedOut(out.c, out.o.id, out.o.delay))
  }

  lemma NotCompletedAnswers(c: Ctx, out: Result2)
    requires Answered(c, out) && c.s.pending.None?
    ensures Answered(c, NotCompleted(out))
  {
    PaysNothing(c.s.sleeps, out.c, out.o, Failed(Unexpected));
    hide Frame, Accounts, HandedOut, PaysOnly;
  }

  /** Without a suspension nothing is paid, whatever the outcome is called. */
  lemma PaysNothing(before: seq<Charge>, c: Ctx, o: Outcome, p: Outcome)
    requires PaysOnly(before, c, o)
    ensures !o.Suspended? ==> PaysOnly(before, c, p)
  {
    if |before| < |c.s.sleeps| {
      PaidAt(before, c, o, |before|);
    }
  }

  lemma PaidAt(before: seq<Charge>, c: Ctx, o: Outcome, i: nat)
    requires PaysOnly(before, c, o) && |before| <= i < |c.s.sleeps|
    ensures o.Suspended?
  {
    var paid := c.s.sleeps[i];
    assert c.s.sleeps[i] == paid;
  }

  lemma FrameTransitive(a: Ctx, b: Ctx, c: Ctx)
    requires Frame(a, b) && Frame(b, c)
    ensures Frame(a, c)
  {
  }

  lemma SatSumSnoc(cs: seq<Charge>, ch: Charge)
    ensures SatSum(cs + [ch]) == SatAdd(SatSum(cs), ch.delay)
  {
    hide SatAdd;
    assert (cs + [ch])[..|cs + [ch]| - 1] == cs;
  }

  lemma ChargesSnoc(cs: seq<Charge>, ch: Charge)
    ensures Charged(cs + [ch], ch.susp)
    ensures DistinctCharges(cs) && Uncharged(cs, ch.susp.id) ==> DistinctCharges(cs + [ch])
  {
    assert (cs + [ch])[|cs|] == ch;
  }

  lemma SleepPaid(c: Ctx, susp: Susp, d: Nanos)
    requires Accounts(c) && Uncharged(c.s.sleeps, susp.id) && susp.id < c.next
    ensures
      var paid := c.s.(sleepUsed := SatAdd(c.s.sleepUsed, d), sleeps := c.s.sleeps + [Charge(susp, d)]);
      Accounts(c.(s := paid)) && Charged(paid.sleeps, susp)
  {
    hide SatSum, SatAdd, DistinctCharges, Uncharged, Charged, VmOk;
    SatSumSnoc(c.s.sleeps, Charge(susp, d));
    ChargesSnoc(c.s.sleeps, Charge(susp, d));
  }

  /** Only its account, its worker's path and the identities taken matter to a session's accounts. */
  lemma AccountsStay(c: Ctx, d: Ctx)
    requires Accounts(c) && d.s.sleeps == c.s.sleeps && d.s.sleepUsed == c.s.sleepUsed && d.next == c.next
    requires d.vm.hist == c.vm.hist && d.vm.suspended == c.vm.suspended
    ensures Accounts(d)
  {
    hide SatSum, DistinctCharges;
  }

  lemma ObserveFrame(s: Sess, e: Event)
    ensures SleepTightens(s, Observe(s, e))
    ensures
      var o := Observe(s, e);
      s == o.(maxSuspensions := s.maxSuspensions, execution := s.execution, heard := s.heard,
              maxTotalSleep := s.maxTotalSleep,
              hasSleepLimit := s.hasSleepLimit)
  {
    hide Wrap64, SleepLimit;
  }

  /** The abort is refused or gets no answer. */
  lemma AbortUnanswered(c: Ctx, aborts: seq<Reply>)
    requires Accounts(c) && c.vm.suspended
    requires !MayExecute(c.s) || c.vm.dead || aborts == [] || !Admit(c, aborts[0]).Answer?
    ensures Answered(c, Abort(c, aborts))
  {
    hide Progress, MayExecute, Observe, HandedOut, Accounts, SuspOf;
    var d := Abort(c, aborts).c;
    if d.next == c.next {
      AccountsStay(c, d);
    } else {
      AccountsGrow(c, d, aborts[0].e);
    }
  }

  /** The worker has moved on, and nothing was charged for it. */
  lemma AccountsGrow(c: Ctx, d: Ctx, e: Event)
    requires Accounts(c) && d.s.sleeps == c.s.sleeps && d.s.sleepUsed == c.s.sleepUsed && d.next == c.next + 1
    requires Continues(c.vm, e, d.vm, c.next, c.n)
    ensures Accounts(d)
  {
    hide SatSum, DistinctCharges, Asked;
  }

  lemma {:induction false} AbortAnswers(c: Ctx, aborts: seq<Reply>)
    requires Accounts(c) && CountExact(c.r, c.vm, 0) && !c.r.restoring && c.vm.suspended
    ensures Answered(c, Abort(c, aborts))
    decreases |aborts|, 0
  {
    hide Progress, MayExecute, SatSum, Observe, HandedOut, CountExact, DistinctCharges, Ready, VmOk;
    if !MayExecute(c.s) || c.vm.dead || aborts == [] || !Admit(c, aborts[0]).Answer? {
      AbortUnanswered(c, aborts);
    } else {
      var e := aborts[0].e;
      ObserveFrame(c.s, e);
      var sent := c.(log := c.log + [Req(c.n, AbortFeed, c.run, c.r.step, c.s.heard)]);
      var d := sent.(s := Observe(c.s, e), vm := aborts[0].vm, next := c.next + 1);
      assert Frame(c, d);
      NewIsReady(c, e, d);
      ProgressAnswers(d, e, aborts[1..]);
      FrameTransitive(c, d, Progress(d, e, aborts[1..]).c);
    }
  }

  /** A suspension the worker has just made is uncounted and uncharged. */
  lemma NewIsReady(c: Ctx, e: Event, d: Ctx)
    requires Accounts(c) && CountExact(c.r, c.vm, 0) && !c.r.restoring && Continues(c.vm, e, d.vm, c.next, c.n)
    requires d.r == c.r && d.n == c.n && d.next == c.next + 1
    requires d.s.sleeps == c.s.sleeps && d.s.sleepUsed == c.s.sleepUsed
    ensures Accounts(d) && Ready(d, e)
  {
    NewIsUncharged(c, c.next);
    AccountsGrow(c, d, e);
    hide Accounts, Uncharged, Charged, CountExact;
    if Suspends(e.kind) {
      OneMoreToCount(c.r, c.vm, d.vm);
    }
  }

  lemma OneMoreToCount(r: Run, vm: Vm, vm': Vm)
    requires CountExact(r, vm, 0) && |vm'.hist| == |vm.hist| + 1
    ensures CountExact(r, vm', 1)
  {
  }

  lemma NewIsUncharged(c: Ctx, id: nat)
    requires Accounts(c) && id >= c.next
    ensures Uncharged(c.s.sleeps, id)
  {
  }

  /** An event that ends the feed, or should, leaves everything but the pending feed as it was. */
  lemma EndingFrames(c: Ctx, e: Event, aborts: seq<Reply>)
    requires !Suspends(e.kind)
    ensures
      var out := Progress(c, e, aborts);
      && out.c == c.(r := c.r.(cancelled := true), s := c.s.(pending := if Over(out.o) then None else c.s.pending),
                     vm := c.vm.(dead := c.vm.dead || e.kind.Fatal?))
      && !Holds(out.o) && !out.o.Suspended? && out.o != Failed(Unsent) && out.o != Failed(Rejected)
  {
    hide Abort, Limit, OverSleepBudget, CapDelay;
  }

  lemma EndingAnswers(c: Ctx, e: Event, aborts: seq<Reply>)
    requires Accounts(c) && Ready(c, e) && !Suspends(e.kind)
    ensures Answered(c, Progress(c, e, aborts))
  {
    assert !c.vm.suspended;
    hide Progress, Accounts, HandedOut, Ready;
    EndingFrames(c, e, aborts);
    AccountsStay(c, Progress(c, e, aborts).c);
  }

  lemma Counting(c: Ctx, e: Event)
    requires Accounts(c) && Ready(c, e) && Suspends(e.kind)
    ensures
      var counted := c.(r := CountedRun(c.r, e.kind));
      && Frame(c, counted) && Accounts(counted) && CountExact(counted.r, c.vm, 0) && !counted.r.restoring
      && counted.s == c.s && counted.vm == c.vm && c.vm.suspended
      && (counted.r.suspensions <= Limit(c.s) && !IsSleep(e) ==> Answered(c, Out(counted, Suspended(e.id, None))))
      && Answered(c, Out(counted, Failed(Undecodable(e.kind))))
  {
    hide SatSum, SatAdd, Limit;
  }

  lemma {:induction false} ProgressAnswers(c: Ctx, e: Event, aborts: seq<Reply>)
    requires Accounts(c) && Ready(c, e)
    ensures Answered(c, Progress(c, e, aborts))
    decreases |aborts|, 1
  {
    if !Suspends(e.kind) {
      EndingAnswers(c, e, aborts);
    } else {
      hide Abort, SatSum, SatAdd, Limit, OverSleepBudget, CapDelay, Frame, Accounts, HandedOut, Ready, CountExact,
        CountedRun;
      var counted := c.(r := CountedRun(c.r, e.kind));
      Counting(c, e);
      AbortAnswers(counted, aborts);
      FrameTransitive(c, counted, Abort(counted, aborts).c);
      if IsSleep(e) && e.decodes && counted.r.suspensions <= Limit(c.s) {
        SleepAnswers(c, counted, e);
      }
    }
  }

  /** A system sleep within budget is charged unless its dump already paid for it. */
  lemma SleepAnswers(c: Ctx, counted: Ctx, e: Event)
    requires Accounts(c) && Ready(c, e) && IsSleep(e)
    requires counted == c.(r := CountedRun(c.r, e.kind)) && CountExact(counted.r, c.vm, 0)
    requires counted.r.suspensions <= Limit(c.s)
    ensures
      var d := CapDelay(c.s, e.delay.value);
      var alreadyCharged := c.r.restoring && c.r.restoreSleepCharged;
      var paid := if alreadyCharged then c.s
                  else c.s.(sleepUsed := SatAdd(c.s.sleepUsed, d), sleeps := c.s.sleeps + [Charge(SuspOf(e, c.n), d)]);
      !OverSleepBudget(c.s, d, alreadyCharged) ==>
        Answered(c, Out(counted.(s := paid), Suspended(e.id, Some(d))))
  {
    hide SatSum, Capped;
    var d := CapDelay(c.s, e.delay.value);
    if !(c.r.restoring && c.r.restoreSleepCharged) {
      assert Last(c.vm) == SuspOf(e, c.n);
      SleepPaid(c, SuspOf(e, c.n), d);
      var paid := c.s.(sleepUsed := SatAdd(c.s.sleepUsed, d), sleeps := c.s.sleeps + [Charge(SuspOf(e, c.n), d)]);
      assert Accounts(counted.(s := paid));
      SatAddValue(c.s.sleepUsed, d);
    }
  }

  lemma SatAddValue(a: Nanos, b: Nanos)
    ensures SatAdd(a, b) <= a + b
  {
  }

  // ---------------------------------------------------------------------------
  // Duration budgets across restores

  /** The budget after loading a dump into a session. */
  function RestoredDuration(own: I64, dumped: Nanos): I64
  {
    if own == 0 || (dumped > 0 && dumped < own) then dumped else own
  }

  /** A budget that is not positive is no budget. */
  function Budget(d: I64): Option<I64>
  {
    if d <= 0 then None else Some(d)
  }

  function Meet(a: Option<I64>, b: Option<I64>): Option<I64>
  {
    if a.None? then b else if b.None? then a else if a.value <= b.value then a else b
  }

  /**
   Restoring keeps the stricter of the two budgets exactly when the destination's setting is
   not negative or the dump carries none: a negative setting silently drops the dump's.
   */
  lemma RestoreMeetsBudgets(own: I64, dumped: Nanos)
    ensures Budget(RestoredDuration(own, dumped)) == Meet(Budget(own), Budget(dumped)) <==> own >= 0 || dumped == 0
  {
  }

  /** The budget after a chain of restores, each into a session with its own setting. */
  function ChainDuration(first: Nanos, settings: seq<Nanos>): Nanos
  {
    if settings == [] then first
    else RestoredDuration(settings[|settings| - 1], ChainDuration(first, settings[..|settings| - 1]))
  }

  function MeetAll(first: Nanos, settings: seq<Nanos>): Option<I64>
  {
    if settings == [] then Budget(first)
    else Meet(MeetAll(first, settings[..|settings| - 1]), Budget(settings[|settings| - 1]))
  }

  /** Along any chain the budget in force is the strictest one set anywhere on it. */
  lemma {:induction false} ChainMeetsBudgets(first: Nanos, settings: seq<Nanos>)
    ensures Budget(ChainDuration(first, settings)) == MeetAll(first, settings)
    ensures forall i :: 0 <= i < |settings| && settings[i] > 0 ==>
      MeetAll(first, settings).Some? && MeetAll(first, settings).value <= settings[i]
    ensures first > 0 ==> MeetAll(first, settings).Some? && MeetAll(first, settings).value <= first
  {
    if settings != [] {
      var k := |settings| - 1;
      ChainMeetsBudgets(first, settings[..k]);
      RestoreMeetsBudgets(settings[k], ChainDuration(first, settings[..k]));
      forall i | 0 <= i < |settings| && settings[i] > 0
        ensures MeetAll(first, settings).Some? && MeetAll(first, settings).value <= settings[i]
      {
        if i < k {
          assert settings[..k][i] == settings[i];
        }
      }
    }
  }
}
