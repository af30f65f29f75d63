/**
 Many sessions at once. Every lock window or worker exchange of a session is one action, and
 any interleaving of actions is a run. Dumps taken by one session can be loaded by others, so a
 run of the system contains whole trees of feeds, dumps and branched restores.
 */
module SessionSystem {
  import opened Common
  import opened Session

  /** A protocol turn: entered, request written, answered; without an event it failed, and why. */
  datatype Turn =
    | NoTurn
    | Begun(run: nat, feed: bool)
    | Waiting(run: nat, feed: bool)
    | Replied(run: nat, feed: bool, event: Option<Event>, why: Why)

  /** `last` is what the host made of the session's last exchange about a feed. */
  datatype Node = Node(s: Sess, turn: Turn, vm: Vm, resetSent: bool, last: Outcome)

  /**
   A claimed snapshot has won its one-shot flag but not yet entered its turn. A spent one has
   answered, or given up on the way, or is in nobody's hands any more.
   */
  datatype SnapState = Fresh | Claimed | Spent

  datatype Snap = Snap(run: nat, step: nat, susp: Susp, delay: Option<Nanos>, state: SnapState)

  /** `from` is the run whose snapshot was dumped, if it was one; `last` is the session's, then. */
  datatype Dump = Dump(
    vm: Vm, duration: I64, suspensions: U64, sleepUsed: Nanos, sleeps: seq<Charge>, lost: nat,
    from: Option<nat>, last: Outcome)

  /** `dumping` are the snapshots whose dump has passed the one-shot flag but not yet the lock. */
  datatype Sys = Sys(
    nodes: seq<Node>, runs: seq<Run>, snaps: seq<Snap>, dumps: seq<Dump>, log: seq<Req>, next: nat,
    dumping: multiset<nat>)

  datatype DumpReply = Dumped | Refused | Lost

  datatype Action =
    | NewSession(maxDuration: I64, maxSuspensions: U64, maxTotalSleep: Nanos,
                 systemSleepMax: Option<Nanos>, grace: I64, backstop: bool)
    | BeginFeed(n: nat)
    | Send(n: nat)
    | Receive(n: nat, reply: Reply)
    | Finish(n: nat, aborts: seq<Reply>)
    | Claim(k: nat)
    | BeginResume(k: nat)
    | Abandon(k: nat, cancels: bool)
    | Drop(k: nat)
    | BeginDump(k: nat)
    | DumpSnapshot(k: nat, answer: DumpReply)
    | DumpSession(n: nat, answer: DumpReply)
    | LoadDump(n: nat, d: nat, reply: Reply, aborts: seq<Reply>)
    | InstallDeps(n: nat, survives: bool)
    | CloseBegin(n: nat)
    | CloseReset(n: nat)

  const EMPTY: Sys := Sys([], [], [], [], [], 0, multiset{})

  function FreshSess(a: Action): Sess
    requires a.NewSession?
  {
    Sess(false, false, false, None, a.maxDuration, a.maxSuspensions, a.maxTotalSleep, a.maxTotalSleep > 0,
         0, [], a.systemSleepMax, 0, 0, a.grace, a.backstop)
  }

  predicate IsIdle(s: Sess)
  {
    !s.closed && s.pending.None? && !s.inTurn
  }

  function CtxOf(sys: Sys, n: nat, r: nat): Ctx
    requires n < |sys.nodes| && r < |sys.runs|
  {
    Ctx(n, r, sys.nodes[n].s, sys.runs[r], sys.nodes[n].vm, sys.next, sys.log)
  }

  /** Writes back what a critical section changed. */
  function Store(sys: Sys, c: Ctx): (t: Sys)
    requires c.n < |sys.nodes| && c.run < |sys.runs|
    ensures |t.nodes| == |sys.nodes| && |t.runs| == |sys.runs|
  {
    sys.(nodes := sys.nodes[c.n := sys.nodes[c.n].(s := c.s, vm := c.vm)],
         runs := sys.runs[c.run := c.r], next := c.next, log := c.log)
  }

  /** A worker starting a feed drops the old path, or keeps it where it rejects the feed. */
  predicate Starts(vm: Vm, e: Event, vm': Vm, next: nat, n: nat)
  {
    if Suspends(e.kind) then e.id == next && vm'.hist == [SuspOf(e, n)] && vm'.suspended
    else (vm'.hist == vm.hist || vm'.hist == []) && !vm'.suspended
  }

  /** A worker loading a dump re-emits the dump's suspension, or ends up idle. */
  predicate Restores(d: Dump, e: Event, vm': Vm)
  {
    if Suspends(e.kind) then
      && d.vm.suspended && d.vm.hist != [] && vm'.hist == d.vm.hist && vm'.suspended
      && Last(d.vm).id == e.id && Last(d.vm).delay == Asked(e)
    else vm'.hist == [] && !vm'.suspended
  }

  predicate TurnObeys(t: Turn, vm: Vm, reply: Reply, next: nat, n: nat)
    requires t.Waiting?
  {
    match reply
    case Crash => true
    case Answer(e, vm') => if t.feed then Starts(vm, e, vm', next, n) else Continues(vm, e, vm', next, n)
    case Discarded(e, vm') => if t.feed then Starts(vm, e, vm', next, n) else Continues(vm, e, vm', next, n)
  }

  /** Handing out (or not) after a critical section. */
  function Deliver(sys: Sys, out: Result2): (t: Sys)
    requires out.c.n < |sys.nodes| && out.c.run < |sys.runs|
    ensures |t.nodes| == |sys.nodes| && |t.runs| == |sys.runs|
  {
    var t := Store(sys, out.c);
    match out.o
    case Failed(_) => t.(nodes := t.nodes[out.c.n := t.nodes[out.c.n].(last := out.o)])
    case Completed => t.(nodes := t.nodes[out.c.n := t.nodes[out.c.n].(last := out.o)])
    case Suspended(_, delay) =>
      t.(nodes := t.nodes[out.c.n := t.nodes[out.c.n].(s := out.c.s.(pending := Some(out.c.run)), last := out.o)],
         snaps := t.snaps + [Snap(out.c.run, out.c.r.step, Last(out.c.vm), delay, Fresh)])
  }

  function DoFinish(sys: Sys, n: nat, aborts: seq<Reply>): (t: Sys)
    requires n < |sys.nodes| && sys.nodes[n].turn.Replied? && sys.nodes[n].turn.run < |sys.runs|
    ensures |t.nodes| == |sys.nodes| && |t.runs| == |sys.runs|
  {
    var nd := sys.nodes[n];
    var r := nd.turn.run;
    var s := nd.s.(inTurn := false);
    var left := sys.(nodes := sys.nodes[n := nd.(s := s, turn := NoTurn)]);
    match nd.turn.event
    case None =>
      left.(nodes := left.nodes[n := left.nodes[n].(
              s := if nd.turn.feed then s else s.(pending := None),
              last := if nd.turn.feed && nd.turn.why.Unsent? then nd.last else Failed(nd.turn.why))],
            runs := sys.runs[r := sys.runs[r].(cancelled := true)])
    case Some(e) => Deliver(left, Progress(CtxOf(left, n, r), e, aborts))
  }

  function DoLoad(sys: Sys, n: nat, d: Dump, origin: nat, reply: Reply, aborts: seq<Reply>): (t: Sys)
    requires n < |sys.nodes| && d.duration >= 0
    ensures |t.nodes| == |sys.nodes| && |t.runs| == |sys.runs| + 1
  {
    var nd := sys.nodes[n];
    var r := |sys.runs|;
    var s := nd.s.(used := true, sleepUsed := d.sleepUsed, sleeps := d.sleeps,
                   maxDuration := RestoredDuration(nd.s.maxDuration, d.duration));
    var t := sys.(runs := sys.runs + [Run(n, 0, d.suspensions, true, true, false, d.lost, Some(origin))],
                  nodes := sys.nodes[n := nd.(s := s)]);
    if nd.vm.dead then t.(nodes := t.nodes[n := t.nodes[n].(last := Failed(Gone))])
    else
      var asked := t.(log := t.log + [Req(n, LoadState, r, 0, 0)]);
      if reply.Crash? || !Restores(d, reply.e, reply.vm) then
        asked.(nodes := asked.nodes[n := asked.nodes[n].(vm := nd.vm.(dead := true), last := Failed(Gone))])
      else
        match reply
        case Discarded(e, vm') =>
          asked.(nodes := asked.nodes[n := asked.nodes[n].(vm := vm', last := Failed(Withheld(e.kind)))])
        case Answer(e, vm') =>
          var told := asked.(nodes := asked.nodes[n := asked.nodes[n].(s := Observe(s, e), vm := vm')]);
          if e.kind.OkEvent? then
            told.(runs := told.runs[r := told.runs[r].(cancelled := true)],
                  nodes := told.nodes[n := told.nodes[n].(last := Completed)])
          else Deliver(told, NotCompleted(Progress(CtxOf(told, n, r), e, aborts)))
  }

  /** The guard shared by resuming and dumping a snapshot. */
  predicate Active(sys: Sys, k: nat)
    requires k < |sys.snaps|
  {
    var p := sys.snaps[k];
    && p.run < |sys.runs| && sys.runs[p.run].session < |sys.nodes|
    && var s := sys.nodes[sys.runs[p.run].session].s;
       !s.closed && s.pending == Some(p.run) && sys.runs[p.run].step == p.step
  }

  function TakeDump(sys: Sys, n: nat, answer: DumpReply, suspensions: U64, lost: nat, from: Option<nat>): (t: Sys)
    requires n < |sys.nodes|
  {
    var nd := sys.nodes[n];
    if nd.vm.dead then sys
    else
      var asked := sys.(log := sys.log + [Req(n, DumpState, 0, 0, 0)]);
      match answer
      case Refused => asked
      case Lost => asked.(nodes := sys.nodes[n := nd.(vm := nd.vm.(dead := true))])
      case Dumped =>
        asked.(dumps := sys.dumps
          + [Dump(nd.vm, nd.s.maxDuration, suspensions, nd.s.sleepUsed, nd.s.sleeps, lost, from, nd.last)])
  }

  /** An idle session enters the turn of a new feed. */
  function DoBeginFeed(sys: Sys, n: nat): (t: Sys)
  {
    if n < |sys.nodes| && IsIdle(sys.nodes[n].s) then
      var nd := sys.nodes[n];
      sys.(nodes := sys.nodes[n := nd.(s := nd.s.(used := true, inTurn := true), turn := Begun(|sys.runs|, true))],
           runs := sys.runs + [Run(n, 0, 0, false, false, false, 0, None)])
    else sys
  }

  /** Writes the request of a turn, unless the watchdog or a dead worker refuses it. */
  function DoSend(sys: Sys, n: nat): (t: Sys)
  {
    if n < |sys.nodes| && sys.nodes[n].turn.Begun? && sys.nodes[n].turn.run < |sys.runs| then
      var nd := sys.nodes[n];
      var r := nd.turn.run;
      if !MayExecute(nd.s) || nd.vm.dead then
        sys.(nodes := sys.nodes[n := nd.(
          turn := Replied(r, nd.turn.feed, None, if MayExecute(nd.s) then Gone else Unsent))])
      else
        sys.(nodes := sys.nodes[n := nd.(turn := Waiting(r, nd.turn.feed))],
             log := sys.log + [Req(n, if nd.turn.feed then Feed else Resume, r, sys.runs[r].step, nd.s.heard)])
    else sys
  }

  /** The worker answers a turn, as its protocol allows. */
  function DoReceive(sys: Sys, n: nat, reply: Reply): (t: Sys)
  {
    if n < |sys.nodes| && sys.nodes[n].turn.Waiting?
       && TurnObeys(sys.nodes[n].turn, sys.nodes[n].vm, reply, sys.next, n) then
      var nd := sys.nodes[n];
      match reply
      case Crash =>
        sys.(nodes := sys.nodes[n := nd.(turn := Replied(nd.turn.run, nd.turn.feed, None, Gone),
                                         vm := nd.vm.(dead := true))])
      case Discarded(e, vm') =>
        sys.(nodes := sys.nodes[n := nd.(vm := vm',
                                         turn := Replied(nd.turn.run, nd.turn.feed, None, Withheld(e.kind)))],
             next := sys.next + 1)
      case Answer(e, vm') =>
        sys.(nodes := sys.nodes[n := nd.(s := Observe(nd.s, e), vm := vm',
                                         turn := Replied(nd.turn.run, nd.turn.feed, Some(e), Unexpected))],
             next := sys.next + 1)
    else sys
  }

  /** A claimed snapshot enters its turn, or is refused; either way it is spent. */
  function DoBeginResume(sys: Sys, k: nat): (t: Sys)
  {
    if k < |sys.snaps| && sys.snaps[k].state.Claimed? && sys.snaps[k].run < |sys.runs| then
      var spent := sys.(snaps := sys.snaps[k := sys.snaps[k].(state := Spent)]);
      var r := sys.snaps[k].run;
      var n := sys.runs[r].session;
      if n < |sys.nodes| && Active(sys, k) && !sys.nodes[n].s.inTurn then
        var nd := sys.nodes[n];
        spent.(nodes := sys.nodes[n := nd.(s := nd.s.(inTurn := true), turn := Begun(r, false))],
               runs := sys.runs[r := sys.runs[r].(step := sys.runs[r].step + 1)])
      else spent
    else sys
  }

  /** A resume gives up before it has a request to send: the answer does not encode, or waiting was cancelled. */
  function DoAbandon(sys: Sys, k: nat, cancels: bool): (t: Sys)
  {
    if k < |sys.snaps| && sys.snaps[k].state.Claimed? then
      var r := sys.snaps[k].run;
      sys.(snaps := sys.snaps[k := sys.snaps[k].(state := Spent)],
           runs := if cancels && r < |sys.runs| then sys.runs[r := sys.runs[r].(cancelled := true)] else sys.runs)
    else sys
  }

  /** A dump finds its snapshot unclaimed; it still has to wait for the lock. */
  function DoBeginDump(sys: Sys, k: nat): (t: Sys)
  {
    if k < |sys.snaps| && sys.snaps[k].state.Fresh? then sys.(dumping := sys.dumping + multiset{k}) else sys
  }

  /** The locked half of a dump, which does not look at the one-shot flag again. */
  function DoDumpSnapshot(sys: Sys, k: nat, answer: DumpReply): (t: Sys)
  {
    if k < |sys.snaps| && k in sys.dumping then
      var locked := sys.(dumping := sys.dumping - multiset{k});
      if Active(sys, k) then
        var r := sys.snaps[k].run;
        var n := sys.runs[r].session;
        TakeDump(locked, n, answer, sys.runs[r].suspensions, sys.runs[r].lost, Some(r))
      else locked
    else sys
  }

  /** An idle session is dumped without a suspension count. */
  function DoDumpSession(sys: Sys, n: nat, answer: DumpReply): (t: Sys)
  {
    if n < |sys.nodes| && IsIdle(sys.nodes[n].s) then
      TakeDump(sys, n, answer, 0, if sys.nodes[n].vm.suspended then |sys.nodes[n].vm.hist| else 0, None)
    else sys
  }

  /** An idle session has packages installed, which can cost its worker its life. */
  function DoInstallDeps(sys: Sys, n: nat, survives: bool): (t: Sys)
  {
    if n < |sys.nodes| && IsIdle(sys.nodes[n].s) && !sys.nodes[n].vm.dead then
      var nd := sys.nodes[n];
      sys.(nodes := sys.nodes[n := nd.(vm := nd.vm.(dead := !survives))],
           log := sys.log + [Req(n, Install, 0, 0, 0)])
    else sys
  }

  /** Closes a session that is in no turn. */
  function DoCloseBegin(sys: Sys, n: nat): (t: Sys)
  {
    if n < |sys.nodes| && !sys.nodes[n].s.closed && !sys.nodes[n].s.inTurn then
      var s := sys.nodes[n].s;
      sys.(nodes := sys.nodes[n := sys.nodes[n].(s := s.(closed := true, pending := None))],
           runs := if s.pending.Some? && s.pending.value < |sys.runs|
                   then sys.runs[s.pending.value := sys.runs[s.pending.value].(cancelled := true)] else sys.runs)
    else sys
  }

  /** The Reset that follows closing, if the worker is alive to read it. */
  function DoCloseReset(sys: Sys, n: nat): (t: Sys)
  {
    if n < |sys.nodes| && sys.nodes[n].s.closed && !sys.nodes[n].resetSent then
      sys.(nodes := sys.nodes[n := sys.nodes[n].(resetSent := true)],
           log := if sys.nodes[n].vm.dead then sys.log else sys.log + [Req(n, Reset, 0, 0, 0)])
    else sys
  }

  /** Somebody wins the one-shot flag, or the last to hold the snapshot lets go of it. */
  function TakeFlag(sys: Sys, k: nat, state: SnapState): (t: Sys)
  {
    if k < |sys.snaps| && sys.snaps[k].state.Fresh?
    then sys.(snaps := sys.snaps[k := sys.snaps[k].(state := state)]) else sys
  }

  function Apply(sys: Sys, a: Action): (t: Sys)
  {
    match a
    case NewSession(_, _, _, _, _, _) =>
      sys.(nodes := sys.nodes + [Node(FreshSess(a), NoTurn, Vm([], false, false), false, Completed)])
    case BeginFeed(n) => DoBeginFeed(sys, n)
    case Send(n) => DoSend(sys, n)
    case Receive(n, reply) => DoReceive(sys, n, reply)
    case Finish(n, aborts) =>
      if n < |sys.nodes| && sys.nodes[n].turn.Replied? && sys.nodes[n].turn.run < |sys.runs|
      then DoFinish(sys, n, aborts) else sys
    case Claim(k) => TakeFlag(sys, k, Claimed)
    case BeginResume(k) => DoBeginResume(sys, k)
    case Abandon(k, cancels) => DoAbandon(sys, k, cancels)
    case Drop(k) => TakeFlag(sys, k, Spent)
    case BeginDump(k) => DoBeginDump(sys, k)
    case DumpSnapshot(k, answer) => DoDumpSnapshot(sys, k, answer)
    case DumpSession(n, answer) => DoDumpSession(sys, n, answer)
    case LoadDump(n, d, reply, aborts) =>
      if n < |sys.nodes| && d < |sys.dumps| && sys.dumps[d].duration >= 0
         && IsIdle(sys.nodes[n].s) && !sys.nodes[n].s.used
      then DoLoad(sys, n, sys.dumps[d], d, reply, aborts) else sys
    case InstallDeps(n, survives) => DoInstallDeps(sys, n, survives)
    case CloseBegin(n) => DoCloseBegin(sys, n)
    case CloseReset(n) => DoCloseReset(sys, n)
  }

  function Execute(sys: Sys, actions: seq<Action>): (t: Sys)
    decreases |actions|
  {
    if actions == [] then sys
    else Apply(Execute(sys, actions[..|actions| - 1]), actions[|actions| - 1])
  }
}
