/**
 The pool and its sessions together: every session belongs to the checkout that made it, drives
 that checkout's worker, and gives it back when it is closed. What is written to each worker is
 kept, whoever writes it.
 */
module Tenancy {
  import opened Common
  import K = Session
  import H = SessionSystem
  import SessionPending
  import Pool
  import P = PoolSystem
  import PoolSafety

  /** A request to a worker: a checkout's Configure, a session's own, or a closing pool's Shutdown. */
  datatype What = Configuring | Asking(session: nat, kind: K.ReqKind) | Stopping

  /** `task` is the pool call on whose behalf it was written. */
  datatype Line = Line(task: nat, what: What)

  /**
   Session n was made by call `lease[n]` around worker `desk[n]`. `pipes` holds what each worker
   has been written, `freed` the calls whose release has given its token back, in order.
   */
  datatype World = World(
    pool: P.Sys, host: H.Sys, lease: seq<nat>, desk: seq<nat>, pipes: seq<seq<Line>>, freed: seq<nat>)

  /** Steps of the pool alone, of one session alone, and the three in which both take part. */
  datatype Action =
    | PoolStep(a: P.Action)
    | Open(i: nat, ok: bool, survives: bool, settings: H.Action)
    | SessionStep(b: H.Action)
    | Close(n: nat)
    | ResetWorker(n: nat, ok: bool, survives: bool)

  function Written(pipes: seq<seq<Line>>, w: nat, lines: seq<Line>): (t: seq<seq<Line>>)
    ensures |t| == |pipes|
  {
    if w < |pipes| then pipes[w := pipes[w] + lines] else pipes
  }

  /** The lines for what a session has added to its log. */
  function Lines(n: nat, task: nat, log: seq<K.Req>): (lines: seq<Line>)
    ensures |lines| == |log|
    ensures forall j :: 0 <= j < |log| ==> lines[j] == Line(task, Asking(n, log[j].kind))
  {
    seq(|log|, j requires 0 <= j < |log| => Line(task, Asking(n, log[j].kind)))
  }

  function Added(before: seq<K.Req>, after: seq<K.Req>): seq<K.Req>
  {
    if |before| <= |after| then after[|before|..] else []
  }

  /** Halves of steps in which a session takes part as well. */
  predicate Joint(a: P.Action)
  {
    a.Configure? || a.Use? || a.CloseSession? || a.ResetWorker?
  }

  function DoPoolStep(x: World, a: P.Action): World
  {
    if Joint(a) then x
    else
      var pool := P.Apply(x.pool, a);
      var pipes :=
        match a
        case Spawn(_, _) => if |pool.p.procs| > |x.pool.p.procs| then x.pipes + [[]] else x.pipes
        case Shutdown(i) =>
          (match P.At(x.pool, i)
           case ShuttingDown(w) =>
             if w < |x.pool.p.procs| && !x.pool.p.procs[w].dead then Written(x.pipes, w, [Line(i, Stopping)])
             else x.pipes
           case _ => x.pipes)
        case _ => x.pipes;
      var frees := a.Free? && P.At(x.pool, a.i).Releasing? && x.pool.p.slots > 0;
      x.(pool := pool, pipes := pipes, freed := if frees then x.freed + [a.i] else x.freed)
  }

  /** Configures the worker a checkout got; when that succeeds, the session exists. */
  function DoOpen(x: World, i: nat, ok: bool, survives: bool, settings: H.Action): World
  {
    match P.At(x.pool, i)
    case Configuring(w) =>
      if w < |x.pool.p.procs| && settings.NewSession? && (ok ==> survives && !x.pool.p.procs[w].dead) then
        var asked := x.(
          pool := P.Apply(x.pool, P.Configure(i, ok, survives)),
          pipes := if x.pool.p.procs[w].dead then x.pipes else Written(x.pipes, w, [Line(i, Configuring)]));
        if ok then
          asked.(host := H.Apply(x.host, settings), lease := x.lease + [i], desk := x.desk + [w])
        else asked
      else x
    case _ => x
  }

  /** Whatever a session asks of its worker goes down that worker's pipe. */
  function DoSessionStep(x: World, b: H.Action): World
  {
    if b.NewSession? || b.CloseBegin? || b.CloseReset? then x
    else
      var host := H.Apply(x.host, b);
      var n := SessionPending.Concerns(x.host, b);
      if n < |x.lease| && n < |x.desk| && n < |host.nodes| then
        x.(host := host, pool := P.Apply(x.pool, P.Use(x.lease[n], !host.nodes[n].vm.dead)),
           pipes := Written(x.pipes, x.desk[n], Lines(n, x.lease[n], Added(x.host.log, host.log))))
      else x.(host := host)
  }

  function DoClose(x: World, n: nat): World
  {
    if n < |x.host.nodes| && n < |x.lease| && !x.host.nodes[n].s.closed && !x.host.nodes[n].s.inTurn then
      x.(host := H.Apply(x.host, H.CloseBegin(n)), pool := P.Apply(x.pool, P.CloseSession(x.lease[n])))
    else x
  }

  /** The Reset of a closed session, and with its answer the start of the release. */
  function DoResetWorker(x: World, n: nat, ok: bool, survives: bool): World
  {
    if n < |x.host.nodes| && n < |x.lease| && n < |x.desk| && x.desk[n] < |x.pool.p.procs|
       && x.host.nodes[n].s.closed && !x.host.nodes[n].resetSent
       && (ok ==> survives && !x.host.nodes[n].vm.dead && !x.pool.p.procs[x.desk[n]].dead) then
      var host := H.Apply(x.host, H.CloseReset(n));
      x.(host := host, pool := P.Apply(x.pool, P.ResetWorker(x.lease[n], ok, survives)),
         pipes := Written(x.pipes, x.desk[n], Lines(n, x.lease[n], Added(x.host.log, host.log))))
    else x
  }

  function Apply(x: World, a: Action): World
  {
    match a
    case PoolStep(p) => DoPoolStep(x, p)
    case Open(i, ok, survives, settings) => DoOpen(x, i, ok, survives, settings)
    case SessionStep(b) => DoSessionStep(x, b)
    case Close(n) => DoClose(x, n)
    case ResetWorker(n, ok, survives) => DoResetWorker(x, n, ok, survives)
  }

  function Execute(x: World, actions: seq<Action>): World
    decreases |actions|
  {
    if actions == [] then x else Apply(Execute(x, actions[..|actions| - 1]), actions[|actions| - 1])
  }

  /** A new pool, no sessions yet, nothing written. */
  ghost predicate Start(x: World)
  {
    && PoolSafety.Initial(x.pool) && x.host == H.EMPTY && x.lease == [] && x.desk == [] && x.freed == []
    && |x.pipes| == |x.pool.p.procs| && forall w :: 0 <= w < |x.pipes| ==> x.pipes[w] == []
  }

  // ---------------------------------------------------------------------------
  // What is written to one worker

  predicate IsReset(l: Line) { l.what.Asking? && l.what.kind.Reset? }

  predicate Opening(l: Line) { l.what.Configuring? || l.what.Stopping? }

  /** Within a tenancy no second opening and nothing after the Reset; between two, a Reset and an opening. */
  predicate Follows(a: Line, b: Line)
  {
    if a.task == b.task then !Opening(b) && !IsReset(a) && (a.what.Asking? ==> b.what.session == a.what.session)
    else IsReset(a) && Opening(b)
  }

  /** One tenant after the other, none of them twice. */
  ghost predicate Tenancies(pipe: seq<Line>)
  {
    && (pipe != [] ==> Opening(pipe[0]))
    && (forall j :: 0 < j < |pipe| ==> Follows(pipe[j - 1], pipe[j]))
    && (forall i, j, k :: 0 <= i < j < k < |pipe| && pipe[i].task == pipe[k].task ==> pipe[j].task == pipe[i].task)
  }

  /** Ready for a new tenant. */
  predicate Clean(pipe: seq<Line>)
  {
    pipe == [] || IsReset(pipe[|pipe| - 1])
  }

  lemma ClosedPipes(pipe: seq<Line>, l: Line)
    requires Tenancies(pipe) && Clean(pipe) && Opening(l) && forall j :: 0 <= j < |pipe| ==> pipe[j].task != l.task
    ensures Tenancies(pipe + [l])
  {
  }

  lemma {:induction false} MoreLines(pipe: seq<Line>, lines: seq<Line>, n: nat, task: nat)
    requires Tenancies(pipe) && pipe != [] && pipe[|pipe| - 1].task == task && !IsReset(pipe[|pipe| - 1])
    requires forall j :: 0 <= j < |pipe| && pipe[j].task == task && pipe[j].what.Asking? ==> pipe[j].what.session == n
    requires forall j :: 0 <= j < |lines| ==>
      lines[j].task == task && lines[j].what.Asking? && lines[j].what.session == n
    requires forall j :: 0 <= j < |lines| - 1 ==> !IsReset(lines[j])
    ensures Tenancies(pipe + lines)
    ensures (pipe + lines)[|pipe + lines| - 1].task == task
    decreases |lines|
  {
    if lines == [] {
      assert pipe + lines == pipe;
    } else {
      OneMoreLine(pipe, lines[0], task);
      assert pipe + lines == pipe + [lines[0]] + lines[1..];
      if |lines| > 1 {
        MoreLines(pipe + [lines[0]], lines[1..], n, task);
      }
    }
  }

  lemma OneMoreLine(pipe: seq<Line>, l: Line, task: nat)
    requires Tenancies(pipe) && pipe != [] && pipe[|pipe| - 1].task == task == l.task
    requires Follows(pipe[|pipe| - 1], l)
    ensures Tenancies(pipe + [l])
  {
    var last := |pipe| - 1;
    forall i, j, k | 0 <= i < j < k < |pipe| + 1 && (pipe + [l])[i].task == (pipe + [l])[k].task
      ensures (pipe + [l])[j].task == (pipe + [l])[i].task
    {
      if k == |pipe| && j < last {
        assert pipe[i].task == pipe[last].task;
      }
    }
  }
}
