/**
 Checkouts, sessions and Close running at once. Each token operation, each locked region and each
 queue operation is one action; any interleaving of actions is a run.
 */
module PoolSystem {
  import opened Common
  import opened Pool

  /** Where a call is. A closing call outlives the queue it empties. */
  datatype Task =
    | Asking
    | HasSlot
    | Committed
    | Spawned(w: nat)
    | Failing
    | Got(w: nat)
    | Configuring(w: nat)
    | Held(w: nat)
    | Resetting(w: nat)
    | Releasing(w: nat, reusable: bool)
    | Freed(w: nat, reusable: bool)
    | Queueing(w: nat)
    | Unqueued(w: nat)
    | Killing(w: nat)
    | Draining
    | Unlisting(w: nat)
    | ShuttingDown(w: nat)
    | Done

  datatype Sys = Sys(p: Shared, tasks: seq<Task>)

  predicate HoldsToken(t: Task)
  {
    t.HasSlot? || t.Committed? || t.Spawned? || t.Failing? || t.Got? || t.Configuring? || t.Held? || t.Resetting?
    || t.Releasing?
  }

  /** The worker in a task's hands. */
  function Worker(t: Task): Option<nat>
  {
    match t
    case Spawned(w) => Some(w)
    case Got(w) => Some(w)
    case Configuring(w) => Some(w)
    case Held(w) => Some(w)
    case Resetting(w) => Some(w)
    case Releasing(w, _) => Some(w)
    case Freed(w, _) => Some(w)
    case Queueing(w) => Some(w)
    case Unqueued(w) => Some(w)
    case Killing(w) => Some(w)
    case Unlisting(w) => Some(w)
    case ShuttingDown(w) => Some(w)
    case _ => None
  }

  datatype Action =
    | NewCheckout
    | Acquire(i: nat)
    | GiveUp(i: nat)
    | Take(i: nat)
    | Spawn(i: nat, ok: bool)
    | Enlist(i: nat)
    | ReturnToken(i: nat)
    | Check(i: nat)
    | Configure(i: nat, ok: bool, survives: bool)
    | Use(i: nat, survives: bool)
    | CloseSession(i: nat)
    | ResetWorker(i: nat, ok: bool, survives: bool)
    | Free(i: nat)
    | Decide(i: nat)
    | Queue(i: nat)
    | Discard(i: nat)
    | Kill(i: nat)
    | ClosePool
    | Drain(i: nat)
    | Unlist(i: nat)
    | Shutdown(i: nat)

  function At(s: Sys, i: nat): Task
  {
    if i < |s.tasks| then s.tasks[i] else Done
  }

  function Move(s: Sys, i: nat, p: Shared, t: Task): Sys
  {
    if i < |s.tasks| then Sys(p, s.tasks[i := t]) else s
  }

  /** A worker that has died stays dead, whatever is heard from it. */
  function Heard(p: Shared, w: nat, rest: Rest, survives: bool): Shared
  {
    if w < |p.procs| then
      p.(procs := p.procs[w := p.procs[w].(rest := rest, dead := p.procs[w].dead || !survives)])
    else p
  }

  function KilledIf(p: Shared, w: nat): Shared
  {
    if w < |p.procs| then Killed(p, w) else p
  }

  function Apply(s: Sys, a: Action): (t: Sys)
  {
    var p := s.p;
    match a
    case NewCheckout => s.(tasks := s.tasks + [Asking])
    case Acquire(i) =>
      if At(s, i).Asking? && p.slots < p.max then Move(s, i, p.(slots := p.slots + 1), HasSlot) else s
    case GiveUp(i) =>
      if At(s, i).Asking? then Move(s, i, p, Done) else s
    case Take(i) =>
      if At(s, i).HasSlot? then
        if p.idle != [] then Move(s, i, Popped(p), Got(p.idle[0])) else Move(s, i, p, Committed)
      else s
    case Spawn(i, ok) =>
      if At(s, i).Committed? then
        if ok then Move(s, i, Started(p), Spawned(|p.procs|)) else Move(s, i, p, Failing)
      else s
    case Enlist(i) =>
      (match At(s, i)
       case Spawned(w) =>
         if p.closed then Move(s, i, KilledIf(p, w), Failing) else Move(s, i, Enlisted(p, w), Got(w))
       case _ => s)
    case ReturnToken(i) =>
      if At(s, i).Failing? && p.slots > 0 then Move(s, i, p.(slots := p.slots - 1), Done) else s
    case Check(i) =>
      (match At(s, i)
       case Got(w) => Move(s, i, p, if p.closed then Releasing(w, false) else Configuring(w))
       case _ => s)
    case Configure(i, ok, survives) =>
      (match At(s, i)
       case Configuring(w) =>
         if w < |p.procs| && (ok ==> survives && !p.procs[w].dead)
         then Move(s, i, Configured(p, w, ok, survives), if ok then Held(w) else Releasing(w, false)) else s
       case _ => s)
    case Use(i, survives) =>
      (match At(s, i)
       case Held(w) => Move(s, i, Heard(p, w, InUse, survives), Held(w))
       case _ => s)
    case CloseSession(i) =>
      (match At(s, i)
       case Held(w) => Move(s, i, p, Resetting(w))
       case _ => s)
    case ResetWorker(i, ok, survives) =>
      (match At(s, i)
       case Resetting(w) =>
         if w < |p.procs| && (ok ==> survives && !p.procs[w].dead)
         then Move(s, i, Heard(p, w, if ok then ResetOk else InUse, survives), Releasing(w, ok)) else s
       case _ => s)
    case Free(i) =>
      (match At(s, i)
       case Releasing(w, reusable) =>
         if p.slots > 0 then Move(s, i, p.(slots := p.slots - 1), Freed(w, reusable)) else s
       case _ => s)
    case Decide(i) =>
      (match At(s, i)
       case Freed(w, reusable) =>
         if w < |p.procs| && Keeps(p, w, reusable) then Move(s, i, p, Queueing(w))
         else if w < |p.procs| && reusable && !p.closed && !WornOut(p.procs[w], p.limit) then Move(s, i, p, Killing(w))
         else Move(s, i, Unlisted(p, w), Killing(w))
       case _ => s)
    case Queue(i) =>
      (match At(s, i)
       case Queueing(w) =>
         if |p.idle| < p.max then Move(s, i, Queued(p, w), Done) else Move(s, i, p, Unqueued(w))
       case _ => s)
    case Discard(i) =>
      (match At(s, i)
       case Unqueued(w) => Move(s, i, Unlisted(p, w), Killing(w))
       case _ => s)
    case Kill(i) =>
      (match At(s, i)
       case Killing(w) => Move(s, i, KilledIf(p, w), Done)
       case _ => s)
    case ClosePool =>
      if p.closed then s else Sys(p.(closed := true), s.tasks + [Draining])
    case Drain(i) =>
      if At(s, i).Draining? then
        if p.idle != [] then Move(s, i, Popped(p), Unlisting(p.idle[0])) else Move(s, i, p, Done)
      else s
    case Unlist(i) =>
      (match At(s, i)
       case Unlisting(w) => Move(s, i, Unlisted(p, w), ShuttingDown(w))
       case _ => s)
    case Shutdown(i) =>
      (match At(s, i)
       case ShuttingDown(w) => Move(s, i, KilledIf(p, w), Draining)
       case _ => s)
  }

  function Execute(s: Sys, actions: seq<Action>): (t: Sys)
    decreases |actions|
  {
    if actions == [] then s else Apply(Execute(s, actions[..|actions| - 1]), actions[|actions| - 1])
  }

  // ---------------------------------------------------------------------------
  // Counting tasks

  predicate CommittedTo(t: Task) { t.Committed? || t.Spawned? }

  /** Holds a registered worker, but neither the queue nor a token accounts for it. */
  predicate InTransit(t: Task)
  {
    t.Freed? || t.Queueing? || t.Unqueued? || t.Unlisting?
  }

  /** Owns a worker that the pool has registered, and holds its token. */
  predicate InHand(t: Task)
  {
    t.Got? || t.Configuring? || t.Held? || t.Resetting? || t.Releasing?
  }

  function Tally(ts: seq<Task>, f: Task -> bool): (n: nat)
    ensures n <= |ts|
  {
    if ts == [] then 0 else Tally(ts[..|ts| - 1], f) + if f(ts[|ts| - 1]) then 1 else 0
  }

  lemma {:induction false} TallyUpdate(ts: seq<Task>, i: nat, t: Task, f: Task -> bool)
    requires i < |ts|
    ensures Tally(ts[i := t], f) == Tally(ts, f) - (if f(ts[i]) then 1 else 0) + (if f(t) then 1 else 0)
  {
    var k := |ts| - 1;
    if i == k {
      assert ts[i := t][..k] == ts[..k];
    } else {
      TallyUpdate(ts[..k], i, t, f);
      assert ts[i := t][..k] == ts[..k][i := t];
    }
  }

  lemma TallyAppend(ts: seq<Task>, t: Task, f: Task -> bool)
    ensures Tally(ts + [t], f) == Tally(ts, f) + if f(t) then 1 else 0
  {
    assert (ts + [t])[..|ts|] == ts;
  }

  lemma {:induction false} TallyPositive(ts: seq<Task>, i: nat, f: Task -> bool)
    requires i < |ts| && f(ts[i])
    ensures Tally(ts, f) > 0
  {
    if i < |ts| - 1 {
      TallyPositive(ts[..|ts| - 1], i, f);
    }
  }

  lemma {:induction false} TallyZero(ts: seq<Task>, f: Task -> bool)
    ensures Tally(ts, f) == 0 <==> forall i :: 0 <= i < |ts| ==> !f(ts[i])
  {
    if ts != [] {
      TallyZero(ts[..|ts| - 1], f);
      assert forall i :: 0 <= i < |ts| - 1 ==> ts[..|ts| - 1][i] == ts[i];
    }
  }

  // ---------------------------------------------------------------------------
  // The invariant

  /** What a task may rely on about the worker it has. */
  ghost predicate TaskOk(p: Shared, t: Task)
  {
    && (t.Draining? || t.Unlisting? || t.ShuttingDown? ==> p.closed)
    && (Worker(t).Some? ==> WorkerOk(p, t, Worker(t).value))
  }

  ghost predicate WorkerOk(p: Shared, t: Task, w: nat)
  {
    && w < |p.procs| && w !in p.idle
    && (InHand(t) || t.Queueing? || t.Unqueued? || t.Freed? ==> w in p.workers)
    && (t.Spawned? || t.Killing? || t.ShuttingDown? ==> w !in p.workers)
    && ((t.Releasing? || t.Freed?) && t.reusable ==> !p.procs[w].dead && p.procs[w].rest.ResetOk?)
    && (t.Queueing? ==> Rested(p.procs[w], p.limit))
  }

  ghost predicate IdleOk(p: Shared)
  {
    && Distinct(p.idle) && |p.idle| <= p.max
    && (forall w :: w in p.idle ==> w in p.workers)
    && (forall w :: w in p.workers ==> w < |p.procs|)
    && (forall w :: w in p.idle && w < |p.procs| ==> Rested(p.procs[w], p.limit))
  }

  ghost predicate TasksOk(s: Sys)
  {
    forall i :: 0 <= i < |s.tasks| ==> TaskOk(s.p, s.tasks[i])
  }

  /** No worker belongs to two tasks. */
  ghost predicate Exclusive(s: Sys)
  {
    forall i, j :: 0 <= i < |s.tasks| && 0 <= j < |s.tasks| && i != j && Worker(s.tasks[i]).Some? ==>
      Worker(s.tasks[i]) != Worker(s.tasks[j])
  }

  ghost predicate Owned(s: Sys, w: nat)
  {
    exists i :: 0 <= i < |s.tasks| && Worker(s.tasks[i]) == Some(w)
  }

  /** Every registered or living worker is in the queue or in some task's hands. */
  ghost predicate Tracked(s: Sys)
  {
    && (forall w :: w in s.p.workers ==> w in s.p.idle || Owned(s, w))
    && (forall w :: 0 <= w < |s.p.procs| && !s.p.procs[w].dead ==> w in s.p.idle || Owned(s, w))
  }

  ghost predicate TokensOk(s: Sys)
  {
    s.p.slots == Tally(s.tasks, HoldsToken) <= s.p.max
  }

  ghost predicate Inv(s: Sys)
  {
    IdleOk(s.p) && TasksOk(s) && Exclusive(s) && Tracked(s) && TokensOk(s)
  }
}
