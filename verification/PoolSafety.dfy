/** Every interleaving of pool operations keeps the pool's invariant. */
module PoolSafety {
  import opened Common
  import opened Pool
  import opened PoolSystem

  /** A step that touches no worker but w, and may only queue w. */
  ghost predicate Near(p: Shared, q: Shared, w: nat)
  {
    && |p.procs| <= |q.procs| && p.limit == q.limit && p.max == q.max && (p.closed ==> q.closed)
    && (forall v :: 0 <= v < |p.procs| && v != w ==> q.procs[v] == p.procs[v])
    && (|q.procs| == |p.procs| || (|q.procs| == |p.procs| + 1 && w == |p.procs|))
    && (forall v :: v != w ==> (v in p.workers <==> v in q.workers))
    && (forall v :: v != w && v in q.idle ==> v in p.idle)
    && (forall v :: v != w && v in p.idle ==> v in q.idle)
  }

  lemma OtherTaskOk(p: Shared, q: Shared, w: nat, t: Task)
    requires TaskOk(p, t) && Worker(t) != Some(w) && Near(p, q, w)
    ensures TaskOk(q, t)
  {
  }

  ghost predicate OthersLack(s: Sys, i: nat, w: nat)
  {
    forall j :: 0 <= j < |s.tasks| && j != i ==> Worker(s.tasks[j]) != Some(w)
  }

  /** Task i moves on with a worker that no other task has. */
  ghost predicate Lawful(s: Sys, i: nat, q: Shared, t: Task, w: nat)
  {
    && i < |s.tasks| && Near(s.p, q, w)
    && (Worker(t).Some? ==> Worker(t).value == w)
    && (Worker(s.tasks[i]).Some? ==> Worker(s.tasks[i]).value == w)
    && OthersLack(s, i, w)
    && IdleOk(q) && TaskOk(q, t)
    && (w in q.workers || (w < |q.procs| && !q.procs[w].dead) ==> w in q.idle || Worker(t) == Some(w))
    && q.slots == s.p.slots - (if HoldsToken(s.tasks[i]) then 1 else 0) + (if HoldsToken(t) then 1 else 0)
    && q.slots <= q.max
  }

  lemma MoveTracked(s: Sys, i: nat, q: Shared, t: Task, w: nat)
    requires Tracked(s) && Lawful(s, i, q, t, w) && IdleOk(s.p)
    ensures Tracked(Move(s, i, q, t))
  {
    hide TaskOk, HoldsToken, Worker, Rested, Distinct;
    var r := Move(s, i, q, t);
    forall v: nat | v in q.workers || (v < |q.procs| && !q.procs[v].dead) ensures v in q.idle || Owned(r, v) {
      if v != w {
        if v !in q.idle {
          assert v in s.p.workers || (v < |s.p.procs| && !s.p.procs[v].dead);
          assert Owned(s, v);
          var j :| 0 <= j < |s.tasks| && Worker(s.tasks[j]) == Some(v);
          assert Worker(r.tasks[j]) == Some(v);
        }
      } else if v !in q.idle {
        assert Worker(r.tasks[i]) == Some(v);
      }
    }
  }

  lemma MoveKeeps(s: Sys, i: nat, q: Shared, t: Task, w: nat)
    requires Inv(s) && Lawful(s, i, q, t, w)
    ensures Inv(Move(s, i, q, t))
  {
    hide IdleOk, TaskOk, Worker, HoldsToken;
    MoveTracked(s, i, q, t, w);
    hide Near;
    var r := Move(s, i, q, t);
    forall j | 0 <= j < |r.tasks| ensures TaskOk(q, r.tasks[j]) {
      if j != i {
        OtherTaskOk(s.p, q, w, s.tasks[j]);
      }
    }
    TallyUpdate(s.tasks, i, t, HoldsToken);
  }

  /** What task i knows before it acts on worker w, its own unless it has none. */
  ghost predicate Ready(s: Sys, i: nat, w: nat)
  {
    && i < |s.tasks| && IdleOk(s.p) && TaskOk(s.p, s.tasks[i]) && OthersLack(s, i, w)
    && (Worker(s.tasks[i]).Some? ==> Worker(s.tasks[i]).value == w)
    && (w in s.p.workers || (w < |s.p.procs| && !s.p.procs[w].dead) ==> w in s.p.idle || Worker(s.tasks[i]) == Some(w))
    && s.p.slots <= s.p.max && (HoldsToken(s.tasks[i]) ==> s.p.slots > 0)
  }

  /** Owners are unique, and nobody owns a queued or future worker. */
  lemma Stage(s: Sys, i: nat, w: nat)
    requires Inv(s) && i < |s.tasks|
    requires Worker(s.tasks[i]) == Some(w) || (Worker(s.tasks[i]) == None && (w in s.p.idle || w >= |s.p.procs|))
    ensures Ready(s, i, w)
  {
    hide HoldsToken, Worker, IdleOk;
    assert TaskOk(s.p, s.tasks[i]);
    forall j | 0 <= j < |s.tasks| && j != i ensures Worker(s.tasks[j]) != Some(w) {
      assert TaskOk(s.p, s.tasks[j]);
    }
    if HoldsToken(s.tasks[i]) {
      TallyPositive(s.tasks, i, HoldsToken);
    }
  }

  lemma StepKeeps(s: Sys, i: nat, q: Shared, t: Task, w: nat)
    requires Inv(s) && Lawful(s, i, q, t, w)
    ensures Inv(Move(s, i, q, t))
  {
    hide Inv, Lawful;
    MoveKeeps(s, i, q, t, w);
  }

  lemma TokenMoveKeeps(s: Sys, i: nat, slots: nat, t: Task)
    requires Inv(s) && i < |s.tasks| && Worker(t) == Worker(s.tasks[i]) && TaskOk(s.p, t) && slots <= s.p.max
    requires slots == s.p.slots - (if HoldsToken(s.tasks[i]) then 1 else 0) + (if HoldsToken(t) then 1 else 0)
    ensures Inv(Move(s, i, s.p.(slots := slots), t))
  {
    var w := if Worker(t).Some? then Worker(t).value else |s.p.procs|;
    Stage(s, i, w);
    hide Inv, Rested, Distinct, Worker, HoldsToken;
    StepKeeps(s, i, s.p.(slots := slots), t, w);
  }

  /** Steps of a call that has no worker yet, or none any more. */
  lemma TokenStepsKeep(s: Sys, a: Action)
    requires Inv(s) && (a.Acquire? || a.GiveUp? || a.ReturnToken?)
    ensures Inv(Apply(s, a))
  {
    if a.i < |s.tasks| {
      var t := s.tasks[a.i];
      assert TaskOk(s.p, t);
      assert s.p.slots <= s.p.max;
      hide Inv, Rested, Tally, Keeps, WornOut;
      match a {
        case Acquire(i) => if t.Asking? && s.p.slots < s.p.max { TokenMoveKeeps(s, i, s.p.slots + 1, HasSlot); }
        case GiveUp(i) => if t.Asking? { TokenMoveKeeps(s, i, s.p.slots, Done); }
        case ReturnToken(i) => if t.Failing? && s.p.slots > 0 { TokenMoveKeeps(s, i, s.p.slots - 1, Done); }
      }
    }
  }

  lemma HandStepKeeps(s: Sys, i: nat, slots: nat, t: Task)
    requires Inv(s) && i < |s.tasks| && Worker(t) == Worker(s.tasks[i]) && slots <= s.p.max
    requires slots == s.p.slots - (if HoldsToken(s.tasks[i]) then 1 else 0) + (if HoldsToken(t) then 1 else 0)
    requires InHand(s.tasks[i]) && (InHand(t) || t.Freed?)
    requires (t.Releasing? || t.Freed?) && t.reusable ==> s.tasks[i].Releasing? && s.tasks[i].reusable
    ensures Inv(Move(s, i, s.p.(slots := slots), t))
  {
    assert TaskOk(s.p, s.tasks[i]);
    hide Inv, Rested;
    TokenMoveKeeps(s, i, slots, t);
  }

  lemma CloseSessionKeeps(s: Sys, i: nat)
    requires Inv(s) && i < |s.tasks| && s.tasks[i].Held?
    ensures Inv(Apply(s, CloseSession(i)))
  {
    assert s.p.slots <= s.p.max;
    hide Inv;
    HandStepKeeps(s, i, s.p.slots, Resetting(s.tasks[i].w));
  }

  lemma FreeKeeps(s: Sys, i: nat)
    requires Inv(s) && i < |s.tasks| && s.tasks[i].Releasing?
    ensures Inv(Apply(s, Free(i)))
  {
    assert s.p.slots <= s.p.max;
    hide Inv;
    if s.p.slots > 0 {
      HandStepKeeps(s, i, s.p.slots - 1, Freed(s.tasks[i].w, s.tasks[i].reusable));
    }
  }

  lemma CheckKeeps(s: Sys, i: nat)
    requires Inv(s) && i < |s.tasks| && s.tasks[i].Got?
    ensures Inv(Apply(s, Check(i)))
  {
    assert s.p.slots <= s.p.max;
    hide Inv;
    var w := s.tasks[i].w;
    HandStepKeeps(s, i, s.p.slots, if s.p.closed then Releasing(w, false) else Configuring(w));
  }

  /** Steps of a call that keeps its worker as it is. */
  lemma HandStepsKeep(s: Sys, a: Action)
    requires Inv(s) && (a.CloseSession? || a.Free? || a.Check?)
    ensures Inv(Apply(s, a))
  {
    hide Inv;
    if a.i < |s.tasks| {
      var t := s.tasks[a.i];
      match a {
        case CloseSession(i) => if t.Held? { CloseSessionKeeps(s, i); }
        case Free(i) => if t.Releasing? { FreeKeeps(s, i); }
        case Check(i) => if t.Got? { CheckKeeps(s, i); }
      }
    }
  }

  lemma SpawnKeeps(s: Sys, i: nat, ok: bool)
    requires Inv(s) && i < |s.tasks| && s.tasks[i].Committed?
    ensures Inv(Apply(s, Spawn(i, ok)))
  {
    Stage(s, i, |s.p.procs|);
    hide Inv;
    StepKeeps(s, i, if ok then Started(s.p) else s.p, if ok then Spawned(|s.p.procs|) else Failing, |s.p.procs|);
  }

  lemma EnlistKeeps(s: Sys, i: nat)
    requires Inv(s) && i < |s.tasks| && s.tasks[i].Spawned?
    ensures Inv(Apply(s, Enlist(i)))
  {
    var w := s.tasks[i].w;
    Stage(s, i, w);
    hide Inv;
    if s.p.closed {
      StepKeeps(s, i, KilledIf(s.p, w), Failing, w);
    } else {
      StepKeeps(s, i, Enlisted(s.p, w), Got(w), w);
    }
  }

  lemma TalkKeeps(s: Sys, i: nat, q: Shared, t: Task)
    requires Inv(s) && i < |s.tasks| && Worker(s.tasks[i]).Some? && HoldsToken(s.tasks[i]) && InHand(s.tasks[i])
    requires Worker(t) == Worker(s.tasks[i]) && HoldsToken(t) && InHand(t)
    requires q == s.p.(procs := q.procs) && |q.procs| == |s.p.procs|
    requires forall v :: 0 <= v < |q.procs| && v != Worker(t).value ==> q.procs[v] == s.p.procs[v]
    requires t.Releasing? && t.reusable ==>
      t.w < |q.procs| && !q.procs[t.w].dead && q.procs[t.w].rest.ResetOk?
    ensures Inv(Move(s, i, q, t))
  {
    var w := Worker(t).value;
    Stage(s, i, w);
    hide Inv, Rested;
    StepKeeps(s, i, q, t, w);
  }

  lemma KillKeeps(s: Sys, i: nat)
    requires Inv(s) && i < |s.tasks| && (s.tasks[i].Killing? || s.tasks[i].ShuttingDown?)
    ensures Inv(Move(s, i, KilledIf(s.p, s.tasks[i].w), if s.tasks[i].Killing? then Done else Draining))
  {
    var w := s.tasks[i].w;
    Stage(s, i, w);
    hide Inv;
    StepKeeps(s, i, KilledIf(s.p, w), if s.tasks[i].Killing? then Done else Draining, w);
  }

  /** Steps that change what is known about a worker. */
  lemma WorkerStepsKeep(s: Sys, a: Action)
    requires Inv(s)
    requires a.Spawn? || a.Enlist? || a.Configure? || a.Use? || a.ResetWorker? || a.Kill? || a.Shutdown?
    ensures Inv(Apply(s, a))
  {
    hide Inv;
    if a.i < |s.tasks| {
      var t := s.tasks[a.i];
      match a {
        case Spawn(i, ok) => if t.Committed? { SpawnKeeps(s, i, ok); }
        case Enlist(i) => if t.Spawned? { EnlistKeeps(s, i); }
        case Configure(i, ok, survives) =>
          if t.Configuring? && t.w < |s.p.procs| {
            TalkKeeps(s, i, Configured(s.p, t.w, ok, survives), if ok then Held(t.w) else Releasing(t.w, false));
          }
        case Use(i, survives) =>
          if t.Held? {
            TalkKeeps(s, i, Heard(s.p, t.w, InUse, survives), t);
          }
        case ResetWorker(i, ok, survives) =>
          if t.Resetting? && t.w < |s.p.procs| && (ok ==> survives && !s.p.procs[t.w].dead) {
            TalkKeeps(s, i, Heard(s.p, t.w, if ok then ResetOk else InUse, survives), Releasing(t.w, ok));
          }
        case Kill(i) => if t.Killing? { KillKeeps(s, i); }
        case Shutdown(i) => if t.ShuttingDown? { KillKeeps(s, i); }
      }
    }
  }

  lemma PoppedOk(p: Shared)
    requires IdleOk(p) && p.idle != []
    ensures IdleOk(Popped(p)) && p.idle[0] !in p.idle[1..] && p.idle[0] in p.workers && p.idle[0] < |p.procs|
    ensures Near(p, Popped(p), p.idle[0])
  {
    assert p.idle == [p.idle[0]] + p.idle[1..];
    assert p.idle[0] in p.idle;
  }

  lemma QueuedOk(p: Shared, w: nat)
    requires IdleOk(p) && |p.idle| < p.max && w !in p.idle && w in p.workers
    requires w < |p.procs| && Rested(p.procs[w], p.limit)
    ensures IdleOk(Queued(p, w)) && Near(p, Queued(p, w), w)
  {
  }

  lemma UnlistedOk(p: Shared, w: nat)
    requires IdleOk(p) && w !in p.idle
    ensures IdleOk(Unlisted(p, w)) && Near(p, Unlisted(p, w), w)
  {
  }

  /** Taking from the queue: what a checkout and a closing pool do. */
  lemma PopKeeps(s: Sys, i: nat, t: Task)
    requires Inv(s) && i < |s.tasks| && s.p.idle != [] && Worker(s.tasks[i]).None? && Worker(t) == Some(s.p.idle[0])
    requires t.Got? || (t.Unlisting? && s.p.closed)
    requires HoldsToken(s.tasks[i]) <==> HoldsToken(t)
    ensures Inv(Move(s, i, Popped(s.p), t))
  {
    var w := s.p.idle[0];
    Stage(s, i, w);
    PoppedOk(s.p);
    assert TaskOk(Popped(s.p), t);
    hide Inv, Rested, Distinct, IdleOk, Near, TaskOk;
    StepKeeps(s, i, Popped(s.p), t, w);
  }

  lemma TakeKeeps(s: Sys, i: nat)
    requires Inv(s) && i < |s.tasks| && s.tasks[i].HasSlot?
    ensures Inv(Apply(s, Take(i)))
  {
    assert s.p.slots <= s.p.max;
    hide Inv;
    if s.p.idle != [] {
      PopKeeps(s, i, Got(s.p.idle[0]));
    } else {
      TokenMoveKeeps(s, i, s.p.slots, Committed);
    }
  }

  lemma DrainKeeps(s: Sys, i: nat)
    requires Inv(s) && i < |s.tasks| && s.tasks[i].Draining?
    ensures Inv(Apply(s, Drain(i)))
  {
    assert s.p.slots <= s.p.max && TaskOk(s.p, s.tasks[i]);
    hide Inv;
    if s.p.idle != [] {
      PopKeeps(s, i, Unlisting(s.p.idle[0]));
    } else {
      TokenMoveKeeps(s, i, s.p.slots, Done);
    }
  }

  /** The locked half of a release, when it deletes the worker or finds it deleted. */
  lemma DropKeeps(s: Sys, i: nat, t: Task)
    requires Inv(s) && i < |s.tasks| && Worker(s.tasks[i]).Some? && Worker(t) == Worker(s.tasks[i])
    requires !HoldsToken(s.tasks[i])
    requires t.Killing? || (t.ShuttingDown? && s.p.closed)
    ensures Inv(Move(s, i, Unlisted(s.p, Worker(t).value), t))
  {
    var w := Worker(t).value;
    Stage(s, i, w);
    assert TaskOk(s.p, s.tasks[i]);
    UnlistedOk(s.p, w);
    assert TaskOk(Unlisted(s.p, w), t);
    hide Inv, Rested, Distinct, IdleOk, Near, TaskOk;
    StepKeeps(s, i, Unlisted(s.p, w), t, w);
  }

  lemma DecideKeeps(s: Sys, i: nat)
    requires Inv(s) && i < |s.tasks| && s.tasks[i].Freed?
    ensures Inv(Apply(s, Decide(i)))
  {
    var t := s.tasks[i];
    assert TaskOk(s.p, t) && s.p.slots <= s.p.max;
    hide Inv;
    if Keeps(s.p, t.w, t.reusable) {
      TokenMoveKeeps(s, i, s.p.slots, Queueing(t.w));
    } else {
      DropKeeps(s, i, Killing(t.w));
    }
  }

  lemma QueueKeeps(s: Sys, i: nat)
    requires Inv(s) && i < |s.tasks| && s.tasks[i].Queueing?
    ensures Inv(Apply(s, Queue(i)))
  {
    var w := s.tasks[i].w;
    Stage(s, i, w);
    if |s.p.idle| < s.p.max {
      QueuedOk(s.p, w);
      hide Inv, IdleOk, Near;
      StepKeeps(s, i, Queued(s.p, w), Done, w);
    } else {
      hide Inv, Rested, Distinct;
      TokenMoveKeeps(s, i, s.p.slots, Unqueued(w));
    }
  }

  /** The locked deletes of a closing pool and of a release that found the queue full. */
  lemma UnlistKeeps(s: Sys, i: nat)
    requires Inv(s) && i < |s.tasks| && (s.tasks[i].Unlisting? || s.tasks[i].Unqueued?)
    ensures Inv(Apply(s, if s.tasks[i].Unlisting? then Unlist(i) else Discard(i)))
  {
    assert TaskOk(s.p, s.tasks[i]);
    hide Inv;
    DropKeeps(s, i, if s.tasks[i].Unlisting? then ShuttingDown(s.tasks[i].w) else Killing(s.tasks[i].w));
  }

  lemma QueueStepsKeep(s: Sys, a: Action)
    requires Inv(s)
    requires a.Take? || a.Decide? || a.Queue? || a.Discard? || a.Drain? || a.Unlist?
    ensures Inv(Apply(s, a))
  {
    hide Inv;
    if a.i < |s.tasks| {
      var t := s.tasks[a.i];
      match a {
        case Take(i) => if t.HasSlot? { TakeKeeps(s, i); }
        case Drain(i) => if t.Draining? { DrainKeeps(s, i); }
        case Decide(i) => if t.Freed? { DecideKeeps(s, i); }
        case Queue(i) => if t.Queueing? { QueueKeeps(s, i); }
        case Discard(i) => if t.Unqueued? { UnlistKeeps(s, i); }
        case Unlist(i) => if t.Unlisting? { UnlistKeeps(s, i); }
      }
    }
  }

  lemma ArrivalsKeep(s: Sys, a: Action)
    requires Inv(s) && (a.NewCheckout? || a.ClosePool?)
    ensures Inv(Apply(s, a))
  {
    hide Tracked, Tally, Rested, Distinct, WorkerOk;
    var r := Apply(s, a);
    TallyAppend(s.tasks, Asking, HoldsToken);
    TallyAppend(s.tasks, Draining, HoldsToken);
    TrackedStays(s, r);
    if a.ClosePool? {
      ClosingKeepsTasks(s);
    }
  }

  lemma ClosingKeepsTasks(s: Sys)
    requires TasksOk(s)
    ensures forall i :: 0 <= i < |s.tasks| ==> TaskOk(s.p.(closed := true), s.tasks[i])
  {
    forall i | 0 <= i < |s.tasks| ensures TaskOk(s.p.(closed := true), s.tasks[i]) {
      assert TaskOk(s.p, s.tasks[i]);
    }
  }

  lemma TrackedStays(s: Sys, r: Sys)
    requires Tracked(s) && r.p.idle == s.p.idle && r.p.workers == s.p.workers && r.p.procs == s.p.procs
    requires s.tasks <= r.tasks
    ensures Tracked(r)
  {
    forall w: nat | Owned(s, w) ensures Owned(r, w) {
      var j :| 0 <= j < |s.tasks| && Worker(s.tasks[j]) == Some(w);
      assert Worker(r.tasks[j]) == Some(w);
    }
  }

  lemma ActionKeeps(s: Sys, a: Action)
    requires Inv(s)
    ensures Inv(Apply(s, a))
  {
    hide Inv, Apply;
    if a.NewCheckout? || a.ClosePool? {
      ArrivalsKeep(s, a);
    } else if a.Acquire? || a.GiveUp? || a.ReturnToken? {
      TokenStepsKeep(s, a);
    } else if a.Check? || a.CloseSession? || a.Free? {
      HandStepsKeep(s, a);
    } else if a.Spawn? || a.Enlist? || a.Configure? || a.Use? || a.ResetWorker? || a.Kill? || a.Shutdown? {
      WorkerStepsKeep(s, a);
    } else {
      QueueStepsKeep(s, a);
    }
  }

  /** A pool as New leaves it: some fresh workers queued, nothing in progress. */
  ghost predicate Initial(s: Sys)
  {
    && Quiet(s.p, {}) && !s.p.closed && s.tasks == []
  }

  lemma {:induction false} RunKeeps(s: Sys, actions: seq<Action>)
    requires Inv(s)
    ensures Inv(Execute(s, actions))
    decreases |actions|
  {
    hide Inv, Apply;
    if actions != [] {
      RunKeeps(s, actions[..|actions| - 1]);
      ActionKeeps(Execute(s, actions[..|actions| - 1]), actions[|actions| - 1]);
    }
  }

  lemma InitialIsOk(s: Sys)
    requires Initial(s)
    ensures Inv(s)
  {
  }
}
