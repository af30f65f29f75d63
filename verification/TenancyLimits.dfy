/** How many sessions one worker serves. */
module TenancyLimits {
  import opened Common
  import H = SessionSystem
  import SessionInvariant
  import SessionPending
  import Pool
  import P = PoolSystem
  import PoolSafety
  import opened Tenancy
  import opened TenancySafety

  /** The sessions made around worker w. */
  function Count(desk: seq<nat>, w: nat): nat
  {
    if desk == [] then 0 else Count(desk[..|desk| - 1], w) + if desk[|desk| - 1] == w then 1 else 0
  }

  lemma CountMore(desk: seq<nat>, v: nat, w: nat)
    ensures Count(desk + [v], w) == Count(desk, w) + if v == w then 1 else 0
  {
    assert (desk + [v])[..|desk|] == desk;
  }

  lemma {:induction false} CountNone(desk: seq<nat>, w: nat)
    requires forall n :: 0 <= n < |desk| ==> desk[n] != w
    ensures Count(desk, w) == 0
  {
    if desk != [] {
      CountNone(desk[..|desk| - 1], w);
    }
  }

  /** Has a worker that is yet to be configured. */
  predicate Early(t: P.Task) { t.Spawned? || t.Got? || t.Configuring? }

  /** A worker's checkouts are the sessions made around it, and within the limit. */
  ghost predicate CountsOk(s: P.Sys, desk: seq<nat>)
  {
    && (forall n :: 0 <= n < |desk| ==> desk[n] < |s.p.procs|)
    && (forall w :: 0 <= w < |s.p.procs| ==> Count(desk, w) == s.p.procs[w].checkouts && Within(s.p, w))
  }

  predicate Within(p: Pool.Shared, w: nat)
    requires w < |p.procs|
  {
    p.limit > 0 ==> p.procs[w].checkouts <= p.limit
  }

  /** One more session fits. */
  predicate RoomFor(p: Pool.Shared, w: nat)
  {
    w < |p.procs| && (p.limit > 0 ==> p.procs[w].checkouts < p.limit)
  }

  ghost predicate EarlyOk(s: P.Sys)
  {
    forall i :: 0 <= i < |s.tasks| && Early(s.tasks[i]) ==> RoomFor(s.p, s.tasks[i].w)
  }

  /** Checkouts stay as they are, and new workers have none. */
  ghost predicate SameCheckouts(p: Pool.Shared, q: Pool.Shared)
  {
    && q.limit == p.limit && |p.procs| <= |q.procs|
    && (forall v :: 0 <= v < |p.procs| ==> q.procs[v].checkouts == p.procs[v].checkouts)
    && (forall v :: |p.procs| <= v < |q.procs| ==> q.procs[v].checkouts == 0)
  }

  /** Who has a worker to configure had it before, took it from the queue, or has just started it. */
  ghost predicate EarlyFrom(s: P.Sys, r: P.Sys)
  {
    && |s.tasks| <= |r.tasks|
    && forall i :: 0 <= i < |r.tasks| && Early(r.tasks[i]) ==>
         || (i < |s.tasks| && Early(s.tasks[i]) && s.tasks[i].w == r.tasks[i].w)
         || r.tasks[i].w in s.p.idle
         || |s.p.procs| <= r.tasks[i].w < |r.p.procs|
  }

  /** Nothing but the processes changes, and none comes or goes. */
  predicate SameButProcs(p: Pool.Shared, q: Pool.Shared)
  {
    q == p.(procs := q.procs) && |q.procs| == |p.procs|
  }

  lemma HeardKeeps(p: Pool.Shared)
    ensures forall w: nat :: SameCheckouts(p, P.KilledIf(p, w)) && SameButProcs(p, P.KilledIf(p, w))
    ensures forall w: nat, rest, survives :: SameCheckouts(p, P.Heard(p, w, rest, survives))
    ensures forall w: nat, rest, survives :: SameButProcs(p, P.Heard(p, w, rest, survives))
  {
  }

  lemma PoolCheckouts(s: P.Sys, a: P.Action)
    requires !(a.Configure? && a.ok)
    ensures SameCheckouts(s.p, P.Apply(s, a).p)
  {
    hide P.KilledIf, P.Heard, Pool.Keeps, Pool.WornOut;
    HeardKeeps(s.p);
  }

  lemma PoolEarly(s: P.Sys, a: P.Action)
    ensures EarlyFrom(s, P.Apply(s, a))
  {
    hide EarlyFrom, P.Apply;
    assert EarlyFrom(s, s) by { NothingNew(s); }
    if a.Configure? || a.Use? || a.CloseSession? || a.ResetWorker? || a.Free? || a.Decide? {
      HeldEarly(s, a);
    } else if a.Queue? || a.Discard? || a.Kill? || a.ClosePool? || a.Drain? || a.Unlist? || a.Shutdown? {
      LateEarly(s, a);
    } else {
      CheckoutEarly(s, a);
    }
  }

  lemma NothingNew(s: P.Sys)
    ensures EarlyFrom(s, s)
  {
  }

  lemma HeldEarly(s: P.Sys, a: P.Action)
    requires a.Configure? || a.Use? || a.CloseSession? || a.ResetWorker? || a.Free? || a.Decide?
    ensures EarlyFrom(s, P.Apply(s, a))
  {
    hide P.KilledIf, P.Heard, Pool.Keeps, Pool.WornOut;
    HeardKeeps(s.p);
  }

  lemma LateEarly(s: P.Sys, a: P.Action)
    requires a.Queue? || a.Discard? || a.Kill? || a.ClosePool? || a.Drain? || a.Unlist? || a.Shutdown?
    ensures EarlyFrom(s, P.Apply(s, a))
  {
    hide P.KilledIf, P.Heard, Pool.Keeps, Pool.WornOut;
    HeardKeeps(s.p);
  }

  lemma CheckoutEarly(s: P.Sys, a: P.Action)
    requires a.NewCheckout? || a.Acquire? || a.GiveUp? || a.Take? || a.Spawn? || a.Enlist? || a.ReturnToken? || a.Check?
    ensures EarlyFrom(s, P.Apply(s, a))
  {
    hide P.KilledIf, P.Heard;
    HeardKeeps(s.p);
  }

  /** A queued worker has checkouts left. */
  lemma QueueHasRoom(s: P.Sys, w: nat)
    requires P.Inv(s) && w in s.p.idle
    ensures RoomFor(s.p, w)
  {
    assert P.IdleOk(s.p);
  }

  lemma NoSessionsYet(s: P.Sys, desk: seq<nat>, r: P.Sys)
    requires CountsOk(s, desk) && SameCheckouts(s.p, r.p)
    ensures CountsOk(r, desk)
  {
    forall w | 0 <= w < |r.p.procs| ensures Count(desk, w) == r.p.procs[w].checkouts && Within(r.p, w) {
      if w >= |s.p.procs| {
        CountNone(desk, w);
      }
    }
  }

  /** Whoever is about to configure a worker finds room, whatever happens meanwhile. */
  lemma OtherStepKeeps(s: P.Sys, desk: seq<nat>, a: P.Action)
    requires P.Inv(s) && CountsOk(s, desk) && EarlyOk(s) && !(a.Configure? && a.ok)
    ensures CountsOk(P.Apply(s, a), desk) && EarlyOk(P.Apply(s, a))
  {
    hide P.Inv, P.Apply, Count;
    var r := P.Apply(s, a);
    PoolCheckouts(s, a);
    PoolEarly(s, a);
    NoSessionsYet(s, desk, r);
    forall i | 0 <= i < |r.tasks| && Early(r.tasks[i]) ensures RoomFor(r.p, r.tasks[i].w) {
      if r.tasks[i].w in s.p.idle {
        QueueHasRoom(s, r.tasks[i].w);
      }
    }
  }

  lemma Configures(s: P.Sys, i: nat, w: nat, ok: bool, survives: bool)
    requires i < |s.tasks| && s.tasks[i] == P.Configuring(w) && w < |s.p.procs| && ok && survives && !s.p.procs[w].dead
    ensures
      var r := P.Apply(s, P.Configure(i, ok, survives));
      && r.tasks == s.tasks[i := P.Held(w)] && |r.p.procs| == |s.p.procs| && r.p.limit == s.p.limit
      && r.p.procs == s.p.procs[w := r.p.procs[w]] && r.p.procs[w].checkouts == s.p.procs[w].checkouts + 1
  {
  }

  /** The one step that counts a checkout also makes a session. */
  lemma ConfigureKeeps(s: P.Sys, desk: seq<nat>, i: nat, w: nat, survives: bool)
    requires P.Inv(s) && CountsOk(s, desk) && EarlyOk(s)
    requires i < |s.tasks| && s.tasks[i] == P.Configuring(w) && w < |s.p.procs| && survives && !s.p.procs[w].dead
    ensures
      var r := P.Apply(s, P.Configure(i, true, survives));
      CountsOk(r, desk + [w]) && EarlyOk(r)
  {
    var r := P.Apply(s, P.Configure(i, true, survives));
    Configures(s, i, w, true, survives);
    PoolSafety.Stage(s, i, w);
    hide P.Inv, P.Apply, Count;
    forall v | 0 <= v < |r.p.procs| ensures Count(desk + [w], v) == r.p.procs[v].checkouts && Within(r.p, v) {
      CountMore(desk, w, v);
    }
    forall j | 0 <= j < |r.tasks| && Early(r.tasks[j]) ensures RoomFor(r.p, r.tasks[j].w) {
      assert P.Worker(s.tasks[j]) == Some(s.tasks[j].w);
    }
  }

  /** The pool's part in a step, and the session made in it if one is. */
  ghost predicate Part(x: World, y: World)
  {
    || (y.pool == x.pool && y.desk == x.desk)
    || (exists b: P.Action :: !(b.Configure? && b.ok) && y.pool == P.Apply(x.pool, b) && y.desk == x.desk)
    || exists i: nat ::
         && i < |x.pool.tasks| && x.pool.tasks[i].Configuring? && Makes(x, y, i, x.pool.tasks[i].w)
  }

  ghost predicate Makes(x: World, y: World, i: nat, w: nat)
  {
    && w < |x.pool.p.procs| && !x.pool.p.procs[w].dead
    && y.pool == P.Apply(x.pool, P.Configure(i, true, true)) && y.desk == x.desk + [w]
  }

  lemma StepHasPart(x: World, a: Action)
    ensures Part(x, Apply(x, a))
  {
    hide P.Apply, H.Apply, SessionPending.Concerns, Written, Lines, Added;
    var y := Apply(x, a);
    match a {
      case PoolStep(b) =>
        if !Joint(b) { assert y.pool == P.Apply(x.pool, b); }
      case Open(i, ok, survives, settings) =>
        if y != x {
          if ok {
            assert Makes(x, y, i, x.pool.tasks[i].w);
          } else {
            assert y.pool == P.Apply(x.pool, P.Configure(i, false, survives));
          }
        }
      case SessionStep(b) =>
        var n := SessionPending.Concerns(x.host, b);
        if n < |x.lease| {
          var used := P.Use(x.lease[n], n < |H.Apply(x.host, b).nodes| && !H.Apply(x.host, b).nodes[n].vm.dead);
          assert y.pool == x.pool || y.pool == P.Apply(x.pool, used);
        }
      case Close(n) =>
        if n < |x.lease| {
          assert y.pool == x.pool || y.pool == P.Apply(x.pool, P.CloseSession(x.lease[n]));
        }
      case ResetWorker(n, ok, survives) =>
        if n < |x.lease| {
          assert y.pool == x.pool || y.pool == P.Apply(x.pool, P.ResetWorker(x.lease[n], ok, survives));
        }
    }
  }

  lemma StepCounts(x: World, a: Action)
    requires P.Inv(x.pool) && CountsOk(x.pool, x.desk) && EarlyOk(x.pool)
    ensures CountsOk(Apply(x, a).pool, Apply(x, a).desk) && EarlyOk(Apply(x, a).pool)
  {
    hide P.Inv, CountsOk, EarlyOk, Apply, P.Apply;
    var y := Apply(x, a);
    StepHasPart(x, a);
    if !(y.pool == x.pool && y.desk == x.desk) {
      if b: P.Action :| !(b.Configure? && b.ok) && y.pool == P.Apply(x.pool, b) && y.desk == x.desk {
        OtherStepKeeps(x.pool, x.desk, b);
      } else {
        var i: nat :| i < |x.pool.tasks| && x.pool.tasks[i].Configuring? && Makes(x, y, i, x.pool.tasks[i].w);
        ConfigureKeeps(x.pool, x.desk, i, x.pool.tasks[i].w, true);
      }
    }
  }

  /** No session has been made yet, in this run or before it. */
  ghost predicate Unused(p: Pool.Shared)
  {
    forall w :: 0 <= w < |p.procs| ==> p.procs[w].checkouts == 0
  }

  lemma UnusedCounts(x: World)
    requires Start(x) && Unused(x.pool.p)
    ensures CountsOk(x.pool, x.desk) && EarlyOk(x.pool)
  {
  }

  lemma {:induction false} RunCounts(x: World, actions: seq<Action>)
    requires Start(x) && Unused(x.pool.p)
    ensures CountsOk(Execute(x, actions).pool, Execute(x, actions).desk) && EarlyOk(Execute(x, actions).pool)
    decreases |actions|
  {
    hide P.Inv, Apply, SessionInvariant.Inv, Housed, CountsOk, EarlyOk, Start, Unused;
    if actions == [] {
      UnusedCounts(x);
      assert Execute(x, actions) == x;
    } else {
      var init := actions[..|actions| - 1];
      RunCounts(x, init);
      StartIsOk(x);
      RunKeeps(x, init);
      StepCounts(Execute(x, init), actions[|actions| - 1]);
    }
  }

  /**
   In every run of a new pool a worker's checkouts are the sessions that were made around it, and
   never more than a limit that is set.
   */
  lemma WorkerServesAtMost(x: World, actions: seq<Action>, w: nat)
    requires Start(x) && Unused(x.pool.p) && w < |Execute(x, actions).pool.p.procs|
    ensures
      var y := Execute(x, actions);
      && Count(y.desk, w) == y.pool.p.procs[w].checkouts
      && (y.pool.p.limit > 0 ==> Count(y.desk, w) <= y.pool.p.limit)
  {
    hide Execute, Start, Count, EarlyOk, Unused;
    RunCounts(x, actions);
  }
}
