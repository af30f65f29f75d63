/** Who drives a worker, and when it is given back, in every run of the pool with its sessions. */
module TenancyTheorems {
  import opened Common
  import H = SessionSystem
  import SessionInvariant
  import SessionPending
  import Pool
  import P = PoolSystem
  import PoolSafety
  import PoolTheorems
  import opened Tenancy
  import opened TenancySafety

  /**
   Each worker is driven by one tenant after the other, none of them twice: a checkout's Configure,
   then requests of the one session it made, then that session's Reset, before anybody else's
   Configure or the closing pool's Shutdown.
   */
  lemma TenantsTakeTurns(x: World, actions: seq<Action>, w: nat)
    requires Start(x) && w < |Execute(x, actions).pipes|
    ensures Tenancies(Execute(x, actions).pipes[w])
  {
    hide Execute, Start, P.Inv, SessionInvariant.Inv, Tenancies, TenantsOk, LeasedOk, FreedOk, LinesOk, TrailsOk;
    StartIsOk(x);
    RunKeeps(x, actions);
  }

  /** How session n, its call and its worker stand to each other. */
  ghost predicate HasItsWorker(x: World, n: nat)
    requires n < |x.host.nodes|
  {
    && n < |x.lease| && n < |x.desk| && x.lease[n] < |x.pool.tasks|
    && var t, nd, w := x.pool.tasks[x.lease[n]], x.host.nodes[n], x.desk[n];
       && (!nd.s.closed <==> t.Held?) && (nd.s.closed && !nd.resetSent <==> t.Resetting?)
       && (!nd.resetSent ==>
           && P.Worker(t) == Some(w) && w in x.pool.p.workers && w !in x.pool.p.idle
           && PoolSafety.OthersLack(x.pool, x.lease[n], w))
  }

  lemma TenantHasItsWorker(x: World, n: nat)
    requires Inv(x) && n < |x.host.nodes|
    ensures HasItsWorker(x, n)
  {
    OpenOrReset(x, n);
    hide P.Inv, SessionInvariant.Inv, LinesOk, TrailsOk, PipesOk, LeasedOk, FreedOk, PoolSafety.OthersLack;
    assert TenantOk(x, n);
    if !x.host.nodes[n].resetSent {
      assert PoolSafety.OthersLack(x.pool, x.lease[n], x.desk[n]) && x.desk[n] in x.pool.p.workers
          && x.desk[n] !in x.pool.p.idle by {
        TenantDrives(x, n);
        HeldIsRegistered(x.pool, x.lease[n]);
      }
    }
  }

  lemma HeldIsRegistered(s: P.Sys, i: nat)
    requires P.Inv(s) && i < |s.tasks| && Drives(s.tasks[i])
    ensures s.tasks[i].w in s.p.workers
  {
    assert P.TaskOk(s.p, s.tasks[i]);
  }

  lemma OpenOrReset(x: World, n: nat)
    requires Inv(x) && n < |x.host.nodes|
    ensures x.host.nodes[n].resetSent ==> x.host.nodes[n].s.closed
  {
    hide P.Inv, Housed;
    assert SessionInvariant.NodeOk(x.host, n);
  }

  /**
   A session is open precisely while its call holds its worker, and waits for its Reset precisely
   while its call resets it. Until then neither the queue nor another call has the worker.
   */
  lemma SessionHasItsWorker(x: World, actions: seq<Action>, n: nat)
    requires Start(x) && n < |Execute(x, actions).host.nodes|
    ensures HasItsWorker(Execute(x, actions), n)
  {
    hide Execute, Start, Inv, HasItsWorker;
    StartIsOk(x);
    RunKeeps(x, actions);
    TenantHasItsWorker(Execute(x, actions), n);
  }

  /** Session n's call has given its token back, and its worker with it, if and only if its Reset is over. */
  ghost predicate IsReleased(x: World, n: nat)
    requires n < |x.host.nodes|
  {
    && n < |x.lease| && x.lease[n] < |x.pool.tasks|
    && (x.lease[n] in x.freed <==> x.host.nodes[n].resetSent && !x.pool.tasks[x.lease[n]].Releasing?)
    && (x.pool.tasks[x.lease[n]].Done? ==> x.lease[n] in x.freed)
  }

  lemma TenantIsReleased(x: World, n: nat)
    requires Housed(x) && n < |x.host.nodes|
    ensures IsReleased(x, n)
  {
    hide LinesOk, TrailsOk, PipesOk, LeasedOk, FreedOk;
    assert TenantOk(x, n);
  }

  /**
   No call gives its token back twice, and no two sessions share a call. A session's call has given
   it back if and only if the session's Reset is over and the release has taken its first step; when
   the call is over it has, so exactly once.
   */
  lemma ReleasedOnce(x: World, actions: seq<Action>)
    requires Start(x)
    ensures
      var y := Execute(x, actions);
      && Pool.Distinct(y.freed) && Pool.Distinct(y.lease)
      && forall n :: 0 <= n < |y.host.nodes| ==> IsReleased(y, n)
  {
    hide Execute, Start, P.Inv, SessionInvariant.Inv, IsReleased, LinesOk, TrailsOk, PipesOk, LeasedOk, TenantOk;
    StartIsOk(x);
    RunKeeps(x, actions);
    var y := Execute(x, actions);
    forall n | 0 <= n < |y.host.nodes| ensures IsReleased(y, n) {
      TenantIsReleased(y, n);
    }
  }

  // ---------------------------------------------------------------------------
  // Only the holder writes

  /** Between taking a worker and beginning to give it back. */
  predicate Speaking(t: P.Task) { t.Configuring? || Drives(t) || t.ShuttingDown? }

  /** What is added to a pipe is written by the call that has its worker just then. */
  ghost predicate HoldersWrite(x: World, y: World)
  {
    && |x.pipes| <= |y.pipes|
    && (forall w :: 0 <= w < |x.pipes| ==> x.pipes[w] <= y.pipes[w])
    && (forall w :: |x.pipes| <= w < |y.pipes| ==> y.pipes[w] == [])
    && (forall w, j :: 0 <= w < |x.pipes| && |x.pipes[w]| <= j < |y.pipes[w]| ==>
        ByHolder(x, w, y.pipes[w][j].task))
  }

  ghost predicate ByHolder(x: World, w: nat, i: nat)
  {
    && i < |x.pool.tasks| && Speaking(x.pool.tasks[i]) && P.Worker(x.pool.tasks[i]) == Some(w)
    && w !in x.pool.p.idle && PoolSafety.OthersLack(x.pool, i, w)
  }

  lemma HolderIsAlone(x: World, i: nat)
    requires P.Inv(x.pool) && i < |x.pool.tasks| && Speaking(x.pool.tasks[i])
    ensures ByHolder(x, P.Worker(x.pool.tasks[i]).value, i)
  {
    var w := P.Worker(x.pool.tasks[i]).value;
    assert P.TaskOk(x.pool.p, x.pool.tasks[i]);
    PoolSafety.Stage(x.pool, i, w);
  }

  /** One call's lines on one worker's pipe. */
  lemma OneWrites(x: World, y: World, w: nat, i: nat, lines: seq<Line>)
    requires y.pipes == Written(x.pipes, w, lines) && ByHolder(x, w, i)
    requires forall j :: 0 <= j < |lines| ==> lines[j].task == i
    ensures HoldersWrite(x, y)
  {
    hide ByHolder;
  }

  lemma NobodyWrites(x: World, y: World)
    requires y.pipes == x.pipes || y.pipes == x.pipes + [[]]
    ensures HoldersWrite(x, y)
  {
  }

  lemma PoolStepWrites(x: World, a: P.Action)
    requires P.Inv(x.pool)
    ensures HoldersWrite(x, DoPoolStep(x, a))
  {
    hide P.Inv, HoldersWrite, P.Apply, ByHolder, Written;
    var y := DoPoolStep(x, a);
    if !Joint(a) && a.Shutdown? && a.i < |x.pool.tasks| && x.pool.tasks[a.i].ShuttingDown? {
      HolderIsAlone(x, a.i);
      var w := x.pool.tasks[a.i].w;
      if y.pipes == x.pipes {
        NobodyWrites(x, y);
      } else {
        OneWrites(x, y, w, a.i, [Line(a.i, Stopping)]);
      }
    } else {
      NobodyWrites(x, y);
    }
  }

  lemma OpenWrites(x: World, i: nat, ok: bool, survives: bool, settings: H.Action)
    requires P.Inv(x.pool)
    ensures HoldersWrite(x, DoOpen(x, i, ok, survives, settings))
  {
    hide P.Inv, HoldersWrite, P.Apply, H.Apply, ByHolder, Written;
    var y := DoOpen(x, i, ok, survives, settings);
    if y.pipes == x.pipes {
      NobodyWrites(x, y);
    } else {
      HolderIsAlone(x, i);
      OneWrites(x, y, x.pool.tasks[i].w, i, [Line(i, Configuring)]);
    }
  }

  lemma SessionWrites(x: World, y: World, n: nat, reqs: seq<K.Req>)
    requires P.Inv(x.pool) && Housed(x) && n < |x.host.nodes| && n < |x.lease| && n < |x.desk|
    requires !x.host.nodes[n].resetSent
    requires y.pipes == Written(x.pipes, x.desk[n], Lines(n, x.lease[n], reqs))
    ensures HoldersWrite(x, y)
  {
    hide P.Inv, HoldersWrite, ByHolder, Written, LinesOk, TrailsOk, PipesOk, LeasedOk, FreedOk, PoolSafety.Ready;
    TenantDrives(x, n);
    hide TenantsOk;
    HolderIsAlone(x, x.lease[n]);
    OneWrites(x, y, x.desk[n], x.lease[n], Lines(n, x.lease[n], reqs));
  }

  lemma SessionStepWrites(x: World, b: H.Action)
    requires P.Inv(x.pool) && SessionInvariant.Inv(x.host) && Housed(x)
    ensures HoldersWrite(x, DoSessionStep(x, b))
  {
    hide P.Inv, SessionInvariant.Inv, HoldersWrite, H.Apply, P.Apply, SessionPending.Concerns, Housed, Written,
      SameStatus;
    var y := DoSessionStep(x, b);
    if Ordinary(b) {
      var t, n := H.Apply(x.host, b), SessionPending.Concerns(x.host, b);
      AsksForItself(x.host, b);
      TenantsHoused(x);
      SameCount(x.host, t);
      hide TenantsOk, LinesOk;
      if n < |x.host.nodes| && !x.host.nodes[n].s.closed {
        OpenIsUnreset(x.host, n);
        SessionWrites(x, y, n, Added(x.host.log, t.log));
      } else {
        if n < |x.host.nodes| {
          NothingWritten(x.pipes, x.desk[n], n, x.lease[n]);
        }
        NobodyWrites(x, y);
      }
    } else {
      NobodyWrites(x, y);
    }
  }

  lemma ClosingWrites(x: World, n: nat, ok: bool, survives: bool)
    requires P.Inv(x.pool) && Housed(x)
    ensures HoldersWrite(x, DoClose(x, n)) && HoldersWrite(x, DoResetWorker(x, n, ok, survives))
  {
    hide P.Inv, HoldersWrite, H.Apply, P.Apply, Housed, Written, Lines, Added;
    NobodyWrites(x, DoClose(x, n));
    var y := DoResetWorker(x, n, ok, survives);
    if y.pipes == x.pipes {
      NobodyWrites(x, y);
    } else {
      SessionWrites(x, y, n, Added(x.host.log, H.Apply(x.host, H.CloseReset(n)).log));
    }
  }

  lemma StepWrites(x: World, a: Action)
    requires Inv(x)
    ensures HoldersWrite(x, Apply(x, a))
  {
    hide P.Inv, SessionInvariant.Inv, Housed, HoldersWrite, DoPoolStep, DoOpen, DoSessionStep, DoClose, DoResetWorker;
    match a {
      case PoolStep(b) => PoolStepWrites(x, b);
      case Open(i, ok, survives, settings) => OpenWrites(x, i, ok, survives, settings);
      case SessionStep(b) => SessionStepWrites(x, b);
      case Close(n) => ClosingWrites(x, n, false, false);
      case ResetWorker(n, ok, survives) => ClosingWrites(x, n, ok, survives);
    }
  }

  /** At every step, a worker is written to only by the one call that has it, and by none in the queue. */
  lemma OnlyTheHolderWrites(x: World, actions: seq<Action>, a: Action)
    requires Start(x)
    ensures HoldersWrite(Execute(x, actions), Apply(Execute(x, actions), a))
  {
    hide Execute, Start, Inv, HoldersWrite, Apply;
    StartIsOk(x);
    RunKeeps(x, actions);
    StepWrites(Execute(x, actions), a);
  }

  // ---------------------------------------------------------------------------
  // A former tenant

  /** The session's Reset is over; then its call is past holding anything. */
  ghost predicate Left(x: World, n: nat)
  {
    && n < |x.host.nodes| && x.host.nodes[n].resetSent
    && n < |x.lease| && x.lease[n] < |x.pool.tasks|
  }

  lemma LeftDoesNotSpeak(x: World, n: nat)
    requires Housed(x) && Left(x, n)
    ensures !Speaking(x.pool.tasks[x.lease[n]])
  {
    assert TenantOk(x, n);
  }

  lemma GrowingOnly(x: World, a: Action)
    requires Inv(x)
    ensures x.lease <= Apply(x, a).lease
    ensures |x.pool.tasks| <= |Apply(x, a).pool.tasks|
    ensures |x.host.nodes| <= |Apply(x, a).host.nodes|
    ensures forall n :: 0 <= n < |x.host.nodes| && x.host.nodes[n].resetSent ==> Apply(x, a).host.nodes[n].resetSent
  {
    hide Inv, P.Apply, H.Apply, SessionPending.Concerns, Written, Lines, Added;
    forall b ensures |P.Apply(x.pool, b).tasks| >= |x.pool.tasks| {
      PoolGrows(x.pool, b);
    }
    forall b ensures StaysReset(x.host, H.Apply(x.host, b)) {
      ResetStays(x.host, b);
    }
  }

  lemma PoolGrows(s: P.Sys, b: P.Action)
    ensures |P.Apply(s, b).tasks| >= |s.tasks|
  {
    hide P.KilledIf, P.Heard, Pool.Keeps, Pool.WornOut;
  }

  ghost predicate StaysReset(a: H.Sys, b: H.Sys)
  {
    && |a.nodes| <= |b.nodes|
    && forall n :: 0 <= n < |a.nodes| && a.nodes[n].resetSent ==> b.nodes[n].resetSent
  }

  lemma ResetStays(sys: H.Sys, b: H.Action)
    ensures StaysReset(sys, H.Apply(sys, b))
  {
    if Ordinary(b) {
      hide H.Apply;
      StatusStays(sys, b);
    } else {
      hide H.DoCloseBegin;
      if b.CloseBegin? && b.n < |sys.nodes| && !sys.nodes[b.n].s.closed && !sys.nodes[b.n].s.inTurn {
        ClosingNode(sys, b.n);
      }
    }
  }

  /** Nothing has been written by call i since. */
  ghost predicate SilentSince(x: World, y: World, i: nat)
  {
    && |x.pipes| <= |y.pipes| && (forall w :: 0 <= w < |x.pipes| ==> x.pipes[w] <= y.pipes[w])
    && (forall w, j :: 0 <= w < |x.pipes| && |x.pipes[w]| <= j < |y.pipes[w]| ==> y.pipes[w][j].task != i)
    && (forall w, j :: |x.pipes| <= w < |y.pipes| && 0 <= j < |y.pipes[w]| ==> y.pipes[w][j].task != i)
  }

  lemma SilentStep(x: World, y: World, z: World, i: nat)
    requires SilentSince(x, y, i) && HoldersWrite(y, z)
    requires i < |y.pool.tasks| && !Speaking(y.pool.tasks[i])
    ensures SilentSince(x, z, i)
  {
    forall w, j | 0 <= w < |x.pipes| && |x.pipes[w]| <= j < |z.pipes[w]| ensures z.pipes[w][j].task != i {
      if j < |y.pipes[w]| {
        assert z.pipes[w][j] == y.pipes[w][j];
      }
    }
    forall w, j | |x.pipes| <= w < |z.pipes| && 0 <= j < |z.pipes[w]| ensures z.pipes[w][j].task != i {
      if w < |y.pipes| && j < |y.pipes[w]| {
        assert z.pipes[w][j] == y.pipes[w][j];
      }
    }
  }

  lemma LeftStays(x: World, a: Action, n: nat)
    requires Inv(x) && Left(x, n)
    ensures Left(Apply(x, a), n) && Apply(x, a).lease[n] == x.lease[n]
  {
    GrowingOnly(x, a);
    hide Inv, Apply;
  }

  lemma LeftForGood(x: World, more: seq<Action>, n: nat)
    requires Inv(x) && Left(x, n)
    ensures Left(Execute(x, more), n) && Execute(x, more).lease[n] == x.lease[n]
    ensures SilentSince(x, Execute(x, more), x.lease[n])
    decreases |more|
  {
    hide Inv, Apply, SilentSince, Execute, Speaking;
    if more == [] {
      NothingSince(x, x.lease[n]);
    } else {
      var init, a := more[..|more| - 1], more[|more| - 1];
      var y := Execute(x, init);
      LeftForGood(x, init, n);
      RunKeeps(x, init);
      ExecuteLast(x, more);
      assert Housed(y) by { InvHoused(y); }
      LeftDoesNotSpeak(y, n);
      StepWrites(y, a);
      LeftStays(y, a, n);
      SilentStep(x, y, Apply(y, a), x.lease[n]);
    }
  }

  lemma InvHoused(x: World)
    requires Inv(x)
    ensures Housed(x)
  {
  }

  lemma NothingSince(x: World, i: nat)
    ensures Execute(x, []) == x && SilentSince(x, x, i)
  {
  }

  lemma ExecuteLast(x: World, actions: seq<Action>)
    requires actions != []
    ensures Execute(x, actions) == Apply(Execute(x, actions[..|actions| - 1]), actions[|actions| - 1])
  {
  }

  lemma {:induction false} ExecuteConcat(x: World, actions: seq<Action>, more: seq<Action>)
    ensures Execute(x, actions + more) == Execute(Execute(x, actions), more)
    decreases |more|
  {
    hide Apply, Execute;
    if more == [] {
      assert actions + more == actions;
      NothingSince(Execute(x, actions), 0);
    } else {
      var k := |more| - 1;
      ExecuteConcat(x, actions, more[..k]);
      assert (actions + more)[..|actions + more| - 1] == actions + more[..k];
      ExecuteLast(x, actions + more);
      ExecuteLast(Execute(x, actions), more);
    }
  }

  /** After its Reset a session never drives any worker again, whatever else happens and whoever has it now. */
  lemma FormerTenantIsSilent(x: World, actions: seq<Action>, more: seq<Action>, n: nat)
    requires Start(x) && n < |Execute(x, actions).host.nodes| && Execute(x, actions).host.nodes[n].resetSent
    ensures n < |Execute(x, actions).lease|
    ensures SilentSince(Execute(x, actions), Execute(x, actions + more), Execute(x, actions).lease[n])
  {
    hide Execute, Start, Inv, SilentSince;
    StartIsOk(x);
    RunKeeps(x, actions);
    var y := Execute(x, actions);
    assert Left(y, n) by { HousedHasLease(y, n); }
    LeftForGood(y, more, n);
    ExecuteConcat(x, actions, more);
  }

  lemma HousedHasLease(x: World, n: nat)
    requires Inv(x) && n < |x.host.nodes|
    ensures n < |x.lease| && x.lease[n] < |x.pool.tasks|
  {
    hide P.Inv, SessionInvariant.Inv, LinesOk, TrailsOk, PipesOk, LeasedOk, FreedOk;
  }

  // ---------------------------------------------------------------------------
  // The two systems inside

  /** Steps of the pool alone, and halves of joint ones. */
  lemma PoolSide(x: World, a: Action) returns (ps: seq<P.Action>)
    ensures Apply(x, a).pool == P.Execute(x.pool, ps)
  {
    hide P.Apply, H.Apply, SessionPending.Concerns, Written, Lines, Added;
    ps := [];
    match a {
      case PoolStep(b) =>
        if !Joint(b) { ps := [b]; }
      case Open(i, ok, survives, _) =>
        if Apply(x, a) != x { ps := [P.Configure(i, ok, survives)]; }
      case SessionStep(b) =>
        var n := SessionPending.Concerns(x.host, b);
        if Ordinary(b) && n < |x.lease| && n < |x.desk| && n < |H.Apply(x.host, b).nodes| {
          ps := [P.Use(x.lease[n], !H.Apply(x.host, b).nodes[n].vm.dead)];
        }
      case Close(n) =>
        if Apply(x, a) != x { ps := [P.CloseSession(x.lease[n])]; }
      case ResetWorker(n, ok, survives) =>
        if Apply(x, a) != x { ps := [P.ResetWorker(x.lease[n], ok, survives)]; }
    }
    assert ps != [] ==> P.Execute(x.pool, ps) == P.Apply(P.Execute(x.pool, []), ps[0]);
  }

  lemma HostSide(x: World, a: Action) returns (bs: seq<H.Action>)
    ensures Apply(x, a).host == H.Execute(x.host, bs)
  {
    hide P.Apply, H.Apply, SessionPending.Concerns, Written, Lines, Added;
    bs := [];
    match a {
      case PoolStep(_) =>
      case Open(_, _, _, settings) =>
        if Apply(x, a).host != x.host { bs := [settings]; }
      case SessionStep(b) =>
        if Ordinary(b) { bs := [b]; }
      case Close(n) =>
        if Apply(x, a).host != x.host { bs := [H.CloseBegin(n)]; }
      case ResetWorker(n, _, _) =>
        if Apply(x, a).host != x.host { bs := [H.CloseReset(n)]; }
    }
    assert bs != [] ==> H.Execute(x.host, bs) == H.Apply(H.Execute(x.host, []), bs[0]);
  }

  /**
   Seen from either side, a run of the pool with its sessions is a run of that side alone, so
   whatever is proved of every run of the pool, or of every run of the sessions, holds here too.
   */
  lemma BothSidesAreRuns(x: World, actions: seq<Action>)
    requires Start(x)
    ensures exists ps :: Execute(x, actions).pool == P.Execute(x.pool, ps)
    ensures exists bs :: Execute(x, actions).host == H.Execute(H.EMPTY, bs)
  {
    hide Execute, P.Execute, H.Execute;
    var ps, bs := Sides(x, actions);
  }

  lemma {:induction false} Sides(x: World, actions: seq<Action>)
    returns (ps: seq<P.Action>, bs: seq<H.Action>)
    requires x.host == H.EMPTY
    ensures Execute(x, actions).pool == P.Execute(x.pool, ps) && Execute(x, actions).host == H.Execute(H.EMPTY, bs)
    decreases |actions|
  {
    hide Apply, Execute, P.Execute, H.Execute;
    if actions == [] {
      NothingSince(x, 0);
      ps, bs := [], [];
      NoSteps(x.pool);
    } else {
      var init, a := actions[..|actions| - 1], actions[|actions| - 1];
      var y := Execute(x, init);
      ExecuteLast(x, actions);
      ps, bs := Sides(x, init);
      var p := PoolSide(y, a);
      var b := HostSide(y, a);
      PoolTheorems.ExecuteConcat(x.pool, ps, p);
      SessionPending.ExecuteConcat(bs, b);
      ps, bs := ps + p, bs + b;
    }
  }

  lemma NoSteps(s: P.Sys)
    ensures P.Execute(s, []) == s && H.Execute(H.EMPTY, []) == H.EMPTY
  {
  }
}
