/** Every step of the pool with its sessions keeps each worker in the hands of one tenant. */
module TenancySafety {
  import opened Common
  import K = Session
  import H = SessionSystem
  import SessionInvariant
  import SessionSafety
  import SessionPending
  import SessionObjects
  import Pool
  import P = PoolSystem
  import PoolSafety
  import opened Tenancy

  // ---------------------------------------------------------------------------
  // What a call's state says about its lines

  /** Has not written anything yet. */
  predicate Unheard(t: P.Task)
  {
    t.Asking? || t.HasSlot? || t.Committed? || t.Spawned? || t.Failing? || t.Got? || t.Configuring?
  }

  predicate Closing(t: P.Task) { t.Draining? || t.Unlisting? || t.ShuttingDown? }

  /** Has a worker that is ready for a new tenant. */
  predicate NeedsClean(t: P.Task)
  {
    || t.Spawned? || t.Got? || t.Configuring? || t.Unlisting? || t.ShuttingDown? || t.Queueing? || t.Unqueued?
    || ((t.Releasing? || t.Freed?) && t.reusable)
  }

  predicate Drives(t: P.Task) { t.Held? || t.Resetting? }

  /** Past the token's return. */
  predicate PastFree(t: P.Task) { t.Freed? || t.Queueing? || t.Unqueued? || t.Killing? || t.Done? }

  /** The release of worker w has begun. */
  predicate After(t: P.Task, w: nat)
  {
    t.Done? || ((t.Releasing? || PastFree(t)) && P.Worker(t) == Some(w))
  }

  /** Nobody will ever have worker v again. */
  ghost predicate Buried(s: P.Sys, v: nat)
  {
    v !in s.p.idle && forall j :: 0 <= j < |s.tasks| ==> P.Worker(s.tasks[j]) != Some(v)
  }

  // ---------------------------------------------------------------------------
  // The invariant

  ghost predicate Shape(x: World)
  {
    && |x.lease| == |x.host.nodes| && |x.desk| == |x.host.nodes| && |x.pipes| == |x.pool.p.procs|
    && (forall n :: 0 <= n < |x.lease| ==> x.lease[n] < |x.pool.tasks|)
    && (forall m, n :: 0 <= m < n < |x.lease| ==> x.lease[m] != x.lease[n])
  }

  /** How far session n's call is with the worker says how far the session is, and the reverse. */
  ghost predicate TenantOk(x: World, n: nat)
    requires n < |x.lease| && n < |x.desk| && n < |x.host.nodes|
  {
    && x.lease[n] < |x.pool.tasks|
    && var t, w, nd := x.pool.tasks[x.lease[n]], x.desk[n], x.host.nodes[n];
       && (if !nd.s.closed then t == P.Held(w) else if !nd.resetSent then t == P.Resetting(w) else After(t, w))
       && (x.lease[n] in x.freed <==> nd.resetSent && !t.Releasing?)
  }

  ghost predicate TenantsOk(x: World)
  {
    Shape(x) && forall n :: 0 <= n < |x.lease| ==> TenantOk(x, n)
  }

  ghost predicate LeasedOk(x: World)
  {
    forall i :: 0 <= i < |x.pool.tasks| && Drives(x.pool.tasks[i]) ==> i in x.lease
  }

  ghost predicate FreedOk(x: World)
  {
    && Pool.Distinct(x.freed)
    && forall i :: i in x.freed ==> i < |x.pool.tasks| && PastFree(x.pool.tasks[i])
  }

  ghost predicate LineOk(x: World, w: nat, l: Line)
  {
    && l.task < |x.pool.tasks| && !Unheard(x.pool.tasks[l.task])
    && (l.what.Asking? ==> l.what.session < |x.lease| && x.lease[l.what.session] == l.task)
    && (Closing(x.pool.tasks[l.task]) ==> l.what.Stopping?)
    && (l.what.Stopping? ==> Buried(x.pool, w))
  }

  ghost predicate LinesOk(x: World)
  {
    forall w, j :: 0 <= w < |x.pipes| && 0 <= j < |x.pipes[w]| ==> LineOk(x, w, x.pipes[w][j])
  }

  ghost predicate TrailOk(t: P.Task, i: nat, pipe: seq<Line>)
  {
    && (NeedsClean(t) ==> Clean(pipe))
    && (Drives(t) ==> pipe != [] && pipe[|pipe| - 1].task == i && !IsReset(pipe[|pipe| - 1]))
  }

  ghost predicate TrailsOk(x: World)
  {
    && (forall w :: w in x.pool.p.idle && w < |x.pipes| ==> Clean(x.pipes[w]))
    && forall i :: 0 <= i < |x.pool.tasks| ==>
         match P.Worker(x.pool.tasks[i])
         case Some(w) => w < |x.pipes| ==> TrailOk(x.pool.tasks[i], i, x.pipes[w])
         case None => true
  }

  ghost predicate PipesOk(x: World)
  {
    forall w :: 0 <= w < |x.pipes| ==> Tenancies(x.pipes[w])
  }

  ghost predicate Housed(x: World)
  {
    TenantsOk(x) && LeasedOk(x) && FreedOk(x) && LinesOk(x) && TrailsOk(x) && PipesOk(x)
  }

  ghost predicate Inv(x: World)
  {
    P.Inv(x.pool) && SessionInvariant.Inv(x.host) && Housed(x)
  }

  // ---------------------------------------------------------------------------
  // A call of the pool moves on and nothing is written

  /** Without a word to the worker, and with no session beginning or ending. */
  ghost predicate Passes(p: Pool.Shared, t: P.Task, u: P.Task)
  {
    && !Drives(t) && !Drives(u)
    && (Closing(u) ==> Closing(t)) && (!Unheard(t) ==> !Unheard(u))
    && (PastFree(t) ==> PastFree(u) && (u.Done? || P.Worker(u) == P.Worker(t)))
    && (P.Worker(u).Some? ==>
        || (P.Worker(u) == P.Worker(t) && (NeedsClean(u) ==> NeedsClean(t)))
        || P.Worker(u).value in p.idle)
  }

  ghost predicate Quiet(s: P.Sys, r: P.Sys, i: nat)
  {
    && i < |s.tasks| == |r.tasks| && r.tasks == s.tasks[i := r.tasks[i]] && |r.p.procs| == |s.p.procs|
    && Passes(s.p, s.tasks[i], r.tasks[i])
    && (forall v :: v in r.p.idle ==> v in s.p.idle || (P.Worker(s.tasks[i]) == Some(v) && NeedsClean(s.tasks[i])))
  }

  lemma QuietTenants(x: World, y: World, i: nat)
    requires TenantsOk(x) && LeasedOk(x) && FreedOk(x) && y == x.(pool := y.pool) && Quiet(x.pool, y.pool, i)
    requires !x.pool.tasks[i].Releasing?
    ensures TenantsOk(y) && LeasedOk(y) && FreedOk(y)
  {
    forall n | 0 <= n < |x.lease| ensures TenantOk(y, n) {
      assert TenantOk(x, n);
    }
  }

  lemma QuietBuries(s: P.Sys, r: P.Sys, i: nat, v: nat)
    requires Quiet(s, r, i) && Buried(s, v)
    ensures Buried(r, v)
  {
  }

  lemma QuietLines(x: World, y: World, i: nat)
    requires LinesOk(x) && y == x.(pool := y.pool) && Quiet(x.pool, y.pool, i)
    ensures LinesOk(y)
  {
    forall w, j | 0 <= w < |x.pipes| && 0 <= j < |x.pipes[w]| ensures LineOk(y, w, x.pipes[w][j]) {
      assert LineOk(x, w, x.pipes[w][j]);
      if x.pipes[w][j].what.Stopping? {
        QuietBuries(x.pool, y.pool, i, w);
      }
      hide Buried;
    }
  }

  lemma QuietTrails(x: World, y: World, i: nat)
    requires TrailsOk(x) && y == x.(pool := y.pool) && Quiet(x.pool, y.pool, i)
    ensures TrailsOk(y)
  {
    hide Clean, PastFree, Unheard, Closing, NeedsClean;
    forall v | v in y.pool.p.idle && v < |x.pipes| ensures Clean(x.pipes[v]) {
      if v !in x.pool.p.idle {
        assert TrailOk(x.pool.tasks[i], i, x.pipes[v]);
      }
    }
    forall j | 0 <= j < |y.pool.tasks| && P.Worker(y.pool.tasks[j]).Some? && P.Worker(y.pool.tasks[j]).value < |x.pipes|
      ensures TrailOk(y.pool.tasks[j], j, x.pipes[P.Worker(y.pool.tasks[j]).value])
    {
      if j != i || P.Worker(y.pool.tasks[j]) == P.Worker(x.pool.tasks[j]) {
        assert TrailOk(x.pool.tasks[j], j, x.pipes[P.Worker(y.pool.tasks[j]).value]);
      }
    }
  }

  lemma QuietKeeps(x: World, y: World, i: nat)
    requires Housed(x) && y == x.(pool := y.pool) && Quiet(x.pool, y.pool, i) && !x.pool.tasks[i].Releasing?
    ensures Housed(y)
  {
    hide Quiet, TenantsOk, LeasedOk, FreedOk, LinesOk, TrailsOk;
    QuietTenants(x, y, i);
    QuietLines(x, y, i);
    QuietTrails(x, y, i);
  }

  lemma CheckoutIsQuiet(s: P.Sys, a: P.Action)
    requires a.Acquire? || a.GiveUp? || a.Take? || (a.Spawn? && !a.ok) || a.Enlist? || a.ReturnToken? || a.Check?
    ensures P.Apply(s, a) == s || (Quiet(s, P.Apply(s, a), a.i) && !s.tasks[a.i].Releasing?)
  {
    hide P.KilledIf;
    KillingKeepsTheRest(s.p);
  }

  lemma ClosingIsQuiet(s: P.Sys, a: P.Action)
    requires a.Discard? || a.Drain? || a.Unlist?
    ensures P.Apply(s, a) == s || (Quiet(s, P.Apply(s, a), a.i) && !s.tasks[a.i].Releasing?)
  {
  }

  lemma ReleaseIsQuiet(s: P.Sys, a: P.Action)
    requires a.Decide? || a.Queue? || a.Kill?
    ensures P.Apply(s, a) == s || (Quiet(s, P.Apply(s, a), a.i) && !s.tasks[a.i].Releasing?)
  {
    hide P.KilledIf, Pool.WornOut;
    KillingKeepsTheRest(s.p);
  }

  lemma KillingKeepsTheRest(p: Pool.Shared)
    ensures forall w: nat ::
      var q := P.KilledIf(p, w);
      q == p.(procs := q.procs) && |q.procs| == |p.procs|
  {
  }

  lemma ArrivalTenants(x: World, y: World, t: P.Task)
    requires TenantsOk(x) && LeasedOk(x) && FreedOk(x) && y == x.(pool := y.pool) && y.pool.tasks == x.pool.tasks + [t]
    requires |y.pool.p.procs| == |x.pool.p.procs|
    requires t.Asking? || t.Draining?
    ensures TenantsOk(y) && LeasedOk(y) && FreedOk(y)
  {
    forall n | 0 <= n < |x.lease| ensures TenantOk(y, n) {
      assert TenantOk(x, n);
    }
  }

  lemma ArrivalLines(x: World, y: World, t: P.Task)
    requires LinesOk(x) && y == x.(pool := y.pool) && y.pool.tasks == x.pool.tasks + [t]
    requires y.pool.p.idle == x.pool.p.idle && (t.Asking? || t.Draining?)
    ensures LinesOk(y)
  {
    forall w, j | 0 <= w < |x.pipes| && 0 <= j < |x.pipes[w]| ensures LineOk(y, w, x.pipes[w][j]) {
      assert LineOk(x, w, x.pipes[w][j]);
    }
  }

  lemma ArrivalKeeps(x: World, y: World, t: P.Task)
    requires Housed(x) && y == x.(pool := y.pool) && y.pool.tasks == x.pool.tasks + [t]
    requires y.pool.p.idle == x.pool.p.idle && |y.pool.p.procs| == |x.pool.p.procs|
    requires t.Asking? || t.Draining?
    ensures Housed(y)
  {
    ArrivalTenants(x, y, t);
    ArrivalLines(x, y, t);
    hide TenantsOk, LeasedOk, FreedOk, LinesOk, Clean, TrailOk;
  }

  /** A new worker has been told nothing. */
  lemma SpawnTenants(x: World, y: World, i: nat)
    requires TenantsOk(x) && LeasedOk(x) && FreedOk(x) && i < |x.pool.tasks| && x.pool.tasks[i].Committed?
    requires y == x.(pool := y.pool, pipes := x.pipes + [[]])
    requires y.pool.tasks == x.pool.tasks[i := P.Spawned(|x.pool.p.procs|)]
    requires |y.pool.p.procs| == |x.pool.p.procs| + 1
    ensures TenantsOk(y) && LeasedOk(y) && FreedOk(y)
  {
    forall n | 0 <= n < |x.lease| ensures TenantOk(y, n) {
      assert TenantOk(x, n);
    }
  }

  lemma SpawnLines(x: World, y: World, i: nat)
    requires LinesOk(x) && |x.pipes| == |x.pool.p.procs| && i < |x.pool.tasks| && x.pool.tasks[i].Committed?
    requires y == x.(pool := y.pool, pipes := x.pipes + [[]]) && y.pool.p.idle == x.pool.p.idle
    requires y.pool.tasks == x.pool.tasks[i := P.Spawned(|x.pool.p.procs|)]
    ensures LinesOk(y)
  {
    forall w, j | 0 <= w < |y.pipes| && 0 <= j < |y.pipes[w]| ensures LineOk(y, w, y.pipes[w][j]) {
      assert LineOk(x, w, x.pipes[w][j]);
    }
  }

  lemma SpawnTrails(x: World, y: World, i: nat)
    requires TrailsOk(x) && |x.pipes| == |x.pool.p.procs|
    requires PoolSafety.Ready(x.pool, i, |x.pool.p.procs|) && x.pool.tasks[i].Committed?
    requires y == x.(pool := y.pool, pipes := x.pipes + [[]]) && y.pool.p.idle == x.pool.p.idle
    requires y.pool.tasks == x.pool.tasks[i := P.Spawned(|x.pool.p.procs|)]
    ensures TrailsOk(y)
  {
    assert Clean([]);
    hide Clean, NeedsClean;
  }

  lemma SpawnKeeps(x: World, i: nat)
    requires Housed(x) && PoolSafety.Ready(x.pool, i, |x.pool.p.procs|) && x.pool.tasks[i].Committed?
    ensures Housed(DoPoolStep(x, P.Spawn(i, true)))
  {
    var y := DoPoolStep(x, P.Spawn(i, true));
    assert |x.pipes| == |x.pool.p.procs|;
    hide TenantsOk, LeasedOk, FreedOk, LinesOk, TrailsOk, DoPoolStep, PoolSafety.Ready;
    assert y == x.(pool := y.pool, pipes := x.pipes + [[]]) && |y.pool.p.procs| == |x.pool.p.procs| + 1
        && y.pool.tasks == x.pool.tasks[i := P.Spawned(|x.pool.p.procs|)] && y.pool.p.idle == x.pool.p.idle by {
      SpawnAdds(x, i);
    }
    SpawnTenants(x, y, i);
    SpawnLines(x, y, i);
    SpawnTrails(x, y, i);
  }

  lemma SpawnAdds(x: World, i: nat)
    requires i < |x.pool.tasks| && x.pool.tasks[i].Committed?
    ensures
      var y := DoPoolStep(x, P.Spawn(i, true));
      && y == x.(pool := y.pool, pipes := x.pipes + [[]]) && |y.pool.p.procs| == |x.pool.p.procs| + 1
      && y.pool.tasks == x.pool.tasks[i := P.Spawned(|x.pool.p.procs|)] && y.pool.p.idle == x.pool.p.idle
  {
  }

  lemma FreeTenants(x: World, y: World, i: nat)
    requires TenantsOk(x) && LeasedOk(x) && FreedOk(x) && i < |x.pool.tasks| && x.pool.tasks[i].Releasing?
    requires y == x.(pool := y.pool, freed := x.freed + [i]) && |y.pool.p.procs| == |x.pool.p.procs|
    requires y.pool.tasks == x.pool.tasks[i := P.Freed(x.pool.tasks[i].w, x.pool.tasks[i].reusable)]
    ensures TenantsOk(y) && LeasedOk(y) && FreedOk(y)
  {
    forall n | 0 <= n < |x.lease| ensures TenantOk(y, n) {
      assert TenantOk(x, n);
    }
  }

  lemma FreeIsQuiet(x: World, i: nat)
    requires i < |x.pool.tasks| && x.pool.tasks[i].Releasing? && x.pool.p.slots > 0
    ensures
      var y := DoPoolStep(x, P.Free(i));
      && y == x.(pool := y.pool, freed := x.freed + [i]) && Quiet(x.pool, y.pool, i)
      && y.pool.tasks == x.pool.tasks[i := P.Freed(x.pool.tasks[i].w, x.pool.tasks[i].reusable)]
  {
  }

  lemma FreeKeeps(x: World, i: nat)
    requires Housed(x) && i < |x.pool.tasks| && x.pool.tasks[i].Releasing? && x.pool.p.slots > 0
    ensures Housed(DoPoolStep(x, P.Free(i)))
  {
    var y := DoPoolStep(x, P.Free(i));
    FreeIsQuiet(x, i);
    assert |y.pool.p.procs| == |x.pool.p.procs|;
    hide Quiet, DoPoolStep;
    var z := x.(pool := y.pool);
    FreeTenants(x, y, i);
    hide TenantsOk, LeasedOk, FreedOk;
    QuietLines(x, z, i);
    QuietTrails(x, z, i);
    assert LinesOk(y) && TrailsOk(y) by {
      hide LineOk, TrailOk, Clean;
      assert forall w, l :: LineOk(z, w, l) ==> LineOk(y, w, l) by { SameLines(z, y); }
    }
  }

  lemma SameLines(z: World, y: World)
    requires z.pool == y.pool && z.lease == y.lease
    ensures forall w, l :: LineOk(z, w, l) ==> LineOk(y, w, l)
  {
  }

  // ---------------------------------------------------------------------------
  // A call writes to its worker

  ghost predicate Speaks(x: World, y: World, i: nat, w: nat)
  {
    && PoolSafety.OthersLack(x.pool, i, w) && w !in x.pool.p.idle && y.pool.p.idle == x.pool.p.idle
    && i < |x.pool.tasks| == |y.pool.tasks| && y.pool.tasks == x.pool.tasks[i := y.pool.tasks[i]]
    && w < |x.pipes| == |y.pipes| && y.pipes == x.pipes[w := y.pipes[w]] && x.pipes[w] <= y.pipes[w]
    && x.lease <= y.lease
    && var t, u := x.pool.tasks[i], y.pool.tasks[i];
       && P.Worker(t) == Some(w) && (P.Worker(u) == Some(w) || P.Worker(u) == None)
       && (!Unheard(t) ==> !Unheard(u)) && (Closing(u) ==> Closing(t))
       && TrailOk(u, i, y.pipes[w]) && Tenancies(y.pipes[w])
       && forall j :: |x.pipes[w]| <= j < |y.pipes[w]| ==> LineOk(y, w, y.pipes[w][j])
  }

  lemma SpeakingLines(x: World, y: World, i: nat, w: nat)
    requires LinesOk(x) && Speaks(x, y, i, w)
    ensures LinesOk(y)
  {
    hide TrailOk, Tenancies, Unheard, Closing;
    forall v, j | 0 <= v < |y.pipes| && 0 <= j < |y.pipes[v]| ensures LineOk(y, v, y.pipes[v][j]) {
      if v != w || j < |x.pipes[v]| {
        assert LineOk(x, v, x.pipes[v][j]);
      }
    }
  }

  lemma SpeakingTrails(x: World, y: World, i: nat, w: nat)
    requires TrailsOk(x) && Speaks(x, y, i, w)
    ensures TrailsOk(y)
  {
    hide TrailOk, Tenancies, Unheard, Closing, LineOk, Clean;
  }

  lemma SpeakingKeeps(x: World, y: World, i: nat, w: nat)
    requires Housed(x) && Speaks(x, y, i, w) && TenantsOk(y) && LeasedOk(y) && FreedOk(y)
    ensures Housed(y)
  {
    SpeakingLines(x, y, i, w);
    SpeakingTrails(x, y, i, w);
    hide TrailOk, TenantsOk, LeasedOk, FreedOk, LinesOk, TrailsOk, LineOk;
  }

  /** Who has yet to write, or closes the pool, has not written to the worker it has. */
  lemma NotInThisPipe(x: World, i: nat, w: nat)
    requires LinesOk(x) && i < |x.pool.tasks| && P.Worker(x.pool.tasks[i]) == Some(w) && w < |x.pipes|
    requires Unheard(x.pool.tasks[i]) || Closing(x.pool.tasks[i])
    ensures forall j :: 0 <= j < |x.pipes[w]| ==> x.pipes[w][j].task != i
  {
    forall j | 0 <= j < |x.pipes[w]| ensures x.pipes[w][j].task != i {
      assert LineOk(x, w, x.pipes[w][j]);
    }
  }

  lemma OpeningPipe(x: World, i: nat, w: nat, l: Line)
    requires Housed(x) && i < |x.pool.tasks| && P.Worker(x.pool.tasks[i]) == Some(w) && w < |x.pipes|
    requires (Unheard(x.pool.tasks[i]) || Closing(x.pool.tasks[i])) && Opening(l) && l.task == i
    ensures Clean(x.pipes[w]) && Tenancies(x.pipes[w]) && Tenancies(x.pipes[w] + [l])
  {
    hide Tenancies, TenantsOk, LeasedOk, FreedOk;
    assert TrailOk(x.pool.tasks[i], i, x.pipes[w]);
    NotInThisPipe(x, i, w);
    ClosedPipes(x.pipes[w], l);
  }

  // ---------------------------------------------------------------------------
  // Steps of the pool alone

  /** The last word to a worker, whose owner then forgets it. */
  lemma ShutdownSpeaks(x: World, i: nat)
    requires Housed(x) && |x.pipes| == |x.pool.p.procs| && i < |x.pool.tasks| && x.pool.tasks[i].ShuttingDown?
    requires PoolSafety.Ready(x.pool, i, x.pool.tasks[i].w) && x.pool.tasks[i].w < |x.pipes|
    requires x.pool.tasks[i].w !in x.pool.p.idle
    ensures Speaks(x, DoPoolStep(x, P.Shutdown(i)), i, x.pool.tasks[i].w)
  {
    hide Housed, Tenancies, DoPoolStep;
    ShutdownMoves(x, i);
    OpeningPipe(x, i, x.pool.tasks[i].w, Line(i, Stopping));
  }

  lemma ShutdownMoves(x: World, i: nat)
    requires i < |x.pool.tasks| && x.pool.tasks[i].ShuttingDown?
    requires x.pool.tasks[i].w < |x.pipes| == |x.pool.p.procs|
    ensures
      var w, y := x.pool.tasks[i].w, DoPoolStep(x, P.Shutdown(i));
      && y == x.(pool := y.pool, pipes := y.pipes) && y.pool.tasks == x.pool.tasks[i := P.Draining]
      && y.pool.p.idle == x.pool.p.idle && |y.pool.p.procs| == |x.pool.p.procs|
      && (y.pipes == x.pipes || y.pipes == x.pipes[w := x.pipes[w] + [Line(i, Stopping)]])
  {
  }

  lemma ShutdownKeeps(x: World, i: nat)
    requires Housed(x) && i < |x.pool.tasks| && x.pool.tasks[i].ShuttingDown?
    requires PoolSafety.Ready(x.pool, i, x.pool.tasks[i].w)
    ensures Housed(DoPoolStep(x, P.Shutdown(i)))
  {
    var y, w := DoPoolStep(x, P.Shutdown(i)), x.pool.tasks[i].w;
    assert |x.pipes| == |x.pool.p.procs| && w < |x.pipes| && w !in x.pool.p.idle;
    ShutdownMoves(x, i);
    ShutdownSpeaks(x, i);
    hide DoPoolStep, LinesOk, TrailsOk, PipesOk, Speaks, PoolSafety.Ready;
    QuietTenants(x, x.(pool := y.pool), i);
    SameTenants(x.(pool := y.pool), y);
    hide TenantsOk, LeasedOk, FreedOk;
    SpeakingKeeps(x, y, i, w);
  }

  lemma SameTenants(z: World, y: World)
    requires TenantsOk(z) && LeasedOk(z) && FreedOk(z) && y == z.(pipes := y.pipes) && |y.pipes| == |z.pipes|
    ensures TenantsOk(y) && LeasedOk(y) && FreedOk(y)
  {
    forall n | 0 <= n < |y.lease| ensures TenantOk(y, n) {
      assert TenantOk(z, n);
    }
  }

  lemma PoolStepKeeps(x: World, a: P.Action)
    requires P.Inv(x.pool) && Housed(x)
    ensures Housed(DoPoolStep(x, a))
  {
    hide P.Inv, Housed, DoPoolStep, P.Apply, Quiet;
    var y := DoPoolStep(x, a);
    if Joint(a) {
      JointIsNothing(x, a);
    } else if a.NewCheckout? || a.ClosePool? {
      ArrivalSteps(x, a);
    } else if a.i >= |x.pool.tasks| {
      NobodysStep(x, a);
    } else if a.Spawn? && a.ok && x.pool.tasks[a.i].Committed? {
      PoolSafety.Stage(x.pool, a.i, |x.pool.p.procs|);
      SpawnKeeps(x, a.i);
    } else if a.Free? && x.pool.tasks[a.i].Releasing? && x.pool.p.slots > 0 {
      FreeKeeps(x, a.i);
    } else if a.Shutdown? && x.pool.tasks[a.i].ShuttingDown? {
      PoolSafety.Stage(x.pool, a.i, x.pool.tasks[a.i].w);
      ShutdownKeeps(x, a.i);
    } else {
      SilentSteps(x, a);
    }
  }

  lemma JointIsNothing(x: World, a: P.Action)
    requires Joint(a)
    ensures DoPoolStep(x, a) == x
  {
  }

  lemma ArrivalSteps(x: World, a: P.Action)
    requires Housed(x) && (a.NewCheckout? || a.ClosePool?)
    ensures Housed(DoPoolStep(x, a))
  {
    hide Housed;
    var y := DoPoolStep(x, a);
    if a.NewCheckout? {
      ArrivalKeeps(x, y, P.Asking);
    } else if !x.pool.p.closed {
      ArrivalKeeps(x, y, P.Draining);
    }
  }

  lemma NobodysStep(x: World, a: P.Action)
    requires !Joint(a) && !a.NewCheckout? && !a.ClosePool? && a.i >= |x.pool.tasks|
    ensures DoPoolStep(x, a) == x
  {
  }

  lemma SilentSteps(x: World, a: P.Action)
    requires Housed(x) && !Joint(a) && !a.NewCheckout? && !a.ClosePool? && a.i < |x.pool.tasks|
    requires !(a.Spawn? && a.ok && x.pool.tasks[a.i].Committed?)
    requires !(a.Free? && x.pool.tasks[a.i].Releasing? && x.pool.p.slots > 0)
    requires !(a.Shutdown? && x.pool.tasks[a.i].ShuttingDown?)
    ensures Housed(DoPoolStep(x, a))
  {
    var y := DoPoolStep(x, a);
    assert y == x.(pool := P.Apply(x.pool, a)) by { SilentWorld(x, a); }
    hide Housed, DoPoolStep, Quiet;
    if (a.Spawn? && a.ok) || a.Free? || a.Shutdown? {
      IdleSteps(x.pool, a);
    } else {
      hide P.Apply;
      if a.Decide? || a.Queue? || a.Kill? {
        ReleaseIsQuiet(x.pool, a);
      } else if a.Discard? || a.Drain? || a.Unlist? {
        ClosingIsQuiet(x.pool, a);
      } else {
        CheckoutIsQuiet(x.pool, a);
      }
      if P.Apply(x.pool, a) != x.pool {
        QuietKeeps(x, y, a.i);
      }
    }
  }

  lemma SilentWorld(x: World, a: P.Action)
    requires !Joint(a) && !a.NewCheckout? && !a.ClosePool? && a.i < |x.pool.tasks|
    requires !(a.Spawn? && a.ok && x.pool.tasks[a.i].Committed?)
    requires !(a.Free? && x.pool.tasks[a.i].Releasing? && x.pool.p.slots > 0)
    requires !(a.Shutdown? && x.pool.tasks[a.i].ShuttingDown?)
    ensures DoPoolStep(x, a) == x.(pool := P.Apply(x.pool, a))
  {
  }

  lemma IdleSteps(s: P.Sys, a: P.Action)
    requires (a.Spawn? && a.ok) || a.Free? || a.Shutdown?
    requires a.i < |s.tasks|
    requires a.Spawn? ==> !s.tasks[a.i].Committed?
    requires a.Free? ==> !s.tasks[a.i].Releasing? || s.p.slots == 0
    requires a.Shutdown? ==> !s.tasks[a.i].ShuttingDown?
    ensures P.Apply(s, a) == s
  {
  }

  // ---------------------------------------------------------------------------
  // A session opens, closes and is reset

  lemma OpenMoves(x: World, i: nat, ok: bool, survives: bool, settings: H.Action)
    requires i < |x.pool.tasks| && x.pool.tasks[i].Configuring? && x.pool.tasks[i].w < |x.pipes| == |x.pool.p.procs|
    ensures
      var w, y := x.pool.tasks[i].w, DoOpen(x, i, ok, survives, settings);
      y == x || (
        && y.pool.tasks == x.pool.tasks[i := if ok then P.Held(w) else P.Releasing(w, false)]
        && y.pool.p.idle == x.pool.p.idle && |y.pool.p.procs| == |x.pool.p.procs| && y.freed == x.freed
        && (y.pipes == x.pipes[w := x.pipes[w] + [Line(i, Configuring)]] || (y.pipes == x.pipes && !ok))
        && (if ok then settings.NewSession? && y.host == H.Apply(x.host, settings) && y.lease == x.lease + [i]
                       && y.desk == x.desk + [w]
            else y.host == x.host && y.lease == x.lease && y.desk == x.desk))
  {
    hide H.Apply;
  }

  lemma NewNode(sys: H.Sys, settings: H.Action)
    requires settings.NewSession?
    ensures
      var t := H.Apply(sys, settings);
      && |t.nodes| == |sys.nodes| + 1 && sys.nodes <= t.nodes
      && !t.nodes[|sys.nodes|].s.closed && !t.nodes[|sys.nodes|].resetSent
  {
  }

  /** The call had no session and has not been heard of by its worker. */
  lemma UnheardIsNew(x: World, i: nat)
    requires TenantsOk(x) && FreedOk(x) && i < |x.pool.tasks| && Unheard(x.pool.tasks[i])
    ensures i !in x.lease && i !in x.freed
  {
    forall n | 0 <= n < |x.lease| ensures x.lease[n] != i {
      assert TenantOk(x, n);
    }
  }

  lemma OpenTenants(x: World, y: World, i: nat, w: nat)
    requires TenantsOk(x) && LeasedOk(x) && FreedOk(x) && i < |x.pool.tasks| && x.pool.tasks[i] == P.Configuring(w)
    requires y.pool.tasks == x.pool.tasks[i := P.Held(w)] && |y.pool.p.procs| == |x.pool.p.procs|
    requires y.freed == x.freed && y.lease == x.lease + [i] && y.desk == x.desk + [w] && |y.pipes| == |x.pipes|
    requires |y.host.nodes| == |x.host.nodes| + 1 && x.host.nodes <= y.host.nodes
    requires !y.host.nodes[|x.host.nodes|].s.closed && !y.host.nodes[|x.host.nodes|].resetSent
    ensures TenantsOk(y) && LeasedOk(y) && FreedOk(y)
  {
    UnheardIsNew(x, i);
    forall n | 0 <= n < |y.lease| ensures TenantOk(y, n) {
      if n < |x.lease| {
        assert TenantOk(x, n);
      }
    }
  }

  lemma FailedTenants(x: World, y: World, i: nat, w: nat)
    requires TenantsOk(x) && LeasedOk(x) && FreedOk(x) && i < |x.pool.tasks| && x.pool.tasks[i] == P.Configuring(w)
    requires y.pool.tasks == x.pool.tasks[i := P.Releasing(w, false)] && |y.pool.p.procs| == |x.pool.p.procs|
    requires y == x.(pool := y.pool, pipes := y.pipes) && |y.pipes| == |x.pipes|
    ensures TenantsOk(y) && LeasedOk(y) && FreedOk(y)
  {
    UnheardIsNew(x, i);
    forall n | 0 <= n < |y.lease| ensures TenantOk(y, n) {
      assert TenantOk(x, n);
    }
  }

  lemma OpenSpeaks(x: World, y: World, i: nat, w: nat, u: P.Task)
    requires Housed(x) && PoolSafety.Ready(x.pool, i, w) && x.pool.tasks[i] == P.Configuring(w)
    requires u == P.Held(w) || u == P.Releasing(w, false)
    requires w < |x.pipes| == |y.pipes| && w !in x.pool.p.idle && y.pool.p.idle == x.pool.p.idle
    requires y.pool.tasks == x.pool.tasks[i := u] && x.lease <= y.lease
    requires y.pipes == x.pipes[w := x.pipes[w] + [Line(i, Configuring)]] || (y.pipes == x.pipes && !u.Held?)
    ensures Speaks(x, y, i, w)
  {
    hide Housed, Tenancies, Buried;
    OpeningPipe(x, i, w, Line(i, Configuring));
  }

  lemma OpenKeeps(x: World, i: nat, ok: bool, survives: bool, settings: H.Action)
    requires P.Inv(x.pool) && Housed(x)
    ensures Housed(DoOpen(x, i, ok, survives, settings))
  {
    var y := DoOpen(x, i, ok, survives, settings);
    if i < |x.pool.tasks| && x.pool.tasks[i].Configuring? {
      var w := x.pool.tasks[i].w;
      PoolSafety.Stage(x.pool, i, w);
      assert w < |x.pipes| == |x.pool.p.procs| && w !in x.pool.p.idle by { assert P.TaskOk(x.pool.p, x.pool.tasks[i]); }
      OpenMoves(x, i, ok, survives, settings);
      hide P.Inv, DoOpen, H.Apply, LinesOk, TrailsOk, PipesOk, Speaks, PoolSafety.Ready;
      if y != x {
        OpenSpeaks(x, y, i, w, if ok then P.Held(w) else P.Releasing(w, false));
        if ok {
          NewNode(x.host, settings);
          OpenTenants(x, y, i, w);
        } else {
          FailedTenants(x, y, i, w);
        }
        hide TenantsOk, LeasedOk, FreedOk;
        SpeakingKeeps(x, y, i, w);
      }
    }
  }

  /** All its lines on a worker come from the one session a call has. */
  lemma OneSession(x: World, n: nat, w: nat)
    requires Shape(x) && LinesOk(x) && n < |x.lease| && w < |x.pipes|
    ensures forall j :: 0 <= j < |x.pipes[w]| && x.pipes[w][j].task == x.lease[n] && x.pipes[w][j].what.Asking? ==>
      x.pipes[w][j].what.session == n
  {
    forall j | 0 <= j < |x.pipes[w]| && x.pipes[w][j].task == x.lease[n] && x.pipes[w][j].what.Asking?
      ensures x.pipes[w][j].what.session == n
    {
      assert LineOk(x, w, x.pipes[w][j]);
    }
  }

  /** A session that is not reset yet adds to its pipe, and only the last line may be its Reset. */
  lemma DriverSpeaks(x: World, y: World, n: nat, w: nat, u: P.Task, kinds: seq<K.Req>)
    requires Housed(x) && n < |x.lease| && w < |x.pipes| && PoolSafety.Ready(x.pool, x.lease[n], w)
    requires Drives(x.pool.tasks[x.lease[n]]) && P.Worker(x.pool.tasks[x.lease[n]]) == Some(w) && w !in x.pool.p.idle
    requires y == x.(host := y.host, pool := y.pool, pipes := Written(x.pipes, w, Lines(n, x.lease[n], kinds)))
    requires y.pool.tasks == x.pool.tasks[x.lease[n] := u] && y.pool.p.idle == x.pool.p.idle
    requires u == P.Held(w) || u == P.Resetting(w) || u == P.Releasing(w, false) || u == P.Releasing(w, true)
    requires Drives(u) ==> forall j :: 0 <= j < |kinds| ==> !kinds[j].kind.Reset?
    requires u.Releasing? ==> |kinds| <= 1 && (u.reusable ==> |kinds| == 1 && kinds[0].kind.Reset?)
    ensures Speaks(x, y, x.lease[n], w)
  {
    var i := x.lease[n];
    DriverPipe(x, n, w, kinds);
    DriverTrail(x.pipes[w], n, i, kinds, u);
    DriverLines(x, y, n, w, kinds);
    hide Housed, Tenancies, TrailOk, LineOk, Lines;
  }

  lemma DriverTrail(pipe: seq<Line>, n: nat, i: nat, kinds: seq<K.Req>, u: P.Task)
    requires Drives(u) || u.Releasing?
    requires pipe != [] && pipe[|pipe| - 1].task == i && !IsReset(pipe[|pipe| - 1])
    requires Drives(u) ==> forall j :: 0 <= j < |kinds| ==> !kinds[j].kind.Reset?
    requires u.Releasing? ==> |kinds| <= 1 && (u.reusable ==> |kinds| == 1 && kinds[0].kind.Reset?)
    ensures TrailOk(u, i, pipe + Lines(n, i, kinds))
  {
    if kinds == [] {
      assert pipe + Lines(n, i, kinds) == pipe;
    }
  }

  lemma DriverLines(x: World, y: World, n: nat, w: nat, kinds: seq<K.Req>)
    requires n < |x.lease| && w < |x.pipes| && x.lease[n] < |y.pool.tasks|
    requires y.lease == x.lease && y.pipes == Written(x.pipes, w, Lines(n, x.lease[n], kinds))
    requires Drives(y.pool.tasks[x.lease[n]]) || y.pool.tasks[x.lease[n]].Releasing?
    ensures forall j :: |x.pipes[w]| <= j < |y.pipes[w]| ==> LineOk(y, w, y.pipes[w][j])
  {
    hide Buried;
  }

  lemma DriverPipe(x: World, n: nat, w: nat, kinds: seq<K.Req>)
    requires Housed(x) && n < |x.lease| && w < |x.pipes| && x.lease[n] < |x.pool.tasks|
    requires Drives(x.pool.tasks[x.lease[n]]) && P.Worker(x.pool.tasks[x.lease[n]]) == Some(w)
    requires forall j :: 0 <= j < |kinds| - 1 ==> !kinds[j].kind.Reset?
    ensures Tenancies(x.pipes[w] + Lines(n, x.lease[n], kinds))
    ensures
      var pipe := x.pipes[w];
      pipe != [] && pipe[|pipe| - 1].task == x.lease[n] && !IsReset(pipe[|pipe| - 1])
  {
    var i, pipe, lines := x.lease[n], x.pipes[w], Lines(n, x.lease[n], kinds);
    assert TrailOk(x.pool.tasks[i], i, pipe) && Tenancies(pipe);
    OneSession(x, n, w);
    hide Housed, Tenancies;
    MoreLines(pipe, lines, n, i);
  }

  /** A step of session n, of its call, and of what is in its pipe. */
  lemma SessionKeeps(x: World, y: World, n: nat, u: P.Task, kinds: seq<K.Req>)
    requires P.Inv(x.pool) && Housed(x) && n < |x.host.nodes| && n < |x.lease| && n < |x.desk|
    requires !x.host.nodes[n].resetSent && x.lease[n] < |x.pool.tasks|
    requires y == x.(host := y.host, pool := y.pool,
                     pipes := Written(x.pipes, x.desk[n], Lines(n, x.lease[n], kinds)))
    requires y.pool.tasks == x.pool.tasks[x.lease[n] := u] && y.pool.p.idle == x.pool.p.idle
    requires |y.pool.p.procs| == |x.pool.p.procs| && |y.host.nodes| == |x.host.nodes|
    requires forall m :: 0 <= m < |x.host.nodes| && m != n ==>
      y.host.nodes[m].s.closed == x.host.nodes[m].s.closed && y.host.nodes[m].resetSent == x.host.nodes[m].resetSent
    requires
      var nd, w := y.host.nodes[n], x.desk[n];
      if !nd.s.closed then u == P.Held(w) && !nd.resetSent
      else if !nd.resetSent then u == P.Resetting(w)
      else u == P.Releasing(w, false) || u == P.Releasing(w, true)
    requires Drives(u) ==> forall j :: 0 <= j < |kinds| ==> !kinds[j].kind.Reset?
    requires u.Releasing? ==> |kinds| <= 1 && (u.reusable ==> |kinds| == 1 && kinds[0].kind.Reset?)
    ensures Housed(y)
  {
    hide P.Inv, LinesOk, TrailsOk, PipesOk, PoolSafety.Ready, Speaks;
    TenantDrives(x, n);
    DriverSpeaks(x, y, n, x.desk[n], u, kinds);
    MoveTenants(x, y, n, u);
    hide TenantsOk, LeasedOk, FreedOk;
    SpeakingKeeps(x, y, x.lease[n], x.desk[n]);
  }

  lemma NothingWritten(pipes: seq<seq<Line>>, w: nat, n: nat, task: nat)
    ensures Written(pipes, w, Lines(n, task, [])) == pipes
  {
    assert w < |pipes| ==> pipes[w] + Lines(n, task, []) == pipes[w];
  }

  /** The worker and call of a session that is not reset yet. */
  lemma TenantDrives(x: World, n: nat)
    requires P.Inv(x.pool) && TenantsOk(x) && n < |x.lease| && !x.host.nodes[n].resetSent
    ensures
      var i, w := x.lease[n], x.desk[n];
      && i < |x.pool.tasks| && x.pool.tasks[i] == (if x.host.nodes[n].s.closed then P.Resetting(w) else P.Held(w))
      && w < |x.pipes| && w !in x.pool.p.idle && PoolSafety.Ready(x.pool, i, w)
  {
    assert TenantOk(x, n);
    assert P.TaskOk(x.pool.p, x.pool.tasks[x.lease[n]]);
    PoolSafety.Stage(x.pool, x.lease[n], x.desk[n]);
  }

  ghost predicate SameStatus(a: H.Sys, b: H.Sys)
  {
    && |a.nodes| == |b.nodes|
    && forall n :: 0 <= n < |a.nodes| ==>
         b.nodes[n].s.closed == a.nodes[n].s.closed && b.nodes[n].resetSent == a.nodes[n].resetSent
  }

  /** The session moves on, its call with it. */
  lemma MoveTenants(x: World, y: World, n: nat, u: P.Task)
    requires TenantsOk(x) && LeasedOk(x) && FreedOk(x) && n < |x.lease|
    requires y.lease == x.lease && y.desk == x.desk && y.freed == x.freed && |y.pipes| == |x.pipes|
    requires |y.pool.p.procs| == |x.pool.p.procs| && y.pool.tasks == x.pool.tasks[x.lease[n] := u]
    requires !x.host.nodes[n].resetSent && |y.host.nodes| == |x.host.nodes|
    requires forall m :: 0 <= m < |x.host.nodes| && m != n ==>
      y.host.nodes[m].s.closed == x.host.nodes[m].s.closed && y.host.nodes[m].resetSent == x.host.nodes[m].resetSent
    requires
      var nd, w := y.host.nodes[n], x.desk[n];
      if !nd.s.closed then u == P.Held(w) && !nd.resetSent
      else if !nd.resetSent then u == P.Resetting(w)
      else u.Releasing? && u.w == w
    ensures TenantsOk(y) && LeasedOk(y) && FreedOk(y)
  {
    assert TenantOk(x, n);
    forall m | 0 <= m < |y.lease| ensures TenantOk(y, m) {
      assert TenantOk(x, m);
    }
  }

  lemma CloseKeeps(x: World, n: nat)
    requires P.Inv(x.pool) && SessionInvariant.Inv(x.host) && Housed(x)
    ensures Housed(DoClose(x, n))
  {
    hide P.Inv, SessionInvariant.Inv, H.Apply, P.Apply, Housed, Written, PoolSafety.Ready;
    if n < |x.host.nodes| && n < |x.lease| && !x.host.nodes[n].s.closed && !x.host.nodes[n].s.inTurn {
      assert !x.host.nodes[n].resetSent by { OpenIsUnreset(x.host, n); }
      assert TenantsOk(x) by { TenantsHoused(x); }
      TenantDrives(x, n);
      ClosingNode(x.host, n);
      ClosingCall(x.pool, x.lease[n]);
      NothingWritten(x.pipes, x.desk[n], n, x.lease[n]);
      hide TenantsOk;
      SessionKeeps(x, DoClose(x, n), n, P.Resetting(x.desk[n]), []);
    }
  }

  lemma TenantsHoused(x: World)
    requires Housed(x)
    ensures TenantsOk(x) && LinesOk(x) && |x.lease| == |x.desk| == |x.host.nodes| && |x.pipes| == |x.pool.p.procs|
  {
  }

  lemma OpenIsUnreset(sys: H.Sys, n: nat)
    requires SessionInvariant.Inv(sys) && n < |sys.nodes| && !sys.nodes[n].s.closed
    ensures !sys.nodes[n].resetSent
  {
    assert SessionInvariant.NodeOk(sys, n);
  }

  lemma ClosingNode(sys: H.Sys, n: nat)
    requires n < |sys.nodes| && !sys.nodes[n].s.closed && !sys.nodes[n].s.inTurn
    ensures
      var b := H.Apply(sys, H.CloseBegin(n));
      && |b.nodes| == |sys.nodes| && b.nodes[n].s.closed && b.nodes[n].resetSent == sys.nodes[n].resetSent
      && forall m :: 0 <= m < |sys.nodes| && m != n ==> b.nodes[m] == sys.nodes[m]
  {
  }

  lemma ClosingCall(s: P.Sys, i: nat)
    requires i < |s.tasks| && s.tasks[i].Held?
    ensures
      var r := P.Apply(s, P.CloseSession(i));
      r.tasks == s.tasks[i := P.Resetting(s.tasks[i].w)] && r.p == s.p
  {
  }

  lemma ResettingNode(sys: H.Sys, n: nat)
    requires n < |sys.nodes| && sys.nodes[n].s.closed && !sys.nodes[n].resetSent
    ensures
      var b := H.Apply(sys, H.CloseReset(n));
      && |b.nodes| == |sys.nodes| && b.nodes[n].s.closed && b.nodes[n].resetSent
      && (forall m :: 0 <= m < |sys.nodes| && m != n ==> b.nodes[m] == sys.nodes[m])
      && Added(sys.log, b.log) == if sys.nodes[n].vm.dead then [] else [K.Req(n, K.ReqKind.Reset, 0, 0, 0)]
  {
  }

  lemma ResettingCall(s: P.Sys, i: nat, ok: bool, survives: bool)
    requires i < |s.tasks| && s.tasks[i].Resetting? && s.tasks[i].w < |s.p.procs|
    requires ok ==> survives && !s.p.procs[s.tasks[i].w].dead
    ensures
      var r := P.Apply(s, P.ResetWorker(i, ok, survives));
      && r.tasks == s.tasks[i := P.Releasing(s.tasks[i].w, ok)]
      && r.p.idle == s.p.idle && |r.p.procs| == |s.p.procs|
  {
  }

  lemma ResetKeeps(x: World, n: nat, ok: bool, survives: bool)
    requires P.Inv(x.pool) && Housed(x)
    ensures Housed(DoResetWorker(x, n, ok, survives))
  {
    hide P.Inv, H.Apply, P.Apply, Housed, Written, PoolSafety.Ready, Added;
    if n < |x.host.nodes| && n < |x.lease| && n < |x.desk| && x.desk[n] < |x.pool.p.procs|
       && x.host.nodes[n].s.closed && !x.host.nodes[n].resetSent
       && (ok ==> survives && !x.host.nodes[n].vm.dead && !x.pool.p.procs[x.desk[n]].dead) {
      assert TenantsOk(x) by { TenantsHoused(x); }
      TenantDrives(x, n);
      ResettingNode(x.host, n);
      ResettingCall(x.pool, x.lease[n], ok, survives);
      hide TenantsOk;
      SessionKeeps(x, DoResetWorker(x, n, ok, survives), n, P.Releasing(x.desk[n], ok),
                   Added(x.host.log, H.Apply(x.host, H.CloseReset(n)).log));
    }
  }

  // ---------------------------------------------------------------------------
  // Every other step of a session

  /** Neither opens, closes nor resets a session. */
  predicate Ordinary(b: H.Action)
  {
    !b.NewSession? && !b.CloseBegin? && !b.CloseReset?
  }

  lemma TurnStatus(sys: H.Sys, n: nat, reply: K.Reply)
    ensures SameStatus(sys, H.DoBeginFeed(sys, n)) && SameStatus(sys, H.DoSend(sys, n))
    ensures SameStatus(sys, H.DoReceive(sys, n, reply))
  {
    hide K.MayExecute, H.TurnObeys;
    forall e: K.Event, s: K.Sess ensures K.Observe(s, e).closed == s.closed {
      K.ObserveFrame(s, e);
    }
    hide K.Observe;
  }

  lemma DeliverStatus(sys: H.Sys, n: nat, r: nat, e: K.Event, aborts: seq<K.Reply>)
    requires n < |sys.nodes| && r < |sys.runs|
    ensures SameStatus(sys, H.Deliver(sys, K.Progress(H.CtxOf(sys, n, r), e, aborts)))
    ensures SameStatus(sys, H.Deliver(sys, K.NotCompleted(K.Progress(H.CtxOf(sys, n, r), e, aborts))))
  {
    hide K.Progress;
    SessionObjects.ProgressStays(H.CtxOf(sys, n, r), e, aborts);
  }

  lemma FinishStatus(sys: H.Sys, n: nat, aborts: seq<K.Reply>)
    requires n < |sys.nodes| && sys.nodes[n].turn.Replied? && sys.nodes[n].turn.run < |sys.runs|
    ensures SameStatus(sys, H.DoFinish(sys, n, aborts))
  {
    hide K.Progress, H.Deliver;
    var nd := sys.nodes[n];
    if nd.turn.event.Some? {
      var left := sys.(nodes := sys.nodes[n := nd.(s := nd.s.(inTurn := false), turn := H.NoTurn)]);
      DeliverStatus(left, n, nd.turn.run, nd.turn.event.value, aborts);
    }
  }

  lemma LoadStatus(sys: H.Sys, n: nat, o: nat, reply: K.Reply, aborts: seq<K.Reply>)
    requires n < |sys.nodes| && o < |sys.dumps| && sys.dumps[o].duration >= 0
    ensures SameStatus(sys, H.DoLoad(sys, n, sys.dumps[o], o, reply, aborts))
  {
    hide K.Progress, H.Deliver, H.Restores, K.RestoredDuration, K.Observe;
    if reply.Answer? {
      var told, r := SessionSafety.Told(sys, n, o, reply.e, reply.vm), |sys.runs|;
      K.ObserveFrame(SessionSafety.Restoring(sys, n, sys.dumps[o], o).nodes[n].s, reply.e);
      DeliverStatus(told, n, r, reply.e, aborts);
    }
  }

  lemma SnapshotStatus(sys: H.Sys, b: H.Action)
    requires b.Claim? || b.Drop? || b.BeginDump? || b.BeginResume? || b.Abandon?
    ensures SameStatus(sys, H.Apply(sys, b))
  {
    hide H.Active;
  }

  lemma TakeStatus(sys: H.Sys, n: nat, answer: H.DumpReply, suspensions: U64, lost: nat, from: Option<nat>)
    requires n < |sys.nodes|
    ensures SameStatus(sys, H.TakeDump(sys, n, answer, suspensions, lost, from))
  {
  }

  lemma DumpStatus(sys: H.Sys, b: H.Action)
    requires b.DumpSnapshot? || b.DumpSession? || b.InstallDeps?
    ensures SameStatus(sys, H.Apply(sys, b))
  {
    hide SameStatus, H.DoDumpSnapshot, H.DoDumpSession, H.DoInstallDeps;
    match b {
      case DumpSnapshot(k, answer) => SnapshotDumpStatus(sys, k, answer);
      case DumpSession(n, answer) => SessionDumpStatus(sys, n, answer);
      case InstallDeps(n, survives) => InstallStatus(sys, n, survives);
    }
  }

  lemma SnapshotDumpStatus(sys: H.Sys, k: nat, answer: H.DumpReply)
    ensures SameStatus(sys, H.DoDumpSnapshot(sys, k, answer))
  {
    hide H.TakeDump;
    if k < |sys.snaps| && k in sys.dumping && H.Active(sys, k) {
      var locked, r := sys.(dumping := sys.dumping - multiset{k}), sys.snaps[k].run;
      TakeStatus(locked, sys.runs[r].session, answer, sys.runs[r].suspensions, sys.runs[r].lost, Some(r));
    }
  }

  lemma SessionDumpStatus(sys: H.Sys, n: nat, answer: H.DumpReply)
    ensures SameStatus(sys, H.DoDumpSession(sys, n, answer))
  {
    hide H.TakeDump;
    if n < |sys.nodes| {
      TakeStatus(sys, n, answer, 0, if sys.nodes[n].vm.suspended then |sys.nodes[n].vm.hist| else 0, None);
    }
  }

  lemma InstallStatus(sys: H.Sys, n: nat, survives: bool)
    ensures SameStatus(sys, H.DoInstallDeps(sys, n, survives))
  {
  }

  lemma StatusStays(sys: H.Sys, b: H.Action)
    requires Ordinary(b)
    ensures SameStatus(sys, H.Apply(sys, b))
  {
    hide SameStatus, H.DoFinish, H.DoLoad, H.DoBeginFeed, H.DoSend, H.DoReceive;
    assert SameStatus(sys, sys) by { NothingChanges(sys); }
    match b {
      case BeginFeed(n) => TurnStatus(sys, n, K.Crash);
      case Send(n) => TurnStatus(sys, n, K.Crash);
      case Receive(n, reply) => TurnStatus(sys, n, reply);
      case Finish(n, aborts) =>
        if n < |sys.nodes| && sys.nodes[n].turn.Replied? && sys.nodes[n].turn.run < |sys.runs| {
          FinishStatus(sys, n, aborts);
        }
      case LoadDump(n, d, reply, aborts) =>
        if n < |sys.nodes| && d < |sys.dumps| && sys.dumps[d].duration >= 0 {
          LoadStatus(sys, n, d, reply, aborts);
        }
      case DumpSnapshot(_, _) => DumpStatus(sys, b);
      case DumpSession(_, _) => DumpStatus(sys, b);
      case InstallDeps(_, _) => DumpStatus(sys, b);
      case _ => SnapshotStatus(sys, b);
    }
  }

  lemma NothingChanges(sys: H.Sys)
    ensures SameStatus(sys, sys)
  {
  }

  /** A closed session asks nothing more by itself. */
  lemma ClosedIsSilent(sys: H.Sys, b: H.Action, n: nat)
    requires SessionInvariant.Inv(sys) && n < |sys.nodes| && sys.nodes[n].s.closed
    requires Ordinary(b) && SessionPending.Concerns(sys, b) == n
    ensures H.Apply(sys, b).log == sys.log
  {
    assert SessionPending.Stuck(sys, n) by { assert SessionInvariant.NodeOk(sys, n); }
    hide SessionInvariant.Inv, SessionPending.Stuck;
    if b.BeginFeed? || b.Send? || b.Receive? || b.Finish? || b.DumpSession? || b.LoadDump? || b.InstallDeps? {
      SessionPending.StuckRefuses(sys, b, n);
    } else {
      ClosedSnapshots(sys, b, n);
    }
  }

  lemma ClosedSnapshots(sys: H.Sys, b: H.Action, n: nat)
    requires n < |sys.nodes| && sys.nodes[n].s.closed && SessionPending.Concerns(sys, b) == n
    requires b.Claim? || b.Drop? || b.BeginDump? || b.BeginResume? || b.Abandon? || b.DumpSnapshot?
    ensures H.Apply(sys, b).log == sys.log
  {
    hide H.TakeDump;
  }

  /** What an action adds to the log is asked by the session it concerns, and is no Reset. */
  lemma AsksForItself(sys: H.Sys, b: H.Action)
    requires SessionInvariant.Inv(sys) && Ordinary(b)
    ensures
      var t, n := H.Apply(sys, b), SessionPending.Concerns(sys, b);
      && sys.log <= t.log && SameStatus(sys, t)
      && (n >= |sys.nodes| ==> t.log == sys.log)
      && (n < |sys.nodes| && sys.nodes[n].s.closed ==> t.log == sys.log)
      && forall j :: |sys.log| <= j < |t.log| ==> t.log[j].session == n && !t.log[j].kind.Reset?
  {
    var t, n := H.Apply(sys, b), SessionPending.Concerns(sys, b);
    StatusStays(sys, b);
    SessionPending.ActionElsewhere(sys, b);
    SessionSafety.ActionKeeps(sys, b);
    assert SessionInvariant.LogOk(t);
    if n < |sys.nodes| && sys.nodes[n].s.closed {
      ClosedIsSilent(sys, b, n);
    } else {
      assert n < |sys.nodes| ==> !sys.nodes[n].resetSent by {
        if n < |sys.nodes| {
          OpenIsUnreset(sys, n);
        }
      }
      hide SessionInvariant.Inv, H.Apply, SessionPending.Concerns;
    }
  }

  lemma UsingCall(s: P.Sys, i: nat, survives: bool)
    ensures
      var r := P.Apply(s, P.Use(i, survives));
      && r.tasks == s.tasks && r.p.idle == s.p.idle && |r.p.procs| == |s.p.procs|
      && (i < |s.tasks| && !s.tasks[i].Held? ==> r == s)
  {
  }

  /** Only statuses of sessions matter to who has which worker. */
  lemma HostOnlyKeeps(x: World, y: World)
    requires Housed(x) && y == x.(host := y.host) && SameStatus(x.host, y.host)
    ensures Housed(y)
  {
    forall n | 0 <= n < |x.lease| ensures TenantOk(y, n) {
      assert TenantOk(x, n);
    }
    hide TenantOk, Clean, Tenancies;
    SameLines(x, y);
    hide LineOk;
  }

  /** A session whose release has begun leaves its call alone. */
  lemma ResetIsNotHeld(x: World, n: nat)
    requires TenantsOk(x) && n < |x.lease| && x.host.nodes[n].s.closed
    ensures x.lease[n] < |x.pool.tasks| && !x.pool.tasks[x.lease[n]].Held?
  {
    assert TenantOk(x, n);
  }

  lemma SessionStepKeeps(x: World, b: H.Action)
    requires P.Inv(x.pool) && SessionInvariant.Inv(x.host) && Housed(x)
    ensures Housed(DoSessionStep(x, b))
  {
    hide P.Inv, SessionInvariant.Inv, H.Apply, P.Apply, SessionPending.Concerns, Housed, SameStatus, Written;
    if Ordinary(b) {
      var t, n := H.Apply(x.host, b), SessionPending.Concerns(x.host, b);
      AsksForItself(x.host, b);
      TenantsHoused(x);
      assert |t.nodes| == |x.host.nodes| by { SameCount(x.host, t); }
      hide TenantsOk, LinesOk;
      if n < |x.host.nodes| && !x.host.nodes[n].s.closed {
        OpenStepKeeps(x, b);
      } else {
        var y := DoSessionStep(x, b);
        if n < |x.host.nodes| {
          UsingCall(x.pool, x.lease[n], !t.nodes[n].vm.dead);
          assert x.lease[n] < |x.pool.tasks| && !x.pool.tasks[x.lease[n]].Held? by {
            TenantsHoused(x);
            ResetIsNotHeld(x, n);
          }
          NothingWritten(x.pipes, x.desk[n], n, x.lease[n]);
        }
        assert y == x.(host := t);
        HostOnlyKeeps(x, y);
      }
    }
  }

  lemma SameCount(a: H.Sys, b: H.Sys)
    requires SameStatus(a, b)
    ensures |a.nodes| == |b.nodes|
    ensures forall n :: 0 <= n < |a.nodes| ==>
      b.nodes[n].s.closed == a.nodes[n].s.closed && b.nodes[n].resetSent == a.nodes[n].resetSent
  {
  }

  lemma OpenStepKeeps(x: World, b: H.Action)
    requires P.Inv(x.pool) && SessionInvariant.Inv(x.host) && Housed(x) && Ordinary(b)
    requires
      var n := SessionPending.Concerns(x.host, b);
      n < |x.host.nodes| && !x.host.nodes[n].s.closed
    ensures Housed(DoSessionStep(x, b))
  {
    hide P.Inv, SessionInvariant.Inv, H.Apply, P.Apply, SessionPending.Concerns, Housed, SameStatus, Written;
    var t, n := H.Apply(x.host, b), SessionPending.Concerns(x.host, b);
    AsksForItself(x.host, b);
    OpenIsUnreset(x.host, n);
    SameCount(x.host, t);
    TenantsHoused(x);
    TenantDrives(x, n);
    hide TenantsOk, LinesOk, PoolSafety.Ready;
    UsingCall(x.pool, x.lease[n], !t.nodes[n].vm.dead);
    SessionKeeps(x, DoSessionStep(x, b), n, P.Held(x.desk[n]), Added(x.host.log, t.log));
  }

  // ---------------------------------------------------------------------------
  // Runs

  lemma PoolSideKeeps(x: World, a: Action)
    requires P.Inv(x.pool)
    ensures P.Inv(Apply(x, a).pool)
  {
    hide P.Inv, P.Apply, H.Apply, Housed, SessionPending.Concerns;
    forall b ensures P.Inv(P.Apply(x.pool, b)) {
      PoolSafety.ActionKeeps(x.pool, b);
    }
  }

  lemma HostSideKeeps(x: World, a: Action)
    requires SessionInvariant.Inv(x.host)
    ensures SessionInvariant.Inv(Apply(x, a).host)
  {
    hide SessionInvariant.Inv, P.Apply, H.Apply, Housed, SessionPending.Concerns;
    forall b ensures SessionInvariant.Inv(H.Apply(x.host, b)) {
      SessionSafety.ActionKeeps(x.host, b);
    }
  }

  lemma ActionKeeps(x: World, a: Action)
    requires Inv(x)
    ensures Inv(Apply(x, a))
  {
    hide P.Inv, SessionInvariant.Inv, Housed, DoPoolStep, DoOpen, DoSessionStep, DoClose, DoResetWorker;
    match a {
      case PoolStep(b) => PoolStepKeeps(x, b);
      case Open(i, ok, survives, settings) => OpenKeeps(x, i, ok, survives, settings);
      case SessionStep(b) => SessionStepKeeps(x, b);
      case Close(n) => CloseKeeps(x, n);
      case ResetWorker(n, ok, survives) => ResetKeeps(x, n, ok, survives);
    }
    hide Apply;
    PoolSideKeeps(x, a);
    HostSideKeeps(x, a);
  }

  lemma StartIsOk(x: World)
    requires Start(x)
    ensures Inv(x)
  {
    hide P.Inv, SessionInvariant.Inv, Housed, PoolSafety.Initial;
    PoolSafety.InitialIsOk(x.pool);
    SessionSafety.EmptyIsOk();
    StartIsHoused(x);
  }

  lemma StartIsHoused(x: World)
    requires Start(x)
    ensures Housed(x)
  {
    assert x.pool.tasks == [];
    assert Clean([]) && Tenancies([]);
    hide PoolSafety.Initial, Tenancies, Clean;
  }

  lemma {:induction false} RunKeeps(x: World, actions: seq<Action>)
    requires Inv(x)
    ensures Inv(Execute(x, actions))
    decreases |actions|
  {
    hide Inv, Apply;
    if actions != [] {
      RunKeeps(x, actions[..|actions| - 1]);
      ActionKeeps(Execute(x, actions[..|actions| - 1]), actions[|actions| - 1]);
    }
  }
}
