/**
 The worker pool: slot tokens, the queue of idle workers, the set of registered ones, and the
 pool's operations when nothing interrupts them. PoolSystem interleaves their steps.
 */
module Pool {
  import opened Common

  /** What the host last heard from a worker: nothing, some session's traffic, or a clean reset. */
  datatype Rest = Unused | InUse | ResetOk

  datatype Proc = Proc(dead: bool, checkouts: nat, rest: Rest)

  /** Workers are named by their place in `procs`; a limit of zero is no limit. */
  datatype Shared = Shared(
    max: nat, limit: nat, closed: bool, slots: nat, idle: seq<nat>, workers: set<nat>, procs: seq<Proc>)

  predicate WornOut(p: Proc, limit: nat)
  {
    limit > 0 && p.checkouts >= limit
  }

  /** Fit to be queued: alive, with checkouts left, and in the state a new session expects. */
  predicate Rested(p: Proc, limit: nat)
  {
    !p.dead && !WornOut(p, limit) && !p.rest.InUse? && (p.rest.Unused? ==> p.checkouts == 0)
  }

  ghost predicate Distinct(s: seq<nat>)
  {
    forall i, j :: 0 <= i < j < |s| ==> s[i] != s[j]
  }

  ghost function Elements(s: seq<nat>): set<nat>
  {
    set x | x in s
  }

  lemma {:induction false} ElementsCount(s: seq<nat>)
    requires Distinct(s)
    ensures |Elements(s)| == |s|
  {
    if s == [] {
      assert Elements(s) == {};
    } else {
      var init := s[..|s| - 1];
      ElementsCount(init);
      assert s == init + [s[|s| - 1]];
      assert Elements(s) == Elements(init) + {s[|s| - 1]};
      assert s[|s| - 1] !in Elements(init);
    }
  }

  // ---------------------------------------------------------------------------
  // What one lock window or channel operation does

  function Started(p: Shared): Shared
  {
    p.(procs := p.procs + [Proc(false, 0, Unused)])
  }

  function Killed(p: Shared, w: nat): Shared
    requires w < |p.procs|
  {
    p.(procs := p.procs[w := p.procs[w].(dead := true)])
  }

  /** Configuring a worker for a session counts as a checkout once it has succeeded. */
  function Configured(p: Shared, w: nat, ok: bool, survives: bool): Shared
    requires w < |p.procs|
  {
    var q := p.procs[w];
    p.(procs := p.procs[w := Proc(q.dead || !survives, if ok then q.checkouts + 1 else q.checkouts, InUse)])
  }

  function Enlisted(p: Shared, w: nat): Shared { p.(workers := p.workers + {w}) }

  function Unlisted(p: Shared, w: nat): Shared { p.(workers := p.workers - {w}) }

  function Queued(p: Shared, w: nat): Shared { p.(idle := p.idle + [w]) }

  function Popped(p: Shared): Shared
    requires p.idle != []
  {
    p.(idle := p.idle[1..])
  }

  /** Decides under the lock whether a returned worker is used again. */
  predicate Keeps(p: Shared, w: nat, reusable: bool)
    requires w < |p.procs|
  {
    reusable && !p.closed && !WornOut(p.procs[w], p.limit) && w in p.workers
  }

  // ---------------------------------------------------------------------------
  // The pool when nothing is in progress

  /** The queue holds distinct rested workers that no session has. */
  ghost predicate QueueOk(p: Shared, out: set<nat>)
  {
    && Distinct(p.idle)
    && (forall w :: w in p.idle ==> w !in out && w in p.workers)
    && (forall w :: w in p.workers ==> w < |p.procs|)
    && (forall w :: w in p.idle && w < |p.procs| ==> Rested(p.procs[w], p.limit))
  }

  /** No worker is lost: what is registered is queued or out, and nothing else is alive. */
  ghost predicate NoneLost(p: Shared, out: set<nat>)
  {
    && out <= p.workers
    && (forall w :: w in p.workers ==> w in p.idle || w in out)
    && (forall w :: 0 <= w < |p.procs| && w !in p.workers ==> p.procs[w].dead)
  }

  ghost predicate Quiet(p: Shared, out: set<nat>)
  {
    QueueOk(p, out) && NoneLost(p, out) && p.slots == |out| && |p.idle| + p.slots <= p.max
  }

  /** Registered workers never outnumber MaxProcesses, as long as operations do not overlap. */
  lemma QuietPoolIsBounded(p: Shared, out: set<nat>)
    requires Quiet(p, out)
    ensures |p.workers| <= p.max
  {
    ElementsCount(p.idle);
    assert p.workers <= Elements(p.idle) + out;
    SubsetCount(p.workers, Elements(p.idle) + out);
  }

  lemma {:induction false} SubsetCount(a: set<nat>, b: set<nat>)
    requires a <= b
    ensures |a| <= |b|
  {
    if a != {} {
      var x :| x in a;
      SubsetCount(a - {x}, b - {x});
    }
  }

  lemma TakeIdleKeeps(p: Shared, out: set<nat>)
    requires Quiet(p, out) && p.idle != []
    ensures p.idle[0] !in out && p.idle[0] in p.workers && p.idle[0] < |p.procs|
    ensures Quiet(Popped(p).(slots := p.slots + 1), out + {p.idle[0]})
  {
    assert p.idle == [p.idle[0]] + p.idle[1..];
  }

  lemma StartKeeps(p: Shared, out: set<nat>)
    requires Quiet(p, out) && p.idle == [] && p.slots < p.max
    ensures |p.procs| !in out
    ensures Quiet(Enlisted(Started(p), |p.procs|).(slots := p.slots + 1), out + {|p.procs|})
  {
  }

  lemma ConfigureKeeps(p: Shared, out: set<nat>, w: nat, ok: bool, survives: bool)
    requires Quiet(p, out) && w in out && w < |p.procs|
    ensures Quiet(Configured(p, w, ok, survives), out)
  {
  }

  lemma RetireKeeps(p: Shared, out: set<nat>, w: nat)
    requires Quiet(p, out) && w in out
    ensures w < |p.procs| && p.slots > 0
    ensures Quiet(Killed(Unlisted(p.(slots := p.slots - 1), w), w), out - {w})
  {
  }

  lemma RecycleKeeps(p: Shared, out: set<nat>, w: nat)
    requires Quiet(p, out) && w in out && w < |p.procs| && Rested(p.procs[w], p.limit) && p.slots > 0
    ensures Quiet(Queued(p.(slots := p.slots - 1), w), out - {w})
  {
  }

  lemma PrewarmKeeps(p: Shared, out: set<nat>)
    requires Quiet(p, out) && |p.idle| + p.slots < p.max
    ensures Quiet(Queued(Enlisted(Started(p), |p.procs|), |p.procs|), out)
  {
    assert |p.procs| !in out;
  }

  lemma ShutdownKeeps(p: Shared, out: set<nat>)
    requires Quiet(p, out) && p.idle != []
    ensures p.idle[0] < |p.procs| && Quiet(Killed(Unlisted(Popped(p), p.idle[0]), p.idle[0]), out)
    ensures p.idle[0] !in out
  {
    var w := p.idle[0];
    assert p.idle == [w] + p.idle[1..];
    assert w in p.idle && w in p.workers;
    assert w !in p.idle[1..];
  }

  // ---------------------------------------------------------------------------
  // The pool as an object; its operations here run one at a time

  class Monty {
    const max: nat
    const limit: nat
    var closed: bool
    var slots: nat
    var idle: seq<nat>
    var workers: set<nat>
    var procs: seq<Proc>
    /** The workers sessions hold. */
    ghost var out: set<nat>

    ghost function Abs(): Shared
      reads this
    {
      Shared(max, limit, closed, slots, idle, workers, procs)
    }

    ghost predicate Valid()
      reads this
    {
      Quiet(Abs(), out) && (closed ==> idle == [])
    }

    constructor (max: nat, limit: nat)
      requires max >= 1
      ensures Valid() && Abs() == Shared(max, limit, false, 0, [], {}, []) && out == {}
    {
      this.max, this.limit := max, limit;
      closed, slots, idle, workers, procs, out := false, 0, [], {}, [], {};
    }

    /** Starts a process and registers it, unless the pool has been closed meanwhile. */
    method StartWorker(spawns: bool) returns (w: Option<nat>)
      modifies this`workers, this`procs
      ensures w == if spawns && !closed then Some(|old(procs)|) else None
      ensures Abs() == if !spawns then old(Abs())
        else if closed then Killed(Started(old(Abs())), |old(procs)|)
        else Enlisted(Started(old(Abs())), |old(procs)|)
    {
      if !spawns {
        return None;
      }
      var v := |procs|;
      procs := procs + [Proc(false, 0, Unused)];
      if closed {
        Kill(v);
        return None;
      }
      workers := workers + {v};
      return Some(v);
    }

    method Kill(w: nat)
      requires w < |procs|
      modifies this`procs
      ensures Abs() == Killed(old(Abs()), w)
    {
      procs := procs[w := procs[w].(dead := true)];
    }

    /** Starts the idle workers a new pool keeps ready; one failure closes the pool. */
    method Prewarm(min: nat, spawns: seq<bool>) returns (ok: bool)
      requires Valid() && !closed && slots == 0 && idle == [] && procs == [] && min <= max && |spawns| == min
      modifies this
      ensures Valid() && slots == 0
      ensures ok <==> forall i :: 0 <= i < min ==> spawns[i]
      ensures ok ==> !closed && |idle| == min
      ensures !ok ==> closed && forall w :: 0 <= w < |procs| ==> procs[w].dead
    {
      hide Quiet, Started, Enlisted, Queued;
      var i := 0;
      assert out == {} by { EmptyOut(Abs(), out); }
      while i < min
        invariant i <= min && |idle| == i && !closed && slots == 0 && out == {}
        invariant Quiet(Abs(), out)
        invariant forall j :: 0 <= j < i ==> spawns[j]
      {
        ghost var p := Abs();
        var w := StartWorker(spawns[i]);
        if w.None? {
          Close();
          AllDead(Abs());
          return false;
        }
        PrewarmKeeps(p, out);
        StartedFields(p);
        idle := idle + [w.value];
        assert Abs() == Queued(Enlisted(Started(p), |p.procs|), |p.procs|) by { StartedFields(p); }
        i := i + 1;
      }
      return true;
    }

    /** Takes a token, then a queued worker or, if there is none, a new one. */
    method Acquire(spawns: bool) returns (w: Option<nat>)
      requires Valid()
      modifies this
      ensures Valid() && closed == old(closed)
      ensures w.Some? <==> !old(closed) && old(slots) < max && (spawns || old(idle) != [])
      ensures w.Some? ==>
        && out == old(out) + {w.value} && w.value !in old(out) && slots == old(slots) + 1
        && Abs() == (if old(idle) != [] then Popped(old(Abs())) else Enlisted(Started(old(Abs())), |old(procs)|))
                    .(slots := old(slots) + 1)
        && w.value == (if old(idle) != [] then old(idle)[0] else |old(procs)|)
      ensures w.None? ==> Abs() == old(Abs()) && out == old(out)
    {
      hide Quiet;
      ghost var p := Abs();
      if closed || slots >= max {
        return None;
      }
      slots := slots + 1;
      if idle != [] {
        TakeIdleKeeps(p, out);
        w := Some(idle[0]);
        idle := idle[1..];
      } else {
        w := StartWorker(spawns);
        if w.None? {
          slots := slots - 1;
          return;
        }
        StartKeeps(p, out);
      }
      out := out + {w.value};
    }

    /** Acquires a worker and configures it for a session; what fails is given back. */
    method Checkout(spawns: bool, configures: bool, survives: bool) returns (w: Option<nat>)
      requires Valid() && (configures ==> survives)
      modifies this
      ensures Valid() && closed == old(closed)
      ensures w.Some? <==> !old(closed) && old(slots) < max && configures && (spawns || old(idle) != [])
      ensures w.Some? ==>
        && out == old(out) + {w.value} && w.value !in old(out)
        && w.value == (if old(idle) != [] then old(idle)[0] else |old(procs)|)
      ensures w.Some? ==>
        && w.value < |procs| && slots == old(slots) + 1
        && procs[w.value] == Proc(false, if old(idle) != [] then old(procs)[w.value].checkouts + 1 else 1, InUse)
      ensures w.None? ==> out == old(out) && slots == old(slots)
    {
      hide Quiet;
      if idle != [] {
        HeadIsRested(Abs(), out);
      }
      w := Acquire(spawns);
      if w.None? {
        return;
      }
      var v := w.value;
      HeldIsKnown(Abs(), out, v);
      ConfigureKeeps(Abs(), out, v, configures, survives);
      var q := procs[v];
      procs := procs[v := Proc(q.dead || !survives, if configures then q.checkouts + 1 else q.checkouts, InUse)];
      if !configures {
        Release(v, false);
        w := None;
      }
    }

    /** Gives the token back, then recycles the worker or retires it. */
    method Release(w: nat, reusable: bool)
      requires Valid() && w in out && w < |procs|
      requires reusable ==> !procs[w].dead && procs[w].rest.ResetOk?
      modifies this
      ensures Valid() && out == old(out) - {w} && slots == old(slots) - 1 && closed == old(closed)
      ensures w in workers <==> reusable && !closed && !(limit > 0 && old(procs)[w].checkouts >= limit)
      ensures idle == old(idle) + if w in workers then [w] else []
      ensures procs == if w in workers then old(procs) else old(procs)[w := old(procs)[w].(dead := true)]
    {
      hide Quiet;
      ghost var p := Abs();
      RetireKeeps(p, out, w);
      HeldIsKnown(p, out, w);
      slots := slots - 1;
      var known := w in workers;
      if !reusable || closed || WornOut(procs[w], limit) {
        workers := workers - {w};
        known := false;
      }
      if !known {
        Kill(w);
      } else {
        RecycleKeeps(p, out, w);
        idle := idle + [w];
      }
      out := out - {w};
    }

    /** Closes the pool and shuts the idle workers down; sessions keep theirs. */
    method Close()
      requires Quiet(Abs(), out) && (closed ==> idle == [])
      modifies this
      ensures Valid() && closed && out == old(out) && slots == old(slots) && idle == []
      ensures |procs| == |old(procs)| && forall w :: w in out && w < |procs| ==> procs[w] == old(procs)[w]
    {
      hide Quiet;
      if closed {
        return;
      }
      assert Quiet(Abs().(closed := true), out) by { ClosedIsQuiet(Abs(), out); }
      closed := true;
      while idle != []
        invariant closed && Quiet(Abs(), out) && out == old(out) && slots == old(slots)
        invariant |procs| == |old(procs)| && forall w :: w in out && w < |procs| ==> procs[w] == old(procs)[w]
        decreases |idle|
      {
        ShutdownKeeps(Abs(), out);
        var w := idle[0];
        idle := idle[1..];
        workers := workers - {w};
        Kill(w);
      }
    }
  }

  lemma HeadIsRested(p: Shared, out: set<nat>)
    requires Quiet(p, out) && p.idle != []
    ensures p.idle[0] < |p.procs| && !p.procs[p.idle[0]].dead
  {
    assert p.idle[0] in p.idle;
  }

  lemma EmptyOut(p: Shared, out: set<nat>)
    requires Quiet(p, out) && p.slots == 0
    ensures out == {}
  {
  }

  lemma StartedFields(p: Shared)
    ensures Queued(Enlisted(Started(p), |p.procs|), |p.procs|)
         == p.(procs := p.procs + [Proc(false, 0, Unused)], workers := p.workers + {|p.procs|},
               idle := p.idle + [|p.procs|])
    ensures Enlisted(Started(p), |p.procs|)
         == p.(procs := p.procs + [Proc(false, 0, Unused)], workers := p.workers + {|p.procs|})
  {
  }

  /** A closed pool without sessions has no live worker left. */
  lemma AllDead(p: Shared)
    requires Quiet(p, {}) && p.idle == []
    ensures forall w :: 0 <= w < |p.procs| ==> p.procs[w].dead
  {
  }

  lemma HeldIsKnown(p: Shared, out: set<nat>, w: nat)
    requires Quiet(p, out) && w in out
    ensures w in p.workers && w !in p.idle && w < |p.procs|
  {
  }

  lemma ClosedIsQuiet(p: Shared, out: set<nat>)
    requires Quiet(p, out)
    ensures Quiet(p.(closed := true), out)
  {
  }
}
