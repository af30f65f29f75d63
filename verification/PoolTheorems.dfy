/** What the pool guarantees over every interleaving, and where it stops guaranteeing it. */
module PoolTheorems {
  import opened Common
  import opened Pool
  import opened PoolSystem
  import opened PoolSafety

  // ---------------------------------------------------------------------------
  // Tokens and ownership

  /** Tokens taken are the tokens held, and every call that is over has given its one back. */
  lemma TokensConserved(s: Sys, actions: seq<Action>)
    requires Initial(s)
    ensures
      var r := Execute(s, actions);
      && r.p.slots == Tally(r.tasks, HoldsToken) <= r.p.max
      && ((forall i :: 0 <= i < |r.tasks| ==> r.tasks[i].Done?) ==> r.p.slots == 0)
  {
    InitialIsOk(s);
    RunKeeps(s, actions);
    hide Initial, IdleOk, TasksOk, Exclusive, Tracked, Execute, Apply;
    var r := Execute(s, actions);
    TallyZero(r.tasks, HoldsToken);
  }

  /**
   A worker is in the queue once, or in one call's hands, or nowhere; and a living worker is
   never nowhere.
   */
  lemma OneOwner(s: Sys, actions: seq<Action>, w: nat)
    requires Initial(s)
    ensures
      var r := Execute(s, actions);
      && Distinct(r.p.idle)
      && (forall i, j :: 0 <= i < j < |r.tasks| && Worker(r.tasks[i]) == Some(w) ==> Worker(r.tasks[j]) != Some(w))
      && (forall i :: 0 <= i < |r.tasks| && Worker(r.tasks[i]) == Some(w) ==> w !in r.p.idle)
      && (w < |r.p.procs| && !r.p.procs[w].dead ==> w in r.p.idle || Owned(r, w))
  {
    InitialIsOk(s);
    RunKeeps(s, actions);
    hide Initial, TokensOk, Execute, Apply;
    var r := Execute(s, actions);
    forall i | 0 <= i < |r.tasks| && Worker(r.tasks[i]) == Some(w) ensures w !in r.p.idle {
      assert TaskOk(r.p, r.tasks[i]);
    }
  }

  /** Whatever a checkout finds in the queue is registered, alive, fresh or reset, with checkouts left. */
  lemma QueuedWorkersAreRested(s: Sys, actions: seq<Action>)
    requires Initial(s)
    ensures
      var r := Execute(s, actions);
      forall w :: w in r.p.idle ==>
        && w in r.p.workers && w < |r.p.procs| && !r.p.procs[w].dead
        && (r.p.limit > 0 ==> r.p.procs[w].checkouts < r.p.limit)
        && (r.p.procs[w].rest.ResetOk? || (r.p.procs[w].rest.Unused? && r.p.procs[w].checkouts == 0))
  {
    InitialIsOk(s);
    RunKeeps(s, actions);
    hide Initial, TasksOk, Exclusive, Tracked, TokensOk, Execute, Apply;
  }

  // ---------------------------------------------------------------------------
  // How many workers

  function Hands(ts: seq<Task>, f: Task -> bool): set<nat>
  {
    if ts == [] then {}
    else
      var t := ts[|ts| - 1];
      Hands(ts[..|ts| - 1], f) + if f(t) && Worker(t).Some? then {Worker(t).value} else {}
  }

  lemma {:induction false} HandsCount(ts: seq<Task>, f: Task -> bool)
    ensures |Hands(ts, f)| <= Tally(ts, f)
  {
    if ts != [] {
      HandsCount(ts[..|ts| - 1], f);
    }
  }

  lemma {:induction false} HandsHas(ts: seq<Task>, f: Task -> bool, i: nat)
    requires i < |ts| && f(ts[i]) && Worker(ts[i]).Some?
    ensures Worker(ts[i]).value in Hands(ts, f)
  {
    if i < |ts| - 1 {
      HandsHas(ts[..|ts| - 1], f, i);
    }
  }

  /** Every token is somebody's: committed and in-hand calls are different token holders. */
  lemma {:induction false} TokenKinds(ts: seq<Task>)
    ensures Tally(ts, InHand) + Tally(ts, CommittedTo) <= Tally(ts, HoldsToken)
  {
    if ts != [] {
      TokenKinds(ts[..|ts| - 1]);
    }
  }

  lemma RegisteredAreQueuedOrOwned(s: Sys)
    requires Inv(s)
    ensures |s.p.workers| <= |s.p.idle| + Tally(s.tasks, InHand) + Tally(s.tasks, InTransit)
  {
    var all := Elements(s.p.idle) + Hands(s.tasks, InHand) + Hands(s.tasks, InTransit);
    forall w | w in s.p.workers ensures w in all {
      if w !in s.p.idle {
        assert Owned(s, w);
        var i :| 0 <= i < |s.tasks| && Worker(s.tasks[i]) == Some(w);
        assert TaskOk(s.p, s.tasks[i]);
        if InHand(s.tasks[i]) {
          HandsHas(s.tasks, InHand, i);
        } else {
          HandsHas(s.tasks, InTransit, i);
        }
      }
    }
    hide Exclusive, Tracked, TasksOk, TokensOk;
    SubsetCount(s.p.workers, all);
    ElementsCount(s.p.idle);
    HandsCount(s.tasks, InHand);
    HandsCount(s.tasks, InTransit);
  }

  /** Whatever overlaps, twice MaxProcesses and the workers being returned are never exceeded. */
  lemma AtMostTwiceAsMany(s: Sys, actions: seq<Action>)
    requires Initial(s)
    ensures
      var r := Execute(s, actions);
      |r.p.workers| <= 2 * r.p.max + Tally(r.tasks, InTransit)
  {
    InitialIsOk(s);
    RunKeeps(s, actions);
    hide Initial, TasksOk, Exclusive, Tracked, Execute, Apply;
    var r := Execute(s, actions);
    RegisteredAreQueuedOrOwned(r);
    TokenKinds(r.tasks);
  }

  /** The action starts a process although some worker is on its way back to the queue. */
  predicate Hasty(s: Sys, a: Action)
  {
    a.Take? && At(s, a.i).HasSlot? && s.p.idle == [] && Tally(s.tasks, InTransit) > 0
  }

  ghost predicate Bounded(s: Sys)
  {
    |s.p.workers| <= s.p.max && (!s.p.closed ==> |s.p.workers| + Tally(s.tasks, CommittedTo) <= s.p.max)
  }

  lemma CommitIsBounded(s: Sys, i: nat)
    requires Inv(s) && Bounded(s) && i < |s.tasks| && s.tasks[i].HasSlot? && s.p.idle == []
    requires Tally(s.tasks, InTransit) == 0
    ensures Bounded(Apply(s, Take(i)))
  {
    var r := Apply(s, Take(i));
    ActionKeeps(s, Take(i));
    hide IdleOk, TasksOk, Exclusive, Tracked;
    TallyUpdate(s.tasks, i, Committed, InTransit);
    RegisteredAreQueuedOrOwned(r);
    TokenKinds(r.tasks);
  }

  lemma EnlistIsBounded(s: Sys, i: nat)
    requires Bounded(s) && i < |s.tasks| && s.tasks[i].Spawned?
    ensures Bounded(Apply(s, Enlist(i)))
  {
    var w := s.tasks[i].w;
    var r := Apply(s, Enlist(i));
    TallyUpdate(s.tasks, i, r.tasks[i], CommittedTo);
    assert |s.p.workers + {w}| <= |s.p.workers| + 1;
  }

  /** Other steps neither register a worker nor decide to start one. */
  lemma OtherIsBounded(s: Sys, a: Action)
    requires Bounded(s) && !a.Enlist? && !(a.Take? && At(s, a.i).HasSlot? && s.p.idle == [])
    ensures Bounded(Apply(s, a))
  {
    var r := Apply(s, a);
    NoNewWorkers(s, a);
    SubsetCount(r.p.workers, s.p.workers);
    hide Apply, Worker, KilledIf, Heard, Keeps, WornOut;
    if a.NewCheckout? || a.ClosePool? {
      TallyAppend(s.tasks, Asking, CommittedTo);
    } else if a.i < |s.tasks| {
      TallyUpdate(s.tasks, a.i, r.tasks[a.i], CommittedTo);
    }
  }

  lemma NoNewWorkers(s: Sys, a: Action)
    requires !a.Enlist? && !(a.Take? && At(s, a.i).HasSlot? && s.p.idle == [])
    ensures
      var r := Apply(s, a);
      && r.p.workers <= s.p.workers && r.p.max == s.p.max && (s.p.closed ==> r.p.closed)
      && (a.NewCheckout? ==> r.tasks == s.tasks + [Asking])
      && (a.ClosePool? ==> r.p.closed)
      && (!a.NewCheckout? && !a.ClosePool? ==> |r.tasks| == |s.tasks|)
      && (!a.NewCheckout? && !a.ClosePool? && a.i < |s.tasks| ==>
          r.tasks == s.tasks[a.i := r.tasks[a.i]] && (CommittedTo(r.tasks[a.i]) ==> CommittedTo(s.tasks[a.i])))
      && (!a.NewCheckout? && !a.ClosePool? && a.i >= |s.tasks| ==> r.tasks == s.tasks)
  {
    hide Keeps, WornOut, KilledIf, Heard;
    KillingKeepsWorkers(s.p);
  }

  ghost predicate SamePool(p: Shared, q: Shared)
  {
    q == p.(procs := q.procs)
  }

  lemma KillingKeepsWorkers(p: Shared)
    ensures forall w: nat :: SamePool(p, KilledIf(p, w))
    ensures forall w: nat, rest, survives :: SamePool(p, Heard(p, w, rest, survives))
  {
  }

  lemma {:induction false} CalmRunIsBounded(s: Sys, actions: seq<Action>)
    requires Initial(s)
    requires forall k :: 0 <= k < |actions| ==> !Hasty(Execute(s, actions[..k]), actions[k])
    ensures Bounded(Execute(s, actions))
    decreases |actions|
  {
    hide Initial, Bounded, Apply, Inv, Hasty, Execute;
    if actions == [] {
      StartIsBounded(s);
    } else {
      var init := actions[..|actions| - 1];
      var a := actions[|actions| - 1];
      var b := Execute(s, init);
      forall k | 0 <= k < |init| ensures !Hasty(Execute(s, init[..k]), init[k]) {
        assert init[..k] == actions[..k];
      }
      CalmRunIsBounded(s, init);
      InitialIsOk(s);
      RunKeeps(s, init);
      ExecuteLast(s, actions);
      assert !Hasty(b, a);
      StepIsBounded(b, a);
    }
  }

  lemma StepIsBounded(s: Sys, a: Action)
    requires Inv(s) && Bounded(s) && !Hasty(s, a)
    ensures Bounded(Apply(s, a))
  {
    hide Inv, Bounded;
    if a.Take? && At(s, a.i).HasSlot? && s.p.idle == [] {
      CommitIsBounded(s, a.i);
    } else if a.Enlist? {
      if At(s, a.i).Spawned? {
        EnlistIsBounded(s, a.i);
      }
    } else {
      OtherIsBounded(s, a);
    }
  }

  lemma StartIsBounded(s: Sys)
    requires Initial(s)
    ensures Bounded(Execute(s, []))
  {
    QuietPoolIsBounded(s.p, {});
  }

  lemma ExecuteLast(s: Sys, actions: seq<Action>)
    requires actions != []
    ensures Execute(s, actions) == Apply(Execute(s, actions[..|actions| - 1]), actions[|actions| - 1])
  {
  }

  /**
   MaxProcesses bounds the registered workers in every run that never starts a process while a
   release is between giving its token back and queueing its worker; if releases were atomic,
   that would be every run.
   */
  lemma CalmRunsRespectMaxProcesses(s: Sys, actions: seq<Action>)
    requires Initial(s)
    requires forall k :: 0 <= k < |actions| ==> !Hasty(Execute(s, actions[..k]), actions[k])
    ensures |Execute(s, actions).p.workers| <= s.p.max
  {
    hide Initial, Execute, Hasty;
    CalmRunIsBounded(s, actions);
    MaxIsFixed(s, actions);
  }

  lemma {:induction false} MaxIsFixed(s: Sys, actions: seq<Action>)
    ensures Execute(s, actions).p.max == s.p.max
    decreases |actions|
  {
    hide Apply;
    if actions != [] {
      MaxIsFixed(s, actions[..|actions| - 1]);
      StepKeepsMax(Execute(s, actions[..|actions| - 1]), actions[|actions| - 1]);
    }
  }

  lemma StepKeepsMax(s: Sys, a: Action)
    ensures Apply(s, a).p.max == s.p.max
  {
    hide Keeps, WornOut, KilledIf, Heard;
    KillingKeepsWorkers(s.p);
  }

  ghost predicate NoneUnqueued(s: Sys)
  {
    forall i :: 0 <= i < |s.tasks| ==> !s.tasks[i].Unqueued?
  }

  /** With at most MaxProcesses workers, the queue never lacks a place for one that is not in it. */
  lemma QueueHasRoom(s: Sys, i: nat)
    requires Inv(s) && Bounded(s) && i < |s.tasks| && s.tasks[i].Queueing?
    ensures |s.p.idle| < s.p.max
  {
    assert TaskOk(s.p, s.tasks[i]);
    var w := s.tasks[i].w;
    hide Exclusive, Tracked, TasksOk, TokensOk;
    ElementsCount(s.p.idle);
    SubsetCount(Elements(s.p.idle) + {w}, s.p.workers);
  }

  lemma StepIsQueued(s: Sys, a: Action)
    requires Inv(s) && Bounded(s) && NoneUnqueued(s)
    ensures NoneUnqueued(Apply(s, a))
  {
    if a.Queue? && At(s, a.i).Queueing? {
      QueueHasRoom(s, a.i);
    }
    hide Inv, Bounded, KilledIf, Heard, Keeps, WornOut;
  }

  /** In the runs that respect MaxProcesses no worker is ever killed for want of a place in the queue. */
  lemma {:induction false} CalmRunsNeverOverflow(s: Sys, actions: seq<Action>)
    requires Initial(s)
    requires forall k :: 0 <= k < |actions| ==> !Hasty(Execute(s, actions[..k]), actions[k])
    ensures NoneUnqueued(Execute(s, actions))
    decreases |actions|
  {
    hide Bounded, Apply, Inv, Hasty, Execute;
    if actions == [] {
      ExecuteNone(s);
    } else {
      hide Initial, NoneUnqueued;
      var init, a := actions[..|actions| - 1], actions[|actions| - 1];
      forall k | 0 <= k < |init| ensures !Hasty(Execute(s, init[..k]), init[k]) {
        assert init[..k] == actions[..k];
      }
      CalmRunsNeverOverflow(s, init);
      CalmRunIsBounded(s, init);
      InitialIsOk(s);
      RunKeeps(s, init);
      ExecuteLast(s, actions);
      StepIsQueued(Execute(s, init), a);
    }
  }

  // ---------------------------------------------------------------------------
  // The window inside a release

  /** A session ends while a waiting checkout is let in between the halves of its release. */
  function Overtaken(i: nat, k: nat): seq<Action>
  {
    [CloseSession(i), ResetWorker(i, true, true), Free(i), Acquire(k), Take(k), Spawn(k, true), Enlist(k), Decide(i),
     Queue(i)]
  }

  lemma ExecuteMore(s: Sys, actions: seq<Action>, a: Action)
    ensures Execute(s, actions + [a]) == Apply(Execute(s, actions), a)
  {
    hide Apply;
    assert (actions + [a])[..|actions|] == actions;
  }

  lemma ExecuteNine(s: Sys, i: nat, k: nat)
    ensures Execute(s, Overtaken(i, k))
      == Apply(Apply(Apply(Apply(Apply(Apply(
           Apply(Apply(Apply(s, CloseSession(i)), ResetWorker(i, true, true)), Free(i)), Acquire(k)),
           Take(k)), Spawn(k, true)), Enlist(k)), Decide(i)), Queue(i))
  {
    hide Apply, Execute;
    assert Execute(s, []) == s by { ExecuteNone(s); }
    var a1 := [CloseSession(i)];
    ExecuteMore(s, [], CloseSession(i));
    assert [] + [CloseSession(i)] == a1;
    ExecuteMore(s, a1, ResetWorker(i, true, true));
    var a2 := a1 + [ResetWorker(i, true, true)];
    ExecuteMore(s, a2, Free(i));
    var a3 := a2 + [Free(i)];
    ExecuteMore(s, a3, Acquire(k));
    var a4 := a3 + [Acquire(k)];
    ExecuteMore(s, a4, Take(k));
    var a5 := a4 + [Take(k)];
    ExecuteMore(s, a5, Spawn(k, true));
    var a6 := a5 + [Spawn(k, true)];
    ExecuteMore(s, a6, Enlist(k));
    var a7 := a6 + [Enlist(k)];
    ExecuteMore(s, a7, Decide(i));
    var a8 := a7 + [Decide(i)];
    ExecuteMore(s, a8, Queue(i));
    assert Overtaken(i, k) == a8 + [Queue(i)];
  }

  lemma ExecuteNone(s: Sys)
    ensures Execute(s, []) == s
  {
  }

  /** The state when session i's release has been overtaken by checkout k. */
  function Overfull(s: Sys, i: nat, k: nat): Sys
    requires i < |s.tasks| && k < |s.tasks| && s.tasks[i].Held? && s.tasks[i].w < |s.p.procs|
  {
    var w := s.tasks[i].w;
    var p := s.p.(idle := [w], workers := s.p.workers + {|s.p.procs|},
                  procs := s.p.procs[w := s.p.procs[w].(rest := ResetOk)] + [Proc(false, 0, Unused)]);
    Sys(p, s.tasks[i := Done][k := Got(|s.p.procs|)])
  }

  /**
   From any state where the pool is full, nothing is queued, a checkout waits, and a session
   holds a worker that can be used again, the pool can reach one registered worker more, with
   that release over. So a full pool of MaxProcesses workers can exceed MaxProcesses.
   */
  lemma FullPoolCanOverflow(s: Sys, i: nat, k: nat)
    requires Inv(s) && !s.p.closed && s.p.idle == [] && s.p.slots == s.p.max && s.p.max >= 1
    requires i < |s.tasks| && k < |s.tasks| && s.tasks[i].Held? && s.tasks[k].Asking?
    requires
      var w := s.tasks[i].w;
      w < |s.p.procs| && w in s.p.workers && !s.p.procs[w].dead && !WornOut(s.p.procs[w], s.p.limit)
    ensures Execute(s, Overtaken(i, k)) == Overfull(s, i, k)
    ensures |Execute(s, Overtaken(i, k)).p.workers| == |s.p.workers| + 1
    ensures Tally(Execute(s, Overtaken(i, k)).tasks, InTransit) == Tally(s.tasks, InTransit)
  {
    hide Inv, Execute, Apply, Tally, HalfReleased, Overtaken, WornOut;
    FutureIsUnregistered(s);
    ExecuteNine(s, i, k);
    TallyUpdate(s.tasks, i, Done, InTransit);
    TallyUpdate(s.tasks[i := Done], k, Got(|s.p.procs|), InTransit);
    OvertakingRelease(s, i, k);
    OvertakingSpawn(s, i, k);
    OvertakingQueue(s, i, k);
  }

  lemma FutureIsUnregistered(s: Sys)
    requires Inv(s)
    ensures |s.p.procs| !in s.p.workers
  {
    hide TasksOk, Exclusive, Tracked, TokensOk;
  }

  function HalfReleased(s: Sys, i: nat): Sys
    requires i < |s.tasks| && s.tasks[i].Held? && s.tasks[i].w < |s.p.procs| && s.p.slots > 0
  {
    var w := s.tasks[i].w;
    Sys(s.p.(slots := s.p.slots - 1, procs := s.p.procs[w := s.p.procs[w].(rest := ResetOk)]),
        s.tasks[i := Freed(w, true)])
  }

  lemma OvertakingRelease(s: Sys, i: nat, k: nat)
    requires s.p.slots == s.p.max >= 1
    requires i < |s.tasks| && s.tasks[i].Held? && s.tasks[i].w < |s.p.procs| && !s.p.procs[s.tasks[i].w].dead
    ensures Apply(Apply(Apply(s, CloseSession(i)), ResetWorker(i, true, true)), Free(i)) == HalfReleased(s, i)
  {
    var w := s.tasks[i].w;
    var b := Apply(Apply(s, CloseSession(i)), ResetWorker(i, true, true));
    assert b.tasks == s.tasks[i := Releasing(w, true)];
    assert Apply(b, Free(i)).tasks == s.tasks[i := Freed(w, true)];
  }

  lemma OvertakingSpawn(s: Sys, i: nat, k: nat)
    requires !s.p.closed && s.p.idle == [] && s.p.slots == s.p.max && s.p.max >= 1
    requires i < |s.tasks| && k < |s.tasks| && s.tasks[i].Held? && s.tasks[k].Asking? && s.tasks[i].w < |s.p.procs|
    ensures
      var h := HalfReleased(s, i);
      var r := Apply(Apply(Apply(Apply(h, Acquire(k)), Take(k)), Spawn(k, true)), Enlist(k));
      r == Sys(h.p.(slots := s.p.slots, procs := h.p.procs + [Proc(false, 0, Unused)],
                    workers := s.p.workers + {|s.p.procs|}),
               h.tasks[k := Got(|s.p.procs|)])
  {
    var h := HalfReleased(s, i);
    var h1 := Apply(h, Acquire(k));
    assert h1.tasks == h.tasks[k := HasSlot];
    var h2 := Apply(h1, Take(k));
    assert h2.tasks == h.tasks[k := Committed];
    var h3 := Apply(h2, Spawn(k, true));
    assert h3.tasks == h.tasks[k := Spawned(|s.p.procs|)];
    var h4 := Apply(h3, Enlist(k));
    assert h4.tasks == h.tasks[k := Got(|s.p.procs|)];
  }

  lemma OvertakingQueue(s: Sys, i: nat, k: nat)
    requires !s.p.closed && s.p.idle == [] && s.p.slots == s.p.max && s.p.max >= 1
    requires i < |s.tasks| && k < |s.tasks| && s.tasks[i].Held? && s.tasks[k].Asking? && s.tasks[i].w < |s.p.procs|
    requires s.tasks[i].w in s.p.workers && !WornOut(s.p.procs[s.tasks[i].w], s.p.limit)
    ensures
      var h := HalfReleased(s, i);
      var r := Sys(
        h.p.(slots := s.p.slots, procs := h.p.procs + [Proc(false, 0, Unused)], workers := s.p.workers + {|s.p.procs|}),
        h.tasks[k := Got(|s.p.procs|)]);
      Apply(Apply(r, Decide(i)), Queue(i)) == Overfull(s, i, k)
  {
    var w := s.tasks[i].w;
    var h := HalfReleased(s, i);
    var r := Sys(
      h.p.(slots := s.p.slots, procs := h.p.procs + [Proc(false, 0, Unused)], workers := s.p.workers + {|s.p.procs|}),
      h.tasks[k := Got(|s.p.procs|)]);
    assert At(r, i) == Freed(w, true);
    var d := Apply(r, Decide(i));
    assert d == Sys(r.p, r.tasks[i := Queueing(w)]);
    assert Apply(d, Queue(i)).tasks == Overfull(s, i, k).tasks;
    assert [] + [w] == [w];
  }

  lemma {:induction false} ExecuteConcat(s: Sys, a: seq<Action>, b: seq<Action>)
    ensures Execute(s, a + b) == Execute(Execute(s, a), b)
    decreases |b|
  {
    hide Apply, Execute;
    if b == [] {
      assert a + b == a;
      ExecuteNone(Execute(s, a));
    } else {
      var k := |b| - 1;
      ExecuteConcat(s, a, b[..k]);
      ExecuteMore(s, a + b[..k], b[k]);
      ExecuteMore(Execute(s, a), b[..k], b[k]);
      assert a + b == a + b[..k] + [b[k]];
      assert b == b[..k] + [b[k]];
    }
  }

  /** A pool of one process, with its one worker out and a second checkout waiting. */
  function OneOut(): seq<Action>
  {
    [NewCheckout, Acquire(0), Take(0), Check(0), Configure(0, true, true), NewCheckout]
  }

  const ONE: Sys := Sys(Shared(1, 0, false, 0, [0], {0}, [Proc(false, 0, Unused)]), [])

  /** The first checkout has taken the queued worker. */
  const TAKEN: Sys := Sys(Shared(1, 0, false, 1, [], {0}, [Proc(false, 0, Unused)]), [Got(0)])

  lemma OneTaken()
    ensures Apply(Apply(Apply(ONE, NewCheckout), Acquire(0)), Take(0)) == TAKEN
  {
    assert [0][1..] == [];
    assert Apply(ONE, NewCheckout).tasks == [Asking];
    assert Apply(Apply(ONE, NewCheckout), Acquire(0)).tasks == [HasSlot];
  }

  lemma OneConfigured()
    ensures Apply(Apply(Apply(TAKEN, Check(0)), Configure(0, true, true)), NewCheckout)
         == Sys(Shared(1, 0, false, 1, [], {0}, [Proc(false, 1, InUse)]), [Held(0), Asking])
  {
    assert Apply(TAKEN, Check(0)).tasks == [Configuring(0)];
    var b := Apply(Apply(TAKEN, Check(0)), Configure(0, true, true));
    assert b.tasks == [Held(0)] && b.p.procs == [Proc(false, 1, InUse)];
  }

  lemma OneOutState()
    ensures Execute(ONE, OneOut())
         == Sys(Shared(1, 0, false, 1, [], {0}, [Proc(false, 1, InUse)]), [Held(0), Asking])
  {
    hide Execute, Apply;
    ExecuteThree(ONE, [], NewCheckout, Acquire(0), Take(0));
    ExecuteNone(ONE);
    OneTaken();
    var first := [] + [NewCheckout, Acquire(0), Take(0)];
    ExecuteThree(ONE, first, Check(0), Configure(0, true, true), NewCheckout);
    OneConfigured();
    assert OneOut() == first + [Check(0), Configure(0, true, true), NewCheckout];
  }

  lemma ExecuteThree(s: Sys, actions: seq<Action>, a: Action, b: Action, c: Action)
    ensures Execute(s, actions + [a, b, c]) == Apply(Apply(Apply(Execute(s, actions), a), b), c)
  {
    hide Apply, Execute;
    ExecuteMore(s, actions, a);
    ExecuteMore(s, actions + [a], b);
    ExecuteMore(s, actions + [a] + [b], c);
    assert actions + [a] + [b] + [c] == actions + [a, b, c];
  }

  lemma OnePoolIsInitial()
    ensures Initial(ONE)
  {
  }

  predicate Exceeded(s: Sys)
  {
    |s.p.workers| > s.p.max && Tally(s.tasks, InTransit) == 0
  }

  /** MaxProcesses is exceeded by some run, and nothing is in transit when it is. */
  lemma MaxProcessesCanBeExceeded()
    ensures exists s, actions :: Initial(s) && Exceeded(Execute(s, actions))
  {
    hide Execute, Initial, Inv, Apply, OneOut, Overtaken, Tally;
    var s := ONE;
    OnePoolIsInitial();
    InitialIsOk(s);
    RunKeeps(s, OneOut());
    OneOutState();
    var b := Execute(s, OneOut());
    FullPoolCanOverflow(b, 0, 1);
    MaxIsFixed(s, OneOut() + Overtaken(0, 1));
    ExecuteConcat(s, OneOut(), Overtaken(0, 1));
    var actions := OneOut() + Overtaken(0, 1);
    TallyZero(b.tasks, InTransit);
    assert |Execute(s, actions).p.workers| == 2;
  }

  // ---------------------------------------------------------------------------
  // After Close

  /** A release that read the closed flag before it was set is about to queue its worker. */
  ghost predicate Late(s: Sys)
  {
    exists i :: 0 <= i < |s.tasks| && s.tasks[i].Queueing?
  }

  lemma NobodyLate(s: Sys, a: Action)
    requires s.p.closed && s.p.idle == [] && !Late(s)
    ensures Apply(s, a).p.closed && Apply(s, a).p.idle == [] && !Late(Apply(s, a))
  {
    hide KilledIf, Heard, WornOut;
    KillingKeepsWorkers(s.p);
  }

  lemma {:induction false} NobodyEverLate(s: Sys, actions: seq<Action>)
    requires s.p.closed && s.p.idle == [] && !Late(s)
    ensures
      var r := Execute(s, actions);
      r.p.closed && r.p.idle == [] && !Late(r)
    decreases |actions|
  {
    hide Apply, Late;
    if actions != [] {
      NobodyEverLate(s, actions[..|actions| - 1]);
      NobodyLate(Execute(s, actions[..|actions| - 1]), actions[|actions| - 1]);
    }
  }

  /** Once Close has emptied the queue, a worker can still get into it if and only if a release is late. */
  lemma QueueStaysEmptyUnlessLate(s: Sys)
    requires s.p.closed && s.p.idle == [] && s.p.max >= 1
    ensures (exists actions :: Execute(s, actions).p.idle != []) <==> Late(s)
  {
    if Late(s) {
      var i :| 0 <= i < |s.tasks| && s.tasks[i].Queueing?;
      ExecuteMore(s, [], Queue(i));
      assert [] + [Queue(i)] == [Queue(i)];
      assert Execute(s, [Queue(i)]).p.idle != [];
    } else {
      forall actions ensures Execute(s, actions).p.idle == [] {
        NobodyEverLate(s, actions);
      }
    }
  }

  /** With the queue empty and every call over, no worker is registered or alive. */
  lemma NothingOutlivesAnEmptyPool(s: Sys, actions: seq<Action>)
    requires Initial(s) && Execute(s, actions).p.idle == []
    requires forall i :: 0 <= i < |Execute(s, actions).tasks| ==> Execute(s, actions).tasks[i].Done?
    ensures Execute(s, actions).p.workers == {}
    ensures forall w :: 0 <= w < |Execute(s, actions).p.procs| ==> Execute(s, actions).p.procs[w].dead
  {
    InitialIsOk(s);
    RunKeeps(s, actions);
    hide Initial, Execute, Apply, IdleOk, TasksOk, Exclusive, TokensOk;
  }
}
