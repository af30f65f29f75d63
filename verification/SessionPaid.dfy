/** Which sleeps are in the account of whoever holds them: exactly those handed out where they arose. */
module SessionPaid {
  import opened Common
  import opened Session
  import opened SessionSystem
  import opened SessionInvariant
  import opened SessionSafety
  import opened SessionBooks
  import opened SessionEnds

  /** Snapshot k handed out the suspension in the session where it arose. */
  predicate Handed(sys: Sys, k: nat, susp: Susp)
  {
    && k < |sys.snaps| && sys.snaps[k].susp == susp
    && sys.snaps[k].run < |sys.runs| && sys.runs[sys.snaps[k].run].session == susp.owner
  }

  ghost predicate HandedOutAtHome(sys: Sys, susp: Susp)
  {
    exists k: nat :: Handed(sys, k, susp)
  }

  /** A sleep that was handed out where it arose has been charged to this account. */
  ghost predicate Paid(sys: Sys, susp: Susp, sleeps: seq<Charge>)
  {
    susp.delay.Some? && HandedOutAtHome(sys, susp) ==> Charged(sleeps, susp)
  }

  /** Whoever holds a suspension knows its owner, and holds the charge for it if there is one. */
  ghost predicate Holder(sys: Sys, vm: Vm, sleeps: seq<Charge>)
  {
    vm.suspended ==>
      && Last(vm).id < sys.next && Last(vm).owner < |sys.nodes| && sys.nodes[Last(vm).owner].s.used
      && Paid(sys, Last(vm), sleeps)
  }

  ghost predicate SnapPaid(sys: Sys, k: nat)
    requires k < |sys.snaps|
  {
    var p := sys.snaps[k];
    && p.susp.id < sys.next && p.susp.owner < |sys.nodes|
    && p.run < |sys.runs| && sys.runs[p.run].session < |sys.nodes|
    && sys.nodes[sys.runs[p.run].session].s.used
    && Paid(sys, p.susp, sys.nodes[sys.runs[p.run].session].s.sleeps)
  }

  /** Nobody but session n's worker has this suspension. */
  ghost predicate Unseen(sys: Sys, n: nat, id: nat)
  {
    && (forall k :: 0 <= k < |sys.snaps| ==> sys.snaps[k].susp.id != id)
    && (forall d :: 0 <= d < |sys.dumps| && sys.dumps[d].vm.suspended ==> Last(sys.dumps[d].vm).id != id)
    && (forall m :: 0 <= m < |sys.nodes| && m != n && sys.nodes[m].vm.suspended ==> Last(sys.nodes[m].vm).id != id)
  }

  predicate Arriving(t: Turn) { t.Replied? && t.event.Some? && Suspends(t.event.value.kind) }

  ghost predicate NodePaid(sys: Sys, n: nat)
    requires n < |sys.nodes|
  {
    var nd := sys.nodes[n];
    && Holder(sys, nd.vm, nd.s.sleeps)
    && (nd.vm.suspended ==> nd.s.used)
    && (Arriving(nd.turn) ==> nd.turn.event.value.id < sys.next && Unseen(sys, n, nd.turn.event.value.id))
  }

  ghost predicate Ledger(sys: Sys)
  {
    && (forall n :: 0 <= n < |sys.nodes| ==> NodePaid(sys, n))
    && (forall d :: 0 <= d < |sys.dumps| ==> Holder(sys, sys.dumps[d].vm, sys.dumps[d].sleeps))
    && (forall k :: 0 <= k < |sys.snaps| ==> SnapPaid(sys, k))
  }

  // ---------------------------------------------------------------------------
  // Where a suspension and an account come from in a step of session n

  ghost predicate Kept(a: Sys, b: Sys, n: nat)
    requires n < |b.nodes|
  {
    n < |a.nodes| && a.nodes[n].vm.suspended && Last(b.nodes[n].vm) == Last(a.nodes[n].vm)
  }

  ghost predicate New(a: Sys, b: Sys, n: nat)
    requires n < |b.nodes|
  {
    a.next <= Last(b.nodes[n].vm).id < b.next && Last(b.nodes[n].vm).owner == n
  }

  ghost predicate Loaded(a: Sys, b: Sys, n: nat)
    requires n < |b.nodes|
  {
    exists d :: 0 <= d < |a.dumps| && a.dumps[d].vm.suspended
      && Last(b.nodes[n].vm) == Last(a.dumps[d].vm) && a.dumps[d].sleeps <= b.nodes[n].s.sleeps
  }

  ghost predicate NodeStep(a: Sys, b: Sys, n: nat)
    requires n < |b.nodes|
  {
    && (b.nodes[n].vm.suspended ==> b.nodes[n].s.used && (Kept(a, b, n) || New(a, b, n) || Loaded(a, b, n)))
    && (Arriving(b.nodes[n].turn) ==>
        && |b.snaps| == |a.snaps| && |b.dumps| == |a.dumps| && a.next <= b.nodes[n].turn.event.value.id < b.next)
  }

  /** A snapshot handed out where its sleep arose is paid for, and is the first of that sleep. */
  ghost predicate SnapStep(a: Sys, b: Sys, n: nat, k: nat)
    requires k < |b.snaps|
  {
    var p := b.snaps[k];
    && n < |b.nodes| && b.nodes[n].vm.suspended && p.susp == Last(b.nodes[n].vm)
    && p.run < |b.runs| && b.runs[p.run].session == n
    && (p.susp.owner == n ==> Unseen(a, n, p.susp.id) && (p.susp.delay.Some? ==> Charged(b.nodes[n].s.sleeps, p.susp)))
  }

  ghost predicate DumpStep(a: Sys, b: Sys, d: nat)
    requires d < |b.dumps|
  {
    exists m :: 0 <= m < |a.nodes| && b.dumps[d].vm == a.nodes[m].vm && b.dumps[d].sleeps == a.nodes[m].s.sleeps
      && !Arriving(a.nodes[m].turn)
  }

  ghost predicate Steps(a: Sys, b: Sys, n: nat)
  {
    && |a.nodes| <= |b.nodes| && a.next <= b.next && SameRuns(a, b) && SameSnaps(a, b) && a.dumps <= b.dumps
    && (forall m :: 0 <= m < |a.nodes| ==> SameBook(a.nodes[m], b.nodes[m]) && (m != n ==> b.nodes[m] == a.nodes[m]))
    && (forall m :: |a.nodes| <= m < |b.nodes| ==> !b.nodes[m].vm.suspended && !Arriving(b.nodes[m].turn))
    && (n < |b.nodes| ==> NodeStep(a, b, n))
    && (forall k :: |a.snaps| <= k < |b.snaps| ==> SnapStep(a, b, n, k))
    && (forall d :: |a.dumps| <= d < |b.dumps| ==> |b.snaps| == |a.snaps| && DumpStep(a, b, d))
  }

  /** In b a suspension is newly handed out at home only by session n's new snapshot. */
  lemma HandedBefore(a: Sys, b: Sys, n: nat, susp: Susp)
    requires Ledger(a) && Steps(a, b, n) && HandedOutAtHome(b, susp)
    ensures
      || (HandedOutAtHome(a, susp) && exists k :: 0 <= k < |a.snaps| && a.snaps[k].susp == susp)
      || (n < |b.nodes| && susp == Last(b.nodes[n].vm) && susp.owner == n && Unseen(a, n, susp.id)
          && (susp.delay.Some? ==> Charged(b.nodes[n].s.sleeps, susp)))
  {
    hide Paid, Unseen, NodePaid, Holder, NodeStep, DumpStep;
    var k: nat :| Handed(b, k, susp);
    if k < |a.snaps| {
      assert b.snaps[k].(state := a.snaps[k].state) == a.snaps[k];
      assert SnapPaid(a, k);
      assert Handed(a, k, susp);
    } else {
      assert SnapStep(a, b, n, k);
    }
  }

  lemma ChargedStays(cs: seq<Charge>, more: seq<Charge>, susp: Susp)
    requires cs <= more && Charged(cs, susp)
    ensures Charged(more, susp)
  {
    var i :| 0 <= i < |cs| && cs[i].susp == susp;
    assert more[i] == cs[i];
  }

  /** What was paid for in an account stays so as it grows, if the step hands it out nowhere else. */
  lemma PaidStays(a: Sys, b: Sys, n: nat, susp: Susp, sleeps: seq<Charge>, more: seq<Charge>)
    requires Ledger(a) && Steps(a, b, n) && Paid(a, susp, sleeps) && sleeps <= more
    requires (n < |b.nodes| && more == b.nodes[n].s.sleeps) || !Unseen(a, n, susp.id)
    ensures Paid(b, susp, more)
  {
    hide Steps, Ledger, Unseen, HandedOutAtHome, Charged;
    if susp.delay.Some? && HandedOutAtHome(b, susp) {
      HandedBefore(a, b, n, susp);
      if HandedOutAtHome(a, susp) {
        ChargedStays(sleeps, more, susp);
      }
    }
  }

  lemma OtherNodes(a: Sys, b: Sys, n: nat, m: nat)
    requires Ledger(a) && Steps(a, b, n) && m < |a.nodes| && m != n
    ensures Holder(b, b.nodes[m].vm, b.nodes[m].s.sleeps) && (b.nodes[m].vm.suspended ==> b.nodes[m].s.used)
  {
    assert NodePaid(a, m);
    if a.nodes[m].vm.suspended {
      var susp := Last(a.nodes[m].vm);
      assert !Unseen(a, n, susp.id);
      assert SameBook(a.nodes[susp.owner], b.nodes[susp.owner]);
      hide Ledger, Steps, Paid, Unseen;
      PaidStays(a, b, n, susp, a.nodes[m].s.sleeps, b.nodes[m].s.sleeps);
    }
  }

  lemma OldDumps(a: Sys, b: Sys, n: nat, d: nat)
    requires Ledger(a) && Steps(a, b, n) && d < |a.dumps|
    ensures Holder(b, b.dumps[d].vm, b.dumps[d].sleeps)
  {
    assert b.dumps[d] == a.dumps[d] && Holder(a, a.dumps[d].vm, a.dumps[d].sleeps);
    if a.dumps[d].vm.suspended {
      var susp := Last(a.dumps[d].vm);
      assert !Unseen(a, n, susp.id);
      assert SameBook(a.nodes[susp.owner], b.nodes[susp.owner]);
      hide Ledger, Steps, Paid, Unseen;
      PaidStays(a, b, n, susp, a.dumps[d].sleeps, b.dumps[d].sleeps);
    }
  }

  /** A dump is a copy of what its session held, taken while nothing was handed out. */
  lemma NewDumps(a: Sys, b: Sys, n: nat, d: nat)
    requires Ledger(a) && Steps(a, b, n) && |a.dumps| <= d < |b.dumps|
    ensures Holder(b, b.dumps[d].vm, b.dumps[d].sleeps)
  {
    assert DumpStep(a, b, d);
    var m :| 0 <= m < |a.nodes| && b.dumps[d].vm == a.nodes[m].vm && b.dumps[d].sleeps == a.nodes[m].s.sleeps;
    assert NodePaid(a, m);
    if a.nodes[m].vm.suspended {
      var susp := Last(a.nodes[m].vm);
      assert SameBook(a.nodes[susp.owner], b.nodes[susp.owner]);
      if HandedOutAtHome(b, susp) {
        HandedAgain(a, b, susp);
      }
    }
  }

  lemma HandedAgain(a: Sys, b: Sys, susp: Susp)
    requires Ledger(a) && SameRuns(a, b) && SameSnaps(a, b) && |b.snaps| == |a.snaps| && HandedOutAtHome(b, susp)
    ensures HandedOutAtHome(a, susp)
  {
    var k: nat :| Handed(b, k, susp);
    assert b.snaps[k].(state := a.snaps[k].state) == a.snaps[k];
    assert SnapPaid(a, k);
    assert Handed(a, k, susp);
  }

  /** A suspension newer than everything is nobody's but the session's. */
  lemma NewIsUnseen(a: Sys, n: nat, id: nat)
    requires Ledger(a) && id >= a.next
    ensures Unseen(a, n, id)
  {
    hide Paid, HandedOutAtHome;
    forall k | 0 <= k < |a.snaps| ensures a.snaps[k].susp.id != id {
      assert SnapPaid(a, k);
    }
    forall d | 0 <= d < |a.dumps| && a.dumps[d].vm.suspended ensures Last(a.dumps[d].vm).id != id {
      assert Holder(a, a.dumps[d].vm, a.dumps[d].sleeps);
    }
    forall m | 0 <= m < |a.nodes| && m != n && a.nodes[m].vm.suspended ensures Last(a.nodes[m].vm).id != id {
      assert NodePaid(a, m);
    }
  }

  /** Session n itself holds what it kept, made or loaded, with the charge. */
  lemma ThisNode(a: Sys, b: Sys, n: nat)
    requires Ledger(a) && Steps(a, b, n) && n < |b.nodes|
    ensures Holder(b, b.nodes[n].vm, b.nodes[n].s.sleeps)
  {
    assert NodeStep(a, b, n);
    if b.nodes[n].vm.suspended {
      var susp := Last(b.nodes[n].vm);
      if Kept(a, b, n) {
        assert NodePaid(a, n) && SameBook(a.nodes[n], b.nodes[n]);
        assert SameBook(a.nodes[susp.owner], b.nodes[susp.owner]);
        hide Ledger, Steps, Paid, Unseen, HandedOutAtHome;
        PaidStays(a, b, n, susp, a.nodes[n].s.sleeps, b.nodes[n].s.sleeps);
      } else if Loaded(a, b, n) {
        var d :| 0 <= d < |a.dumps| && a.dumps[d].vm.suspended
          && susp == Last(a.dumps[d].vm) && a.dumps[d].sleeps <= b.nodes[n].s.sleeps;
        assert Holder(a, a.dumps[d].vm, a.dumps[d].sleeps);
        assert SameBook(a.nodes[susp.owner], b.nodes[susp.owner]);
        hide Ledger, Steps, Paid, Unseen, HandedOutAtHome;
        PaidStays(a, b, n, susp, a.dumps[d].sleeps, b.nodes[n].s.sleeps);
      } else {
        NewIsUnseen(a, n, susp.id);
        hide Ledger, Steps, HandedOutAtHome;
        if HandedOutAtHome(b, susp) {
          HandedBefore(a, b, n, susp);
        }
      }
    }
  }

  lemma Snaps(a: Sys, b: Sys, n: nat, k: nat)
    requires Ledger(a) && Steps(a, b, n) && k < |b.snaps|
    requires n < |b.nodes| ==> Holder(b, b.nodes[n].vm, b.nodes[n].s.sleeps) && NodeStep(a, b, n)
    ensures SnapPaid(b, k)
  {
    if k < |a.snaps| {
      var p := a.snaps[k];
      assert b.snaps[k].(state := p.state) == p;
      assert SnapPaid(a, k);
      var s := a.runs[p.run].session;
      assert SameBook(a.nodes[s], b.nodes[s]);
      assert !Unseen(a, n, p.susp.id);
      hide Ledger, Steps, Paid, Unseen, HandedOutAtHome;
      PaidStays(a, b, n, p.susp, a.nodes[s].s.sleeps, b.nodes[s].s.sleeps);
    } else {
      hide Ledger, HandedOutAtHome, Unseen, Kept, New, Loaded, Paid;
      assert SnapStep(a, b, n, k);
    }
  }

  /** What session n holds after the step is not the suspension another session is receiving. */
  lemma HeldElsewhere(a: Sys, b: Sys, n: nat, m: nat)
    requires Ledger(a) && Steps(a, b, n) && m < |a.nodes| && m != n && Arriving(a.nodes[m].turn)
    requires n < |b.nodes| && b.nodes[n].vm.suspended
    ensures Last(b.nodes[n].vm).id != a.nodes[m].turn.event.value.id
  {
    hide Holder, SnapPaid, DumpStep, SnapStep;
    assert NodePaid(a, m) && NodeStep(a, b, n);
  }

  lemma Arrivals(a: Sys, b: Sys, n: nat, m: nat)
    requires Ledger(a) && Steps(a, b, n) && m < |b.nodes| && Arriving(b.nodes[m].turn)
    ensures b.nodes[m].turn.event.value.id < b.next && Unseen(b, m, b.nodes[m].turn.event.value.id)
  {
    var id := b.nodes[m].turn.event.value.id;
    if m == n {
      assert NodeStep(a, b, n);
      NewIsUnseen(a, n, id);
      hide Ledger, Holder, SnapPaid, Kept, New, Loaded;
    } else {
      assert NodePaid(a, m) && Unseen(a, m, id);
      if n < |b.nodes| && b.nodes[n].vm.suspended {
        HeldElsewhere(a, b, n, m);
      }
      hide Ledger, NodePaid, Holder, SnapPaid, Kept, New, Loaded, NodeStep;
      forall k | 0 <= k < |b.snaps| ensures b.snaps[k].susp.id != id {
        if k < |a.snaps| {
          assert b.snaps[k].(state := a.snaps[k].state) == a.snaps[k];
        } else {
          assert SnapStep(a, b, n, k);
        }
      }
      forall d | 0 <= d < |b.dumps| && b.dumps[d].vm.suspended ensures Last(b.dumps[d].vm).id != id {
        if d < |a.dumps| {
          assert b.dumps[d] == a.dumps[d];
        } else {
          assert DumpStep(a, b, d);
        }
      }
    }
  }

  /** A step of session n keeps the ledger. */
  lemma LedgerSteps(a: Sys, b: Sys, n: nat)
    requires Ledger(a) && Steps(a, b, n)
    ensures Ledger(b)
  {
    assert n < |b.nodes| ==> NodeStep(a, b, n);
    assert forall m :: |a.nodes| <= m < |b.nodes| ==> !b.nodes[m].vm.suspended;
    hide Ledger, Steps, Unseen, Holder, SnapPaid;
    if n < |b.nodes| {
      ThisNode(a, b, n);
    }
    forall m | 0 <= m < |b.nodes| ensures NodePaid(b, m) {
      if m < |a.nodes| && m != n {
        OtherNodes(a, b, n, m);
      } else if m != n {
        NoHolder(b, b.nodes[m].vm, b.nodes[m].s.sleeps);
      }
      if Arriving(b.nodes[m].turn) {
        Arrivals(a, b, n, m);
      }
    }
    forall d | 0 <= d < |b.dumps| ensures Holder(b, b.dumps[d].vm, b.dumps[d].sleeps) {
      if d < |a.dumps| {
        OldDumps(a, b, n, d);
      } else {
        NewDumps(a, b, n, d);
      }
    }
    forall k | 0 <= k < |b.snaps| ensures SnapPaid(b, k) {
      Snaps(a, b, n, k);
    }
    LedgerOf(b);
  }

  lemma NoHolder(sys: Sys, vm: Vm, sleeps: seq<Charge>)
    requires !vm.suspended
    ensures Holder(sys, vm, sleeps)
  {
  }

  lemma LedgerOf(sys: Sys)
    requires forall n :: 0 <= n < |sys.nodes| ==> NodePaid(sys, n)
    requires forall d :: 0 <= d < |sys.dumps| ==> Holder(sys, sys.dumps[d].vm, sys.dumps[d].sleeps)
    requires forall k :: 0 <= k < |sys.snaps| ==> SnapPaid(sys, k)
    ensures Ledger(sys)
  {
  }

  // ---------------------------------------------------------------------------
  // Answering an event

  /** The suspension being answered is the session's own, or came from elsewhere already paid for. */
  predicate Owns(c: Ctx, e: Event)
  {
    Suspends(e.kind) ==>
      if c.r.restoring && c.r.restoreSleepCharged then Last(c.vm).owner != c.n else Last(c.vm) == SuspOf(e, c.n)
  }

  ghost predicate Pays(c: Ctx, out: Result2)
  {
    && c.next <= out.c.next
    && (out.c.vm.suspended ==>
        || (c.vm.suspended && Last(out.c.vm) == Last(c.vm))
        || (c.next <= Last(out.c.vm).id < out.c.next && Last(out.c.vm).owner == c.n))
    && (out.o.Suspended? && out.o.delay.Some? && Last(out.c.vm).owner == c.n ==>
        Charged(out.c.s.sleeps, Last(out.c.vm)))
  }

  /** A session that hands out a sleep of its own has charged it. */
  lemma {:induction false} ProgressPays(c: Ctx, e: Event, aborts: seq<Reply>)
    requires Owns(c, e)
    ensures Pays(c, Progress(c, e, aborts))
    decreases |aborts|, 1
  {
    hide Abort, OverSleepBudget, CapDelay, SatAdd, Limit, Charged;
    var counted := c.(r := if Suspends(e.kind) then CountedRun(c.r, e.kind) else c.r.(cancelled := true));
    if Suspends(e.kind) {
      AbortPays(counted, aborts);
      ChargedLast(c.s.sleeps, SuspOf(e, c.n), if e.delay.Some? then CapDelay(c.s, e.delay.value) else 0);
    }
  }

  lemma ChargedLast(cs: seq<Charge>, susp: Susp, d: Nanos)
    ensures Charged(cs + [Charge(susp, d)], susp)
  {
    assert (cs + [Charge(susp, d)])[|cs|].susp == susp;
  }

  lemma {:induction false} AbortPays(c: Ctx, aborts: seq<Reply>)
    requires !c.r.restoring
    ensures Pays(c, Abort(c, aborts))
    decreases |aborts|, 0
  {
    hide Progress, MayExecute, Observe, Charged;
    if MayExecute(c.s) && !c.vm.dead && aborts != [] && Admit(c, aborts[0]).Answer? {
      var e := aborts[0].e;
      var sent := c.(log := c.log + [Req(c.n, AbortFeed, c.run, c.r.step, c.s.heard)]);
      var d := sent.(s := Observe(c.s, e), vm := aborts[0].vm, next := c.next + 1);
      ProgressPays(d, e, aborts[1..]);
    }
  }

  /** A handed-out suspension of the session's own is paid for, and nobody else's. */
  lemma DeliverSnapStep(sys: Sys, n: nat, r: nat, out: Result2)
    requires Ledger(sys) && n < |sys.nodes| && r < |sys.runs| && sys.runs[r].session == n
    requires Answered(CtxOf(sys, n, r), out) && Pays(CtxOf(sys, n, r), out)
    requires sys.nodes[n].vm.suspended && Last(sys.nodes[n].vm).owner == n ==> Unseen(sys, n, Last(sys.nodes[n].vm).id)
    ensures forall k :: |sys.snaps| <= k < |Deliver(sys, out).snaps| ==> SnapStep(sys, Deliver(sys, out), n, k)
  {
    var b := Deliver(sys, out);
    hide Ledger, Accounts, SleepTightens, OnlyAborts, CountExact, Limit, Charged, Unseen, PaysOnly;
    forall k | |sys.snaps| <= k < |b.snaps| ensures SnapStep(sys, b, n, k) {
      assert HandedOut(out.c, out.o.id, out.o.delay);
      if Last(out.c.vm).id >= sys.next {
        NewIsUnseen(sys, n, Last(out.c.vm).id);
      }
    }
  }

  lemma DeliverNodeStep(sys: Sys, n: nat, r: nat, out: Result2)
    requires n < |sys.nodes| && r < |sys.runs| && sys.runs[r].session == n && sys.nodes[n].s.used
    requires sys.nodes[n].turn.NoTurn?
    requires Answered(CtxOf(sys, n, r), out) && Pays(CtxOf(sys, n, r), out)
    ensures NodeStep(sys, Deliver(sys, out), n)
  {
    hide Accounts, SleepTightens, OnlyAborts, HandedOut, PaysOnly, Loaded, Charged;
  }

  lemma DeliverSteps(sys: Sys, n: nat, r: nat, out: Result2)
    requires Ledger(sys) && n < |sys.nodes| && r < |sys.runs| && sys.runs[r].session == n && sys.nodes[n].s.used
    requires sys.nodes[n].turn.NoTurn?
    requires Answered(CtxOf(sys, n, r), out) && Pays(CtxOf(sys, n, r), out)
    requires sys.nodes[n].vm.suspended && Last(sys.nodes[n].vm).owner == n ==> Unseen(sys, n, Last(sys.nodes[n].vm).id)
    ensures Steps(sys, Deliver(sys, out), n)
  {
    DeliverSnapStep(sys, n, r, out);
    DeliverNodeStep(sys, n, r, out);
    hide Ledger, Accounts, SleepTightens, OnlyAborts, HandedOut, Pays, NodeStep, SnapStep, Unseen;
    var b := Deliver(sys, out);
    assert forall m :: 0 <= m < |sys.nodes| ==> SameBook(sys.nodes[m], b.nodes[m]);
  }

  // ---------------------------------------------------------------------------
  // Every action

  lemma BeginFeedSteps(sys: Sys, n: nat)
    requires Ledger(sys) && n < |sys.nodes| && IsIdle(sys.nodes[n].s)
    ensures Steps(sys, DoBeginFeed(sys, n), n)
  {
    assert NodePaid(sys, n);
    hide Ledger, Holder, Unseen;
  }

  lemma SendSteps(sys: Sys, n: nat)
    requires Ledger(sys) && n < |sys.nodes| && sys.nodes[n].turn.Begun?
    ensures Steps(sys, DoSend(sys, n), n)
  {
    assert NodePaid(sys, n);
    hide MayExecute, Ledger, Holder, Unseen;
  }

  lemma CloseSteps(sys: Sys, n: nat)
    requires Ledger(sys) && n < |sys.nodes| && sys.nodes[n].turn.NoTurn?
    ensures Steps(sys, DoCloseBegin(sys, n), n) && Steps(sys, DoCloseReset(sys, n), n)
  {
    assert NodePaid(sys, n);
    hide Ledger, Holder, Unseen;
  }

  lemma InstallSteps(sys: Sys, n: nat, survives: bool)
    requires Ledger(sys) && n < |sys.nodes| && sys.nodes[n].turn.NoTurn?
    ensures Steps(sys, DoInstallDeps(sys, n, survives), n)
  {
    assert NodePaid(sys, n);
    hide Ledger, Holder, Unseen;
  }

  lemma OpenSteps(sys: Sys, a: Action)
    requires a.NewSession?
    ensures Steps(sys, Apply(sys, a), |Apply(sys, a).nodes|)
  {
  }

  /** Nobody's suspension or account is touched when a snapshot changes hands. */
  lemma FlagSteps(sys: Sys, k: nat, state: SnapState)
    ensures Steps(sys, TakeFlag(sys, k, state), |sys.nodes|) && Steps(sys, DoBeginDump(sys, k), |sys.nodes|)
  {
    hide NodeStep, SnapStep, DumpStep, Arriving;
  }

  lemma AbandonSteps(sys: Sys, k: nat, cancels: bool)
    ensures Steps(sys, DoAbandon(sys, k, cancels), |sys.nodes|)
  {
    hide NodeStep, SnapStep, DumpStep, Arriving;
  }

  lemma ResumeSteps(sys: Sys, k: nat)
    requires Ledger(sys) && k < |sys.snaps| && sys.snaps[k].state.Claimed?
    requires Active(sys, k) && !sys.nodes[sys.runs[sys.snaps[k].run].session].s.inTurn
    ensures Steps(sys, DoBeginResume(sys, k), sys.runs[sys.snaps[k].run].session)
  {
    assert NodePaid(sys, sys.runs[sys.snaps[k].run].session);
    hide Ledger, Holder, Unseen;
  }

  lemma DumpSteps(sys: Sys, n: nat, answer: DumpReply, suspensions: U64, lost: nat, from: Option<nat>)
    requires Ledger(sys) && n < |sys.nodes| && sys.nodes[n].turn.NoTurn?
    ensures Steps(sys, TakeDump(sys, n, answer, suspensions, lost, from), n)
  {
    assert NodePaid(sys, n);
    hide Ledger, Holder;
    var b := TakeDump(sys, n, answer, suspensions, lost, from);
    if |b.dumps| > |sys.dumps| {
      assert DumpStep(sys, b, |sys.dumps|);
    }
  }

  lemma LockedLedger(sys: Sys, dumping: multiset<nat>)
    requires Ledger(sys)
    ensures Ledger(sys.(dumping := dumping))
  {
    var b := sys.(dumping := dumping);
    hide Ledger;
    LedgerSteps(sys, b, |sys.nodes|);
  }

  /** No session in a turn has a snapshot that can be dumped. */
  lemma ActiveIsResting(sys: Sys, k: nat)
    requires Inv(sys) && k < |sys.snaps| && Active(sys, k)
    ensures sys.nodes[sys.runs[sys.snaps[k].run].session].turn.NoTurn?
  {
    hide DumpsOk, RunsOk, SnapsOk, LogOk, CountOk, LiveOk;
    assert NodeOk(sys, sys.runs[sys.snaps[k].run].session);
  }

  lemma ReceiveSteps(sys: Sys, n: nat, reply: Reply)
    requires Ledger(sys) && n < |sys.nodes| && sys.nodes[n].turn.Waiting? && sys.nodes[n].s.used
    requires TurnObeys(sys.nodes[n].turn, sys.nodes[n].vm, reply, sys.next, n)
    ensures Steps(sys, DoReceive(sys, n, reply), n)
  {
    assert NodePaid(sys, n);
    hide Observe, Ledger, Holder, Unseen;
    if reply.Answer? {
      ObserveFrame(sys.nodes[n].s, reply.e);
    }
  }

  /** A new suspension is the session's own; a restored one came in with a load, not with a turn. */
  lemma TurnOwns(sys: Sys, left: Sys, n: nat)
    requires Inv(sys) && Ledger(sys) && n < |sys.nodes| && sys.nodes[n].turn.Replied? && sys.nodes[n].turn.event.Some?
    requires FinishedNode(sys, left, n)
    ensures
      var r := sys.nodes[n].turn.run;
      && r < |left.runs| && n < |left.nodes| && Owns(CtxOf(left, n, r), sys.nodes[n].turn.event.value)
      && (left.nodes[n].vm.suspended ==> Unseen(left, n, Last(left.nodes[n].vm).id))
  {
    assert NodeOk(sys, n) && NodePaid(sys, n);
    hide NodesOk, DumpsOk, LogOk, SnapsOk, LiveOk, Ledger, Holder, Accounts;
  }

  lemma FinishFailedSteps(sys: Sys, n: nat, aborts: seq<Reply>)
    requires Ledger(sys) && n < |sys.nodes| && sys.nodes[n].turn.Replied? && sys.nodes[n].turn.event.None?
    requires sys.nodes[n].turn.run < |sys.runs|
    ensures Steps(sys, DoFinish(sys, n, aborts), n)
  {
    assert NodePaid(sys, n);
    hide Ledger, Holder, Unseen;
  }

  lemma LeavingSteps(sys: Sys, left: Sys, n: nat)
    requires Ledger(sys) && n < |sys.nodes| && FinishedNode(sys, left, n)
    ensures Steps(sys, left, n)
  {
    assert NodePaid(sys, n);
    hide Ledger, Holder, Unseen;
  }

  lemma FinishLedger(sys: Sys, n: nat, aborts: seq<Reply>)
    requires Inv(sys) && Books(sys) && Ledger(sys) && n < |sys.nodes| && sys.nodes[n].turn.Replied?
    requires sys.nodes[n].turn.run < |sys.runs|
    ensures Ledger(DoFinish(sys, n, aborts))
  {
    TurnUses(sys, n);
    hide Inv, Books, Ledger, Progress, Answered, Elsewhere, Ending, Pays, Owns, Deliver, DoFinish, Unseen, Steps;
    if sys.nodes[n].turn.event.None? {
      FinishFailedSteps(sys, n, aborts);
      LedgerSteps(sys, DoFinish(sys, n, aborts), n);
    } else {
      var left, r, e := Leaving(sys, n), sys.nodes[n].turn.run, sys.nodes[n].turn.event.value;
      FinishAnswers(sys, n, aborts);
      TurnOwns(sys, left, n);
      ProgressPays(CtxOf(left, n, r), e, aborts);
      LeavingSteps(sys, left, n);
      LedgerSteps(sys, left, n);
      DeliverSteps(left, n, r, Progress(CtxOf(left, n, r), e, aborts));
      LedgerSteps(left, DoFinish(sys, n, aborts), n);
    }
  }

  // ---------------------------------------------------------------------------
  // Restoring

  /** The destination of a restore holds what the dump held, with the dump's account. */
  lemma RestoringSteps(sys: Sys, n: nat, o: nat, b: Sys)
    requires Ledger(sys) && n < |sys.nodes| && !sys.nodes[n].s.used && o < |sys.dumps| && sys.dumps[o].duration >= 0
    requires
      var t := Restoring(sys, n, sys.dumps[o], o);
      && |b.nodes| == |t.nodes| && (forall m :: 0 <= m < |t.nodes| && m != n ==> b.nodes[m] == t.nodes[m])
      && b.nodes[n].s.sleeps == sys.dumps[o].sleeps && b.nodes[n].s.used && !Arriving(b.nodes[n].turn)
      && b.nodes[n].s.systemSleepMax == sys.nodes[n].s.systemSleepMax
      && SameRuns(t, b) && |b.runs| == |t.runs| && b.snaps == sys.snaps && b.dumps == sys.dumps && b.next == sys.next
    requires b.nodes[n].vm.suspended ==> sys.dumps[o].vm.suspended && Last(b.nodes[n].vm) == Last(sys.dumps[o].vm)
    ensures Steps(sys, b, n)
  {
    assert NodePaid(sys, n);
    hide Ledger, Holder, Unseen;
    assert b.nodes[n].vm.suspended ==> Loaded(sys, b, n);
  }

  /** What a dump holds arose in a session that has been used, never in a fresh destination. */
  lemma LoadedOwns(sys: Sys, n: nat, o: nat, e: Event, c: Ctx)
    requires Ledger(sys) && n < |sys.nodes| && !sys.nodes[n].s.used && o < |sys.dumps|
    requires Restores(sys.dumps[o], e, c.vm) && c.n == n && c.r.restoring && c.r.restoreSleepCharged
    ensures Owns(c, e) && (c.vm.suspended ==> Last(c.vm).owner != n)
  {
    assert Holder(sys, sys.dumps[o].vm, sys.dumps[o].sleeps);
    hide Ledger, Paid;
  }

  /** A session that is closed or in no turn has none in progress. */
  lemma ClosedRests(sys: Sys, n: nat)
    requires Inv(sys) && n < |sys.nodes| && (sys.nodes[n].s.closed || !sys.nodes[n].s.inTurn)
    ensures sys.nodes[n].turn.NoTurn?
  {
    hide DumpsOk, RunsOk, SnapsOk, LogOk, CountOk, LiveOk, NotYetSent, NoSnapOf, NoSnapAtStep;
    assert NodeOk(sys, n);
  }

  lemma ToldSteps(sys: Sys, n: nat, o: nat, e: Event, vm: Vm)
    requires Ledger(sys) && n < |sys.nodes| && !sys.nodes[n].s.used && o < |sys.dumps| && sys.dumps[o].duration >= 0
    requires sys.nodes[n].turn.NoTurn? && Restores(sys.dumps[o], e, vm)
    ensures Steps(sys, Told(sys, n, o, e, vm), n)
  {
    hide Ledger, Steps, Observe, RestoredDuration;
    ObserveFrame(Restoring(sys, n, sys.dumps[o], o).nodes[n].s, e);
    RestoringSteps(sys, n, o, Told(sys, n, o, e, vm));
  }

  lemma UnansweredSteps(sys: Sys, n: nat, o: nat, reply: Reply, aborts: seq<Reply>)
    requires Ledger(sys) && n < |sys.nodes| && !sys.nodes[n].s.used && o < |sys.dumps| && sys.dumps[o].duration >= 0
    requires sys.nodes[n].turn.NoTurn? && !sys.nodes[n].vm.suspended && Unanswered(sys, n, o, reply)
    ensures Steps(sys, DoLoad(sys, n, sys.dumps[o], o, reply, aborts), n)
  {
    hide Ledger, Steps, Observe, RestoredDuration;
    if reply.Answer? {
      ObserveFrame(Restoring(sys, n, sys.dumps[o], o).nodes[n].s, reply.e);
    }
    RestoringSteps(sys, n, o, DoLoad(sys, n, sys.dumps[o], o, reply, aborts));
  }

  lemma LoadLedger(sys: Sys, n: nat, o: nat, reply: Reply, aborts: seq<Reply>)
    requires Inv(sys) && Ledger(sys) && n < |sys.nodes| && IsIdle(sys.nodes[n].s) && !sys.nodes[n].s.used
    requires o < |sys.dumps| && sys.dumps[o].duration >= 0
    ensures Ledger(DoLoad(sys, n, sys.dumps[o], o, reply, aborts))
  {
    assert !sys.nodes[n].vm.suspended by { assert NodePaid(sys, n); }
    ClosedRests(sys, n);
    hide Inv, Ledger, Steps, DoLoad, Restores;
    if Unanswered(sys, n, o, reply) {
      UnansweredSteps(sys, n, o, reply, aborts);
      LedgerSteps(sys, DoLoad(sys, n, sys.dumps[o], o, reply, aborts), n);
    } else {
      LoadAnswerLedger(sys, n, o, reply.e, reply.vm, aborts);
    }
  }

  lemma LoadAnswerLedger(sys: Sys, n: nat, o: nat, e: Event, vm: Vm, aborts: seq<Reply>)
    requires Inv(sys) && Ledger(sys) && n < |sys.nodes| && IsIdle(sys.nodes[n].s) && !sys.nodes[n].s.used
    requires o < |sys.dumps| && sys.dumps[o].duration >= 0 && !sys.nodes[n].vm.dead && sys.nodes[n].turn.NoTurn?
    requires Restores(sys.dumps[o], e, vm) && !e.kind.OkEvent?
    ensures Ledger(DoLoad(sys, n, sys.dumps[o], o, Answer(e, vm), aborts))
  {
    hide Inv, Ledger, Steps, DoLoad, Progress, Answered, Ending, Elsewhere, Deliver, Pays, Owns, Unseen, Restores, Told;
    var told, r := Told(sys, n, o, e, vm), |sys.runs|;
    ToldNode(sys, n, o, e, vm);
    var c := CtxOf(told, n, r);
    LoadAnswers(sys, n, o, e, vm, aborts);
    LoadedOwns(sys, n, o, e, c);
    ProgressPays(c, e, aborts);
    ToldSteps(sys, n, o, e, vm);
    LedgerSteps(sys, told, n);
    assert Pays(c, NotCompleted(Progress(c, e, aborts))) by { NotCompletedPays(c, Progress(c, e, aborts)); }
    DeliverSteps(told, n, r, NotCompleted(Progress(c, e, aborts)));
    LedgerSteps(told, Deliver(told, NotCompleted(Progress(c, e, aborts))), n);
  }

  lemma NotCompletedPays(c: Ctx, out: Result2)
    requires Pays(c, out)
    ensures Pays(c, NotCompleted(out))
  {
  }

  lemma ToldNode(sys: Sys, n: nat, o: nat, e: Event, vm: Vm)
    requires n < |sys.nodes| && o < |sys.dumps| && sys.dumps[o].duration >= 0
    ensures
      var told, r := Told(sys, n, o, e, vm), |sys.runs|;
      && |told.nodes| == |sys.nodes| && |told.runs| == r + 1 && told.runs[r].session == n
      && told.nodes[n].vm == vm && told.nodes[n].turn == sys.nodes[n].turn && told.nodes[n].s.used
      && told.runs[r].restoring && told.runs[r].restoreSleepCharged
  {
    hide Observe, RestoredDuration;
    ObserveFrame(Restoring(sys, n, sys.dumps[o], o).nodes[n].s, e);
  }

  lemma ResumeLedger(sys: Sys, k: nat)
    requires Ledger(sys)
    ensures Ledger(DoBeginResume(sys, k))
  {
    hide Ledger, Steps;
    if k < |sys.snaps| && sys.snaps[k].state.Claimed? {
      if Active(sys, k) && !sys.nodes[sys.runs[sys.snaps[k].run].session].s.inTurn {
        ResumeSteps(sys, k);
        LedgerSteps(sys, DoBeginResume(sys, k), sys.runs[sys.snaps[k].run].session);
      } else {
        AbandonSteps(sys, k, false);
        LedgerSteps(sys, DoAbandon(sys, k, false), |sys.nodes|);
      }
    }
  }

  lemma SnapshotDumpLedger(sys: Sys, k: nat, answer: DumpReply)
    requires Inv(sys) && Ledger(sys)
    ensures Ledger(DoDumpSnapshot(sys, k, answer))
  {
    hide Inv, Ledger, Steps, TakeDump;
    if k < |sys.snaps| {
      var locked := sys.(dumping := sys.dumping - multiset{k});
      LockedLedger(sys, locked.dumping);
      if Active(sys, k) {
        var r := sys.snaps[k].run;
        var n := sys.runs[r].session;
        ActiveIsResting(sys, k);
        DumpSteps(locked, n, answer, sys.runs[r].suspensions, sys.runs[r].lost, Some(r));
        LedgerSteps(locked, TakeDump(locked, n, answer, sys.runs[r].suspensions, sys.runs[r].lost, Some(r)), n);
      }
    }
  }

  lemma SessionDumpLedger(sys: Sys, n: nat, answer: DumpReply)
    requires Inv(sys) && Ledger(sys)
    ensures Ledger(DoDumpSession(sys, n, answer))
  {
    hide Inv, Ledger, Steps, TakeDump;
    if n < |sys.nodes| && IsIdle(sys.nodes[n].s) {
      ClosedRests(sys, n);
      DumpSteps(sys, n, answer, 0, if sys.nodes[n].vm.suspended then |sys.nodes[n].vm.hist| else 0, None);
      LedgerSteps(sys, DoDumpSession(sys, n, answer), n);
    }
  }

  lemma SendLedger(sys: Sys, n: nat)
    requires Ledger(sys)
    ensures Ledger(DoBeginFeed(sys, n)) && Ledger(DoSend(sys, n))
  {
    hide Ledger, Steps, MayExecute;
    if n < |sys.nodes| && IsIdle(sys.nodes[n].s) {
      BeginFeedSteps(sys, n);
      LedgerSteps(sys, DoBeginFeed(sys, n), n);
    }
    if n < |sys.nodes| && sys.nodes[n].turn.Begun? {
      SendSteps(sys, n);
      LedgerSteps(sys, DoSend(sys, n), n);
    }
  }

  lemma ReceiveLedger(sys: Sys, n: nat, reply: Reply)
    requires Inv(sys) && Books(sys) && Ledger(sys)
    ensures Ledger(DoReceive(sys, n, reply))
  {
    hide Inv, Books, Ledger, Steps, TurnObeys, Observe;
    if n < |sys.nodes| && sys.nodes[n].turn.Waiting?
       && TurnObeys(sys.nodes[n].turn, sys.nodes[n].vm, reply, sys.next, n) {
      TurnUses(sys, n);
      ReceiveSteps(sys, n, reply);
      LedgerSteps(sys, DoReceive(sys, n, reply), n);
    }
  }

  lemma CloseLedger(sys: Sys, n: nat, survives: bool)
    requires Inv(sys) && Ledger(sys)
    ensures Ledger(DoInstallDeps(sys, n, survives)) && Ledger(DoCloseBegin(sys, n)) && Ledger(DoCloseReset(sys, n))
  {
    hide Inv, Ledger, Steps;
    if n < |sys.nodes| && (sys.nodes[n].s.closed || !sys.nodes[n].s.inTurn) {
      ClosedRests(sys, n);
      CloseSteps(sys, n);
      InstallSteps(sys, n, survives);
      LedgerSteps(sys, DoInstallDeps(sys, n, survives), n);
      LedgerSteps(sys, DoCloseBegin(sys, n), n);
      LedgerSteps(sys, DoCloseReset(sys, n), n);
    }
  }

  lemma FlagLedger(sys: Sys, k: nat, state: SnapState, cancels: bool)
    requires Ledger(sys)
    ensures Ledger(TakeFlag(sys, k, state)) && Ledger(DoBeginDump(sys, k)) && Ledger(DoAbandon(sys, k, cancels))
  {
    hide Ledger, Steps, TakeFlag, DoBeginDump, DoAbandon;
    FlagSteps(sys, k, state);
    AbandonSteps(sys, k, cancels);
    LedgerSteps(sys, TakeFlag(sys, k, state), |sys.nodes|);
    LedgerSteps(sys, DoBeginDump(sys, k), |sys.nodes|);
    LedgerSteps(sys, DoAbandon(sys, k, cancels), |sys.nodes|);
  }

  lemma ActionLedger(sys: Sys, a: Action)
    requires Inv(sys) && Books(sys) && Ledger(sys)
    ensures Ledger(Apply(sys, a))
  {
    hide Inv, Books, Ledger, Steps, DoFinish, DoLoad, DoAbandon, DoBeginDump, DoDumpSnapshot, DoDumpSession,
      DoInstallDeps, TakeFlag, DoBeginFeed, DoSend, DoReceive, DoBeginResume, DoCloseBegin, DoCloseReset;
    match a {
      case NewSession(_, _, _, _, _, _) =>
        OpenSteps(sys, a);
        LedgerSteps(sys, Apply(sys, a), |Apply(sys, a).nodes|);
      case BeginFeed(n) => SendLedger(sys, n);
      case Send(n) => SendLedger(sys, n);
      case Receive(n, reply) => ReceiveLedger(sys, n, reply);
      case Finish(n, aborts) =>
        if n < |sys.nodes| && sys.nodes[n].turn.Replied? && sys.nodes[n].turn.run < |sys.runs| {
          FinishLedger(sys, n, aborts);
        }
      case Claim(k) => FlagLedger(sys, k, Claimed, false);
      case Drop(k) => FlagLedger(sys, k, Spent, false);
      case BeginDump(k) => FlagLedger(sys, k, Fresh, false);
      case BeginResume(k) => ResumeLedger(sys, k);
      case Abandon(k, cancels) => FlagLedger(sys, k, Spent, cancels);
      case DumpSnapshot(k, answer) => SnapshotDumpLedger(sys, k, answer);
      case DumpSession(n, answer) => SessionDumpLedger(sys, n, answer);
      case LoadDump(n, d, reply, aborts) =>
        if n < |sys.nodes| && d < |sys.dumps| && sys.dumps[d].duration >= 0
           && IsIdle(sys.nodes[n].s) && !sys.nodes[n].s.used {
          LoadLedger(sys, n, d, reply, aborts);
        }
      case InstallDeps(n, survives) => CloseLedger(sys, n, survives);
      case CloseBegin(n) => CloseLedger(sys, n, true);
      case CloseReset(n) => CloseLedger(sys, n, true);
    }
  }

  lemma {:induction false} RunLedger(actions: seq<Action>)
    ensures Ledger(Execute(EMPTY, actions))
    decreases |actions|
  {
    hide Apply, Inv, Books, Ledger;
    if actions == [] {
      NoLedger();
    } else {
      RunLedger(actions[..|actions| - 1]);
      RunKeeps(actions[..|actions| - 1]);
      RunBooks(actions[..|actions| - 1]);
      ActionLedger(Execute(EMPTY, actions[..|actions| - 1]), actions[|actions| - 1]);
    }
  }

  lemma NoLedger()
    ensures Ledger(EMPTY)
  {
  }
}
