/** What every action of the session system keeps. */
module SessionInvariant {
  import opened Common
  import opened Session
  import opened SessionSystem

  function TurnRun(t: Turn): nat
    requires !t.NoTurn?
  {
    t.run
  }

  predicate TurnEntry(q: Req) { q.kind.Feed? || q.kind.Resume? }

  predicate SameTurn(p: Req, q: Req) { TurnEntry(p) && TurnEntry(q) && p.run == q.run }

  // ---------------------------------------------------------------------------
  // One session

  /** All snapshots of the run were issued for earlier steps. */
  ghost predicate NoSnapAtStep(sys: Sys, r: nat)
    requires r < |sys.runs|
  {
    forall k :: 0 <= k < |sys.snaps| && sys.snaps[k].run == r ==> sys.snaps[k].step < sys.runs[r].step
  }

  ghost predicate NoSnapOf(sys: Sys, r: nat)
  {
    forall k :: 0 <= k < |sys.snaps| ==> sys.snaps[k].run != r
  }

  ghost predicate NotYetSent(sys: Sys, r: nat)
    requires r < |sys.runs|
  {
    forall i :: 0 <= i < |sys.log| && TurnEntry(sys.log[i]) && sys.log[i].run == r ==>
      sys.log[i].step < sys.runs[r].step
  }

  /** A turn holds its run exclusively, and nobody has a snapshot of the step it is serving. */
  ghost predicate TurnOk(sys: Sys, n: nat)
    requires n < |sys.nodes|
  {
    var nd := sys.nodes[n];
    && (nd.s.inTurn <==> !nd.turn.NoTurn?)
    && (nd.s.pending.Some? ==> nd.s.pending.value < |sys.runs| && sys.runs[nd.s.pending.value].session == n)
    && (nd.s.closed ==> !nd.s.inTurn && nd.s.pending.None?)
    && (nd.resetSent ==> nd.s.closed)
    && (!nd.turn.NoTurn? ==>
        var r := TurnRun(nd.turn);
        && r < |sys.runs| && sys.runs[r].session == n
        && (nd.turn.feed ==> nd.s.pending.None? && sys.runs[r].step == 0 && NoSnapOf(sys, r))
        && (!nd.turn.feed ==> nd.s.pending == Some(r) && NoSnapAtStep(sys, r))
        && (nd.turn.Begun? ==> NotYetSent(sys, r)))
  }

  /** Between turns the counters agree with the worker's history. */
  ghost predicate CountOk(sys: Sys, n: nat)
    requires n < |sys.nodes|
  {
    var nd := sys.nodes[n];
    && Accounts(Ctx(n, 0, nd.s, Run(n, 0, 0, false, false, false, 0, None), nd.vm, sys.next, []))
    && (!nd.turn.NoTurn? && TurnRun(nd.turn) < |sys.runs| ==>
        var r := sys.runs[TurnRun(nd.turn)];
        && !r.restoring
        && (!nd.turn.Replied? && nd.turn.feed ==> r.suspensions == 0 && r.lost == 0)
        && (!nd.turn.Replied? && !nd.turn.feed ==> CountExact(r, nd.vm, 0))
        && (nd.turn.Replied? && nd.turn.event.Some? ==> Ready(CtxOf(sys, n, TurnRun(nd.turn)), nd.turn.event.value)))
  }

  ghost predicate LiveOk(sys: Sys, n: nat)
    requires n < |sys.nodes|
  {
    forall k :: 0 <= k < |sys.snaps| && Active(sys, k) && sys.runs[sys.snaps[k].run].session == n ==>
      && sys.snaps[k].susp == Last(sys.nodes[n].vm)
      && HandedOut(CtxOf(sys, n, sys.snaps[k].run), sys.snaps[k].susp.id, sys.snaps[k].delay)
  }

  ghost predicate NodeOk(sys: Sys, n: nat)
    requires n < |sys.nodes|
  {
    TurnOk(sys, n) && CountOk(sys, n) && LiveOk(sys, n)
  }

  // ---------------------------------------------------------------------------
  // The whole system

  ghost predicate RunsOk(sys: Sys)
  {
    forall r :: 0 <= r < |sys.runs| ==> sys.runs[r].session < |sys.nodes|
  }

  /** At most one snapshot per run and step, never beyond the run's step. */
  ghost predicate SnapsOk(sys: Sys)
  {
    && (forall k :: 0 <= k < |sys.snaps| ==>
        sys.snaps[k].run < |sys.runs| && sys.snaps[k].step <= sys.runs[sys.snaps[k].run].step)
    && (forall j, k :: 0 <= j < k < |sys.snaps| && sys.snaps[j].run == sys.snaps[k].run ==>
        sys.snaps[j].step != sys.snaps[k].step)
  }

  /** At most one request per run and step, and nothing after a session's reset. */
  ghost predicate LogOk(sys: Sys)
  {
    && (forall i :: 0 <= i < |sys.log| ==> sys.log[i].session < |sys.nodes|)
    && (forall i :: 0 <= i < |sys.log| && TurnEntry(sys.log[i]) ==>
        && sys.log[i].run < |sys.runs| && sys.log[i].step <= sys.runs[sys.log[i].run].step
        && sys.runs[sys.log[i].run].session == sys.log[i].session)
    && (forall i, j :: (0 <= i < j < |sys.log| && SameTurn(sys.log[i], sys.log[j])) ==>
        sys.log[i].step < sys.log[j].step)
    && (forall i :: 0 <= i < |sys.log| && sys.log[i].kind.Reset? ==> sys.nodes[sys.log[i].session].resetSent)
    && (forall i, j :: 0 <= i < j < |sys.log| && sys.log[i].kind.Reset? ==> sys.log[j].session != sys.log[i].session)
  }

  ghost predicate DumpOk(d: Dump, next: nat)
  {
    && VmOk(d.vm, next)
    && d.sleepUsed == SatSum(d.sleeps) && DistinctCharges(d.sleeps)
    && (forall i :: 0 <= i < |d.sleeps| ==> d.sleeps[i].susp.id < next)
    && (d.vm.suspended ==>
        && (d.suspensions + d.lost) % TWO64 == |d.vm.hist| % TWO64
        && (d.lost == 0 && Last(d.vm).delay.Some? ==> Charged(d.sleeps, Last(d.vm))))
  }

  ghost predicate DumpsOk(sys: Sys)
  {
    forall d :: 0 <= d < |sys.dumps| ==> DumpOk(sys.dumps[d], sys.next)
  }

  ghost predicate NodesOk(sys: Sys)
  {
    forall n :: 0 <= n < |sys.nodes| ==> NodeOk(sys, n)
  }

  ghost predicate Inv(sys: Sys)
  {
    RunsOk(sys) && SnapsOk(sys) && LogOk(sys) && DumpsOk(sys) && NodesOk(sys)
  }

  // ---------------------------------------------------------------------------
  // A step of session n leaves every other session alone

  ghost predicate SameSnaps(a: Sys, b: Sys)
  {
    && |a.snaps| <= |b.snaps|
    && forall k :: 0 <= k < |a.snaps| ==> b.snaps[k].(state := a.snaps[k].state) == a.snaps[k]
  }

  ghost predicate Elsewhere(a: Sys, b: Sys, n: nat)
  {
    && |a.nodes| <= |b.nodes| && |a.runs| <= |b.runs| && a.next <= b.next && a.log <= b.log && a.dumps <= b.dumps
    && (forall m :: 0 <= m < |a.nodes| && m != n ==> b.nodes[m] == a.nodes[m])
    && (forall r :: 0 <= r < |a.runs| ==> b.runs[r].session == a.runs[r].session && a.runs[r].step <= b.runs[r].step)
    && (forall r :: 0 <= r < |a.runs| && a.runs[r].session != n ==> b.runs[r] == a.runs[r])
    && (forall r :: |a.runs| <= r < |b.runs| ==> b.runs[r].session == n)
    && SameSnaps(a, b)
    && (forall k :: |a.snaps| <= k < |b.snaps| ==> b.snaps[k].run < |b.runs| && b.runs[b.snaps[k].run].session == n)
    && (forall i :: |a.log| <= i < |b.log| ==> b.log[i].session == n)
    && (forall i :: |a.log| <= i < |b.log| && TurnEntry(b.log[i]) ==>
        b.log[i].run < |b.runs| && b.runs[b.log[i].run].session == n)
  }

  lemma TurnStays(a: Sys, b: Sys, n: nat, m: nat)
    requires RunsOk(a) && SnapsOk(a) && Elsewhere(a, b, n)
    requires m < |a.nodes| && m != n && TurnOk(a, m)
    ensures TurnOk(b, m)
  {
    var nd := a.nodes[m];
    if !nd.turn.NoTurn? {
      var r := TurnRun(nd.turn);
      assert b.runs[r] == a.runs[r];
    }
  }

  lemma CountStays(a: Sys, b: Sys, n: nat, m: nat)
    requires RunsOk(a) && Elsewhere(a, b, n)
    requires m < |a.nodes| && m != n && TurnOk(a, m) && CountOk(a, m)
    ensures CountOk(b, m)
  {
    hide NoSnapOf, NoSnapAtStep, NotYetSent, SatSum;
    var nd := a.nodes[m];
    if !nd.turn.NoTurn? {
      var r := TurnRun(nd.turn);
      assert b.runs[r] == a.runs[r];
    }
  }

  lemma LiveStays(a: Sys, b: Sys, n: nat, m: nat)
    requires RunsOk(a) && SnapsOk(a) && Elsewhere(a, b, n)
    requires m < |a.nodes| && m != n && LiveOk(a, m)
    ensures LiveOk(b, m)
  {
    forall k | 0 <= k < |b.snaps| && Active(b, k) && b.runs[b.snaps[k].run].session == m
      ensures b.snaps[k].susp == Last(b.nodes[m].vm)
      ensures HandedOut(CtxOf(b, m, b.snaps[k].run), b.snaps[k].susp.id, b.snaps[k].delay)
    {
      assert k < |a.snaps|;
      var r := a.snaps[k].run;
      assert b.runs[r] == a.runs[r];
      assert Active(a, k);
    }
  }

  lemma OthersStay(a: Sys, b: Sys, n: nat)
    requires RunsOk(a) && SnapsOk(a) && NodesOk(a) && Elsewhere(a, b, n)
    requires forall m :: |a.nodes| <= m < |b.nodes| ==> NodeOk(b, m)
    requires n < |b.nodes| ==> NodeOk(b, n)
    ensures NodesOk(b)
  {
    hide TurnOk, CountOk, LiveOk, Elsewhere;
    forall m | 0 <= m < |b.nodes| ensures NodeOk(b, m) {
      if m < |a.nodes| && m != n {
        assert NodeOk(a, m);
        TurnStays(a, b, n, m);
        CountStays(a, b, n, m);
        LiveStays(a, b, n, m);
      }
    }
  }

  // ---------------------------------------------------------------------------
  // Appending to the log

  /** Entries of a live session that are no turn entries can be appended freely. */
  lemma LogGrows(a: Sys, b: Sys, n: nat)
    requires LogOk(a) && Elsewhere(a, b, n) && n < |b.nodes|
    requires n < |a.nodes| ==> !a.nodes[n].resetSent && !b.nodes[n].resetSent
    requires forall i :: |a.log| <= i < |b.log| ==> !TurnEntry(b.log[i]) && !b.log[i].kind.Reset?
    ensures LogOk(b)
  {
    forall i, j | 0 <= i < j < |b.log| && b.log[i].kind.Reset? ensures b.log[j].session != b.log[i].session {
      assert a.log[i] == b.log[i];
      if j < |a.log| {
        assert a.log[j] == b.log[j];
      }
    }
    forall i | 0 <= i < |b.log| && b.log[i].kind.Reset? ensures b.nodes[b.log[i].session].resetSent {
      assert a.log[i] == b.log[i];
    }
    forall i, j | 0 <= i < j < |b.log| && SameTurn(b.log[i], b.log[j]) ensures b.log[i].step < b.log[j].step {
      assert a.log[i] == b.log[i] && a.log[j] == b.log[j];
    }
    forall i | 0 <= i < |b.log| && TurnEntry(b.log[i])
      ensures b.log[i].run < |b.runs| && b.log[i].step <= b.runs[b.log[i].run].step
      ensures b.runs[b.log[i].run].session == b.log[i].session
    {
      assert a.log[i] == b.log[i];
    }
  }

  // ---------------------------------------------------------------------------
  // Ending a critical section that answered an event

  ghost predicate Ending(sys: Sys, n: nat, r: nat)
  {
    && n < |sys.nodes| && r < |sys.runs| && sys.runs[r].session == n
    && RunsOk(sys) && SnapsOk(sys) && LogOk(sys) && DumpsOk(sys)
    && sys.nodes[n].turn.NoTurn? && !sys.nodes[n].s.inTurn && !sys.nodes[n].s.closed && !sys.nodes[n].resetSent
    && (if sys.nodes[n].s.pending.None? then NoSnapOf(sys, r)
        else sys.nodes[n].s.pending == Some(r) && NoSnapAtStep(sys, r))
  }

  lemma DeliverElsewhere(sys: Sys, n: nat, r: nat, out: Result2)
    requires Ending(sys, n, r) && Answered(CtxOf(sys, n, r), out)
    ensures Elsewhere(sys, Deliver(sys, out), n)
    ensures RunsOk(Deliver(sys, out)) && DumpsOk(Deliver(sys, out))
  {
    hide SnapsOk, LogOk, NoSnapOf, NoSnapAtStep, HandedOut, Accounts, SleepTightens, SatSum;
  }

  lemma DeliverSnaps(sys: Sys, n: nat, r: nat, out: Result2)
    requires Ending(sys, n, r) && Answered(CtxOf(sys, n, r), out)
    ensures SnapsOk(Deliver(sys, out))
  {
    hide LogOk, DumpsOk, HandedOut, Accounts, SleepTightens;
  }

  lemma DeliverNode(sys: Sys, n: nat, r: nat, out: Result2)
    requires Ending(sys, n, r) && Answered(CtxOf(sys, n, r), out)
    ensures NodeOk(Deliver(sys, out), n)
  {
    hide LogOk, DumpsOk, SleepTightens, SatSum, OnlyAborts;
    var b := Deliver(sys, out);
    assert TurnOk(b, n);
    assert CountOk(b, n);
    forall k | 0 <= k < |b.snaps| && Active(b, k) && b.runs[b.snaps[k].run].session == n
      ensures b.snaps[k].susp == Last(b.nodes[n].vm)
      ensures HandedOut(CtxOf(b, n, b.snaps[k].run), b.snaps[k].susp.id, b.snaps[k].delay)
    {
      assert b.snaps[k].run == r;
      assert k == |sys.snaps|;
    }
  }

  lemma DeliverLog(sys: Sys, n: nat, r: nat, out: Result2)
    requires Ending(sys, n, r) && Answered(CtxOf(sys, n, r), out)
    ensures LogOk(Deliver(sys, out))
  {
    DeliverElsewhere(sys, n, r, out);
    hide SnapsOk, DumpsOk, NoSnapOf, NoSnapAtStep, HandedOut, Accounts, SleepTightens, LogOk, Elsewhere;
    var b := Deliver(sys, out);
    LogGrows(sys, b, n);
  }
}
