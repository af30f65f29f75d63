/**
 When host input is accepted, and what it becomes: a root is refused exactly when some path
 from it runs into trouble, and an accepted root is its plain unfolding.
 */
module HostPaths {
  import opened Common
  import opened Wire
  import opened Values
  import opened Nested
  import opened Arena
  import opened ArenaDecode
  import opened ArenaMeaning
  import opened ArenaTheorems
  import opened HostGraph

  // ---------------------------------------------------------------------------
  // Paths

  ghost predicate IsPath(heap: Heap, p: seq<Ref>)
  {
    && p != []
    && (forall i :: 0 <= i < |p| ==> p[i] < |heap|)
    && forall i :: 0 <= i < |p| - 1 ==> p[i + 1] in Children(heap[p[i]])
  }

  /** Containers entered before reaching the last node; pointers are free. */
  function Levels(heap: Heap, p: seq<Ref>): nat
    requires forall i :: 0 <= i < |p| ==> p[i] < |heap|
  {
    if |p| <= 1 then 0 else (if heap[p[0]].Pointer? then 0 else 1) + Levels(heap, p[1..])
  }

  /**
   A path ends in trouble when its last node is too deep, has no encoding, or has the identity
   of a node already being visited.
   */
  ghost predicate Trouble(heap: Heap, p: seq<Ref>, stack: set<Key>, depth: nat)
    requires IsPath(heap, p)
  {
    var last := heap[p[|p| - 1]];
    || depth + Levels(heap, p) > MAX_VALUE_DEPTH
    || last.Unsupported?
    || Blocked(last, stack)
    || (Identity(last).Some? && exists i :: 0 <= i < |p| - 1 && Identity(heap[p[i]]) == Identity(last))
  }

  lemma TroubleAbove(heap: Heap, r: Ref, p: seq<Ref>, stack: set<Key>, depth: nat)
    requires IsPath(heap, p) && r < |heap| && p[0] in Children(heap[r])
    ensures IsPath(heap, [r] + p)
    ensures Trouble(heap, p, Push(stack, heap[r]), depth + Step(heap[r])) <==> Trouble(heap, [r] + p, stack, depth)
  {
    var q := [r] + p;
    assert q[1..] == p;
    var last := heap[p[|p| - 1]];
    assert q[|q| - 1] == p[|p| - 1];
    if i :| 0 <= i < |p| - 1 && Identity(heap[p[i]]) == Identity(last) {
      assert q[i + 1] == p[i];
    }
    if Identity(heap[r]) == Identity(last) {
      assert q[0] == r;
    }
  }

  /** A failed encoding exhibits the path that caused it. */
  lemma {:induction false} FailureHasPath(heap: Heap, r: Ref, stack: set<Key>, depth: nat) returns (p: seq<Ref>)
    requires WellFormed(heap) && r < |heap| && depth <= MAX_VALUE_DEPTH + 1
    requires Reify(heap, r, stack, depth).Err?
    ensures IsPath(heap, p) && p[0] == r && Trouble(heap, p, stack, depth)
    decreases MAX_VALUE_DEPTH + 1 - depth, |Identities(heap) - stack|, 0, 0
  {
    hide ReifyAll, Trouble;
    var n := heap[r];
    if depth > MAX_VALUE_DEPTH || Blocked(n, stack) || n.Unsupported? {
      p := [r];
      TroubleAtOnce(heap, p, stack, depth);
    } else {
      if n.Pointer? {
        PushShrinks(heap, r, stack);
        assert Children(n)[0] == n.target;
        p := FailureHasPath(heap, n.target, Push(stack, n), depth);
      } else {
        p := SomeChildFails(heap, Children(n), Push(stack, n), depth + 1);
      }
      TroubleAbove(heap, r, p, stack, depth);
      p := [r] + p;
    }
  }

  lemma TroubleAtOnce(heap: Heap, p: seq<Ref>, stack: set<Key>, depth: nat)
    requires IsPath(heap, p) && |p| == 1
    requires depth > MAX_VALUE_DEPTH || heap[p[0]].Unsupported? || Blocked(heap[p[0]], stack)
    ensures Trouble(heap, p, stack, depth)
  {
  }

  lemma {:induction false} SomeChildFails(heap: Heap, refs: seq<Ref>, stack: set<Key>, depth: nat) returns (p: seq<Ref>)
    requires WellFormed(heap) && depth <= MAX_VALUE_DEPTH + 1
    requires forall i :: 0 <= i < |refs| ==> refs[i] < |heap|
    requires ReifyAll(heap, refs, stack, depth).Err?
    ensures IsPath(heap, p) && p[0] in refs && Trouble(heap, p, stack, depth)
    decreases MAX_VALUE_DEPTH + 1 - depth, |Identities(heap) - stack|, 1, |refs|
  {
    hide Reify, Trouble;
    if Reify(heap, refs[0], stack, depth).Err? {
      p := FailureHasPath(heap, refs[0], stack, depth);
    } else {
      p := SomeChildFails(heap, refs[1..], stack, depth);
    }
  }

  lemma {:induction false} ChildrenSucceed(heap: Heap, refs: seq<Ref>, stack: set<Key>, depth: nat, i: nat)
    requires WellFormed(heap) && depth <= MAX_VALUE_DEPTH + 1
    requires forall j :: 0 <= j < |refs| ==> refs[j] < |heap|
    requires ReifyAll(heap, refs, stack, depth).Ok? && i < |refs|
    ensures Reify(heap, refs[i], stack, depth).Ok?
    decreases |refs|
  {
    hide Reify;
    if i > 0 {
      ChildrenSucceed(heap, refs[1..], stack, depth, i - 1);
    }
  }

  lemma ChildReified(heap: Heap, r: Ref, c: Ref, stack: set<Key>, depth: nat)
    requires WellFormed(heap) && r < |heap| && depth <= MAX_VALUE_DEPTH
    requires Reify(heap, r, stack, depth).Ok? && c in Children(heap[r])
    ensures c < |heap| && Reify(heap, c, Push(stack, heap[r]), depth + Step(heap[r])).Ok?
  {
    hide ReifyAll, Identities;
    var i :| 0 <= i < |Children(heap[r])| && Children(heap[r])[i] == c;
    if !heap[r].Pointer? {
      ChildrenSucceed(heap, Children(heap[r]), Push(stack, heap[r]), depth + 1, i);
    }
  }

  lemma {:induction false} PathMeansFailure(heap: Heap, p: seq<Ref>, stack: set<Key>, depth: nat)
    requires WellFormed(heap) && depth <= MAX_VALUE_DEPTH + 1
    requires IsPath(heap, p) && Trouble(heap, p, stack, depth)
    ensures Reify(heap, p[0], stack, depth).Err?
    decreases |p|
  {
    hide ReifyAll;
    if |p| > 1 && Reify(heap, p[0], stack, depth).Ok? {
      hide Reify, Trouble;
      var q := p[1..];
      assert [p[0]] + q == p;
      assert IsPath(heap, q);
      TroubleAbove(heap, p[0], q, stack, depth);
      assert depth <= MAX_VALUE_DEPTH by { OkIsShallow(heap, p[0], stack, depth); }
      ChildReified(heap, p[0], q[0], stack, depth);
      PathMeansFailure(heap, q, Push(stack, heap[p[0]]), depth + Step(heap[p[0]]));
      assert false;
    }
  }

  lemma OkIsShallow(heap: Heap, r: Ref, stack: set<Key>, depth: nat)
    requires WellFormed(heap) && r < |heap| && depth <= MAX_VALUE_DEPTH + 1
    requires Reify(heap, r, stack, depth).Ok?
    ensures depth <= MAX_VALUE_DEPTH
  {
  }

  ghost predicate Troubled(heap: Heap, r: Ref)
  {
    exists p :: IsPath(heap, p) && p[0] == r && Trouble(heap, p, {}, 0)
  }

  /** A value is refused if and only if some path from it ends in trouble. */
  lemma RefusedIffTroubled(heap: Heap, r: Ref)
    requires WellFormed(heap) && r < |heap|
    ensures Reify(heap, r, {}, 0).Err? <==> Troubled(heap, r)
  {
    hide Reify, Trouble;
    if Reify(heap, r, {}, 0).Err? {
      var p := FailureHasPath(heap, r, {}, 0);
    }
    if Troubled(heap, r) {
      var p :| IsPath(heap, p) && p[0] == r && Trouble(heap, p, {}, 0);
      PathMeansFailure(heap, p, {}, 0);
    }
  }

  // ---------------------------------------------------------------------------
  // Unfolding, with neither a visit stack nor a depth bound

  function Unfold(heap: Heap, r: Ref, fuel: nat): (res: Result<Value>)
    requires WellFormed(heap) && r < |heap|
    decreases fuel, 0
  {
    var n := heap[r];
    if fuel == 0 then Err
    else
      match n
      case Scalar(v) => Ok(v)
      case Unsupported => Err
      case Pointer(_, target) => assert Children(n)[0] == target; Unfold(heap, target, fuel - 1)
      case _ =>
        match UnfoldAll(heap, Children(n), fuel - 1)
        case Err => Err
        case Ok(vs) => Ok(Assembled(n, vs))
  }

  function UnfoldAll(heap: Heap, refs: seq<Ref>, fuel: nat): (res: Result<seq<Value>>)
    requires WellFormed(heap)
    requires forall i :: 0 <= i < |refs| ==> refs[i] < |heap|
    decreases fuel, 1, |refs|
  {
    if refs == [] then Ok([])
    else
      match Unfold(heap, refs[0], fuel)
      case Err => Err
      case Ok(v) => Prepend([v], UnfoldAll(heap, refs[1..], fuel))
  }

  /** The graph from r unfolds to the finite tree v. */
  ghost predicate Unfolds(heap: Heap, r: Ref, v: Value)
    requires WellFormed(heap) && r < |heap|
  {
    exists fuel: nat :: Unfold(heap, r, fuel) == Ok(v)
  }

  lemma {:induction false} UnfoldMonotone(heap: Heap, r: Ref, fuel: nat, more: nat)
    requires WellFormed(heap) && r < |heap| && fuel <= more
    requires Unfold(heap, r, fuel).Ok?
    ensures Unfold(heap, r, more) == Unfold(heap, r, fuel)
    decreases fuel, 0
  {
    hide UnfoldAll;
    var n := heap[r];
    if n.Pointer? {
      assert Children(n)[0] == n.target;
      UnfoldMonotone(heap, n.target, fuel - 1, more - 1);
    } else if !n.Scalar? {
      UnfoldAllMonotone(heap, Children(n), fuel - 1, more - 1);
    }
  }

  lemma {:induction false} UnfoldAllMonotone(heap: Heap, refs: seq<Ref>, fuel: nat, more: nat)
    requires WellFormed(heap) && fuel <= more
    requires forall i :: 0 <= i < |refs| ==> refs[i] < |heap|
    requires UnfoldAll(heap, refs, fuel).Ok?
    ensures UnfoldAll(heap, refs, more) == UnfoldAll(heap, refs, fuel)
    decreases fuel, 1, |refs|
  {
    hide Unfold;
    if refs != [] {
      UnfoldMonotone(heap, refs[0], fuel, more);
      UnfoldAllMonotone(heap, refs[1..], fuel, more);
    }
  }

  lemma UnfoldingUnique(heap: Heap, r: Ref, v: Value, w: Value)
    requires WellFormed(heap) && r < |heap|
    requires Unfolds(heap, r, v) && Unfolds(heap, r, w)
    ensures v == w
  {
    hide Unfold;
    var f: nat :| Unfold(heap, r, f) == Ok(v);
    var g: nat :| Unfold(heap, r, g) == Ok(w);
    if f <= g {
      UnfoldMonotone(heap, r, f, g);
    } else {
      UnfoldMonotone(heap, r, g, f);
    }
  }

  lemma {:induction false} ReifyUnfolds(heap: Heap, r: Ref, stack: set<Key>, depth: nat) returns (fuel: nat)
    requires WellFormed(heap) && r < |heap| && depth <= MAX_VALUE_DEPTH + 1
    requires Reify(heap, r, stack, depth).Ok?
    ensures Unfold(heap, r, fuel) == Reify(heap, r, stack, depth)
    decreases MAX_VALUE_DEPTH + 1 - depth, |Identities(heap) - stack|, 0, 0
  {
    hide ReifyAll, UnfoldAll, Pairs, EntryRefs, Identities, Encodable;
    var n := heap[r];
    if n.Scalar? {
      fuel := 1;
    } else if n.Pointer? {
      PushShrinks(heap, r, stack);
      assert Children(n)[0] == n.target;
      fuel := ReifyUnfolds(heap, n.target, Push(stack, n), depth);
      fuel := fuel + 1;
    } else {
      fuel := ReifyAllUnfolds(heap, Children(n), Push(stack, n), depth + 1);
      fuel := fuel + 1;
    }
  }

  lemma {:induction false} ReifyAllUnfolds(heap: Heap, refs: seq<Ref>, stack: set<Key>, depth: nat) returns (fuel: nat)
    requires WellFormed(heap) && depth <= MAX_VALUE_DEPTH + 1
    requires forall i :: 0 <= i < |refs| ==> refs[i] < |heap|
    requires ReifyAll(heap, refs, stack, depth).Ok?
    ensures UnfoldAll(heap, refs, fuel) == ReifyAll(heap, refs, stack, depth)
    decreases MAX_VALUE_DEPTH + 1 - depth, |Identities(heap) - stack|, 1, |refs|
  {
    hide Reify, Unfold;
    if refs == [] {
      fuel := 0;
    } else {
      var f := ReifyUnfolds(heap, refs[0], stack, depth);
      var g := ReifyAllUnfolds(heap, refs[1..], stack, depth);
      fuel := if f <= g then g else f;
      UnfoldMonotone(heap, refs[0], f, fuel);
      UnfoldAllMonotone(heap, refs[1..], g, fuel);
    }
  }

  // ---------------------------------------------------------------------------
  // Unfolding is representing

  lemma {:induction false} UnfoldRepresents(heap: Heap, r: Ref, fuel: nat)
    requires WellFormed(heap) && r < |heap| && Unfold(heap, r, fuel).Ok?
    ensures RepresentsIn(heap, r, Unfold(heap, r, fuel).value, fuel)
    decreases fuel, 0
  {
    hide UnfoldAll, Assembled, EntryRefs;
    var n := heap[r];
    if n.Pointer? {
      assert Children(n)[0] == n.target;
      UnfoldRepresents(heap, n.target, fuel - 1);
    } else if !n.Scalar? {
      UnfoldAllRepresent(heap, Children(n), fuel - 1);
      hide RepresentsIn, RepresentIn;
      AssembledRepresents(heap, r, UnfoldAll(heap, Children(n), fuel - 1).value, fuel - 1);
    }
  }

  lemma {:induction false} UnfoldAllRepresent(heap: Heap, refs: seq<Ref>, fuel: nat)
    requires WellFormed(heap) && forall i :: 0 <= i < |refs| ==> refs[i] < |heap|
    requires UnfoldAll(heap, refs, fuel).Ok?
    ensures RepresentIn(heap, refs, UnfoldAll(heap, refs, fuel).value, fuel)
    decreases fuel, 1, |refs|
  {
    hide Unfold, RepresentsIn;
    if refs != [] {
      UnfoldRepresents(heap, refs[0], fuel);
      UnfoldAllRepresent(heap, refs[1..], fuel);
    }
  }

  lemma SameValues(a: seq<Value>, b: seq<Value>)
    requires |a| == |b| && forall i :: 0 <= i < |a| ==> a[i] == b[i]
    ensures a == b
  {
  }

  lemma {:induction false} RepresentedUnique(heap: Heap, r: Ref, v: Value, w: Value, k: nat)
    requires RepresentsIn(heap, r, v, k) && RepresentsIn(heap, r, w, k)
    ensures v == w
    decreases k, 0
  {
    match heap[r] {
      case Pointer(_, target) => RepresentedUnique(heap, target, v, w, k - 1);
      case Items(_, _, items) => AllUnique(heap, items, v.items, w.items, k - 1);
      case Named(_, _, items) => AllUnique(heap, items, v.values, w.values, k - 1);
      case Entries(_, es) => EntriesUnique(heap, es, v.pairs, w.pairs, k - 1);
      case HostModule(_, _, es) => EntriesUnique(heap, es, v.attrs, w.attrs, k - 1);
      case _ =>
    }
  }

  lemma {:induction false} AllUnique(heap: Heap, refs: seq<Ref>, vs: seq<Value>, ws: seq<Value>, k: nat)
    requires RepresentIn(heap, refs, vs, k) && RepresentIn(heap, refs, ws, k)
    ensures vs == ws
    decreases k, 1
  {
    forall i | 0 <= i < |refs| ensures vs[i] == ws[i] {
      RepresentedUnique(heap, refs[i], vs[i], ws[i], k);
    }
  }

  lemma {:induction false} EntriesUnique(heap: Heap, es: seq<Entry>, ps: seq<Pair>, qs: seq<Pair>, k: nat)
    requires EntriesIn(heap, es, ps, k) && EntriesIn(heap, es, qs, k)
    ensures ps == qs
    decreases k, 1
  {
    forall i | 0 <= i < |es| ensures ps[i] == qs[i] {
      RepresentedUnique(heap, es[i].key, ps[i].key, qs[i].key, k);
      RepresentedUnique(heap, es[i].value, ps[i].value, qs[i].value, k);
    }
  }

  lemma {:induction false} RepresentedUnfolds(heap: Heap, r: Ref, v: Value, k: nat)
    requires WellFormed(heap) && RepresentsIn(heap, r, v, k)
    ensures Unfold(heap, r, k).Ok?
    decreases k, 0
  {
    hide UnfoldAll;
    var n := heap[r];
    match n {
      case Scalar(_) =>
      case Pointer(_, target) =>
        assert Children(n)[0] == target;
        RepresentedUnfolds(heap, target, v, k - 1);
      case Items(_, _, items) =>
        assert Children(n) == items;
        forall i | 0 <= i < |items| ensures Unfold(heap, items[i], k - 1).Ok? {
          RepresentedUnfolds(heap, items[i], v.items[i], k - 1);
        }
        AllUnfoldable(heap, items, k - 1);
      case Named(_, _, items) =>
        assert Children(n) == items;
        forall i | 0 <= i < |items| ensures Unfold(heap, items[i], k - 1).Ok? {
          RepresentedUnfolds(heap, items[i], v.values[i], k - 1);
        }
        AllUnfoldable(heap, items, k - 1);
      case Entries(_, es) =>
        assert Children(n) == EntryRefs(es);
        EntriesUnfold(heap, es, v.pairs, k - 1);
      case HostModule(_, _, es) =>
        assert Children(n) == EntryRefs(es);
        EntriesUnfold(heap, es, v.attrs, k - 1);
    }
  }

  lemma {:induction false} EntriesUnfold(heap: Heap, es: seq<Entry>, pairs: seq<Pair>, k: nat)
    requires WellFormed(heap) && EntriesIn(heap, es, pairs, k)
    requires forall i :: 0 <= i < |EntryRefs(es)| ==> EntryRefs(es)[i] < |heap|
    ensures UnfoldAll(heap, EntryRefs(es), k).Ok?
    decreases k, 1
  {
    hide Unfold, UnfoldAll, EntryRefs;
    var refs := EntryRefs(es);
    forall i | 0 <= i < |refs| ensures Unfold(heap, refs[i], k).Ok? {
      var j := i / 2;
      RepresentedUnfolds(heap, es[j].key, pairs[j].key, k);
      RepresentedUnfolds(heap, es[j].value, pairs[j].value, k);
      assert refs[2 * j] == es[j].key && refs[2 * j + 1] == es[j].value;
    }
    AllUnfoldable(heap, refs, k);
  }

  lemma {:induction false} AllUnfoldable(heap: Heap, refs: seq<Ref>, k: nat)
    requires WellFormed(heap) && forall i :: 0 <= i < |refs| ==> refs[i] < |heap|
    requires forall i :: 0 <= i < |refs| ==> Unfold(heap, refs[i], k).Ok?
    ensures UnfoldAll(heap, refs, k).Ok?
    decreases |refs|
  {
    hide Unfold;
    if refs != [] {
      AllUnfoldable(heap, refs[1..], k);
    }
  }

  /** The graph from r unfolds to v if and only if v represents it. */
  lemma UnfoldsIffRepresents(heap: Heap, r: Ref, v: Value)
    requires WellFormed(heap) && r < |heap|
    ensures Unfolds(heap, r, v) <==> Represents(heap, r, v)
  {
    hide Unfold, RepresentsIn;
    if Unfolds(heap, r, v) {
      var fuel: nat :| Unfold(heap, r, fuel) == Ok(v);
      UnfoldRepresents(heap, r, fuel);
    }
    if Represents(heap, r, v) {
      var k: nat :| RepresentsIn(heap, r, v, k);
      RepresentedUnfolds(heap, r, v, k);
      UnfoldRepresents(heap, r, k);
      RepresentedUnique(heap, r, v, Unfold(heap, r, k).value, k);
    }
  }

  /**
   A host value no path of which ends in trouble is encoded, and its encoding is read as the normal
   form of the one value that represents it.
   */
  lemma HostValueArrives(heap: Heap, r: Ref)
    requires WellFormed(heap) && r < |heap| && !Troubled(heap, r)
    ensures Reify(heap, r, {}, 0).Ok?
    ensures
      var v := Reify(heap, r, {}, 0).value;
      && Represents(heap, r, v) && (forall w :: Represents(heap, r, w) ==> w == v)
      && (|EncodeValue(v)| < TWO64 ==> DecodeValue(EncodeValue(v)) == Ok(Normal(v)))
  {
    hide Reify, Troubled, EncodeValue, DecodeValue, Normal, Represents, RepresentsIn, Unfolds;
    RefusedIffTroubled(heap, r);
    var v := Reify(heap, r, {}, 0).value;
    ReifiedRepresents(heap, r);
    forall w | Represents(heap, r, w) ensures w == v {
      UnfoldsIffRepresents(heap, r, w);
      UnfoldsIffRepresents(heap, r, v);
      UnfoldingUnique(heap, r, v, w);
    }
    if |EncodeValue(v)| < TWO64 {
      NestedRoundTrip(v);
    }
  }

  lemma ReifiedRepresents(heap: Heap, r: Ref)
    requires WellFormed(heap) && r < |heap| && Reify(heap, r, {}, 0).Ok?
    ensures Represents(heap, r, Reify(heap, r, {}, 0).value)
  {
    hide Reify, RepresentsIn;
    var k := ReifyRepresents(heap, r, {}, 0);
  }

  // ---------------------------------------------------------------------------
  // What the visit stack refuses too much

  lemma {:induction false} AllUnfold(heap: Heap, refs: seq<Ref>, fuel: nat, i: nat)
    requires WellFormed(heap) && forall k :: 0 <= k < |refs| ==> refs[k] < |heap|
    requires UnfoldAll(heap, refs, fuel).Ok? && i < |refs|
    ensures Unfold(heap, refs[i], fuel).Ok?
    decreases |refs|
  {
    hide Unfold;
    if i > 0 {
      AllUnfold(heap, refs[1..], fuel, i - 1);
    }
  }

  /** Every step along a path uses up fuel. */
  lemma {:induction false} UnfoldAlong(heap: Heap, p: seq<Ref>, fuel: nat)
    requires WellFormed(heap) && IsPath(heap, p) && Unfold(heap, p[0], fuel).Ok?
    ensures fuel >= |p| && Unfold(heap, p[|p| - 1], fuel - |p| + 1).Ok?
    decreases |p|
  {
    hide UnfoldAll;
    if |p| > 1 {
      assert p[1] in Children(heap[p[0]]);
      var i :| 0 <= i < |Children(heap[p[0]])| && Children(heap[p[0]])[i] == p[1];
      if !heap[p[0]].Pointer? {
        AllUnfold(heap, Children(heap[p[0]]), fuel - 1, i);
      }
      assert IsPath(heap, p[1..]) by {
        assert forall k :: 0 <= k < |p| - 1 ==> p[1..][k] == p[k + 1];
      }
      UnfoldAlong(heap, p[1..], fuel - 1);
    }
  }

  /** What unfolds has no path back to itself. */
  lemma {:induction false} NoWayBack(heap: Heap, p: seq<Ref>, fuel: nat)
    requires WellFormed(heap) && IsPath(heap, p) && |p| > 1 && p[0] == p[|p| - 1]
    ensures Unfold(heap, p[0], fuel).Err?
    decreases fuel
  {
    hide Unfold;
    if Unfold(heap, p[0], fuel).Ok? {
      UnfoldAlong(heap, p, fuel);
      NoWayBack(heap, p, fuel - |p| + 1);
    }
  }

  /** A path ends in a different node with the identity of one before it: an alias, not a cycle. */
  ghost predicate Aliased(heap: Heap, p: seq<Ref>)
    requires IsPath(heap, p)
  {
    var last := p[|p| - 1];
    && Identity(heap[last]).Some?
    && exists i :: 0 <= i < |p| - 1 && p[i] != last && Identity(heap[p[i]]) == Identity(heap[last])
  }

  lemma FinitePathsAdvance(heap: Heap, p: seq<Ref>, fuel: nat)
    requires WellFormed(heap) && IsPath(heap, p) && Unfold(heap, p[0], fuel).Ok?
    ensures !heap[p[|p| - 1]].Unsupported?
    ensures forall i :: 0 <= i < |p| - 1 ==> p[i] != p[|p| - 1]
  {
    UnfoldAlong(heap, p, fuel);
    forall i | 0 <= i < |p| - 1 ensures p[i] != p[|p| - 1] {
      hide Unfold;
      PathEnds(heap, p, i);
      UnfoldAlong(heap, p[..i + 1], fuel);
      if p[i] == p[|p| - 1] {
        NoWayBack(heap, p[i..], fuel - i);
      }
    }
  }

  lemma PathEnds(heap: Heap, p: seq<Ref>, i: nat)
    requires IsPath(heap, p) && i < |p| - 1
    ensures IsPath(heap, p[..i + 1]) && IsPath(heap, p[i..])
  {
  }

  lemma FiniteTrouble(heap: Heap, r: Ref, v: Value, p: seq<Ref>)
    requires WellFormed(heap) && r < |heap| && Unfolds(heap, r, v) && IsPath(heap, p) && p[0] == r
    ensures Trouble(heap, p, {}, 0) <==> Levels(heap, p) > MAX_VALUE_DEPTH || Aliased(heap, p)
  {
    hide Levels, Unfold, IsPath, Identity;
    var fuel: nat :| Unfold(heap, r, fuel) == Ok(v);
    FinitePathsAdvance(heap, p, fuel);
  }

  /**
   A value that has a finite unfolding is refused all the same if and only if some path from it
   enters more than 100 containers or meets an alias: a second node with the type and address of
   one it is inside of, like a slice holding a prefix of itself.
   */
  lemma FiniteRefusedIff(heap: Heap, r: Ref, v: Value)
    requires WellFormed(heap) && r < |heap| && Unfolds(heap, r, v)
    ensures Reify(heap, r, {}, 0).Err?
       <==> exists p :: IsPath(heap, p) && p[0] == r && (Levels(heap, p) > 100 || Aliased(heap, p))
  {
    hide Reify, Trouble, Unfolds, Aliased, Levels;
    RefusedIffTroubled(heap, r);
    if Troubled(heap, r) {
      var p :| IsPath(heap, p) && p[0] == r && Trouble(heap, p, {}, 0);
      FiniteTrouble(heap, r, v, p);
    }
    if exists p :: IsPath(heap, p) && p[0] == r && (Levels(heap, p) > MAX_VALUE_DEPTH || Aliased(heap, p)) {
      var p :| IsPath(heap, p) && p[0] == r && (Levels(heap, p) > MAX_VALUE_DEPTH || Aliased(heap, p));
      FiniteTrouble(heap, r, v, p);
    }
  }

  /** A list of 1 and its own prefix of length one: [1, [1]], refused as if it were cyclic. */
  const PREFIXED: Heap :=
    [Items(Some(7), List, [1, 2]), Scalar(Int(1)), Items(Some(7), List, [1])]

  lemma PrefixedRepeats()
    ensures WellFormed(PREFIXED) && IsPath(PREFIXED, [0, 2]) && Trouble(PREFIXED, [0, 2], {}, 0)
  {
    var h, p := PREFIXED, [0, 2];
    assert WellFormed(h);
    assert IsPath(h, p);
    assert Trouble(h, p, {}, 0) by {
      assert Identity(h[p[0]]) == Identity(h[p[1]]) == Some(7);
    }
  }

  lemma UnfoldPrefix()
    ensures WellFormed(PREFIXED) && UnfoldAll(PREFIXED, [2], 2) == Ok([Seq(List, [Int(1)])])
    ensures Unfold(PREFIXED, 1, 2) == Ok(Int(1))
  {
    var h := PREFIXED;
    assert UnfoldAll(h, [], 1) == UnfoldAll(h, [], 2) == Ok([]);
    assert Unfold(h, 1, 1) == Ok(Int(1));
    assert UnfoldAll(h, [1], 1) == Ok([Int(1)]) by {
      assert [1][1..] == [];
      assert [Int(1)] + [] == [Int(1)];
    }
    assert Unfold(h, 2, 2) == Ok(Seq(List, [Int(1)]));
    assert [2][1..] == [];
    assert [Seq(List, [Int(1)])] + [] == [Seq(List, [Int(1)])];
  }

  lemma UnfoldPrefixed()
    ensures WellFormed(PREFIXED) && Unfold(PREFIXED, 0, 3) == Ok(Seq(List, [Int(1), Seq(List, [Int(1)])]))
  {
    UnfoldPrefix();
    var h := PREFIXED;
    assert UnfoldAll(h, [1, 2], 2) == Ok([Int(1), Seq(List, [Int(1)])]) by {
      hide Unfold;
      assert [1, 2][1..] == [2];
      assert [Int(1)] + [Seq(List, [Int(1)])] == [Int(1), Seq(List, [Int(1)])];
    }
    hide UnfoldAll;
    assert Children(h[0]) == [1, 2];
  }

  lemma PrefixSliceIsRefused()
    ensures WellFormed(PREFIXED) && Reify(PREFIXED, 0, {}, 0).Err?
    ensures Unfolds(PREFIXED, 0, Seq(List, [Int(1), Seq(List, [Int(1)])]))
  {
    hide Reify, Trouble, IsPath, Unfold;
    PrefixedRepeats();
    PathMeansFailure(PREFIXED, [0, 2], {}, 0);
    UnfoldPrefixed();
  }

  /** What holds nothing has no identity: it is accepted wherever it is met, even inside its own alias. */
  lemma EmptyIsAccepted(heap: Heap, r: Ref, stack: set<Key>, depth: nat)
    requires WellFormed(heap) && r < |heap| && depth <= 100
    ensures heap[r].Items? && heap[r].items == [] ==> Reify(heap, r, stack, depth) == Ok(Seq(heap[r].kind, []))
    ensures heap[r].Entries? && heap[r].entries == [] ==> Reify(heap, r, stack, depth) == Ok(Dict([]))
  {
  }

  // ---------------------------------------------------------------------------
  // From host values to what the sandbox reads

  lemma {:induction false} UntroubledReify(heap: Heap, rs: seq<Ref>)
    requires WellFormed(heap)
    requires forall i :: 0 <= i < |rs| ==> rs[i] < |heap| && !Troubled(heap, rs[i])
    ensures ReifyAll(heap, rs, {}, 0).Ok?
    ensures forall i :: 0 <= i < |rs| ==> Reify(heap, rs[i], {}, 0) == Ok(ReifyAll(heap, rs, {}, 0).value[i])
    decreases |rs|
  {
    hide Reify, Troubled;
    if rs != [] {
      RefusedIffTroubled(heap, rs[0]);
      UntroubledReify(heap, rs[1..]);
    }
  }

  /**
   Inputs none of whose paths end in trouble can all be added to one arena; if it fits in a
   frame, the index returned for each input denotes the normal form of the value it represents.
   */
  lemma HostInputsSurvive(heap: Heap, rs: seq<Ref>)
    requires WellFormed(heap)
    requires forall i :: 0 <= i < |rs| ==> rs[i] < |heap| && !Troubled(heap, rs[i])
    ensures ReifyAll(heap, rs, {}, 0).Ok?
    ensures
      var vs := ReifyAll(heap, rs, {}, 0).value;
      Sized(vs) ==>
        && FlattenAll([], vs).Ok?
        && var arena := ArenaBytes(FlattenAll([], vs).value);
           |arena| <= MAX_FRAME_LEN ==>
             && ArenaValues(arena).Ok?
             && forall k :: 0 <= k < |rs| ==>
               && Represents(heap, rs[k], vs[k])
               && IndexOf(vs, k) < |ArenaValues(arena).value|
               && ArenaValues(arena).value[IndexOf(vs, k)] == Normal(vs[k])
  {
    hide Reify, ReifyAll, Troubled, Sized, FlattenAll, ArenaBytes, ArenaValues, IndexOf, Normal, Encodable, EncodeValue,
      DecodeValue, PostItems, Represents;
    UntroubledReify(heap, rs);
    var vs := ReifyAll(heap, rs, {}, 0).value;
    forall k | 0 <= k < |rs| ensures Represents(heap, rs[k], vs[k]) {
      ReifiedRepresents(heap, rs[k]);
    }
    if Sized(vs) {
      ArenaPreservesMeaning(vs);
      forall k | 0 <= k < |rs| ensures DecodeValue(EncodeValue(vs[k])) == Ok(Normal(vs[k])) {
        SizedAt(vs, k);
        NestedRoundTrip(vs[k]);
      }
    }
  }

  lemma SizedAt(vs: seq<Value>, k: nat)
    requires AllEncodable(vs) && Sized(vs) && k < |vs|
    ensures |EncodeValue(vs[k])| < TWO63
  {
  }
}
