/**
 Host values entering the sandbox: an arbitrary finite, possibly cyclic graph is turned into
 the nested message of its unfolding, or refused.
 */
module HostGraph {
  import opened Common
  import opened Wire
  import opened Values

  type Ref = nat

  /** Identity of a pointer, slice or map: its dynamic type and address. */
  type Key = nat

  datatype Entry = Entry(key: Ref, value: Ref)

  /**
   One reflected value. Structs and Dict values are entry lists; maps list their entries in
   iteration order. Arrays, structs, named tuples and modules have no identity.
   */
  datatype HostNode =
    | Scalar(v: Value)
    | Unsupported
    | Pointer(key: Key, target: Ref)
    | Items(id: Option<Key>, kind: SeqKind, items: seq<Ref>)
    | Entries(id: Option<Key>, entries: seq<Entry>)
    | Named(typeName: Bytes, fieldNames: seq<Bytes>, items: seq<Ref>)
    | HostModule(name: Bytes, uuid: Uuid, entries: seq<Entry>)

  type Heap = seq<HostNode>

  const MAX_VALUE_DEPTH: int := 100

  function EntryRefs(es: seq<Entry>): (refs: seq<Ref>)
    ensures |refs| == 2 * |es|
    ensures forall i :: 0 <= i < |es| ==> refs[2 * i] == es[i].key && refs[2 * i + 1] == es[i].value
  {
    if es == [] then [] else [es[0].key, es[0].value] + EntryRefs(es[1..])
  }

  function Children(n: HostNode): (refs: seq<Ref>)
  {
    match n
    case Scalar(_) => []
    case Unsupported => []
    case Pointer(_, target) => [target]
    case Items(_, _, items) => items
    case Entries(_, es) => EntryRefs(es)
    case Named(_, _, items) => items
    case HostModule(_, _, es) => EntryRefs(es)
  }

  predicate IsLeaf(v: Value)
  {
    Encodable(v) && !IsContainer(v)
  }

  predicate WellFormed(heap: Heap)
  {
    forall r :: 0 <= r < |heap| ==>
      && (heap[r].Scalar? ==> IsLeaf(heap[r].v))
      && forall i :: 0 <= i < |Children(heap[r])| ==> Children(heap[r])[i] < |heap|
  }

  /** Empty slices and maps are never put on the visit stack. */
  function Identity(n: HostNode): (k: Option<Key>)
  {
    match n
    case Pointer(key, _) => Some(key)
    case Items(id, _, items) => if items == [] then None else id
    case Entries(id, es) => if es == [] then None else id
    case _ => None
  }

  function Push(stack: set<Key>, n: HostNode): set<Key>
  {
    match Identity(n)
    case None => stack
    case Some(k) => stack + {k}
  }

  /** Following a pointer does not count as a level. */
  function Step(n: HostNode): nat { if n.Pointer? then 0 else 1 }

  predicate Blocked(n: HostNode, stack: set<Key>)
  {
    Identity(n).Some? && Identity(n).value in stack
  }

  function Identities(heap: Heap): (ks: set<Key>)
    ensures forall r :: 0 <= r < |heap| && Identity(heap[r]).Some? ==> Identity(heap[r]).value in ks
  {
    set r | 0 <= r < |heap| && Identity(heap[r]).Some? :: Identity(heap[r]).value
  }

  lemma PushShrinks(heap: Heap, r: Ref, stack: set<Key>)
    requires r < |heap| && Identity(heap[r]).Some? && !Blocked(heap[r], stack)
    ensures |Identities(heap) - Push(stack, heap[r])| < |Identities(heap) - stack|
  {
    var k := Identity(heap[r]).value;
    assert Identities(heap) - stack == (Identities(heap) - Push(stack, heap[r])) + {k};
  }

  /** Alternating keys and values as pairs. */
  function Pairs(vs: seq<Value>): (ps: seq<Pair>)
    ensures AllEncodable(vs) ==> PairsEncodable(ps)
  {
    if |vs| < 2 then [] else [Pair(vs[0], vs[1])] + Pairs(vs[2..])
  }

  /** A container around the values of its children. */
  function Assembled(n: HostNode, vs: seq<Value>): (v: Value)
    requires !n.Scalar? && !n.Unsupported? && !n.Pointer?
    ensures AllEncodable(vs) ==> Encodable(v)
  {
    match n
    case Items(_, kind, _) => Seq(kind, vs)
    case Named(t, names, _) => NamedTuple(t, names, vs)
    case Entries(_, _) => Dict(Pairs(vs))
    case HostModule(name, uuid, _) => Module(name, uuid, Pairs(vs))
  }

  // ---------------------------------------------------------------------------
  // What the encoder encodes: the value reached with a given visit stack and depth.
  // Termination: levels left, then identities off the stack.

  function Reify(heap: Heap, r: Ref, stack: set<Key>, depth: nat): (res: Result<Value>)
    requires WellFormed(heap) && r < |heap| && depth <= MAX_VALUE_DEPTH + 1
    ensures res.Ok? ==> Encodable(res.value)
    decreases MAX_VALUE_DEPTH + 1 - depth, |Identities(heap) - stack|, 0, 0
  {
    var n := heap[r];
    if depth > MAX_VALUE_DEPTH || Blocked(n, stack) then Err
    else
      match n
      case Scalar(v) => Ok(v)
      case Unsupported => Err
      case Pointer(_, target) =>
        PushShrinks(heap, r, stack);
        assert Children(n)[0] == target;
        Reify(heap, target, Push(stack, n), depth)
      case _ =>
        match ReifyAll(heap, Children(n), Push(stack, n), depth + 1)
        case Err => Err
        case Ok(vs) => Ok(Assembled(n, vs))
  }

  function ReifyAll(heap: Heap, refs: seq<Ref>, stack: set<Key>, depth: nat): (res: Result<seq<Value>>)
    requires WellFormed(heap) && depth <= MAX_VALUE_DEPTH + 1
    requires forall i :: 0 <= i < |refs| ==> refs[i] < |heap|
    ensures res.Ok? ==> |res.value| == |refs| && AllEncodable(res.value)
    decreases MAX_VALUE_DEPTH + 1 - depth, |Identities(heap) - stack|, 1, |refs|
  {
    if refs == [] then Ok([])
    else
      match Reify(heap, refs[0], stack, depth)
      case Err => Err
      case Ok(v) => Prepend([v], ReifyAll(heap, refs[1..], stack, depth))
  }

  // ---------------------------------------------------------------------------
  // What a host value is to the sandbox, whatever the encoder does

  /** The host value at r is v, seen through at most k pointers and containers. */
  ghost predicate RepresentsIn(heap: Heap, r: Ref, v: Value, k: nat)
    decreases k, 0
  {
    && k > 0 && r < |heap|
    && match heap[r]
       case Scalar(w) => v == w
       case Unsupported => false
       case Pointer(_, target) => RepresentsIn(heap, target, v, k - 1)
       case Items(_, kind, items) =>
         v.Seq? && v.kind == kind && RepresentIn(heap, items, v.items, k - 1)
       case Named(typeName, fieldNames, items) =>
         && v.NamedTuple? && v.typeName == typeName && v.fieldNames == fieldNames
         && RepresentIn(heap, items, v.values, k - 1)
       case Entries(_, es) => v.Dict? && EntriesIn(heap, es, v.pairs, k - 1)
       case HostModule(name, uuid, es) =>
         v.Module? && v.name == name && v.id == uuid && EntriesIn(heap, es, v.attrs, k - 1)
  }

  /** As many values as references, each the one at its place. */
  ghost predicate RepresentIn(heap: Heap, refs: seq<Ref>, vs: seq<Value>, k: nat)
    decreases k, 1
  {
    |vs| == |refs| && forall i :: 0 <= i < |refs| ==> RepresentsIn(heap, refs[i], vs[i], k)
  }

  /** As many pairs as entries, each with its own key and value. */
  ghost predicate EntriesIn(heap: Heap, es: seq<Entry>, pairs: seq<Pair>, k: nat)
    decreases k, 1
  {
    && |pairs| == |es|
    && forall i :: 0 <= i < |es| ==>
         RepresentsIn(heap, es[i].key, pairs[i].key, k) && RepresentsIn(heap, es[i].value, pairs[i].value, k)
  }

  ghost predicate Represents(heap: Heap, r: Ref, v: Value)
  {
    exists k: nat :: RepresentsIn(heap, r, v, k)
  }

  lemma {:induction false} RepresentsMonotone(heap: Heap, r: Ref, v: Value, k: nat, m: nat)
    requires RepresentsIn(heap, r, v, k) && k <= m
    ensures RepresentsIn(heap, r, v, m)
    decreases k, 0
  {
    match heap[r] {
      case Pointer(_, target) => RepresentsMonotone(heap, target, v, k - 1, m - 1);
      case Items(_, _, items) =>
        forall i | 0 <= i < |items| ensures RepresentsIn(heap, items[i], v.items[i], m - 1) {
          RepresentsMonotone(heap, items[i], v.items[i], k - 1, m - 1);
        }
      case Named(_, _, items) =>
        forall i | 0 <= i < |items| ensures RepresentsIn(heap, items[i], v.values[i], m - 1) {
          RepresentsMonotone(heap, items[i], v.values[i], k - 1, m - 1);
        }
      case Entries(_, es) => EntriesMonotone(heap, es, v.pairs, k - 1, m - 1);
      case HostModule(_, _, es) => EntriesMonotone(heap, es, v.attrs, k - 1, m - 1);
      case _ =>
    }
  }

  lemma {:induction false} EntriesMonotone(heap: Heap, es: seq<Entry>, pairs: seq<Pair>, k: nat, m: nat)
    requires EntriesIn(heap, es, pairs, k) && k <= m
    ensures EntriesIn(heap, es, pairs, m)
    decreases k, 1
  {
    forall i | 0 <= i < |es|
      ensures RepresentsIn(heap, es[i].key, pairs[i].key, m) && RepresentsIn(heap, es[i].value, pairs[i].value, m)
    {
      RepresentsMonotone(heap, es[i].key, pairs[i].key, k, m);
      RepresentsMonotone(heap, es[i].value, pairs[i].value, k, m);
    }
  }

  lemma {:induction false} PairsAt(vs: seq<Value>)
    ensures |Pairs(vs)| == |vs| / 2
    ensures forall i :: 0 <= i < |vs| / 2 ==> Pairs(vs)[i] == Pair(vs[2 * i], vs[2 * i + 1])
  {
    if |vs| >= 2 {
      PairsAt(vs[2..]);
      forall i | 0 <= i < |vs| / 2 ensures Pairs(vs)[i] == Pair(vs[2 * i], vs[2 * i + 1]) {
        if i > 0 {
          assert Pairs(vs)[i] == Pairs(vs[2..])[i - 1];
          assert vs[2..][2 * (i - 1)] == vs[2 * i] && vs[2..][2 * (i - 1) + 1] == vs[2 * i + 1];
        }
      }
    }
  }

  /** A container put together from its children's values represents the container. */
  lemma AssembledRepresents(heap: Heap, r: Ref, vs: seq<Value>, k: nat)
    requires r < |heap| && !heap[r].Scalar? && !heap[r].Unsupported? && !heap[r].Pointer?
    requires RepresentIn(heap, Children(heap[r]), vs, k)
    ensures RepresentsIn(heap, r, Assembled(heap[r], vs), k + 1)
  {
    hide Pairs, EntryRefs;
    PairsAt(vs);
    match heap[r] {
      case Entries(_, es) => EntriesFromRefs(heap, es, vs, k);
      case HostModule(_, _, es) => EntriesFromRefs(heap, es, vs, k);
      case _ =>
    }
  }

  lemma EntriesFromRefs(heap: Heap, es: seq<Entry>, vs: seq<Value>, k: nat)
    requires RepresentIn(heap, EntryRefs(es), vs, k)
    ensures EntriesIn(heap, es, Pairs(vs), k)
  {
    hide Pairs, EntryRefs, RepresentsIn;
    PairsAt(vs);
    var refs := EntryRefs(es);
    forall i | 0 <= i < |es|
      ensures RepresentsIn(heap, es[i].key, Pairs(vs)[i].key, k)
      ensures RepresentsIn(heap, es[i].value, Pairs(vs)[i].value, k)
    {
      assert RepresentsIn(heap, refs[2 * i], vs[2 * i], k) && RepresentsIn(heap, refs[2 * i + 1], vs[2 * i + 1], k);
    }
  }

  /** Whatever the encoder makes of a host value represents it. */
  lemma {:induction false} ReifyRepresents(heap: Heap, r: Ref, stack: set<Key>, depth: nat) returns (k: nat)
    requires WellFormed(heap) && r < |heap| && depth <= MAX_VALUE_DEPTH + 1
    requires Reify(heap, r, stack, depth).Ok?
    ensures RepresentsIn(heap, r, Reify(heap, r, stack, depth).value, k)
    decreases MAX_VALUE_DEPTH + 1 - depth, |Identities(heap) - stack|, 0, 0
  {
    hide ReifyAll, Assembled, EntryRefs, Identities, Encodable;
    var n := heap[r];
    if n.Scalar? {
      k := 1;
    } else if n.Pointer? {
      PushShrinks(heap, r, stack);
      assert Children(n)[0] == n.target;
      k := ReifyRepresents(heap, n.target, Push(stack, n), depth);
      k := k + 1;
    } else {
      k := ReifyAllRepresent(heap, Children(n), Push(stack, n), depth + 1);
      hide RepresentsIn, RepresentIn;
      AssembledRepresents(heap, r, ReifyAll(heap, Children(n), Push(stack, n), depth + 1).value, k);
      k := k + 1;
    }
  }

  lemma {:induction false} ReifyAllRepresent(heap: Heap, refs: seq<Ref>, stack: set<Key>, depth: nat) returns (k: nat)
    requires WellFormed(heap) && depth <= MAX_VALUE_DEPTH + 1
    requires forall i :: 0 <= i < |refs| ==> refs[i] < |heap|
    requires ReifyAll(heap, refs, stack, depth).Ok?
    ensures RepresentIn(heap, refs, ReifyAll(heap, refs, stack, depth).value, k)
    decreases MAX_VALUE_DEPTH + 1 - depth, |Identities(heap) - stack|, 1, |refs|
  {
    hide Reify, RepresentsIn;
    if refs == [] {
      k := 0;
    } else {
      var a := ReifyRepresents(heap, refs[0], stack, depth);
      var b := ReifyAllRepresent(heap, refs[1..], stack, depth);
      k := if a <= b then b else a;
      var vs := ReifyAll(heap, refs, stack, depth).value;
      RepresentsMonotone(heap, refs[0], vs[0], a, k);
      forall i | 0 < i < |refs| ensures RepresentsIn(heap, refs[i], vs[i], k) {
        assert RepresentsIn(heap, refs[1..][i - 1], vs[1..][i - 1], b);
        RepresentsMonotone(heap, refs[i], vs[i], b, k);
      }
    }
  }

  // ---------------------------------------------------------------------------
  // The encoder: a mutable visit stack around recursive calls

  lemma WriteOne(tag: nat, b: Bytes)
    ensures Write([LenField(tag, b)]) == FieldBytes(tag, b)
  {
    hide FieldBytes;
    assert Write([LenField(tag, b)]) == FieldBytes(tag, b) + Write([]);
    assert FieldBytes(tag, b) + [] == FieldBytes(tag, b);
  }

  lemma {:induction false} ItemFieldsSnoc(tag: nat, vs: seq<Value>, v: Value)
    requires AllEncodable(vs) && Encodable(v)
    ensures AllEncodable(vs + [v])
    ensures ItemFields(tag, vs + [v]) == ItemFields(tag, vs) + [LenField(tag, EncodeValue(v))]
    decreases |vs|
  {
    hide EncodeValue, Encodable;
    if vs == [] {
      assert vs + [v] == [v];
    } else {
      assert (vs + [v])[1..] == vs[1..] + [v];
      ItemFieldsSnoc(tag, vs[1..], v);
    }
  }

  lemma ItemFieldsAppend(tag: nat, vs: seq<Value>, v: Value)
    requires AllEncodable(vs) && Encodable(v)
    ensures AllEncodable(vs + [v])
    ensures Write(ItemFields(tag, vs + [v])) == Write(ItemFields(tag, vs)) + FieldBytes(tag, EncodeValue(v))
  {
    hide EncodeValue, FieldBytes, Encodable, ItemFields, Write;
    ItemFieldsSnoc(tag, vs, v);
    WriteConcat(ItemFields(tag, vs), [LenField(tag, EncodeValue(v))]);
    WriteOne(tag, EncodeValue(v));
  }

  lemma {:induction false} PairFieldsSnoc(ps: seq<Pair>, p: Pair)
    requires PairsEncodable(ps) && Encodable(p.key) && Encodable(p.value)
    ensures PairsEncodable(ps + [p])
    ensures PairFields(ps + [p]) == PairFields(ps) + [LenField(1, PairBody(p))]
    decreases |ps|
  {
    hide PairBody, Encodable;
    if ps == [] {
      assert ps + [p] == [p];
    } else {
      assert (ps + [p])[1..] == ps[1..] + [p];
      PairFieldsSnoc(ps[1..], p);
    }
  }

  lemma PairFieldsAppend(ps: seq<Pair>, p: Pair)
    requires PairsEncodable(ps) && Encodable(p.key) && Encodable(p.value)
    ensures PairsEncodable(ps + [p])
    ensures Write(PairFields(ps + [p])) == Write(PairFields(ps)) + FieldBytes(1, PairBody(p))
  {
    hide PairBody, FieldBytes, Encodable, PairFields, Write;
    PairFieldsSnoc(ps, p);
    WriteConcat(PairFields(ps), [LenField(1, PairBody(p))]);
    WriteOne(1, PairBody(p));
  }

  lemma {:induction false} PairsAppend(vs: seq<Value>, k: Value, v: Value)
    requires |vs| % 2 == 0
    ensures Pairs(vs + [k, v]) == Pairs(vs) + [Pair(k, v)]
    decreases |vs|
  {
    if vs == [] {
      assert vs + [k, v] == [k, v];
      assert [k, v][2..] == [];
      assert Pairs([k, v]) == [Pair(k, v)] + Pairs([]);
    } else {
      PairsAppend(vs[2..], k, v);
      assert (vs + [k, v])[2..] == vs[2..] + [k, v];
      assert Pairs(vs + [k, v]) == [Pair(vs[0], vs[1])] + Pairs(vs[2..] + [k, v]);
      assert Pairs(vs) == [Pair(vs[0], vs[1])] + Pairs(vs[2..]);
    }
  }

  lemma ReifyAllSplit(heap: Heap, refs: seq<Ref>, done: seq<Value>, i: nat, stack: set<Key>, depth: nat)
    requires WellFormed(heap) && depth <= MAX_VALUE_DEPTH + 1
    requires forall j :: 0 <= j < |refs| ==> refs[j] < |heap|
    requires i < |refs|
    ensures
      var rest := Prepend(done, ReifyAll(heap, refs[i..], stack, depth));
      match Reify(heap, refs[i], stack, depth)
      case Err => rest == Err
      case Ok(v) => rest == Prepend(done + [v], ReifyAll(heap, refs[i + 1..], stack, depth))
  {
    hide Reify;
    assert refs[i..][1..] == refs[i + 1..];
    match Reify(heap, refs[i], stack, depth) {
      case Err =>
      case Ok(v) => PrependConcat(done, [v], ReifyAll(heap, refs[i + 1..], stack, depth));
    }
  }

  lemma EncodedPair(k: Value, v: Value)
    requires Encodable(k) && Encodable(v)
    ensures FieldBytes(1, EncodeValue(k)) + FieldBytes(2, EncodeValue(v)) == PairBody(Pair(k, v))
  {
    hide EncodeValue, FieldBytes;
    var fs := [LenField(1, EncodeValue(k)), LenField(2, EncodeValue(v))];
    assert Write(fs[1..]) == FieldBytes(2, EncodeValue(v)) + Write([]);
    assert FieldBytes(2, EncodeValue(v)) + [] == FieldBytes(2, EncodeValue(v));
  }

  lemma EncodedSeq(kind: SeqKind, vs: seq<Value>)
    requires AllEncodable(vs)
    ensures EncodeValue(Seq(kind, vs)) == FieldBytes(SeqTag(kind), Write(ItemFields(1, vs)))
  {
    hide ItemFields, Write, FieldBytes;
  }

  lemma EncodedDict(vs: seq<Value>)
    requires AllEncodable(vs)
    ensures EncodeValue(Dict(Pairs(vs))) == FieldBytes(14, Write(PairFields(Pairs(vs))))
  {
    hide PairFields, Write, FieldBytes, Pairs;
  }

  lemma EncodedNamed(t: Bytes, names: seq<Bytes>, vs: seq<Value>)
    requires AllEncodable(vs)
    ensures EncodeValue(NamedTuple(t, names, vs))
         == FieldBytes(13, Write([LenField(1, t)] + NameFields(names)) + Write(ItemFields(3, vs)))
  {
    hide ItemFields, NameFields, Write, FieldBytes;
    WriteConcat([LenField(1, t)] + NameFields(names), ItemFields(3, vs));
  }

  lemma EncodedModule(name: Bytes, uuid: Uuid, vs: seq<Value>)
    requires AllEncodable(vs)
    ensures EncodeValue(Module(name, uuid, Pairs(vs)))
         == FieldBytes(32, Write(ModuleFields(name, uuid, Write(PairFields(Pairs(vs))))))
  {
    hide PairFields, ModuleFields, Write, FieldBytes, Pairs;
  }

  /** Reading one more entry: both halves, or a failure of either. */
  lemma EntrySplit(heap: Heap, refs: seq<Ref>, done: seq<Value>, i: nat, stack: set<Key>, depth: nat)
    requires WellFormed(heap) && depth <= MAX_VALUE_DEPTH + 1
    requires forall j :: 0 <= j < |refs| ==> refs[j] < |heap|
    requires i + 1 < |refs|
    ensures
      var rest := Prepend(done, ReifyAll(heap, refs[i..], stack, depth));
      var k, v := Reify(heap, refs[i], stack, depth), Reify(heap, refs[i + 1], stack, depth);
      if k.Err? || v.Err? then rest == Err
      else rest == Prepend(done + [k.value, v.value], ReifyAll(heap, refs[i + 2..], stack, depth))
  {
    hide Reify, ReifyAll, Encodable;
    ReifyAllSplit(heap, refs, done, i, stack, depth);
    var k, v := Reify(heap, refs[i], stack, depth), Reify(heap, refs[i + 1], stack, depth);
    if k.Ok? {
      ReifyAllSplit(heap, refs, done + [k.value], i + 1, stack, depth);
      if v.Ok? {
        assert done + [k.value] + [v.value] == done + [k.value, v.value];
      }
    }
  }

  /** Writing one more entry. */
  lemma EntryWritten(done: seq<Value>, k: Value, v: Value)
    requires AllEncodable(done) && Encodable(k) && Encodable(v) && |done| % 2 == 0
    ensures AllEncodable(done + [k, v])
    ensures Write(PairFields(Pairs(done + [k, v])))
         == Write(PairFields(Pairs(done)))
          + FieldBytes(1, FieldBytes(1, EncodeValue(k)) + FieldBytes(2, EncodeValue(v)))
  {
    hide EncodeValue, PairFields, PairBody, FieldBytes, Encodable, Write, Pairs;
    EncodedPair(k, v);
    PairsAppend(done, k, v);
    PairFieldsAppend(Pairs(done), Pair(k, v));
  }

  class ValueEncoder {
    var stack: set<Key>

    constructor ()
      ensures stack == {}
    {
      stack := {};
    }

    /** Encodes exactly the unfolding, and leaves the visit stack as it found it. */
    method Encode(heap: Heap, r: Ref, depth: nat) returns (res: Result<Bytes>)
      requires WellFormed(heap) && r < |heap| && depth <= MAX_VALUE_DEPTH + 1
      modifies this
      ensures stack == old(stack)
      ensures match Reify(heap, r, old(stack), depth)
              case Err => res.Err?
              case Ok(v) => Represents(heap, r, v) && res == Ok(EncodeValue(v))
      decreases MAX_VALUE_DEPTH + 1 - depth, |Identities(heap) - stack|, 1
    {
      hide EncodeValue, ReifyAll, Represents;
      if depth > MAX_VALUE_DEPTH {
        return Err;
      }
      var n := heap[r];
      var before := stack;
      if Identity(n).Some? {
        if Identity(n).value in stack {
          return Err;
        }
        stack := stack + {Identity(n).value};
        PushShrinks(heap, r, before);
      }
      res := EncodeNode(heap, r, depth, before);
      stack := before;
    }

    method EncodeNode(heap: Heap, r: Ref, depth: nat, ghost before: set<Key>) returns (res: Result<Bytes>)
      requires WellFormed(heap) && r < |heap| && depth <= MAX_VALUE_DEPTH
      requires stack == Push(before, heap[r]) && !Blocked(heap[r], before)
      requires heap[r].Pointer? ==> |Identities(heap) - stack| < |Identities(heap) - before|
      modifies this
      ensures stack == old(stack)
      ensures match Reify(heap, r, before, depth)
              case Err => res.Err?
              case Ok(v) => Represents(heap, r, v) && res == Ok(EncodeValue(v))
      decreases MAX_VALUE_DEPTH + 1 - depth, |Identities(heap) - before|, 0
    {
      hide EncodeValue, Encodable, ReifyAll, Assembled, RepresentsIn;
      if Reify(heap, r, before, depth).Ok? {
        var k := ReifyRepresents(heap, r, before, depth);
      }
      assert forall i :: 0 <= i < |Children(heap[r])| ==> Children(heap[r])[i] < |heap|;
      match heap[r] {
        case Scalar(v) =>
          res := Ok(EncodeValue(v));
        case Unsupported =>
          res := Err;
        case Pointer(_, target) =>
          assert Children(heap[r])[0] == target;
          res := Encode(heap, target, depth);
        case _ =>
          res := EncodeContainer(heap, heap[r], depth);
      }
    }

    method EncodeContainer(heap: Heap, n: HostNode, depth: nat) returns (res: Result<Bytes>)
      requires WellFormed(heap) && depth <= MAX_VALUE_DEPTH
      requires !n.Scalar? && !n.Unsupported? && !n.Pointer?
      requires forall i :: 0 <= i < |Children(n)| ==> Children(n)[i] < |heap|
      modifies this
      ensures stack == old(stack)
      ensures match ReifyAll(heap, Children(n), old(stack), depth + 1)
              case Err => res.Err?
              case Ok(vs) => res == Ok(EncodeValue(Assembled(n, vs)))
      decreases MAX_VALUE_DEPTH - depth, |Identities(heap) - stack|, 3
    {
      hide ItemFields, PairFields, Write, FieldBytes, EncodeValue, Encodable, ReifyAll, Pairs, EntryRefs;
      match n {
        case Items(_, kind, items) =>
          assert Children(n) == items;
          var body := EncodeItems(heap, 1, items, depth + 1);
          if body.Err? {
            return Err;
          }
          EncodedSeq(kind, ReifyAll(heap, items, stack, depth + 1).value);
          res := Ok(FieldBytes(SeqTag(kind), body.value));
        case Entries(_, es) =>
          assert Children(n) == EntryRefs(es);
          var body := EncodeEntries(heap, es, depth + 1);
          if body.Err? {
            return Err;
          }
          EncodedDict(ReifyAll(heap, EntryRefs(es), stack, depth + 1).value);
          res := Ok(FieldBytes(14, body.value));
        case Named(t, names, items) =>
          var head := Write([LenField(1, t)] + NameFields(names));
          assert Children(n) == items;
          var body := EncodeItems(heap, 3, items, depth + 1);
          if body.Err? {
            return Err;
          }
          EncodedNamed(t, names, ReifyAll(heap, items, stack, depth + 1).value);
          res := Ok(FieldBytes(13, head + body.value));
        case HostModule(name, uuid, es) =>
          assert Children(n) == EntryRefs(es);
          var body := EncodeEntries(heap, es, depth + 1);
          if body.Err? {
            return Err;
          }
          EncodedModule(name, uuid, ReifyAll(heap, EntryRefs(es), stack, depth + 1).value);
          res := Ok(FieldBytes(32, Write(ModuleFields(name, uuid, body.value))));
      }
    }

    method EncodeItems(heap: Heap, tag: nat, refs: seq<Ref>, depth: nat) returns (res: Result<Bytes>)
      requires WellFormed(heap) && depth <= MAX_VALUE_DEPTH + 1
      requires forall i :: 0 <= i < |refs| ==> refs[i] < |heap|
      modifies this
      ensures stack == old(stack)
      ensures match ReifyAll(heap, refs, old(stack), depth)
              case Err => res.Err?
              case Ok(vs) => res == Ok(Write(ItemFields(tag, vs)))
      decreases MAX_VALUE_DEPTH + 1 - depth, |Identities(heap) - stack|, 2
    {
      hide Reify, ReifyAll, EncodeValue, ItemFields, FieldBytes, Encodable;
      var body: Bytes := [];
      ghost var done: seq<Value> := [];
      PrependConcat(done, done, ReifyAll(heap, refs, stack, depth));
      assert ItemFields(tag, []) == [] && refs[0..] == refs;
      var i := 0;
      while i < |refs|
        invariant 0 <= i <= |refs| && stack == old(stack)
        invariant AllEncodable(done) && body == Write(ItemFields(tag, done))
        invariant ReifyAll(heap, refs, stack, depth) == Prepend(done, ReifyAll(heap, refs[i..], stack, depth))
      {
        ReifyAllSplit(heap, refs, done, i, stack, depth);
        var b := Encode(heap, refs[i], depth);
        if b.Err? {
          return Err;
        }
        ghost var v := Reify(heap, refs[i], stack, depth).value;
        ItemFieldsAppend(tag, done, v);
        body := body + FieldBytes(tag, b.value);
        done := done + [v];
        i := i + 1;
      }
      ReifyNone(heap, refs[i..], stack, depth);
      assert done + [] == done;
      res := Ok(body);
    }

    method EncodeEntries(heap: Heap, es: seq<Entry>, depth: nat) returns (res: Result<Bytes>)
      requires WellFormed(heap) && depth <= MAX_VALUE_DEPTH + 1
      requires forall i :: 0 <= i < |EntryRefs(es)| ==> EntryRefs(es)[i] < |heap|
      modifies this
      ensures stack == old(stack)
      ensures match ReifyAll(heap, EntryRefs(es), old(stack), depth)
              case Err => res.Err?
              case Ok(vs) => res == Ok(Write(PairFields(Pairs(vs))))
      decreases MAX_VALUE_DEPTH + 1 - depth, |Identities(heap) - stack|, 2
    {
      hide Reify, ReifyAll, EncodeValue, PairFields, FieldBytes, Encodable, Write, Pairs, EntryRefs;
      var body: Bytes := [];
      NoPairs();
      ghost var refs := EntryRefs(es);
      ghost var done: seq<Value> := [];
      PrependConcat(done, done, ReifyAll(heap, refs, stack, depth));
      assert refs[0..] == refs;
      var i := 0;
      while i < |es|
        invariant 0 <= i <= |es| && stack == old(stack) && |done| == 2 * i
        invariant AllEncodable(done) && body == Write(PairFields(Pairs(done)))
        invariant ReifyAll(heap, refs, stack, depth) == Prepend(done, ReifyAll(heap, refs[2 * i..], stack, depth))
      {
        EntrySplit(heap, refs, done, 2 * i, stack, depth);
        assert refs[2 * i] == es[i].key && refs[2 * i + 1] == es[i].value;
        var key := Encode(heap, es[i].key, depth);
        if key.Err? {
          return Err;
        }
        var value := Encode(heap, es[i].value, depth);
        if value.Err? {
          return Err;
        }
        body := body + FieldBytes(1, FieldBytes(1, key.value) + FieldBytes(2, value.value));
        ghost var k := Reify(heap, refs[2 * i], stack, depth).value;
        ghost var v := Reify(heap, refs[2 * i + 1], stack, depth).value;
        EntryWritten(done, k, v);
        done := done + [k, v];
        i := i + 1;
      }
      ReifyNone(heap, refs[2 * i..], stack, depth);
      assert done + [] == done;
      res := Ok(body);
    }
  }

  lemma NoPairs()
    ensures Write(PairFields(Pairs([]))) == []
  {
  }

  lemma ReifyNone(heap: Heap, refs: seq<Ref>, stack: set<Key>, depth: nat)
    requires WellFormed(heap) && depth <= MAX_VALUE_DEPTH + 1 && refs == []
    ensures ReifyAll(heap, refs, stack, depth) == Ok([])
  {
  }
}
