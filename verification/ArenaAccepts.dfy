/** Which nested messages the arena encoder takes: decided by their kinds, all the way down. */
module ArenaAccepts {
  import opened Common
  import opened Wire
  import opened Values
  import opened Nested
  import opened Arena

  /** Reads well, and every kind in it may be supplied. */
  ghost predicate Accepts(b: Bytes)
    decreases |b|, 0
  {
    var p := Parse(b);
    p.ok && forall i :: 0 <= i < |p.fields| ==> KindAccepted(p.fields[i])
  }

  /** Kinds 10 and 24 may not be supplied, nor may any beyond 32; what a container holds must be accepted. */
  ghost predicate KindAccepted(f: Field)
    decreases |f.bytes|, 3
  {
    && 1 <= f.tag <= 32 && f.tag != 10 && f.tag != 24
    && match f.tag
       case 11 => ChildrenAccepted(f.bytes, 1)
       case 12 => ChildrenAccepted(f.bytes, 1)
       case 15 => ChildrenAccepted(f.bytes, 1)
       case 16 => ChildrenAccepted(f.bytes, 1)
       case 13 => ChildrenAccepted(f.bytes, 3)
       case 14 => PairsAccepted(f.bytes)
       case 32 => AttributesAccepted(f.bytes)
       case _ => true
  }

  ghost predicate ChildrenAccepted(b: Bytes, tag: nat)
    decreases |b|, 1
  {
    var p := Parse(b);
    p.ok && forall i :: 0 <= i < |p.fields| && p.fields[i].tag == tag ==> Accepts(p.fields[i].bytes)
  }

  ghost predicate PairsAccepted(b: Bytes)
    decreases |b|, 1
  {
    var p := Parse(b);
    p.ok && forall i :: 0 <= i < |p.fields| && p.fields[i].tag == 1 ==> PairAccepted(p.fields[i].bytes)
  }

  /** Key, value, and whatever else a pair is said to hold. */
  ghost predicate PairAccepted(b: Bytes)
    decreases |b|, 1
  {
    var p := Parse(b);
    p.ok && forall i :: 0 <= i < |p.fields| ==> Accepts(p.fields[i].bytes)
  }

  ghost predicate AttributesAccepted(b: Bytes)
    decreases |b|, 2
  {
    var p := Parse(b);
    p.ok && forall i :: 0 <= i < |p.fields| && p.fields[i].tag == 3 ==> PairsAccepted(p.fields[i].bytes)
  }

  // ---------------------------------------------------------------------------
  // The encoder accepts just these

  /** A child is referred to as an element of its parent. */
  predicate IsChild(parent: Parent, tag: nat)
  {
    match parent
    case InList => tag == 1
    case InNamedTuple => tag == 3
    case InPair => true
  }

  /** A message is added if and only if every kind in it may be supplied, whatever is in the table. */
  lemma {:induction false} AddSucceedsIff(nodes: seq<Bytes>, b: Bytes)
    ensures Flatten(nodes, b).Ok? <==> Accepts(b)
    decreases |b|, 1, 0
  {
    hide Parse, FlattenKinds, KindAccepted;
    KindsSucceedIff(nodes, [], Parse(b).fields, |b|);
  }

  lemma {:induction false} KindsSucceedIff(nodes: seq<Bytes>, node: Bytes, fs: seq<Field>, n: nat)
    requires Below(fs, n)
    ensures FlattenKinds(nodes, node, fs, n).Ok? <==> forall i :: 0 <= i < |fs| ==> KindAccepted(fs[i])
    decreases n, 0, |fs|
  {
    hide KindAccepted, FlattenBody, NodeOf;
    if fs != [] {
      SuppliableIfAccepted(fs[0]);
      if Suppliable(fs[0].tag) {
        BodySucceedsIff(nodes, fs[0]);
        if FlattenBody(nodes, fs[0]).Ok? {
          var a := FlattenBody(nodes, fs[0]).value;
          KindsSucceedIff(a.nodes, NodeOf(fs[0], a.body), fs[1..], n);
        }
      }
      assert forall i :: 1 <= i < |fs| ==> fs[i] == fs[1..][i - 1];
      assert forall i :: 0 <= i < |fs[1..]| ==> fs[1..][i] == fs[i + 1];
    }
  }

  lemma SuppliableIfAccepted(f: Field)
    ensures KindAccepted(f) ==> Suppliable(f.tag)
  {
  }

  lemma {:induction false} BodySucceedsIff(nodes: seq<Bytes>, f: Field)
    requires Suppliable(f.tag)
    ensures FlattenBody(nodes, f).Ok? <==> KindAccepted(f)
    decreases |f.bytes|, 3, 0
  {
    hide Parse, FlattenChildren, FlattenPairList, FlattenModule, Accepts, PairAccepted, PairsAccepted;
    if SeqKindOf(f.tag).Some? {
      ChildrenSucceedIff(nodes, [], Parse(f.bytes).fields, |f.bytes|, InList);
    } else if f.tag == 13 {
      ChildrenSucceedIff(nodes, [], Parse(f.bytes).fields, |f.bytes|, InNamedTuple);
    } else if f.tag == 14 {
      PairsSucceedIff(nodes, f.bytes);
    } else if f.tag == 32 {
      ModuleSucceedsIff(nodes, [], Parse(f.bytes).fields, |f.bytes|);
    }
  }

  lemma {:induction false} ChildrenSucceedIff(
      nodes: seq<Bytes>, body: Bytes, fs: seq<Field>, n: nat, parent: Parent)
    requires Below(fs, n)
    ensures FlattenChildren(nodes, body, fs, n, parent).Ok?
       <==> forall i :: 0 <= i < |fs| && IsChild(parent, fs[i].tag) ==> Accepts(fs[i].bytes)
    decreases n, 0, |fs|
  {
    hide Accepts, Flatten, LastIndex, FieldBytes, FieldVarint;
    if fs != [] {
      var f := fs[0];
      match RoleOf(parent, f.tag) {
        case Drop => ChildrenSucceedIff(nodes, body, fs[1..], n, parent);
        case Copy => ChildrenSucceedIff(nodes, body + FieldBytes(f.tag, f.bytes), fs[1..], n, parent);
        case Refer =>
          AddSucceedsIff(nodes, f.bytes);
          if Flatten(nodes, f.bytes).Ok? {
            var ns := Flatten(nodes, f.bytes).value;
            ChildrenSucceedIff(ns, body + FieldVarint(f.tag, LastIndex(ns)), fs[1..], n, parent);
          }
      }
      assert forall i :: 1 <= i < |fs| ==> fs[i] == fs[1..][i - 1];
      assert forall i :: 0 <= i < |fs[1..]| ==> fs[1..][i] == fs[i + 1];
    }
  }

  lemma {:induction false} PairsSucceedIff(nodes: seq<Bytes>, data: Bytes)
    ensures FlattenPairs(nodes, data).Ok? <==> PairsAccepted(data)
    decreases |data|, 2, 0
  {
    hide Parse, PairAccepted, FlattenPairList;
    PairListSucceedsIff(nodes, [], Parse(data).fields, |data|);
  }

  lemma {:induction false} PairListSucceedsIff(nodes: seq<Bytes>, body: Bytes, fs: seq<Field>, n: nat)
    requires Below(fs, n)
    ensures FlattenPairList(nodes, body, fs, n).Ok?
       <==> forall i :: 0 <= i < |fs| && fs[i].tag == 1 ==> PairAccepted(fs[i].bytes)
    decreases n, 0, |fs|
  {
    hide PairAccepted, FlattenMessage, FieldBytes;
    if fs != [] {
      if fs[0].tag != 1 {
        PairListSucceedsIff(nodes, body, fs[1..], n);
      } else {
        PairSucceedsIff(nodes, fs[0].bytes);
        if FlattenMessage(nodes, fs[0].bytes, InPair).Ok? {
          var a := FlattenMessage(nodes, fs[0].bytes, InPair).value;
          PairListSucceedsIff(a.nodes, body + FieldBytes(1, a.body), fs[1..], n);
        }
      }
      assert forall i :: 1 <= i < |fs| ==> fs[i] == fs[1..][i - 1];
      assert forall i :: 0 <= i < |fs[1..]| ==> fs[1..][i] == fs[i + 1];
    }
  }

  lemma {:induction false} PairSucceedsIff(nodes: seq<Bytes>, data: Bytes)
    ensures FlattenMessage(nodes, data, InPair).Ok? <==> PairAccepted(data)
    decreases |data|, 1, 0
  {
    hide Parse, Accepts, FlattenChildren;
    ChildrenSucceedIff(nodes, [], Parse(data).fields, |data|, InPair);
  }

  lemma {:induction false} ModuleSucceedsIff(nodes: seq<Bytes>, body: Bytes, fs: seq<Field>, n: nat)
    requires Below(fs, n)
    ensures FlattenModule(nodes, body, fs, n).Ok?
       <==> forall i :: 0 <= i < |fs| && fs[i].tag == 3 ==> PairsAccepted(fs[i].bytes)
    decreases n, 0, |fs|
  {
    hide PairsAccepted, FlattenPairs, FieldBytes;
    if fs != [] {
      if fs[0].tag != 3 {
        ModuleSucceedsIff(nodes, body + FieldBytes(fs[0].tag, fs[0].bytes), fs[1..], n);
      } else {
        PairsSucceedIff(nodes, fs[0].bytes);
        if FlattenPairs(nodes, fs[0].bytes).Ok? {
          var a := FlattenPairs(nodes, fs[0].bytes).value;
          ModuleSucceedsIff(a.nodes, body + FieldBytes(3, a.body), fs[1..], n);
        }
      }
      assert forall i :: 1 <= i < |fs| ==> fs[i] == fs[1..][i - 1];
      assert forall i :: 0 <= i < |fs[1..]| ==> fs[1..][i] == fs[i + 1];
    }
  }
}
