/** Which arenas decode, and what each of their nodes then is, said of the bytes alone. */
module ArenaNodes {
  import opened Common
  import opened Wire
  import opened Values
  import opened Nested
  import opened ArenaDecode
  import opened ArenaTheorems
  import ArenaMeaning

  /** A list, tuple, set, frozen set, named tuple or dict whose message and index lists read well. */
  ghost predicate ContainerOk(f: Field)
  {
    var p := Parse(f.bytes);
    && f.typ.Len? && p.ok
    && match f.tag
       case 11 => Indexes(p.fields, 1).Ok?
       case 12 => Indexes(p.fields, 1).Ok?
       case 15 => Indexes(p.fields, 1).Ok?
       case 16 => Indexes(p.fields, 1).Ok?
       case 13 => Indexes(p.fields, 3).Ok?
       case 14 => forall i :: 0 <= i < |p.fields| && p.fields[i].tag == 1 ==> Parse(p.fields[i].bytes).ok
       case _ => false
  }

  /** A value without references that decodes by itself. */
  predicate LeafOk(f: Field)
  {
    (PassedThrough(f.tag) || f.tag == 18 || f.tag == 30) && DecodeNodeKind(f, []).Ok?
  }

  ghost predicate NodeOk(node: Bytes)
  {
    var p := Parse(node);
    p.ok && |p.fields| == 1 && (ContainerOk(p.fields[0]) || LeafOk(p.fields[0]))
  }

  /** The values at these indexes, in this order. */
  predicate AtIndexes(items: seq<Value>, ids: seq<U64>, values: seq<Value>)
  {
    && |items| == |ids|
    && forall j :: 0 <= j < |ids| ==> ids[j] < |values| && items[j] == values[ids[j]]
  }

  /** Keys and values at these indexes, alternating. */
  predicate PairsAtIndexes(pairs: seq<Pair>, ids: seq<U64>, values: seq<Value>)
  {
    && |ids| == 2 * |pairs| && AllBelow(ids, |values|)
    && forall j :: 0 <= j < |pairs| ==>
         pairs[j].key == values[ids[2 * j]] && pairs[j].value == values[ids[2 * j + 1]]
  }

  /** The value is of the field's kind and holds exactly what the field refers to. */
  ghost predicate Contains(f: Field, v: Value, values: seq<Value>)
  {
    var fs := Parse(f.bytes).fields;
    match f.tag
    case 11 => v.Seq? && v.kind == List && AtIndexes(v.items, References(f), values)
    case 12 => v.Seq? && v.kind == Tuple && AtIndexes(v.items, References(f), values)
    case 15 => v.Seq? && v.kind == Set && AtIndexes(v.items, References(f), values)
    case 16 => v.Seq? && v.kind == FrozenSet && AtIndexes(v.items, References(f), values)
    case 13 =>
      && v.NamedTuple? && v.typeName == BytesOf(fs, 1) && v.fieldNames == AllBytesOf(fs, 2)
      && AtIndexes(v.values, References(f), values)
    case 14 => v.Dict? && PairsAtIndexes(v.pairs, References(f), values)
    case _ => true
  }

  lemma TwoMore(a: U64, b: U64, rest: seq<U64>, n: nat)
    ensures AllBelow([a, b] + rest, n) <==> a < n && b < n && AllBelow(rest, n)
  {
    var ids := [a, b] + rest;
    assert ids[0] == a && ids[1] == b && ids[2..] == rest;
    forall j | 0 <= j < |rest| ensures rest[j] == ids[j + 2] {
    }
  }

  lemma OneMorePair(p: Pair, pairs: seq<Pair>, a: U64, b: U64, rest: seq<U64>, values: seq<Value>)
    requires PairsAtIndexes(pairs, rest, values) && a < |values| && b < |values| && p == Pair(values[a], values[b])
    ensures PairsAtIndexes([p] + pairs, [a, b] + rest, values)
  {
    TwoMore(a, b, rest, |values|);
    var all, ids := [p] + pairs, [a, b] + rest;
    forall j | 0 < j < |all| ensures all[j] == pairs[j - 1] && ids[2 * j] == rest[2 * (j - 1)]
      && ids[2 * j + 1] == rest[2 * (j - 1) + 1]
    {
    }
  }

  lemma {:induction false} PairsResolve(fs: seq<Field>, values: seq<Value>)
    requires forall i :: 0 <= i < |fs| && fs[i].tag == 1 ==> Parse(fs[i].bytes).ok
    ensures ResolvePairs(fs, values).Ok? <==> AllBelow(PairIndexes(fs), |values|)
    ensures ResolvePairs(fs, values).Ok? ==> PairsAtIndexes(ResolvePairs(fs, values).value, PairIndexes(fs), values)
  {
    hide Parse, VarintOf, AllBelow, PairsAtIndexes;
    if fs == [] {
      assert AllBelow([], |values|) && PairsAtIndexes([], [], values) by { NoPairs(values); }
    } else {
      PairsResolve(fs[1..], values);
      if fs[0].tag == 1 {
        var p := Parse(fs[0].bytes).fields;
        var a, b, rest := VarintOf(p, 1), VarintOf(p, 2), PairIndexes(fs[1..]);
        TwoMore(a, b, rest, |values|);
        if ResolvePairs(fs, values).Ok? {
          OneMorePair(Pair(values[a], values[b]), ResolvePairs(fs[1..], values).value, a, b, rest, values);
        }
      }
    }
  }

  lemma NoPairs(values: seq<Value>)
    ensures AllBelow([], |values|) && PairsAtIndexes([], [], values)
  {
  }

  lemma ListResolves(values: seq<Value>, ids: seq<U64>)
    ensures Resolve(values, Ok(ids)).Ok? <==> AllBelow(ids, |values|)
    ensures Resolve(values, Ok(ids)).Ok? ==> AtIndexes(Resolve(values, Ok(ids)).value, ids, values)
  {
  }

  /** A well-formed container decodes if and only if its references are there, and then holds what they refer to. */
  lemma ContainerDecodesIff(f: Field, values: seq<Value>)
    requires ContainerOk(f)
    ensures DecodeNodeKind(f, values).Ok? <==> AllBelow(References(f), |values|)
    ensures DecodeNodeKind(f, values).Ok? ==> Contains(f, DecodeNodeKind(f, values).value, values)
  {
    hide Parse, Indexes, ResolvePairs, PairIndexes, Lookup, BytesOf, AllBytesOf;
    var fs := Parse(f.bytes).fields;
    if f.tag == 14 {
      PairsResolve(fs, values);
    } else {
      hide Resolve, PairsAtIndexes;
      ListResolves(values, Indexes(fs, if f.tag == 13 then 3 else 1).value);
    }
  }

  lemma LeafAnywhere(f: Field, values: seq<Value>)
    requires LeafOk(f)
    ensures DecodeNodeKind(f, values) == DecodeNodeKind(f, []) && References(f) == []
  {
    hide Parse, DecodeValue, WriteField, TimeOf;
  }

  lemma NodeDecodesIff(node: Bytes, values: seq<Value>)
    requires NodeOk(node)
    ensures DecodeNode(node, values).Ok? <==> AllBelow(NodeReferences(node), |values|)
    ensures DecodeNode(node, values).Ok? ==> Contains(Parse(node).fields[0], DecodeNode(node, values).value, values)
  {
    hide Parse, ContainerOk, LeafOk, DecodeNodeKind, References, Contains;
    var f := Parse(node).fields[0];
    if ContainerOk(f) {
      ContainerDecodesIff(f, values);
    } else {
      LeafAnywhere(f, values);
      assert DecodeNodeKind(f, []).Ok? && Contains(f, DecodeNodeKind(f, values).value, values) by {
        LeafContains(f, values);
      }
    }
  }

  lemma LeafContains(f: Field, values: seq<Value>)
    requires LeafOk(f)
    ensures DecodeNodeKind(f, []).Ok? && forall v :: Contains(f, v, values)
  {
    hide Parse, DecodeNodeKind;
  }

  /** Node j is decoded with the values before its own, the first node's being value k. */
  ghost predicate EachDecoded(nodes: seq<Bytes>, k: nat, all: seq<Value>)
    requires |all| == k + |nodes|
  {
    forall j :: 0 <= j < |nodes| ==> DecodeNode(nodes[j], all[..k + j]) == Ok(all[k + j])
  }

  lemma OneMoreDecoded(nodes: seq<Bytes>, k: nat, all: seq<Value>)
    requires nodes != [] && |all| == k + |nodes| && EachDecoded(nodes[1..], k + 1, all)
    requires DecodeNode(nodes[0], all[..k]) == Ok(all[k])
    ensures EachDecoded(nodes, k, all)
  {
    hide DecodeNode;
    forall j | 0 <= j < |nodes| ensures DecodeNode(nodes[j], all[..k + j]) == Ok(all[k + j]) {
      if j > 0 {
        assert nodes[1..][j - 1] == nodes[j];
      }
    }
  }

  /** What each node of an arena is: decoded with the values before it. */
  lemma {:induction false} EachNodeDecodes(fs: seq<Field>, values: seq<Value>)
    requires DecodeNodes(fs, values).Ok?
    ensures
      var all := DecodeNodes(fs, values).value;
      |all| == |values| + |NodeBodies(fs)| && values <= all && EachDecoded(NodeBodies(fs), |values|, all)
    decreases |fs|
  {
    hide DecodeNode, EachDecoded;
    DecodedNodesPointBack(fs, values);
    if fs == [] {
      NoneDecoded(values);
    } else if fs[0].tag != 2 {
      EachNodeDecodes(fs[1..], values);
    } else {
      var v := DecodeNode(fs[0].bytes, values).value;
      var all := DecodeNodes(fs, values).value;
      EachNodeDecodes(fs[1..], values + [v]);
      assert all[..|values|] == values && all[|values|] == v;
      assert NodeBodies(fs)[1..] == NodeBodies(fs[1..]);
      OneMoreDecoded(NodeBodies(fs), |values|, all);
    }
  }

  lemma NoneDecoded(all: seq<Value>)
    ensures EachDecoded([], |all|, all)
  {
  }

  ghost predicate NodesOk(nodes: seq<Bytes>)
  {
    forall j :: 0 <= j < |nodes| ==> NodeOk(nodes[j])
  }

  /** Node j refers only to values before its own, the first node's being value k. */
  ghost predicate PointBack(nodes: seq<Bytes>, k: nat)
  {
    forall j :: 0 <= j < |nodes| ==> AllBelow(NodeReferences(nodes[j]), k + j)
  }

  lemma FirstPointsBack(nodes: seq<Bytes>, k: nat)
    requires nodes != []
    ensures PointBack(nodes, k) ==> AllBelow(NodeReferences(nodes[0]), k) && PointBack(nodes[1..], k + 1)
    ensures NodesOk(nodes) ==> NodeOk(nodes[0]) && NodesOk(nodes[1..])
  {
    hide AllBelow, NodeReferences, NodeOk;
    if PointBack(nodes, k) {
      assert AllBelow(NodeReferences(nodes[0]), k + 0);
      forall j | 0 <= j < |nodes[1..]| ensures AllBelow(NodeReferences(nodes[1..][j]), k + 1 + j) {
        assert nodes[1..][j] == nodes[j + 1] && k + 1 + j == k + (j + 1);
      }
    }
  }

  lemma {:induction false} NodesDecode(fs: seq<Field>, values: seq<Value>)
    requires forall i :: 0 <= i < |fs| && fs[i].tag == 2 ==> fs[i].typ.Len?
    requires NodesOk(NodeBodies(fs)) && PointBack(NodeBodies(fs), |values|)
    ensures DecodeNodes(fs, values).Ok?
    decreases |fs|
  {
    hide DecodeNode, NodeOk, NodesOk, PointBack, NodeReferences, AllBelow;
    if fs != [] {
      if fs[0].tag != 2 {
        NodesDecode(fs[1..], values);
      } else {
        var bodies := NodeBodies(fs);
        assert bodies[0] == fs[0].bytes && bodies[1..] == NodeBodies(fs[1..]);
        FirstPointsBack(bodies, |values|);
        NodeDecodesIff(bodies[0], values);
        NodesDecode(fs[1..], values + [DecodeNode(bodies[0], values).value]);
      }
    }
  }

  ghost predicate NodeContains(node: Bytes, v: Value, values: seq<Value>)
  {
    var fs := Parse(node).fields;
    |fs| == 1 && Contains(fs[0], v, values)
  }

  lemma ContainsGrows(f: Field, v: Value, values: seq<Value>, j: nat)
    requires j <= |values| && Contains(f, v, values[..j])
    ensures Contains(f, v, values)
  {
    hide Parse, References;
  }

  /** No class, class instance or module: those have conditions of their own. */
  predicate Simple(node: Bytes)
  {
    forall i :: 0 <= i < |Parse(node).fields| ==> !(Parse(node).fields[i].tag in {23, 24, 32})
  }

  lemma {:induction false} PairsParsed(fs: seq<Field>, values: seq<Value>)
    requires ResolvePairs(fs, values).Ok?
    ensures forall i :: 0 <= i < |fs| && fs[i].tag == 1 ==> Parse(fs[i].bytes).ok
  {
    hide Parse, LastField;
    if fs != [] {
      PairsParsed(fs[1..], values);
      assert forall i :: 1 <= i < |fs| ==> fs[i] == fs[1..][i - 1];
      if fs[0].tag == 1 {
        PairParsed(fs[0].bytes, values);
      }
    }
  }

  lemma PairParsed(data: Bytes, values: seq<Value>)
    requires ResolvePair(data, values).Ok?
    ensures Parse(data).ok
  {
    hide Parse, LastField;
  }

  lemma ContainerIsOk(f: Field, values: seq<Value>)
    requires DecodeNodeKind(f, values).Ok? && f.tag in {11, 12, 13, 14, 15, 16}
    ensures ContainerOk(f)
  {
    hide Parse, Indexes, ResolvePairs, Lookup;
    if f.tag == 14 {
      PairsParsed(Parse(f.bytes).fields, values);
    }
  }

  lemma LeafIsOk(f: Field, values: seq<Value>)
    requires DecodeNodeKind(f, values).Ok? && !(f.tag in {11, 12, 13, 14, 15, 16, 23, 24, 32})
    ensures LeafOk(f)
  {
    hide Parse, DecodeValue, WriteField, TimeOf;
  }

  /** Nothing but a well-formed node decodes, whatever there is to refer to. */
  lemma DecodedIsOk(node: Bytes, values: seq<Value>)
    requires DecodeNode(node, values).Ok? && Simple(node)
    ensures NodeOk(node)
  {
    hide Parse, DecodeNodeKind, ContainerOk, LeafOk;
    var f := Parse(node).fields[0];
    if f.tag in {11, 12, 13, 14, 15, 16} {
      ContainerIsOk(f, values);
    } else {
      LeafIsOk(f, values);
    }
  }

  /** Every node is written as a message. */
  predicate NodesAreMessages(fs: seq<Field>)
  {
    forall i :: 0 <= i < |fs| && fs[i].tag == 2 ==> fs[i].typ.Len?
  }

  lemma {:induction false} DecodedAreMessages(fs: seq<Field>, values: seq<Value>)
    requires DecodeNodes(fs, values).Ok?
    ensures NodesAreMessages(fs)
    decreases |fs|
  {
    hide DecodeNode;
    if fs != [] {
      DecodedAreMessages(fs[1..], if fs[0].tag == 2 then values + [DecodeNode(fs[0].bytes, values).value] else values);
      assert forall i :: 1 <= i < |fs| ==> fs[i] == fs[1..][i - 1];
    }
  }

  /**
   An arena of values, containers and dicts decodes if and only if its message reads well, every node
   is well formed by itself, and every reference points back; then every container in it holds
   exactly the values its references point to.
   */
  lemma ArenaDecodesIff(data: Bytes)
    requires forall j :: 0 <= j < |NodeBodies(Parse(data).fields)| ==> Simple(NodeBodies(Parse(data).fields)[j])
    ensures
      var fs := Parse(data).fields;
      var nodes := NodeBodies(fs);
      && (ArenaValues(data).Ok? <==>
          Parse(data).ok && NodesAreMessages(fs) && NodesOk(nodes) && PointBack(nodes, 0))
      && (ArenaValues(data).Ok? ==>
          var values := ArenaValues(data).value;
          && |values| == |nodes|
          && forall j :: 0 <= j < |nodes| ==> NodeContains(nodes[j], values[j], values))
  {
    hide Parse, DecodeNodes, DecodeNode, NodeOk, NodeReferences, NodeBodies, AllBelow, Contains, Simple;
    var fs := Parse(data).fields;
    var nodes := NodeBodies(fs);
    if Parse(data).ok && NodesAreMessages(fs) && NodesOk(nodes) && PointBack(nodes, 0) {
      NodesDecode(fs, []);
    }
    if ArenaValues(data).Ok? {
      ArenaIsAcyclic(data);
      EachNodeDecodes(fs, []);
      DecodedAreMessages(fs, []);
      var values := ArenaValues(data).value;
      forall j | 0 <= j < |nodes| ensures AllBelow(NodeReferences(nodes[j]), 0 + j) {
      }
      forall j | 0 <= j < |nodes| ensures NodeOk(nodes[j]) && NodeContains(nodes[j], values[j], values) {
        DecodedIsOk(nodes[j], values[..j]);
        DecodedNodeContains(nodes[j], values, j);
      }
    }
  }

  lemma DecodedNodeContains(node: Bytes, values: seq<Value>, j: nat)
    requires NodeOk(node) && j < |values| && DecodeNode(node, values[..j]) == Ok(values[j])
    ensures NodeContains(node, values[j], values)
  {
    NodeDecodesIff(node, values[..j]);
    hide Parse, DecodeNode, NodeReferences, AllBelow, Contains, ContainerOk, LeafOk;
    ContainsGrows(Parse(node).fields[0], values[j], values, j);
  }

  // ---------------------------------------------------------------------------
  // Classes and instances

  /** A pair message for each pair of indexes. */
  function IndexPairFields(ids: seq<(U64, U64)>): (fs: seq<Field>)
    ensures |fs| == |ids|
  {
    if ids == [] then []
    else [LenField(1, Write([VarintField(1, ids[0].0), VarintField(2, ids[0].1)]))] + IndexPairFields(ids[1..])
  }

  predicate IndexesExist(ids: seq<(U64, U64)>, n: nat)
  {
    forall j :: 0 <= j < |ids| ==> ids[j].0 < n && ids[j].1 < n
  }

  lemma PairMessage(k: U64, v: U64)
    ensures
      var p := Parse(Write([VarintField(1, k), VarintField(2, v)]));
      p.ok && VarintOf(p.fields, 1) == k && VarintOf(p.fields, 2) == v
    ensures |Write([VarintField(1, k), VarintField(2, v)])| < TWO64
  {
    var fs := [VarintField(1, k), VarintField(2, v)];
    hide Parse, Write, LastField;
    ArenaMeaning.FieldsLength(fs, 0);
    ParseMessage(fs);
    LastFieldAt(fs, 0, 1);
    LastFieldAt(fs, 1, 2);
  }

  lemma {:induction false} IndexPairsResolve(ids: seq<(U64, U64)>, values: seq<Value>)
    requires IndexesExist(ids, |values|)
    ensures AllShaped(IndexPairFields(ids))
    ensures
      var r := ResolvePairs(IndexPairFields(ids), values);
      && r.Ok? && |r.value| == |ids|
      && forall j :: 0 <= j < |ids| ==> r.value[j] == Pair(values[ids[j].0], values[ids[j].1])
  {
    hide Parse, Write, VarintOf;
    if ids != [] {
      PairMessage(ids[0].0, ids[0].1);
      IndexPairsResolve(ids[1..], values);
    }
  }

  /** Attributes as a node writes them, read back as the values at their indexes. */
  ghost predicate Attributes(pairs: seq<Pair>, ids: seq<(U64, U64)>, values: seq<Value>)
  {
    && |pairs| == |ids| && IndexesExist(ids, |values|)
    && forall j :: 0 <= j < |ids| ==> pairs[j] == Pair(values[ids[j].0], values[ids[j].1])
  }

  lemma AttributesRead(ids: seq<(U64, U64)>, values: seq<Value>)
    requires IndexesExist(ids, |values|) && |Write(IndexPairFields(ids))| < TWO64
    ensures
      var r := ArenaPairs(Write(IndexPairFields(ids)), values);
      r.Ok? && Attributes(r.value, ids, values)
  {
    hide Parse, Write, ResolvePairs, IndexPairFields;
    IndexPairsResolve(ids, values);
    ParseMessage(IndexPairFields(ids));
  }

  function ClassFields(name: Bytes, id: Uuid, origin: nat, isDataclass: bool, attrs: Bytes): seq<Field>
    requires origin < TWO32
  {
    [LenField(1, name), LenField(2, Write([LenField(1, id)])), VarintField(3, origin),
     VarintField(4, if isDataclass then 1 else 0), LenField(5, attrs)]
  }

  function InstanceFields(index: U64, id: Uuid, attrs: Bytes): seq<Field>
  {
    [VarintField(1, index), LenField(2, Write([LenField(1, id)])), LenField(3, attrs)]
  }

  lemma {:induction false} OneAttrField(fs: seq<Field>, i: nat, tag: nat, last: seq<Pair>, values: seq<Value>)
    requires i < |fs| && fs[i].tag == tag && forall j :: 0 <= j < |fs| && j != i ==> fs[j].tag != tag
    ensures LastArenaPairs(fs, tag, last, values) == ArenaPairs(fs[i].bytes, values)
    decreases |fs|
  {
    hide ArenaPairs;
    if i > 0 {
      OneAttrField(fs[1..], i - 1, tag, last, values);
    } else if ArenaPairs(fs[0].bytes, values).Ok? {
      NoAttrField(fs[1..], tag, ArenaPairs(fs[0].bytes, values).value, values);
    }
  }

  lemma {:induction false} NoAttrField(fs: seq<Field>, tag: nat, last: seq<Pair>, values: seq<Value>)
    requires forall j :: 0 <= j < |fs| ==> fs[j].tag != tag
    ensures LastArenaPairs(fs, tag, last, values) == Ok(last)
    decreases |fs|
  {
    if fs != [] {
      NoAttrField(fs[1..], tag, last, values);
    }
  }

  lemma ClassReads(name: Bytes, id: Uuid, origin: nat, isDataclass: bool, attrs: Bytes, values: seq<Value>)
    requires origin < TWO32
    ensures
      var fs := ClassFields(name, id, origin, isDataclass, attrs);
      && AllShaped(fs) && BytesOf(fs, 1) == name && VarintOf(fs, 3) == origin
      && (VarintOf(fs, 4) != 0 <==> isDataclass) && LastField(fs, 2).Some? && UuidsDecode(fs, 2) && UuidOf(fs, 2) == id
      && LastArenaPairs(fs, 5, [], values) == ArenaPairs(attrs, values)
  {
    var fs := ClassFields(name, id, origin, isDataclass, attrs);
    ClassLayout(name, id, origin, isDataclass, attrs);
    UuidRoundTrip(id);
    hide ClassFields, Write, LastArenaPairs, ArenaPairs, DecodeUuid, LastField, AllShaped;
    OneAttrField(fs, 4, 5, [], values);
    LastFieldAt(fs, 0, 1);
    LastFieldAt(fs, 1, 2);
    LastFieldAt(fs, 2, 3);
    LastFieldAt(fs, 3, 4);
  }

  /** A class node of a sandbox or host class is that class, with the attributes its indexes give. */
  lemma ClassNodeIs(name: Bytes, id: Uuid, origin: nat, isDataclass: bool, ids: seq<(U64, U64)>, values: seq<Value>)
    requires 2 <= origin <= 3 && IndexesExist(ids, |values|)
    requires |Write(ClassFields(name, id, origin, isDataclass, Write(IndexPairFields(ids))))| < TWO64
    ensures
      var body := Write(ClassFields(name, id, origin, isDataclass, Write(IndexPairFields(ids))));
      var r := DecodeNodeKind(LenField(23, body), values);
      && r.Ok? && r.value.ClassType?
      && r.value.class_.name == name && r.value.class_.id == id && r.value.class_.origin == origin
      && r.value.class_.isDataclass == isDataclass && Attributes(r.value.class_.attrs, ids, values)
  {
    hide ClassFields, Write, Parse, LastArenaPairs, ArenaPairs, DecodeUuid, UuidOf, UuidsDecode, LastField, VarintOf,
      BytesOf, AllShaped, IndexPairFields, Attributes, IndexesExist;
    var attrs := Write(IndexPairFields(ids));
    var fs := ClassFields(name, id, origin, isDataclass, attrs);
    ClassReads(name, id, origin, isDataclass, attrs, values);
    assert |attrs| < TWO64 by {
      ClassLayout(name, id, origin, isDataclass, attrs);
      AttrsFit(fs, 4, attrs);
    }
    AttributesRead(ids, values);
    ParseMessage(fs);
    assert NodeClass(Write(fs), values).Ok?;
  }

  lemma ClassLayout(name: Bytes, id: Uuid, origin: nat, isDataclass: bool, attrs: Bytes)
    requires origin < TWO32
    ensures
      var fs := ClassFields(name, id, origin, isDataclass, attrs);
      && |fs| == 5 && Increasing(fs) && AllShaped(fs)
      && fs[0] == LenField(1, name) && fs[1] == LenField(2, Write([LenField(1, id)])) && fs[2] == VarintField(3, origin)
      && fs[3] == VarintField(4, if isDataclass then 1 else 0) && fs[4] == LenField(5, attrs)
  {
    hide Write;
  }

  lemma InstanceReads(index: U64, id: Uuid, attrs: Bytes, values: seq<Value>)
    ensures
      var fs := InstanceFields(index, id, attrs);
      && |fs| == 3 && fs[2] == LenField(3, attrs) && AllShaped(fs) && VarintOf(fs, 1) == index
      && DecodeUuid(BytesOf(fs, 2)) == Ok(id) && LastArenaPairs(fs, 3, [], values) == ArenaPairs(attrs, values)
  {
    var fs := InstanceFields(index, id, attrs);
    UuidRoundTrip(id);
    hide Write, LastArenaPairs, ArenaPairs, DecodeUuid, LastField;
    OneAttrField(fs, 2, 3, [], values);
    LastFieldAt(fs, 0, 1);
    LastFieldAt(fs, 1, 2);
  }

  /** An instance node is an instance of the class its index gives, with its own identity and attributes. */
  lemma InstanceNodeIs(index: U64, id: Uuid, ids: seq<(U64, U64)>, values: seq<Value>)
    requires index < |values| && IndexesExist(ids, |values|)
    requires |Write(InstanceFields(index, id, Write(IndexPairFields(ids))))| < TWO64
    ensures
      var r := DecodeNodeKind(LenField(24, Write(InstanceFields(index, id, Write(IndexPairFields(ids))))), values);
      && (r.Ok? <==> values[index].ClassType?)
      && (r.Ok? ==> r.value.ClassInstance? && r.value.class_ == values[index].class_ && r.value.id == id
                    && Attributes(r.value.attrs, ids, values))
  {
    hide InstanceFields, Write, Parse, LastArenaPairs, ArenaPairs, DecodeUuid, LastField, VarintOf, BytesOf, AllShaped,
      IndexPairFields, Attributes, IndexesExist;
    var attrs := Write(IndexPairFields(ids));
    var fs := InstanceFields(index, id, attrs);
    InstanceReads(index, id, attrs, values);
    AttrsFit(fs, 2, attrs);
    AttributesRead(ids, values);
    ParseMessage(fs);
    assert NodeInstance(Write(fs), values).Ok? <==> values[index].ClassType?;
  }

  lemma AttrsFit(fs: seq<Field>, i: nat, attrs: Bytes)
    requires i < |fs| && fs[i].typ.Len? && fs[i].bytes == attrs && |Write(fs)| < TWO64
    ensures |attrs| < TWO64
  {
    hide Write;
    WriteLength(fs, i);
  }
}
