/**
 Flattening preserves meaning: decoding a flat arena yields, in post-order, the normal form
 of every value that was added to it, and each add returns the index of its own value.
 */
module ArenaMeaning {
  import opened Common
  import opened Wire
  import opened Values
  import opened Nested
  import opened Arena
  import opened ArenaDecode

  // ---------------------------------------------------------------------------
  // Reference: the values an arena must hold after an add

  function PostOrder(v: Value): (r: seq<Value>)
    ensures |r| >= 1 && r[|r| - 1] == Normal(v)
    decreases v, 1
  {
    PostChildren(v) + [Normal(v)]
  }

  function PostChildren(v: Value): seq<Value>
    decreases v, 0
  {
    match v
    case Seq(_, items) => PostItems(items)
    case NamedTuple(_, _, values) => PostItems(values)
    case Dict(pairs) => PostPairs(pairs)
    case Module(_, _, attrs) => PostPairs(attrs)
    case _ => []
  }

  function PostItems(items: seq<Value>): (r: seq<Value>)
    ensures |r| >= |items|
    decreases items, 0
  {
    if items == [] then [] else PostOrder(items[0]) + PostItems(items[1..])
  }

  function PostPair(p: Pair): (r: seq<Value>)
    ensures |r| >= 2
    decreases p, 0
  {
    PostOrder(p.key) + PostOrder(p.value)
  }

  function PostPairs(pairs: seq<Pair>): (r: seq<Value>)
    ensures |r| >= |pairs|
    decreases pairs, 0
  {
    if pairs == [] then [] else PostPair(pairs[0]) + PostPairs(pairs[1..])
  }

  /** Position of each item's own node when the items are added from position base on. */
  function Roots(base: nat, items: seq<Value>): (ids: seq<U64>)
    ensures |ids| == |items|
    decreases |items|
  {
    if items == [] then []
    else
      var next := base + |PostOrder(items[0])|;
      [(next - 1) % TWO32] + Roots(next, items[1..])
  }

  function RefFields(tag: nat, ids: seq<U64>): (fs: seq<Field>)
    ensures |fs| == |ids|
    ensures forall i :: 0 <= i < |ids| ==> fs[i] == VarintField(tag, ids[i])
  {
    if ids == [] then [] else [VarintField(tag, ids[0])] + RefFields(tag, ids[1..])
  }

  function PairRefs(base: nat, p: Pair): seq<Field>
  {
    var k := base + |PostOrder(p.key)|;
    [VarintField(1, (k - 1) % TWO32), VarintField(2, (k + |PostOrder(p.value)| - 1) % TWO32)]
  }

  function PairRefFields(base: nat, pairs: seq<Pair>): (fs: seq<Field>)
    ensures |fs| == |pairs|
    decreases |pairs|
  {
    if pairs == [] then []
    else [LenField(1, Write(PairRefs(base, pairs[0])))] + PairRefFields(base + |PostPair(pairs[0])|, pairs[1..])
  }

  /** Node i decodes to value i, given only the values before it. */
  ghost predicate Decodes(nodes: seq<Bytes>, vals: seq<Value>)
  {
    && |nodes| == |vals|
    && forall i :: 0 <= i < |nodes| ==> |nodes[i]| < TWO64 && DecodeNode(nodes[i], vals[..i]) == Ok(vals[i])
  }

  lemma DecodesOneMore(nodes: seq<Bytes>, vals: seq<Value>, node: Bytes, v: Value)
    requires Decodes(nodes, vals) && |node| < TWO64 && DecodeNode(node, vals) == Ok(v)
    ensures Decodes(nodes + [node], vals + [v])
  {
    hide DecodeNode;
    var ns, vs := nodes + [node], vals + [v];
    forall i | 0 <= i < |ns| ensures |ns[i]| < TWO64 && DecodeNode(ns[i], vs[..i]) == Ok(vs[i]) {
      if i < |nodes| {
        assert vs[..i] == vals[..i];
      } else {
        assert vs[..i] == vals;
      }
    }
  }

  // ---------------------------------------------------------------------------
  // Lengths

  lemma {:induction false} VarintLength(v: nat, k: nat)
    requires k <= 9 && v < VarintCap(k)
    ensures |EncodeVarint(v)| <= 10 - k
    decreases 9 - k
  {
    if v >= 128 {
      VarintLength(v / 128, k + 1);
    }
  }

  lemma VarintAtMost10(v: U64)
    ensures |EncodeVarint(v)| <= 10
  {
    VarintCapIs64Bits();
    VarintLength(v, 0);
  }

  lemma FieldLength(f: Field)
    requires f.tag <= 32 && |f.bytes| < TWO64
    ensures |WriteField(f)| <= 13 + |f.bytes|
  {
    VarintAtMost10(f.varint);
    VarintAtMost10(|f.bytes|);
    TagAtMost2(f.tag, f.typ);
    TagAtMost2(f.tag, Len);
  }

  lemma TagAtMost2(tag: nat, t: WireType)
    requires tag <= 32
    ensures |EncodeTag(tag, t)| <= 2
  {
    var x := tag * 8 + TypeCode(t);
    assert x / 128 < 128;
    assert |EncodeVarint(x / 128)| == 1;
  }

  lemma {:induction false} FieldsLength(fs: seq<Field>, m: nat)
    requires m < TWO32
    requires forall i :: 0 <= i < |fs| ==> fs[i].tag <= 32 && |fs[i].bytes| <= m
    ensures |Write(fs)| <= (13 + m) * |fs|
  {
    hide WriteField;
    if fs != [] {
      FieldLength(fs[0]);
      FieldsLength(fs[1..], m);
      assert (13 + m) * |fs| == (13 + m) * |fs[1..]| + (13 + m);
    }
  }

  // ---------------------------------------------------------------------------
  // One kind field becomes one node

  lemma FlattenOne(nodes: seq<Bytes>, f: Field)
    requires Canonical(f) && Suppliable(f.tag) && FlattenBody(nodes, f).Ok?
    ensures Flatten(nodes, WriteField(f))
         == Ok(FlattenBody(nodes, f).value.nodes + [NodeOf(f, FlattenBody(nodes, f).value.body)])
  {
    hide Parse, WriteField, FlattenBody, NodeOf, Suppliable, Canonical;
    ParseWriteField(f);
    var n := |WriteField(f)|;
    var a := FlattenBody(nodes, f).value;
    assert [f][1..] == [];
    assert FlattenKinds(a.nodes, NodeOf(f, a.body), [f][1..], n) == Ok(Added(a.nodes, NodeOf(f, a.body)));
  }

  lemma NodeRoundTrip(f: Field, vals: seq<Value>)
    requires Canonical(f)
    ensures DecodeNode(WriteField(f), vals) == DecodeNodeKind(f, vals)
  {
    hide Parse, WriteField, DecodeNodeKind, Canonical;
    ParseWriteField(f);
  }

  // ---------------------------------------------------------------------------
  // Values without children

  lemma TypeNode(name: Bytes, vals: seq<Value>)
    requires |ScalarField(Type(name)).bytes| < TWO64
    ensures NodeClass(ScalarField(Type(name)).bytes, vals) == Ok(Type(name))
  {
    hide Parse, Write, LastField;
    var fs := [LenField(1, name), VarintField(3, 1)];
    ParseMessage(fs);
    LastFieldIncreasing(fs);
    assert fs[0].tag == 1 && fs[1].tag == 3;
    assert LastArenaPairs(fs, 5, [], vals) == LastArenaPairs(fs[1..], 5, [], vals) == Ok([]);
  }

  /** How the tags of values without children are treated on both sides. */
  lemma ScalarClass(v: Value)
    requires Encodable(v) && !IsContainer(v)
    ensures
      var f := KindField(v);
      && f.typ == ExpectedType(f.tag) && Suppliable(f.tag)
      && SeqKindOf(f.tag).None? && f.tag != 13 && f.tag != 14 && f.tag != 24 && f.tag != 30 && f.tag != 32
      && (if v.Time? then f.tag == 18 else if v.Type? then f.tag == 23 else PassedThrough(f.tag) && f.tag != 18)
      && (v.Time? || v.Type? ==> f == ScalarField(v))
  {
    hide Write, TimeFields, DateTimeFields, DateFields, BigEndian;
  }

  lemma ScalarNode(v: Value, vals: seq<Value>)
    requires Encodable(v) && !IsContainer(v)
    requires |EncodeValue(v)| < TWO64
    ensures DecodeNode(EncodeValue(v), vals) == Ok(Normal(v))
  {
    hide Parse, Write, WriteField, DecodeValue, DecodeNode, NodeClass, TimeOf, IndexesIn, ArenaPairs, NodeNamedTuple,
      NodeModule, NodeInstance, Normal, KindField, ScalarField, Suppliable, Encodable, Shaped;
    var f := KindField(v);
    ScalarClass(v);
    KindFieldShaped(v);
    NodeRoundTrip(f, vals);
    if v.Time? {
      TimeRoundTrip(v);
    } else if v.Type? {
      TypeNode(v.name, vals);
      NormalOfType(v);
    } else {
      NestedRoundTrip(v);
    }
  }

  lemma NormalOfType(v: Value)
    requires v.Type?
    ensures Normal(v) == v
  {
  }

  lemma FlattenScalar(nodes: seq<Bytes>, v: Value)
    requires Encodable(v) && !IsContainer(v)
    requires |EncodeValue(v)| < TWO64
    ensures Flatten(nodes, EncodeValue(v)) == Ok(nodes + [EncodeValue(v)])
  {
    hide Parse, Write, Flatten, KindField, ScalarField, Suppliable, Encodable, FieldVarint, FieldFixed64, FieldBytes;
    ScalarClass(v);
    KindFieldShaped(v);
    FlattenOne(nodes, KindField(v));
  }

  // ---------------------------------------------------------------------------
  // Lists of references

  lemma {:induction false} RootsResolve(vals: seq<Value>, items: seq<Value>, all: seq<Value>)
    requires vals + PostItems(items) <= all
    requires |all| <= TWO32
    ensures AllBelow(Roots(|vals|, items), |all|)
    ensures Lookup(all, Roots(|vals|, items)) == NormalItems(items)
    decreases |items|
  {
    hide PostOrder, Normal;
    if items != [] {
      var here := vals + PostOrder(items[0]);
      assert vals + PostItems(items) == here + PostItems(items[1..]);
      RootsResolve(here, items[1..], all);
      var ids := Roots(|vals|, items);
      assert ids[1..] == Roots(|here|, items[1..]);
      assert ids[0] == |here| - 1;
      assert all[ids[0]] == here[|here| - 1] == Normal(items[0]);
    }
  }

  lemma {:induction false} IndexesOfRefs(tag: nat, ids: seq<U64>)
    ensures Indexes(RefFields(tag, ids), tag) == Ok(ids)
  {
    if ids != [] {
      IndexesOfRefs(tag, ids[1..]);
      assert RefFields(tag, ids)[1..] == RefFields(tag, ids[1..]);
      assert [ids[0]] + ids[1..] == ids;
    }
  }

  lemma {:induction false} IndexesSkip(fs: seq<Field>, gs: seq<Field>, tag: nat)
    requires forall i :: 0 <= i < |fs| ==> fs[i].tag != tag
    ensures Indexes(fs + gs, tag) == Indexes(gs, tag)
  {
    if fs == [] {
      assert fs + gs == gs;
    } else {
      IndexesSkip(fs[1..], gs, tag);
      assert (fs + gs)[1..] == fs[1..] + gs;
    }
  }

  lemma {:induction false} CopyHead(nodes: seq<Bytes>, body: Bytes, head: seq<Field>, last: seq<Field>, n: nat)
    requires Below(head + last, n) && Below(last, n)
    requires forall i :: 0 <= i < |head| ==> head[i].tag != 3 && head[i].typ.Len?
    ensures FlattenChildren(nodes, body, head + last, n, InNamedTuple)
         == FlattenChildren(nodes, body + Write(head), last, n, InNamedTuple)
    decreases |head|
  {
    hide Flatten, FieldBytes;
    if head == [] {
      assert head + last == last;
      assert body + Write(head) == body;
    } else {
      assert (head + last)[1..] == head[1..] + last;
      var f := FieldBytes(head[0].tag, head[0].bytes);
      CopyHead(nodes, body + f, head[1..], last, n);
      ConcatAssoc(body, f, Write(head[1..]));
    }
  }

  /** Adding items one after another: their nodes, and one reference field per item. */
  ghost predicate ItemsMean(
      nodes: seq<Bytes>, vals: seq<Value>, body: Bytes, tag: nat, items: seq<Value>, n: nat, parent: Parent)
    requires AllEncodable(items) && Below(ItemFields(tag, items), n)
  {
    var r := FlattenChildren(nodes, body, ItemFields(tag, items), n, parent);
    && r.Ok?
    && |r.value.nodes| == |nodes| + |PostItems(items)|
    && r.value.body == body + Write(RefFields(tag, Roots(|nodes|, items)))
    && (Decodes(nodes, vals) && |nodes| + |PostItems(items)| <= TWO32
        ==> Decodes(r.value.nodes, vals + PostItems(items)))
  }

  lemma ItemsMeanStep(
      nodes: seq<Bytes>, vals: seq<Value>, body: Bytes, tag: nat, items: seq<Value>, n: nat, parent: Parent)
    requires RoleOf(parent, tag) == Refer
    requires items != [] && AllEncodable(items) && Below(ItemFields(tag, items), n)
    requires Below(ItemFields(tag, items[1..]), n)
    requires FlatMeans(nodes, vals, items[0])
    requires
      var ns := Flatten(nodes, EncodeValue(items[0])).value;
      ItemsMean(ns, vals + PostOrder(items[0]), body + FieldVarint(tag, LastIndex(ns)), tag, items[1..], n, parent)
    ensures ItemsMean(nodes, vals, body, tag, items, n, parent)
  {
    hide Flatten, EncodeValue, Encodable, PostOrder, FieldVarint, Decodes, RoleOf, FlattenChildren, Roots, RefFields,
      Write, ItemFields, PostItems;
    var ns := Flatten(nodes, EncodeValue(items[0])).value;
    ChildrenStep(nodes, body, tag, items, n, parent);
    RefsStep(|nodes|, body, tag, items);
    PostItemsStep(items);
    ConcatAssoc(vals, PostOrder(items[0]), PostItems(items[1..]));
  }

  lemma PostItemsStep(items: seq<Value>)
    requires items != []
    ensures PostItems(items) == PostOrder(items[0]) + PostItems(items[1..])
  {
  }

  /** A referred child is flattened first, and its index written in its place. */
  lemma ChildrenStep(nodes: seq<Bytes>, body: Bytes, tag: nat, items: seq<Value>, n: nat, parent: Parent)
    requires RoleOf(parent, tag) == Refer
    requires items != [] && AllEncodable(items) && Below(ItemFields(tag, items), n)
    requires Below(ItemFields(tag, items[1..]), n)
    requires Flatten(nodes, EncodeValue(items[0])).Ok? && Flatten(nodes, EncodeValue(items[0])).value != []
    ensures
      var ns := Flatten(nodes, EncodeValue(items[0])).value;
      FlattenChildren(nodes, body, ItemFields(tag, items), n, parent)
      == FlattenChildren(ns, body + FieldVarint(tag, LastIndex(ns)), ItemFields(tag, items[1..]), n, parent)
  {
    hide Flatten, EncodeValue, Encodable, FieldVarint, RoleOf;
    var fs := ItemFields(tag, items);
    assert fs[0] == LenField(tag, EncodeValue(items[0]));
    assert fs[1..] == ItemFields(tag, items[1..]);
  }

  /** Writing one more reference. */
  lemma RefsStep(base: nat, body: Bytes, tag: nat, items: seq<Value>)
    requires items != []
    ensures
      var next := base + |PostOrder(items[0])|;
      body + Write(RefFields(tag, Roots(base, items)))
      == (body + FieldVarint(tag, (next - 1) % TWO32)) + Write(RefFields(tag, Roots(next, items[1..])))
  {
    hide PostOrder, FieldVarint;
    var ids := Roots(base, items);
    var rest := Write(RefFields(tag, ids[1..]));
    assert RefFields(tag, ids)[1..] == RefFields(tag, ids[1..]);
    assert Write(RefFields(tag, ids)) == FieldVarint(tag, ids[0]) + rest;
    ConcatAssoc(body, FieldVarint(tag, ids[0]), rest);
  }

  lemma {:induction false} FlattenItems(
      nodes: seq<Bytes>, vals: seq<Value>, body: Bytes, tag: nat, items: seq<Value>, n: nat, parent: Parent)
    requires RoleOf(parent, tag) == Refer
    requires AllEncodable(items) && Below(ItemFields(tag, items), n) && n <= TWO63
    ensures ItemsMean(nodes, vals, body, tag, items, n, parent)
    decreases items, 0
  {
    hide Flatten, EncodeValue, Encodable, PostOrder, FieldVarint, Decodes, RoleOf;
    if items == [] {
      assert body + [] == body;
      assert vals + [] == vals;
    } else {
      hide FlattenChildren, ItemsMean;
      assert ItemFields(tag, items)[0] == LenField(tag, EncodeValue(items[0]));
      assert ItemFields(tag, items)[1..] == ItemFields(tag, items[1..]);
      FlattenMeaning(nodes, vals, items[0]);
      var ns := Flatten(nodes, EncodeValue(items[0])).value;
      FlattenItems(ns, vals + PostOrder(items[0]), body + FieldVarint(tag, LastIndex(ns)), tag, items[1..], n, parent);
      ItemsMeanStep(nodes, vals, body, tag, items, n, parent);
    }
  }

  lemma RefFieldsLength(tag: nat, ids: seq<U64>)
    requires 1 <= tag <= 32 && |ids| <= TWO32
    ensures |Write(RefFields(tag, ids))| <= 13 * TWO32
    ensures AllShaped(RefFields(tag, ids))
  {
    hide Write;
    FieldsLength(RefFields(tag, ids), 0);
  }

  lemma SeqNode(kind: SeqKind, ids: seq<U64>, vals: seq<Value>)
    requires |ids| <= TWO32 && AllBelow(ids, |vals|)
    ensures DecodeNodeKind(LenField(SeqTag(kind), Write(RefFields(1, ids))), vals) == Ok(Seq(kind, Lookup(vals, ids)))
  {
    hide Parse, Write, RefFields, Lookup;
    RefFieldsLength(1, ids);
    ParseMessage(RefFields(1, ids));
    IndexesOfRefs(1, ids);
  }

  /** The obligations of one container kind; ContainerMeans turns them into FlatMeans. */
  ghost predicate BodyMeans(nodes: seq<Bytes>, vals: seq<Value>, v: Value)
    requires Encodable(v)
  {
    var f := KindField(v);
    var r := FlattenBody(nodes, f);
    && f.typ.Len? && Suppliable(f.tag)
    && r.Ok?
    && |r.value.nodes| == |nodes| + |PostChildren(v)|
    && (Decodes(nodes, vals) && |nodes| + |PostOrder(v)| <= TWO32
        ==> && Decodes(r.value.nodes, vals + PostChildren(v))
            && |r.value.body| <= TWO63 + 100 * TWO32
            && DecodeNodeKind(LenField(f.tag, r.value.body), vals + PostChildren(v)) == Ok(Normal(v)))
  }

  lemma ContainerMeans(nodes: seq<Bytes>, vals: seq<Value>, v: Value)
    requires Encodable(v) && |EncodeValue(v)| < TWO63
    requires BodyMeans(nodes, vals, v)
    ensures FlatMeans(nodes, vals, v)
  {
    hide Flatten, FlattenBody, KindField, Encodable, WriteField, NodeOf, DecodeNodeKind, PostChildren, Normal, Decodes;
    var f := KindField(v);
    KindFieldShaped(v);
    FlattenOne(nodes, f);
    var a := FlattenBody(nodes, f).value;
    NodeOfLen(f, a.body);
    if Decodes(nodes, vals) && |nodes| + |PostOrder(v)| <= TWO32 {
      var all := vals + PostChildren(v);
      FlattenContainer(a.nodes, all, LenField(f.tag, a.body), Normal(v));
      assert vals + PostOrder(v) == all + [Normal(v)];
    }
  }

  lemma SeqParts(v: Value, nodes: seq<Bytes>, b: Bytes)
    requires v.Seq? && Encodable(v)
    ensures AllEncodable(v.items) && KindField(v) == LenField(SeqTag(v.kind), Write(ItemFields(1, v.items)))
    ensures PostChildren(v) == PostItems(v.items) && Normal(v) == Seq(v.kind, NormalItems(v.items))
    ensures FlattenBody(nodes, LenField(SeqTag(v.kind), b)) == FlattenMessage(nodes, b, InList)
    ensures Suppliable(SeqTag(v.kind))
  {
    hide Write, ItemFields, PostItems, NormalItems, FlattenMessage, FlattenPairs;
  }

  lemma {:induction false} FlattenSeq(nodes: seq<Bytes>, vals: seq<Value>, v: Value)
    requires v.Seq? && Encodable(v) && |EncodeValue(v)| < TWO63
    ensures BodyMeans(nodes, vals, v)
    decreases v.items, 1
  {
    hide Parse, Write, WriteField, FlattenChildren, ItemFields, PostItems, Roots, RefFields, Lookup, NormalItems,
      Decodes, Encodable, DecodeNodeKind, EncodeValue, KindField, FlattenBody, Normal, PostChildren, SeqTag,
      Suppliable;
    KindFieldShaped(v);
    var fs := ItemFields(1, v.items) by { SeqParts(v, nodes, []); }
    SeqParts(v, nodes, Write(fs));
    ItemFieldsAt(1, v.items);
    ParseMessage(fs);
    FlattenItems(nodes, vals, [], 1, v.items, |Write(fs)|, InList);
    var ids := Roots(|nodes|, v.items);
    assert [] + Write(RefFields(1, ids)) == Write(RefFields(1, ids));
    if Decodes(nodes, vals) && |nodes| + |PostOrder(v)| <= TWO32 {
      DecodesLength(nodes, vals);
      RootsResolve(vals, v.items, vals + PostItems(v.items));
      SeqNode(v.kind, ids, vals + PostItems(v.items));
      RefFieldsLength(1, ids);
    }
  }

  lemma DecodesLength(nodes: seq<Bytes>, vals: seq<Value>)
    requires Decodes(nodes, vals)
    ensures |nodes| == |vals|
  {
  }

  lemma NodeOfLen(f: Field, body: Bytes)
    requires f.typ.Len?
    ensures NodeOf(f, body) == WriteField(LenField(f.tag, body))
  {
  }

  /** Appending a container node whose body is short enough extends a decoding arena. */
  lemma FlattenContainer(nodes: seq<Bytes>, vals: seq<Value>, f: Field, v: Value)
    requires Decodes(nodes, vals)
    requires f.typ.Len? && Shaped(f) && f.tag <= 32 && |f.bytes| <= TWO63 + 100 * TWO32
    requires DecodeNodeKind(f, vals) == Ok(v)
    ensures Decodes(nodes + [WriteField(f)], vals + [v])
  {
    hide WriteField, DecodeNodeKind, DecodeNode, Decodes;
    FieldLength(f);
    NodeRoundTrip(f, vals);
    DecodesOneMore(nodes, vals, WriteField(f), v);
  }

  /** What it means for an add of v to an arena to be right. */
  ghost predicate FlatMeans(nodes: seq<Bytes>, vals: seq<Value>, v: Value)
    requires Encodable(v)
  {
    var r := Flatten(nodes, EncodeValue(v));
    && r.Ok?
    && |r.value| == |nodes| + |PostOrder(v)|
    && (Decodes(nodes, vals) && |nodes| + |PostOrder(v)| <= TWO32 ==> Decodes(r.value, vals + PostOrder(v)))
  }

  lemma {:induction false} FlattenMeaning(nodes: seq<Bytes>, vals: seq<Value>, v: Value)
    requires Encodable(v) && |EncodeValue(v)| < TWO63
    ensures FlatMeans(nodes, vals, v)
    decreases v, 0
  {
    hide FlatMeans, BodyMeans, Encodable, EncodeValue;
    if IsContainer(v) {
      match v {
        case Seq(_, _) => FlattenSeq(nodes, vals, v);
        case NamedTuple(_, _, _) => FlattenNamedTuple(nodes, vals, v);
        case Dict(_) => FlattenDict(nodes, vals, v);
        case Module(_, _, _) => FlattenModuleValue(nodes, vals, v);
      }
      ContainerMeans(nodes, vals, v);
    } else {
      FlattenScalarMeaning(nodes, vals, v);
    }
  }

  lemma ScalarPostOrder(v: Value)
    requires !IsContainer(v)
    ensures PostOrder(v) == [Normal(v)]
  {
    hide Normal;
  }

  lemma FlattenScalarMeaning(nodes: seq<Bytes>, vals: seq<Value>, v: Value)
    requires Encodable(v) && !IsContainer(v) && |EncodeValue(v)| < TWO63
    ensures FlatMeans(nodes, vals, v)
  {
    hide Flatten, EncodeValue, Decodes, Normal, Encodable, PostOrder, DecodeNode, IsContainer;
    FlattenScalar(nodes, v);
    ScalarNode(v, vals);
    ScalarPostOrder(v);
    if Decodes(nodes, vals) {
      DecodesOneMore(nodes, vals, EncodeValue(v), Normal(v));
    }
  }

  // ---------------------------------------------------------------------------
  // Named tuples

  lemma NamedTupleNode(t: Bytes, names: seq<Bytes>, ids: seq<U64>, vals: seq<Value>)
    requires |ids| <= TWO32 && AllBelow(ids, |vals|)
    requires |Write(NamedFields(t, names, RefFields(3, ids)))| < TWO64
    ensures NodeNamedTuple(Write(NamedFields(t, names, RefFields(3, ids))), vals)
         == Ok(NamedTuple(t, names, Lookup(vals, ids)))
  {
    hide Parse, Write, BytesOf, AllBytesOf, NameFields, RefFields, Lookup;
    var last := RefFields(3, ids);
    var head := [LenField(1, t)] + NameFields(names);
    NameFieldsAt(names);
    RefFieldsLength(3, ids);
    ParseMessage(head + last);
    NamedFieldsByTag(t, names, last);
    IndexesSkip(head, last, 3);
    IndexesOfRefs(3, ids);
  }

  lemma NamedTupleParts(v: Value, nodes: seq<Bytes>, b: Bytes, vals: seq<Value>)
    requires v.NamedTuple? && Encodable(v)
    ensures AllEncodable(v.values)
    ensures KindField(v) == LenField(13, Write(NamedFields(v.typeName, v.fieldNames, ItemFields(3, v.values))))
    ensures PostChildren(v) == PostItems(v.values)
    ensures Normal(v) == NamedTuple(v.typeName, v.fieldNames, NormalItems(v.values))
    ensures FlattenBody(nodes, LenField(13, b)) == FlattenMessage(nodes, b, InNamedTuple)
    ensures DecodeNodeKind(LenField(13, b), vals) == NodeNamedTuple(b, vals)
  {
    hide Write, ItemFields, NameFields, PostItems, NormalItems, FlattenMessage, FlattenPairs, NodeNamedTuple;
  }

  lemma {:induction false} FlattenNamedTuple(nodes: seq<Bytes>, vals: seq<Value>, v: Value)
    requires v.NamedTuple? && Encodable(v) && |EncodeValue(v)| < TWO63
    ensures BodyMeans(nodes, vals, v)
    decreases v.values, 1
  {
    hide Parse, Write, WriteField, FlattenChildren, ItemFields, NameFields, PostItems, Roots, RefFields, Lookup,
      NormalItems, Decodes, Encodable, EncodeValue, NodeNamedTuple, KindField, FlattenBody, Normal, PostChildren,
      DecodeNodeKind;
    KindFieldShaped(v);
    var last := ItemFields(3, v.values) by { NamedTupleParts(v, nodes, [], vals); }
    var head := [LenField(1, v.typeName)] + NameFields(v.fieldNames);
    var fs := head + last;
    NamedTupleParts(v, nodes, Write(fs), vals);
    ItemFieldsAt(3, v.values);
    NameFieldsAt(v.fieldNames);
    ParseMessage(fs);
    var n := |Write(fs)|;
    assert Below(last, n) by {
      forall i | 0 <= i < |last| ensures |last[i].bytes| < n {
        assert last[i] == fs[|head| + i];
      }
    }
    CopyHead(nodes, [], head, last, n);
    assert [] + Write(head) == Write(head);
    FlattenItems(nodes, vals, Write(head), 3, v.values, n, InNamedTuple);
    var ids := Roots(|nodes|, v.values);
    var refs := RefFields(3, ids);
    WriteConcat(head, refs);
    WriteConcat(head, last);
    if Decodes(nodes, vals) && |nodes| + |PostOrder(v)| <= TWO32 {
      var all := vals + PostItems(v.values);
      DecodesLength(nodes, vals);
      RootsResolve(vals, v.values, all);
      RefFieldsLength(3, ids);
      NamedTupleNode(v.typeName, v.fieldNames, ids, all);
      NamedTupleParts(v, nodes, Write(head + refs), all);
    }
  }

  // ---------------------------------------------------------------------------
  // Dictionaries and modules

  lemma {:induction false} FlattenPairBody(nodes: seq<Bytes>, vals: seq<Value>, p: Pair)
    requires Encodable(p.key) && Encodable(p.value) && |PairBody(p)| < TWO63
    ensures
      var r := FlattenMessage(nodes, PairBody(p), InPair);
      && r.Ok?
      && |r.value.nodes| == |nodes| + |PostPair(p)|
      && r.value.body == Write(PairRefs(|nodes|, p))
      && (Decodes(nodes, vals) && |nodes| + |PostPair(p)| <= TWO32 ==> Decodes(r.value.nodes, vals + PostPair(p)))
    decreases p, 0
  {
    hide Parse, Flatten, EncodeValue, Encodable, PostOrder, Decodes, WriteField, FieldVarint;
    var fs := [LenField(1, EncodeValue(p.key)), LenField(2, EncodeValue(p.value))];
    var n := |PairBody(p)|;
    ParseMessage(fs);
    WriteLength(fs, 0);
    WriteLength(fs, 1);
    FlattenMeaning(nodes, vals, p.key);
    var ns := Flatten(nodes, EncodeValue(p.key)).value;
    var here := vals + PostOrder(p.key);
    FlattenMeaning(ns, here, p.value);
    var ns2 := Flatten(ns, EncodeValue(p.value)).value;
    assert here + PostOrder(p.value) == vals + PostPair(p);
    var k, w := FieldVarint(1, LastIndex(ns)), FieldVarint(2, LastIndex(ns2));
    assert FlattenChildren(nodes, [], fs, n, InPair) == FlattenChildren(ns, [] + k, fs[1..], n, InPair);
    assert FlattenChildren(ns, [] + k, fs[1..], n, InPair) == FlattenChildren(ns2, [] + k + w, fs[1..][1..], n, InPair);
    assert [] + k + w == k + w;
    var refs := PairRefs(|nodes|, p);
    PairRefsWritten(refs, LastIndex(ns), LastIndex(ns2));
  }

  lemma PairRefsWritten(refs: seq<Field>, k: U64, v: U64)
    requires refs == [VarintField(1, k), VarintField(2, v)]
    ensures Write(refs) == FieldVarint(1, k) + FieldVarint(2, v)
  {
    hide FieldVarint;
    assert refs[1..] == [VarintField(2, v)];
    assert Write(refs[1..]) == FieldVarint(2, v) + Write([]);
    assert FieldVarint(2, v) + [] == FieldVarint(2, v);
  }

  ghost predicate PairsMean(nodes: seq<Bytes>, vals: seq<Value>, body: Bytes, pairs: seq<Pair>, n: nat)
    requires PairsEncodable(pairs) && Below(PairFields(pairs), n)
  {
    var r := FlattenPairList(nodes, body, PairFields(pairs), n);
    && r.Ok?
    && |r.value.nodes| == |nodes| + |PostPairs(pairs)|
    && r.value.body == body + Write(PairRefFields(|nodes|, pairs))
    && (Decodes(nodes, vals) && |nodes| + |PostPairs(pairs)| <= TWO32
        ==> Decodes(r.value.nodes, vals + PostPairs(pairs)))
  }

  lemma {:induction false} FlattenPairFields(nodes: seq<Bytes>, vals: seq<Value>, body: Bytes, pairs: seq<Pair>, n: nat)
    requires PairsEncodable(pairs) && Below(PairFields(pairs), n) && n <= TWO63
    ensures PairsMean(nodes, vals, body, pairs, n)
    decreases pairs, 0
  {
    hide FlattenMessage, PairBody, Encodable, PostPair, FieldBytes, Decodes, PairRefs;
    if pairs == [] {
      assert body + [] == body;
      assert vals + [] == vals;
    } else {
      var fs := PairFields(pairs);
      assert fs[0] == LenField(1, PairBody(pairs[0]));
      assert fs[1..] == PairFields(pairs[1..]);
      FlattenPairBody(nodes, vals, pairs[0]);
      var a := FlattenMessage(nodes, PairBody(pairs[0]), InPair).value;
      var here := vals + PostPair(pairs[0]);
      var entry := FieldBytes(1, a.body);
      FlattenPairFields(a.nodes, here, body + entry, pairs[1..], n);
      ConcatAssoc(vals, PostPair(pairs[0]), PostPairs(pairs[1..]));
      var refs := PairRefFields(|nodes|, pairs);
      assert refs[1..] == PairRefFields(|a.nodes|, pairs[1..]);
      assert Write(refs) == entry + Write(refs[1..]);
      ConcatAssoc(body, entry, Write(refs[1..]));
    }
  }

  lemma PairRefsResolve(vals: seq<Value>, p: Pair, all: seq<Value>)
    requires vals + PostPair(p) <= all && |all| <= TWO32
    ensures |Write(PairRefs(|vals|, p))| <= 26
    ensures ResolvePair(Write(PairRefs(|vals|, p)), all) == Ok(NormalPair(p))
  {
    hide Parse, Write, PostOrder, LastField, Normal;
    var fs := PairRefs(|vals|, p);
    FieldsLength(fs, 0);
    ParseMessage(fs);
    LastFieldIncreasing(fs);
    assert fs[0].tag == 1 && fs[1].tag == 2;
    var here := vals + PostOrder(p.key);
    var full := here + PostOrder(p.value);
    assert vals + PostPair(p) == full;
    assert all[|here| - 1] == full[|here| - 1] == here[|here| - 1] == Normal(p.key);
    assert all[|full| - 1] == full[|full| - 1] == Normal(p.value);
  }

  lemma {:induction false} PairRefFieldsResolve(vals: seq<Value>, pairs: seq<Pair>, all: seq<Value>)
    requires vals + PostPairs(pairs) <= all && |all| <= TWO32
    ensures AllLen(PairRefFields(|vals|, pairs), 1)
    ensures forall i :: 0 <= i < |pairs| ==> |PairRefFields(|vals|, pairs)[i].bytes| <= 26
    ensures ResolvePairs(PairRefFields(|vals|, pairs), all) == Ok(NormalPairs(pairs))
    decreases |pairs|
  {
    hide ResolvePair, PostPair, NormalPair, PairRefs, Write;
    if pairs != [] {
      var here := vals + PostPair(pairs[0]);
      assert vals + PostPairs(pairs) == here + PostPairs(pairs[1..]);
      PairRefsResolve(vals, pairs[0], all);
      PairRefFieldsResolve(here, pairs[1..], all);
      assert PairRefFields(|vals|, pairs)[1..] == PairRefFields(|here|, pairs[1..]);
    }
  }

  /** A dictionary body: its nodes, a short reference table, and how the table resolves. */
  lemma {:induction false} FlattenDictBody(nodes: seq<Bytes>, vals: seq<Value>, pairs: seq<Pair>)
    requires PairsEncodable(pairs) && |Write(PairFields(pairs))| < TWO63
    ensures
      var r := FlattenPairs(nodes, Write(PairFields(pairs)));
      && r.Ok?
      && |r.value.nodes| == |nodes| + |PostPairs(pairs)|
      && (Decodes(nodes, vals) && |nodes| + |PostPairs(pairs)| <= TWO32
          ==> && Decodes(r.value.nodes, vals + PostPairs(pairs))
              && |r.value.body| <= 39 * TWO32
              && ArenaPairs(r.value.body, vals + PostPairs(pairs)) == Ok(NormalPairs(pairs)))
    decreases pairs, 1
  {
    hide Parse, Write, FlattenPairList, PairFields, PostPairs, PairRefFields, NormalPairs, Decodes, ResolvePairs;
    var fs := PairFields(pairs);
    PairFieldsAt(pairs);
    ParseMessage(fs);
    FlattenPairFields(nodes, vals, [], pairs, |Write(fs)|);
    var refs := PairRefFields(|nodes|, pairs);
    assert [] + Write(refs) == Write(refs);
    if Decodes(nodes, vals) && |nodes| + |PostPairs(pairs)| <= TWO32 {
      DecodesLength(nodes, vals);
      PairRefFieldsResolve(vals, pairs, vals + PostPairs(pairs));
      FieldsLength(refs, 26);
      ParseMessage(refs);
    }
  }

  lemma DictParts(v: Value, nodes: seq<Bytes>, b: Bytes, vals: seq<Value>)
    requires v.Dict? && Encodable(v)
    ensures PairsEncodable(v.pairs) && KindField(v) == LenField(14, Write(PairFields(v.pairs)))
    ensures PostChildren(v) == PostPairs(v.pairs) && Normal(v) == Dict(NormalPairs(v.pairs))
    ensures FlattenBody(nodes, LenField(14, b)) == FlattenPairs(nodes, b)
    ensures ArenaPairs(b, vals).Ok? ==> DecodeNodeKind(LenField(14, b), vals) == Ok(Dict(ArenaPairs(b, vals).value))
  {
    hide Write, PairFields, PostPairs, NormalPairs, FlattenMessage, FlattenPairs, ArenaPairs;
  }

  lemma {:induction false} FlattenDict(nodes: seq<Bytes>, vals: seq<Value>, v: Value)
    requires v.Dict? && Encodable(v) && |EncodeValue(v)| < TWO63
    ensures BodyMeans(nodes, vals, v)
    decreases v.pairs, 2
  {
    hide Write, WriteField, FlattenPairs, PairFields, PostPairs, NormalPairs, Decodes, Encodable, ArenaPairs,
      EncodeValue, KindField, FlattenBody, Normal, PostChildren, DecodeNodeKind;
    KindFieldShaped(v);
    var b := Write(PairFields(v.pairs)) by { DictParts(v, nodes, [], vals); }
    DictParts(v, nodes, b, vals);
    FlattenDictBody(nodes, vals, v.pairs);
    DictParts(v, nodes, FlattenPairs(nodes, b).value.body, vals + PostPairs(v.pairs));
  }

  lemma FlattenModuleFields(nodes: seq<Bytes>, name: Bytes, id: Uuid, attrs: Bytes, n: nat)
    requires Below(ModuleFields(name, id, attrs), n)
    requires FlattenPairs(nodes, attrs).Ok?
    ensures
      var a := FlattenPairs(nodes, attrs).value;
      FlattenModule(nodes, [], ModuleFields(name, id, attrs), n)
      == Ok(Added(a.nodes, Write(ModuleFields(name, id, a.body))))
  {
    hide FlattenPairs, FieldBytes;
    var fs := ModuleFields(name, id, attrs);
    var a := FlattenPairs(nodes, attrs).value;
    var f1, f2, f3 := FieldBytes(1, name), FieldBytes(2, fs[1].bytes), FieldBytes(3, a.body);
    assert FlattenModule(nodes, [], fs, n) == FlattenModule(nodes, [] + f1, fs[1..], n);
    assert FlattenModule(nodes, [] + f1, fs[1..], n) == FlattenModule(nodes, [] + f1 + f2, fs[1..][1..], n);
    assert fs[1..][1..][0].bytes == attrs;
    assert FlattenModule(nodes, [] + f1 + f2, fs[1..][1..], n)
        == FlattenModule(a.nodes, [] + f1 + f2 + f3, fs[1..][1..][1..], n);
    ThreeWritten(name, fs[1].bytes, a.body);
  }

  lemma ThreeWritten(a: Bytes, b: Bytes, c: Bytes)
    ensures Write([LenField(1, a), LenField(2, b), LenField(3, c)])
         == [] + FieldBytes(1, a) + FieldBytes(2, b) + FieldBytes(3, c)
  {
    hide FieldBytes;
    var fs := [LenField(1, a), LenField(2, b), LenField(3, c)];
    assert fs[1..][1..] == [LenField(3, c)];
    assert Write(fs[1..][1..]) == FieldBytes(3, c) + Write([]);
    assert Write(fs[1..]) == FieldBytes(2, b) + Write(fs[1..][1..]);
    assert Write(fs) == FieldBytes(1, a) + Write(fs[1..]);
  }

  lemma ModuleKindParts(v: Value, nodes: seq<Bytes>, b: Bytes, vals: seq<Value>)
    requires v.Module? && Encodable(v)
    ensures PairsEncodable(v.attrs)
    ensures KindField(v) == LenField(32, Write(ModuleFields(v.name, v.id, Write(PairFields(v.attrs)))))
    ensures PostChildren(v) == PostPairs(v.attrs) && Normal(v) == Module(v.name, v.id, NormalPairs(v.attrs))
    ensures FlattenBody(nodes, LenField(32, b))
         == if Parse(b).ok then FlattenModule(nodes, [], Parse(b).fields, |b|) else Err
    ensures DecodeNodeKind(LenField(32, b), vals) == NodeModule(b, vals)
  {
    hide Parse, Write, PairFields, ModuleFields, PostPairs, NormalPairs, FlattenMessage, FlattenPairs, FlattenModule,
      NodeModule;
  }

  lemma {:induction false} FlattenModuleValue(nodes: seq<Bytes>, vals: seq<Value>, v: Value)
    requires v.Module? && Encodable(v) && |EncodeValue(v)| < TWO63
    ensures BodyMeans(nodes, vals, v)
    decreases v.attrs, 2
  {
    hide Parse, Write, WriteField, FlattenPairs, FlattenModule, PairFields, PostPairs, NormalPairs, Decodes, Encodable,
      ArenaPairs, ModulePartsOf, EncodeValue, KindField, FlattenBody, Normal, PostChildren, DecodeNodeKind;
    KindFieldShaped(v);
    var attrs := Write(PairFields(v.attrs)) by { ModuleKindParts(v, nodes, [], vals); }
    var fs := ModuleFields(v.name, v.id, attrs);
    ModuleKindParts(v, nodes, Write(fs), vals);
    WriteLength(fs, 2);
    WriteLength(fs, 0);
    ParseMessage(fs);
    FlattenDictBody(nodes, vals, v.attrs);
    FlattenModuleFields(nodes, v.name, v.id, attrs, |Write(fs)|);
    if Decodes(nodes, vals) && |nodes| + |PostOrder(v)| <= TWO32 {
      var refs := FlattenPairs(nodes, attrs).value.body;
      ModuleBodyLength(v.name, v.id, refs);
      ModulePartsRoundTrip(v.name, v.id, refs);
      ModuleKindParts(v, nodes, Write(ModuleFields(v.name, v.id, refs)), vals + PostPairs(v.attrs));
    }
  }

  lemma ModuleBodyLength(name: Bytes, id: Uuid, attrs: Bytes)
    requires |name| < TWO63 && |attrs| <= 39 * TWO32
    ensures |Write(ModuleFields(name, id, attrs))| <= TWO63 + 100 * TWO32
  {
    hide WriteField;
    var fs := ModuleFields(name, id, attrs);
    UuidLength(id);
    FieldLength(fs[0]);
    FieldLength(fs[1]);
    FieldLength(fs[2]);
    assert Write(fs) == WriteField(fs[0]) + Write(fs[1..]);
    assert Write(fs[1..]) == WriteField(fs[1]) + Write(fs[1..][1..]);
    assert Write(fs[1..][1..]) == WriteField(fs[2]) + Write(fs[1..][1..][1..]);
  }
}
