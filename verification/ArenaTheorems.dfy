/** The main results about arenas, for whole messages. */
module ArenaTheorems {
  import opened Common
  import opened Wire
  import opened Values
  import opened Nested
  import opened Arena
  import opened ArenaDecode
  import opened ArenaMeaning

  /** Adding several values to one arena, in order. */
  function FlattenAll(nodes: seq<Bytes>, vs: seq<Value>): (r: Result<seq<Bytes>>)
    requires AllEncodable(vs)
    decreases |vs|
  {
    if vs == [] then Ok(nodes)
    else
      match Flatten(nodes, EncodeValue(vs[0]))
      case Err => Err
      case Ok(ns) => FlattenAll(ns, vs[1..])
  }

  ghost predicate Sized(vs: seq<Value>)
    requires AllEncodable(vs)
  {
    forall i :: 0 <= i < |vs| ==> |EncodeValue(vs[i])| < TWO63
  }

  lemma {:induction false} FlattenAllMeans(nodes: seq<Bytes>, vals: seq<Value>, vs: seq<Value>)
    requires AllEncodable(vs) && Sized(vs)
    ensures
      var r := FlattenAll(nodes, vs);
      && r.Ok?
      && |r.value| == |nodes| + |PostItems(vs)|
      && (Decodes(nodes, vals) && |nodes| + |PostItems(vs)| <= TWO32 ==> Decodes(r.value, vals + PostItems(vs)))
    decreases |vs|
  {
    hide Flatten, EncodeValue, Encodable, PostOrder, Decodes;
    if vs == [] {
      assert vals + [] == vals;
    } else {
      FlattenMeaning(nodes, vals, vs[0]);
      var ns := Flatten(nodes, EncodeValue(vs[0])).value;
      var here := vals + PostOrder(vs[0]);
      FlattenAllMeans(ns, here, vs[1..]);
      assert here + PostItems(vs[1..]) == vals + PostItems(vs);
    }
  }

  // ---------------------------------------------------------------------------
  // From a table of nodes to arena bytes and back

  lemma {:induction false} NodeFieldsAt(nodes: seq<Bytes>)
    ensures |NodeFields(nodes)| == |nodes| && AllLen(NodeFields(nodes), 2)
    ensures forall i :: 0 <= i < |nodes| ==> NodeFields(nodes)[i].bytes == nodes[i]
  {
    if nodes != [] {
      NodeFieldsAt(nodes[1..]);
    }
  }

  lemma {:induction false} DecodeNodesFrom(nodes: seq<Bytes>, vals: seq<Value>, k: nat)
    requires Decodes(nodes, vals) && k <= |nodes|
    ensures DecodeNodes(NodeFields(nodes[k..]), vals[..k]) == Ok(vals)
    decreases |nodes| - k
  {
    hide DecodeNode;
    if k == |nodes| {
      assert nodes[k..] == [] && vals[..k] == vals;
    } else {
      DecodeNodesFrom(nodes, vals, k + 1);
      assert nodes[k..][1..] == nodes[k + 1..];
      assert NodeFields(nodes[k..])[1..] == NodeFields(nodes[k + 1..]);
      assert vals[..k] + [vals[k]] == vals[..k + 1];
      assert DecodeNode(nodes[k], vals[..k]) == Ok(vals[k]);
    }
  }

  lemma {:induction false} WriteAtLeast(fs: seq<Field>)
    ensures |Write(fs)| >= 2 * |fs|
  {
    hide WriteField;
    if fs != [] {
      WriteAtLeast(fs[1..]);
    }
  }

  lemma ArenaRoundTrip(nodes: seq<Bytes>, vals: seq<Value>)
    requires Decodes(nodes, vals) && |ArenaBytes(nodes)| < TWO64
    ensures ArenaValues(ArenaBytes(nodes)) == Ok(vals)
  {
    hide Parse, Write, NodeFields, DecodeNode, FieldVarint, Decodes;
    var fs := NodeFields(nodes);
    NodeFieldsAt(nodes);
    ParseMessage(fs);
    CountIgnored(|nodes| % TWO64, Write(fs));
    DecodeNodesFrom(nodes, vals, 0);
    assert nodes[0..] == nodes && vals[..0] == [];
  }

  /** The node-count hint changes nothing, whatever it claims and whatever follows it. */
  lemma CountIgnored(n: U64, data: Bytes)
    ensures ArenaValues(FieldVarint(1, n) + data) == ArenaValues(data)
  {
    hide Parse, WriteField, FieldVarint, DecodeNode;
    var f := VarintField(1, n);
    assert FieldVarint(1, n) == WriteField(f) by { HintIsField(n); }
    ParseWriteField(f);
    ParseConcat(WriteField(f), data);
    var fs := [f] + Parse(data).fields;
    assert fs[1..] == Parse(data).fields;
  }

  /** A written arena says first how many nodes follow, and then they do, in order. */
  lemma ArenaCounts(nodes: seq<Bytes>)
    requires |ArenaBytes(nodes)| < TWO64
    ensures
      var p := Parse(ArenaBytes(nodes));
      && p.ok && |p.fields| == |nodes| + 1
      && p.fields[0].tag == 1 && p.fields[0].typ.Varint? && p.fields[0].varint == |p.fields| - 1
      && forall i :: 0 <= i < |nodes| ==> p.fields[i + 1] == LenField(2, nodes[i])
  {
    hide Parse, Write, WriteField, NodeFields, FieldVarint;
    var fs := NodeFields(nodes);
    NodeFieldsAt(nodes);
    WriteAtLeast(fs);
    assert |nodes| % TWO64 == |nodes|;
    ParseMessage(fs);
    var f := VarintField(1, |nodes|);
    HintIsField(|nodes|);
    ParseWriteField(f);
    ParseConcat(WriteField(f), Write(fs));
    NodeFieldsAre(nodes);
  }

  lemma {:induction false} NodeFieldsAre(nodes: seq<Bytes>)
    ensures |NodeFields(nodes)| == |nodes|
    ensures forall i :: 0 <= i < |nodes| ==> NodeFields(nodes)[i] == LenField(2, nodes[i])
  {
    if nodes != [] {
      NodeFieldsAre(nodes[1..]);
    }
  }

  lemma HintIsField(n: U64)
    ensures FieldVarint(1, n) == WriteField(VarintField(1, n))
  {
  }

  // ---------------------------------------------------------------------------
  // Main theorem

  lemma {:induction false} PostItemsConcat(a: seq<Value>, b: seq<Value>)
    ensures PostItems(a + b) == PostItems(a) + PostItems(b)
    decreases |a|
  {
    hide PostOrder;
    if a == [] {
      assert a + b == b;
    } else {
      PostItemsConcat(a[1..], b);
      assert (a + b)[1..] == a[1..] + b;
    }
  }

  /** The index the k-th add returned. */
  function IndexOf(vs: seq<Value>, k: nat): (i: U64)
    requires AllEncodable(vs) && k < |vs|
  {
    match FlattenAll([], vs[..k + 1])
    case Err => 0
    case Ok(ns) => if ns == [] then 0 else LastIndex(ns)
  }

  /**
   Every arena that fits in one frame decodes to the post-order normal forms of the values
   added to it; the index each add returned still denotes that value at the end, and it is the
   same value the nested form denotes.
   */
  lemma ArenaPreservesMeaning(vs: seq<Value>)
    requires AllEncodable(vs) && Sized(vs)
    ensures FlattenAll([], vs).Ok?
    ensures
      var ns := FlattenAll([], vs).value;
      |ArenaBytes(ns)| <= MAX_FRAME_LEN ==>
        && ArenaValues(ArenaBytes(ns)) == Ok(PostItems(vs))
        && forall k :: 0 <= k < |vs| ==>
          && IndexOf(vs, k) < |PostItems(vs)|
          && DecodeValue(EncodeValue(vs[k])) == Ok(PostItems(vs)[IndexOf(vs, k)])
  {
    hide Flatten, FlattenAll, EncodeValue, Encodable, PostOrder, PostItems, Decodes, Write, NodeFields, FieldVarint,
      ArenaValues, IndexOf, DecodeValue;
    FlattenAllMeans([], [], vs);
    var ns := FlattenAll([], vs).value;
    NodeFieldsAt(ns);
    WriteAtLeast(NodeFields(ns));
    if |ArenaBytes(ns)| <= MAX_FRAME_LEN {
      assert Decodes([], []) by { NothingDecodes(); }
      assert [] + PostItems(vs) == PostItems(vs);
      ArenaRoundTrip(ns, PostItems(vs));
      forall k | 0 <= k < |vs|
        ensures IndexOf(vs, k) < |PostItems(vs)|
        ensures DecodeValue(EncodeValue(vs[k])) == Ok(PostItems(vs)[IndexOf(vs, k)])
      {
        RootStays(vs, k);
        NestedRoundTrip(vs[k]);
      }
    }
  }

  lemma NothingDecodes()
    ensures Decodes([], [])
  {
  }

  lemma PostItemsOne(v: Value)
    ensures PostItems([v]) == PostOrder(v)
  {
    assert PostOrder(v) + PostItems([]) == PostOrder(v);
  }

  lemma IndexIsLast(vs: seq<Value>, k: nat)
    requires AllEncodable(vs) && Sized(vs) && k < |vs|
    requires 0 < |PostItems(vs[..k + 1])| <= TWO32
    ensures IndexOf(vs, k) == |PostItems(vs[..k + 1])| - 1
  {
    hide Flatten, EncodeValue, Encodable, PostOrder, Decodes, Normal, PostItems;
    FlattenAllMeans([], [], vs[..k + 1]);
  }

  lemma RootStays(vs: seq<Value>, k: nat)
    requires AllEncodable(vs) && Sized(vs) && k < |vs| && |PostItems(vs)| <= TWO32
    ensures IndexOf(vs, k) < |PostItems(vs)|
    ensures PostItems(vs)[IndexOf(vs, k)] == Normal(vs[k])
  {
    hide IndexOf, Encodable, PostOrder, Normal, PostItems, AllEncodable, Sized;
    var upto := vs[..k + 1];
    PostItemsConcat(upto, vs[k + 1..]);
    assert vs == upto + vs[k + 1..];
    PostItemsConcat(vs[..k], [vs[k]]);
    assert upto == vs[..k] + [vs[k]];
    PostItemsOne(vs[k]);
    var all := PostItems(upto);
    assert all[|all| - 1] == Normal(vs[k]);
    IndexIsLast(vs, k);
  }

  // ---------------------------------------------------------------------------
  // Any arena that decodes is acyclic

  function PairIndexes(fs: seq<Field>): (ids: seq<U64>)
  {
    if fs == [] then []
    else if fs[0].tag != 1 then PairIndexes(fs[1..])
    else
      var p := Parse(fs[0].bytes).fields;
      [VarintOf(p, 1), VarintOf(p, 2)] + PairIndexes(fs[1..])
  }

  function AttrIndexes(fs: seq<Field>, tag: nat): (ids: seq<U64>)
  {
    if fs == [] then []
    else if fs[0].tag != tag then AttrIndexes(fs[1..], tag)
    else PairIndexes(Parse(fs[0].bytes).fields) + AttrIndexes(fs[1..], tag)
  }

  function OrNone(r: Result<seq<U64>>): seq<U64>
  {
    match r
    case Err => []
    case Ok(ids) => ids
  }

  /** Every node index a kind field mentions. */
  function References(f: Field): (ids: seq<U64>)
  {
    var fs := Parse(f.bytes).fields;
    if SeqKindOf(f.tag).Some? then OrNone(Indexes(fs, 1))
    else if f.tag == 13 then OrNone(Indexes(fs, 3))
    else if f.tag == 14 then PairIndexes(fs)
    else if f.tag == 23 then AttrIndexes(fs, 5)
    else if f.tag == 24 then [VarintOf(fs, 1)] + AttrIndexes(fs, 3)
    else if f.tag == 32 then PairIndexes(Parse(BytesOf(fs, 3)).fields)
    else []
  }

  lemma {:induction false} PairIndexesBelow(fs: seq<Field>, values: seq<Value>)
    requires ResolvePairs(fs, values).Ok?
    ensures AllBelow(PairIndexes(fs), |values|)
  {
    hide Parse, VarintOf;
    if fs != [] {
      PairIndexesBelow(fs[1..], values);
    }
  }

  lemma {:induction false} AttrIndexesBelow(fs: seq<Field>, tag: nat, last: seq<Pair>, values: seq<Value>)
    requires LastArenaPairs(fs, tag, last, values).Ok?
    ensures AllBelow(AttrIndexes(fs, tag), |values|)
    decreases |fs|
  {
    hide Parse, ResolvePairs, PairIndexes;
    if fs != [] {
      if fs[0].tag == tag {
        var p := Parse(fs[0].bytes).fields;
        PairIndexesBelow(p, values);
        AttrIndexesBelow(fs[1..], tag, ArenaPairs(fs[0].bytes, values).value, values);
      } else {
        AttrIndexesBelow(fs[1..], tag, last, values);
      }
    }
  }

  lemma ReferencesBelow(f: Field, values: seq<Value>)
    requires DecodeNodeKind(f, values).Ok?
    ensures AllBelow(References(f), |values|)
  {
    hide Parse, ResolvePairs, PairIndexes, LastArenaPairs, AttrIndexes, Indexes, Lookup, LastField, DecodeUuid, TimeOf,
      DecodeValue, WriteField, UuidOf, AllBytesOf;
    var fs := Parse(f.bytes).fields;
    if f.tag == 14 {
      PairIndexesBelow(fs, values);
    } else if f.tag == 23 {
      AttrIndexesBelow(fs, 5, [], values);
    } else if f.tag == 24 {
      AttrIndexesBelow(fs, 3, [], values);
    } else if f.tag == 32 {
      PairIndexesBelow(Parse(BytesOf(fs, 3)).fields, values);
    }
  }

  function NodeBodies(fs: seq<Field>): seq<Bytes> { AllBytesOf(fs, 2) }

  function NodeReferences(node: Bytes): seq<U64>
  {
    var fs := Parse(node).fields;
    if |fs| == 1 then References(fs[0]) else []
  }

  lemma {:induction false} DecodedNodesPointBack(fs: seq<Field>, values: seq<Value>)
    requires DecodeNodes(fs, values).Ok?
    ensures |DecodeNodes(fs, values).value| == |values| + |NodeBodies(fs)|
    ensures forall i :: 0 <= i < |NodeBodies(fs)| ==> AllBelow(NodeReferences(NodeBodies(fs)[i]), |values| + i)
    decreases |fs|
  {
    hide Parse, DecodeNodeKind, References;
    if fs != [] {
      if fs[0].tag != 2 {
        DecodedNodesPointBack(fs[1..], values);
      } else {
        var node := fs[0].bytes;
        ReferencesBelow(Parse(node).fields[0], values);
        DecodedNodesPointBack(fs[1..], values + [DecodeNode(node, values).value]);
        forall i | 0 <= i < |NodeBodies(fs)| ensures AllBelow(NodeReferences(NodeBodies(fs)[i]), |values| + i) {
          if i > 0 {
            assert NodeBodies(fs)[i] == NodeBodies(fs[1..])[i - 1];
          }
        }
      }
    }
  }

  /** Whatever bytes decode as an arena, node i refers only to nodes before i. */
  lemma ArenaIsAcyclic(data: Bytes)
    requires ArenaValues(data).Ok?
    ensures
      var nodes := NodeBodies(Parse(data).fields);
      && |ArenaValues(data).value| == |nodes|
      && forall i :: 0 <= i < |nodes| ==> AllBelow(NodeReferences(nodes[i]), i)
  {
    hide Parse, DecodeNodes, NodeReferences, NodeBodies;
    DecodedNodesPointBack(Parse(data).fields, []);
  }

  // ---------------------------------------------------------------------------
  // Packed and unpacked index lists

  function Pack(ids: seq<U64>): Bytes
  {
    if ids == [] then [] else EncodeVarint(ids[0]) + Pack(ids[1..])
  }

  lemma {:induction false} PackedRoundTrip(ids: seq<U64>)
    ensures PackedVarints(Pack(ids)) == Ok(ids)
  {
    hide ConsumeVarint, EncodeVarint;
    if ids != [] {
      var b := Pack(ids);
      VarintRoundTrip(ids[0], Pack(ids[1..]));
      PackedRoundTrip(ids[1..]);
      assert b[|EncodeVarint(ids[0])|..] == Pack(ids[1..]);
      assert [ids[0]] + ids[1..] == ids;
    }
  }

  /** One packed field and one field per index mean the same list. */
  lemma PackedAlike(tag: nat, ids: seq<U64>)
    ensures Indexes([LenField(tag, Pack(ids))], tag) == Indexes(RefFields(tag, ids), tag) == Ok(ids)
  {
    hide PackedVarints, Pack;
    PackedRoundTrip(ids);
    IndexesOfRefs(tag, ids);
    var fs := [LenField(tag, Pack(ids))];
    assert Indexes(fs[1..], tag) == Ok([]);
    assert ids + [] == ids;
  }
}
