/**
 The arena decoder. Nodes are decoded in order against the values decoded before them, so
 a reference can only reach an earlier node.
 */
module ArenaDecode {
  import opened Common
  import opened Wire
  import opened Values
  import opened Nested

  // ---------------------------------------------------------------------------
  // References

  function PackedVarints(b: Bytes): (r: Result<seq<U64>>)
    decreases |b|
  {
    if b == [] then Ok([])
    else
      match ConsumeVarint(b)
      case Bad => Err
      case Got(v, n) => Prepend([v], PackedVarints(b[n..]))
  }

  function FieldIndexes(f: Field): (r: Result<seq<U64>>)
  {
    match f.typ
    case Varint => Ok([f.varint])
    case Len => PackedVarints(f.bytes)
    case _ => Err
  }

  /** Index lists may mix one-per-field and packed entries. */
  function Indexes(fs: seq<Field>, tag: nat): (r: Result<seq<U64>>)
  {
    if fs == [] then Ok([])
    else if fs[0].tag != tag then Indexes(fs[1..], tag)
    else
      match FieldIndexes(fs[0])
      case Err => Err
      case Ok(ids) => Prepend(ids, Indexes(fs[1..], tag))
  }

  function IndexesIn(data: Bytes, tag: nat): (r: Result<seq<U64>>)
  {
    var p := Parse(data);
    if p.ok then Indexes(p.fields, tag) else Err
  }

  method ReadPacked(data: Bytes) returns (r: Result<seq<U64>>)
    ensures r == PackedVarints(data)
  {
    hide ConsumeVarint;
    var out: seq<U64> := [];
    var b := data;
    PrependConcat(out, out, PackedVarints(data));
    while b != []
      invariant PackedVarints(data) == Prepend(out, PackedVarints(b))
      decreases |b|
    {
      var c := ConsumeVarint(b);
      if c.Bad? {
        return Err;
      }
      PrependConcat(out, [c.value], PackedVarints(b[c.n..]));
      out := out + [c.value];
      b := b[c.n..];
    }
    assert out + [] == out;
    r := Ok(out);
  }

  method ReadIndexes(data: Bytes, tag: nat) returns (r: Result<seq<U64>>)
    ensures r == IndexesIn(data, tag)
  {
    hide Parse, PackedVarints;
    var fs, ok := ParseFields(data);
    var out: seq<U64> := [];
    var i := 0;
    PrependConcat(out, out, Indexes(fs, tag));
    while i < |fs|
      invariant 0 <= i <= |fs|
      invariant Indexes(fs, tag) == Prepend(out, Indexes(fs[i..], tag))
    {
      var f := fs[i];
      assert fs[i..][1..] == fs[i + 1..];
      if f.tag == tag {
        var ids: seq<U64> := [f.varint];
        if f.typ.Len? {
          var packed := ReadPacked(f.bytes);
          if packed.Err? {
            return Err;
          }
          ids := packed.value;
        } else if !f.typ.Varint? {
          return Err;
        }
        PrependConcat(out, ids, Indexes(fs[i + 1..], tag));
        out := out + ids;
      }
      i := i + 1;
    }
    assert out + [] == out;
    r := if ok then Ok(out) else Err;
  }

  predicate AllBelow(ids: seq<U64>, n: nat)
  {
    forall i :: 0 <= i < |ids| ==> ids[i] < n
  }

  function Lookup(values: seq<Value>, ids: seq<U64>): (r: seq<Value>)
    requires AllBelow(ids, |values|)
    ensures |r| == |ids|
    ensures forall i :: 0 <= i < |ids| ==> r[i] == values[ids[i]]
  {
    if ids == [] then [] else [values[ids[0]]] + Lookup(values, ids[1..])
  }

  function Resolve(values: seq<Value>, ids: Result<seq<U64>>): (r: Result<seq<Value>>)
  {
    match ids
    case Err => Err
    case Ok(list) => if AllBelow(list, |values|) then Ok(Lookup(values, list)) else Err
  }

  function ResolvePair(data: Bytes, values: seq<Value>): (r: Result<Pair>)
  {
    var p := Parse(data);
    var k, v := VarintOf(p.fields, 1), VarintOf(p.fields, 2);
    if p.ok && k < |values| && v < |values| then Ok(Pair(values[k], values[v])) else Err
  }

  function ResolvePairs(fs: seq<Field>, values: seq<Value>): (r: Result<seq<Pair>>)
  {
    if fs == [] then Ok([])
    else if fs[0].tag != 1 then ResolvePairs(fs[1..], values)
    else
      match ResolvePair(fs[0].bytes, values)
      case Err => Err
      case Ok(pair) =>
        match ResolvePairs(fs[1..], values)
        case Err => Err
        case Ok(pairs) => Ok([pair] + pairs)
  }

  function ArenaPairs(data: Bytes, values: seq<Value>): (r: Result<seq<Pair>>)
  {
    var p := Parse(data);
    if p.ok then ResolvePairs(p.fields, values) else Err
  }

  function LastArenaPairs(fs: seq<Field>, tag: nat, last: seq<Pair>, values: seq<Value>): (r: Result<seq<Pair>>)
  {
    if fs == [] then Ok(last)
    else if fs[0].tag != tag then LastArenaPairs(fs[1..], tag, last, values)
    else
      match ArenaPairs(fs[0].bytes, values)
      case Err => Err
      case Ok(pairs) => LastArenaPairs(fs[1..], tag, pairs, values)
  }

  // ---------------------------------------------------------------------------
  // Nodes

  function ExpectedType(tag: nat): WireType
  {
    if tag == 4 || tag == 5 then Varint else if tag == 7 then Fixed64 else Len
  }

  function NodeNamedTuple(data: Bytes, values: seq<Value>): (r: Result<Value>)
  {
    var p := Parse(data);
    if !p.ok then Err
    else
      match Resolve(values, Indexes(p.fields, 3))
      case Err => Err
      case Ok(items) => Ok(NamedTuple(BytesOf(p.fields, 1), AllBytesOf(p.fields, 2), items))
  }

  function NodeClass(data: Bytes, values: seq<Value>): (r: Result<Value>)
  {
    var p := Parse(data);
    var fs := p.fields;
    if !p.ok || !UuidsDecode(fs, 2) then Err
    else
      match LastArenaPairs(fs, 5, [], values)
      case Err => Err
      case Ok(attrs) =>
        var origin := VarintOf(fs, 3) % TWO32;
        if origin < 1 || origin > 3 || LastField(fs, 2).Some? != (origin != 1) then Err
        else if origin == 1 then Ok(Type(BytesOf(fs, 1)))
        else Ok(ClassType(Class(BytesOf(fs, 1), UuidOf(fs, 2), origin, VarintOf(fs, 4) != 0, attrs)))
  }

  function NodeInstance(data: Bytes, values: seq<Value>): (r: Result<Value>)
  {
    var p := Parse(data);
    var i := VarintOf(p.fields, 1);
    match DecodeUuid(BytesOf(p.fields, 2))
    case Err => Err
    case Ok(id) =>
      if !p.ok then Err
      else
        match LastArenaPairs(p.fields, 3, [], values)
        case Err => Err
        case Ok(attrs) =>
          if i < |values| && values[i].ClassType? then Ok(ClassInstance(values[i].class_, id, attrs)) else Err
  }

  function NodeModule(data: Bytes, values: seq<Value>): (r: Result<Value>)
  {
    match ModulePartsOf(data)
    case Err => Err
    case Ok(m) =>
      match ArenaPairs(m.attrs, values)
      case Err => Err
      case Ok(attrs) => Ok(Module(m.name, m.id, attrs))
  }

  /** Kinds handed to the nested decoder unchanged. */
  predicate PassedThrough(tag: nat)
  {
    (1 <= tag <= 9) || tag == 17 || (19 <= tag <= 22) || (25 <= tag <= 29) || tag == 31
  }

  function DecodeNodeKind(f: Field, values: seq<Value>): (r: Result<Value>)
  {
    if f.typ != ExpectedType(f.tag) then Err
    else if SeqKindOf(f.tag).Some? then
      match Resolve(values, IndexesIn(f.bytes, 1))
      case Err => Err
      case Ok(items) => Ok(Seq(SeqKindOf(f.tag).value, items))
    else if f.tag == 13 then NodeNamedTuple(f.bytes, values)
    else if f.tag == 14 then
      match ArenaPairs(f.bytes, values)
      case Err => Err
      case Ok(pairs) => Ok(Dict(pairs))
    else if f.tag == 18 then (if Parse(f.bytes).ok then Ok(TimeOf(Parse(f.bytes).fields)) else Err)
    else if f.tag == 23 then NodeClass(f.bytes, values)
    else if f.tag == 24 then NodeInstance(f.bytes, values)
    else if f.tag == 30 then Ok(Cycle(0, f.bytes))
    else if f.tag == 32 then NodeModule(f.bytes, values)
    else if PassedThrough(f.tag) then DecodeValue(WriteField(f))
    else Err
  }

  function DecodeNode(data: Bytes, values: seq<Value>): (r: Result<Value>)
  {
    var p := Parse(data);
    if p.ok && |p.fields| == 1 then DecodeNodeKind(p.fields[0], values) else Err
  }

  /** Continues decoding after the given values. */
  function DecodeNodes(fs: seq<Field>, values: seq<Value>): (r: Result<seq<Value>>)
    ensures r.Ok? ==> values <= r.value
    decreases |fs|
  {
    if fs == [] then Ok(values)
    else if fs[0].tag != 2 then DecodeNodes(fs[1..], values)
    else if !fs[0].typ.Len? then Err
    else
      match DecodeNode(fs[0].bytes, values)
      case Err => Err
      case Ok(v) => DecodeNodes(fs[1..], values + [v])
  }

  function ArenaValues(data: Bytes): (r: Result<seq<Value>>)
  {
    var p := Parse(data);
    if p.ok then DecodeNodes(p.fields, []) else Err
  }

  /** The decoder as the source runs it, appending to one slice of values. */
  method DecodeArena(data: Bytes) returns (r: Result<seq<Value>>)
    ensures r == ArenaValues(data)
  {
    hide Parse, DecodeNode;
    var fs, ok := ParseFields(data);
    var values: seq<Value> := [];
    var i := 0;
    while i < |fs|
      invariant 0 <= i <= |fs|
      invariant DecodeNodes(fs[i..], values) == DecodeNodes(fs, [])
    {
      assert fs[i..][1..] == fs[i + 1..];
      if fs[i].tag == 2 {
        if !fs[i].typ.Len? {
          return Err;
        }
        var v := DecodeNode(fs[i].bytes, values);
        if v.Err? {
          return Err;
        }
        values := values + [v.value];
      }
      i := i + 1;
    }
    r := if ok then Ok(values) else Err;
  }
}
