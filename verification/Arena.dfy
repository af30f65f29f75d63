/**
 Flat value arenas: the encoder compiles a nested message into a post-order table of nodes
 that refer to earlier nodes by index, and the decoder interprets such a table.
 */
module Arena {
  import opened Common
  import opened Wire
  import opened Values
  import opened Nested

  // ---------------------------------------------------------------------------
  // Encoder specification: each function returns the grown table and the bytes built so far

  datatype Added = Added(nodes: seq<Bytes>, body: Bytes)

  /** Kinds the runtime accepts as input nodes. */
  predicate Suppliable(tag: nat)
  {
    1 <= tag <= 32 && tag != 10 && tag != 24
  }

  /** Index of the node appended last; indices are 32-bit and wrap. */
  function LastIndex(nodes: seq<Bytes>): (i: U64)
    requires nodes != []
  {
    (|nodes| - 1) % TWO32
  }

  /** What becomes of a child field: a reference, an unchanged copy, or nothing. */
  datatype Role = Refer | Copy | Drop

  datatype Parent = InList | InNamedTuple | InPair

  function RoleOf(parent: Parent, tag: nat): Role
  {
    match parent
    case InList => if tag == 1 then Refer else Drop
    case InNamedTuple => if tag == 3 then Refer else Copy
    case InPair => Refer
  }

  function Flatten(nodes: seq<Bytes>, b: Bytes): (r: Result<seq<Bytes>>)
    ensures r.Ok? ==> nodes < r.value
    decreases |b|, 1, 0
  {
    var p := Parse(b);
    match FlattenKinds(nodes, [], p.fields, |b|)
    case Err => Err
    case Ok(a) => if p.ok then Ok(a.nodes + [a.body]) else Err
  }

  function FlattenKinds(nodes: seq<Bytes>, node: Bytes, fs: seq<Field>, n: nat): (r: Result<Added>)
    requires Below(fs, n)
    ensures r.Ok? ==> nodes <= r.value.nodes
    decreases n, 0, |fs|
  {
    if fs == [] then Ok(Added(nodes, node))
    else if !Suppliable(fs[0].tag) then Err
    else
      match FlattenBody(nodes, fs[0])
      case Err => Err
      case Ok(a) => FlattenKinds(a.nodes, NodeOf(fs[0], a.body), fs[1..], n)
  }

  function NodeOf(f: Field, body: Bytes): Bytes
  {
    match f.typ
    case Varint => FieldVarint(f.tag, f.varint)
    case Fixed64 => FieldFixed64(f.tag, f.fixed64)
    case _ => FieldBytes(f.tag, body)
  }

  function FlattenBody(nodes: seq<Bytes>, f: Field): (r: Result<Added>)
    ensures r.Ok? ==> nodes <= r.value.nodes
    decreases |f.bytes|, 3, 0
  {
    if SeqKindOf(f.tag).Some? then FlattenMessage(nodes, f.bytes, InList)
    else if f.tag == 13 then FlattenMessage(nodes, f.bytes, InNamedTuple)
    else if f.tag == 14 then FlattenPairs(nodes, f.bytes)
    else if f.tag == 32 then
      var p := Parse(f.bytes);
      if p.ok then FlattenModule(nodes, [], p.fields, |f.bytes|) else Err
    else Ok(Added(nodes, f.bytes))
  }

  function FlattenMessage(nodes: seq<Bytes>, data: Bytes, parent: Parent): (r: Result<Added>)
    ensures r.Ok? ==> nodes <= r.value.nodes
    decreases |data|, 1, 0
  {
    var p := Parse(data);
    if p.ok then FlattenChildren(nodes, [], p.fields, |data|, parent) else Err
  }

  function FlattenChildren(nodes: seq<Bytes>, body: Bytes, fs: seq<Field>, n: nat, parent: Parent): (r: Result<Added>)
    requires Below(fs, n)
    ensures r.Ok? ==> nodes <= r.value.nodes
    decreases n, 0, |fs|
  {
    if fs == [] then Ok(Added(nodes, body))
    else
      match RoleOf(parent, fs[0].tag)
      case Drop => FlattenChildren(nodes, body, fs[1..], n, parent)
      case Copy => FlattenChildren(nodes, body + FieldBytes(fs[0].tag, fs[0].bytes), fs[1..], n, parent)
      case Refer =>
        match Flatten(nodes, fs[0].bytes)
        case Err => Err
        case Ok(ns) => FlattenChildren(ns, body + FieldVarint(fs[0].tag, LastIndex(ns)), fs[1..], n, parent)
  }

  function FlattenPairs(nodes: seq<Bytes>, data: Bytes): (r: Result<Added>)
    ensures r.Ok? ==> nodes <= r.value.nodes
    decreases |data|, 2, 0
  {
    var p := Parse(data);
    if p.ok then FlattenPairList(nodes, [], p.fields, |data|) else Err
  }

  function FlattenPairList(nodes: seq<Bytes>, body: Bytes, fs: seq<Field>, n: nat): (r: Result<Added>)
    requires Below(fs, n)
    ensures r.Ok? ==> nodes <= r.value.nodes
    decreases n, 0, |fs|
  {
    if fs == [] then Ok(Added(nodes, body))
    else if fs[0].tag != 1 then FlattenPairList(nodes, body, fs[1..], n)
    else
      match FlattenMessage(nodes, fs[0].bytes, InPair)
      case Err => Err
      case Ok(a) => FlattenPairList(a.nodes, body + FieldBytes(1, a.body), fs[1..], n)
  }

  function FlattenModule(nodes: seq<Bytes>, body: Bytes, fs: seq<Field>, n: nat): (r: Result<Added>)
    requires Below(fs, n)
    ensures r.Ok? ==> nodes <= r.value.nodes
    decreases n, 0, |fs|
  {
    if fs == [] then Ok(Added(nodes, body))
    else if fs[0].tag != 3 then FlattenModule(nodes, body + FieldBytes(fs[0].tag, fs[0].bytes), fs[1..], n)
    else
      match FlattenPairs(nodes, fs[0].bytes)
      case Err => Err
      case Ok(a) => FlattenModule(a.nodes, body + FieldBytes(3, a.body), fs[1..], n)
  }

  function NodeFields(nodes: seq<Bytes>): (fs: seq<Field>)
  {
    if nodes == [] then [] else [LenField(2, nodes[0])] + NodeFields(nodes[1..])
  }

  /** The arena message: a node-count hint, then the nodes. */
  function ArenaBytes(nodes: seq<Bytes>): (b: Bytes)
  {
    FieldVarint(1, |nodes| % TWO64) + Write(NodeFields(nodes))
  }

  // ---------------------------------------------------------------------------
  // The encoder: one table that recursive adds grow in place

  class ArenaEncoder {
    var nodes: seq<Bytes>

    constructor ()
      ensures nodes == []
    {
      nodes := [];
    }

    /** Nested bytes become nodes; on failure the table may keep nodes already added. */
    method AddLegacy(b: Bytes) returns (r: Result<U64>)
      modifies this
      ensures match Flatten(old(nodes), b)
              case Err => r.Err? && old(nodes) <= nodes
              case Ok(ns) => nodes == ns && r == Ok(LastIndex(ns))
      decreases |b|, 1, 0
    {
      hide Parse, NodeOf, FlattenBody, Suppliable;
      var fs, ok := ParseFields(b);
      var node: Bytes := [];
      var i := 0;
      while i < |fs|
        invariant 0 <= i <= |fs|
        invariant old(nodes) <= nodes
        invariant FlattenKinds(nodes, node, fs[i..], |b|) == FlattenKinds(old(nodes), [], fs, |b|)
      {
        var f := fs[i];
        assert fs[i..][1..] == fs[i + 1..];
        if !Suppliable(f.tag) {
          return Err;
        }
        var body := AddBody(f);
        if body.Err? {
          return Err;
        }
        node := NodeOf(f, body.value);
        i := i + 1;
      }
      if !ok {
        return Err;
      }
      nodes := nodes + [node];
      r := Ok((|nodes| - 1) % TWO32);
    }

    method AddBody(f: Field) returns (r: Result<Bytes>)
      modifies this
      ensures match FlattenBody(old(nodes), f)
              case Err => r.Err? && old(nodes) <= nodes
              case Ok(a) => nodes == a.nodes && r == Ok(a.body)
      decreases |f.bytes|, 3, 0
    {
      if f.tag == 11 || f.tag == 12 || f.tag == 15 || f.tag == 16 {
        r := AddMessage(f.bytes, InList);
      } else if f.tag == 13 {
        r := AddMessage(f.bytes, InNamedTuple);
      } else if f.tag == 14 {
        r := AddPairs(f.bytes);
      } else if f.tag == 32 {
        r := AddModule(f.bytes);
      } else {
        r := Ok(f.bytes);
      }
    }

    method AddMessage(data: Bytes, parent: Parent) returns (r: Result<Bytes>)
      modifies this
      ensures match FlattenMessage(old(nodes), data, parent)
              case Err => r.Err? && old(nodes) <= nodes
              case Ok(a) => nodes == a.nodes && r == Ok(a.body)
      decreases |data|, 1, 0
    {
      var fs, ok := ParseFields(data);
      var body: Bytes := [];
      var i := 0;
      while i < |fs|
        invariant 0 <= i <= |fs|
        invariant old(nodes) <= nodes
        invariant FlattenChildren(nodes, body, fs[i..], |data|, parent)
               == FlattenChildren(old(nodes), [], fs, |data|, parent)
      {
        var c := fs[i];
        assert fs[i..][1..] == fs[i + 1..];
        match RoleOf(parent, c.tag) {
          case Drop =>
          case Copy =>
            body := body + FieldBytes(c.tag, c.bytes);
          case Refer =>
            var index := AddLegacy(c.bytes);
            if index.Err? {
              return Err;
            }
            body := body + FieldVarint(c.tag, index.value);
        }
        i := i + 1;
      }
      r := if ok then Ok(body) else Err;
    }

    method AddPairs(data: Bytes) returns (r: Result<Bytes>)
      modifies this
      ensures match FlattenPairs(old(nodes), data)
              case Err => r.Err? && old(nodes) <= nodes
              case Ok(a) => nodes == a.nodes && r == Ok(a.body)
      decreases |data|, 2, 0
    {
      var fs, ok := ParseFields(data);
      var body: Bytes := [];
      var i := 0;
      while i < |fs|
        invariant 0 <= i <= |fs|
        invariant old(nodes) <= nodes
        invariant FlattenPairList(nodes, body, fs[i..], |data|) == FlattenPairList(old(nodes), [], fs, |data|)
      {
        var c := fs[i];
        assert fs[i..][1..] == fs[i + 1..];
        if c.tag == 1 {
          var pair := AddMessage(c.bytes, InPair);
          if pair.Err? {
            return Err;
          }
          body := body + FieldBytes(1, pair.value);
        }
        i := i + 1;
      }
      r := if ok then Ok(body) else Err;
    }

    method AddModule(data: Bytes) returns (r: Result<Bytes>)
      modifies this
      ensures match (if Parse(data).ok then FlattenModule(old(nodes), [], Parse(data).fields, |data|) else Err)
              case Err => r.Err? && old(nodes) <= nodes
              case Ok(a) => nodes == a.nodes && r == Ok(a.body)
      decreases |data|, 2, 1
    {
      var fs, ok := ParseFields(data);
      var body: Bytes := [];
      var i := 0;
      while i < |fs|
        invariant 0 <= i <= |fs|
        invariant old(nodes) <= nodes
        invariant FlattenModule(nodes, body, fs[i..], |data|) == FlattenModule(old(nodes), [], fs, |data|)
      {
        var c := fs[i];
        assert fs[i..][1..] == fs[i + 1..];
        if c.tag == 3 {
          var attrs := AddPairs(c.bytes);
          if attrs.Err? {
            return Err;
          }
          body := body + FieldBytes(3, attrs.value);
        } else {
          body := body + FieldBytes(c.tag, c.bytes);
        }
        i := i + 1;
      }
      r := if ok then Ok(body) else Err;
    }

    method Encode() returns (b: Bytes)
      ensures b == ArenaBytes(nodes)
    {
      b := FieldVarint(1, |nodes| % TWO64);
      assert b + Write(NodeFields(nodes)) == ArenaBytes(nodes);
      var i := 0;
      while i < |nodes|
        invariant 0 <= i <= |nodes|
        invariant b + Write(NodeFields(nodes[i..])) == ArenaBytes(nodes)
      {
        assert nodes[i..][1..] == nodes[i + 1..];
        assert NodeFields(nodes[i..]) == [LenField(2, nodes[i])] + NodeFields(nodes[i + 1..]);
        assert Write(NodeFields(nodes[i..])) == FieldBytes(2, nodes[i]) + Write(NodeFields(nodes[i + 1..]));
        b := b + FieldBytes(2, nodes[i]);
        i := i + 1;
      }
      assert b + [] == b;
    }
  }
}
