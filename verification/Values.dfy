/**
 Values crossing the sandbox boundary, the nested message each one is written as, and the
 normal form it has after a round trip.
 */
module Values {
  import opened Common
  import opened Wire

  type Uuid = b: Bytes | |b| == 16 witness [0, 0, 0, 0, 0, 0, 0, 0, 0, 0, 0, 0, 0, 0, 0, 0]

  datatype SeqKind = List | Tuple | Set | FrozenSet

  datatype Pair = Pair(key: Value, value: Value)

  /** Origin 1 is builtin, 2 sandbox, 3 host. */
  datatype Class = Class(name: Bytes, id: Uuid, origin: nat, isDataclass: bool, attrs: seq<Pair>)

  /** Strings are byte strings and floats are their bit patterns, as on the wire. */
  datatype Value =
    | NoneVal
    | Ellipsis
    | NotImplemented
    | Bool(b: bool)
    | Int(i: I64)
    | BigInt(z: int)
    | Float(bits: U64)
    | Complex(re: U64, im: U64)
    | Str(s: Bytes)
    | BytesVal(s: Bytes)
    | Seq(kind: SeqKind, items: seq<Value>)
    | NamedTuple(typeName: Bytes, fieldNames: seq<Bytes>, values: seq<Value>)
    | Dict(pairs: seq<Pair>)
    | Date(year: I64, month: I64, day: I64)
    | Time(hour: I64, minute: I64, second: I64, micro: I64,
           offset: Option<I64>, zone: Option<Bytes>, fold: I64)
    | DateTime(year: I64, month: I64, day: I64, hour: I64, minute: I64, second: I64, micro: I64,
               offset: Option<I64>, zone: Option<Bytes>)
    | TimeDelta(days: I64, seconds: I64, micros: I64)
    | TimeZone(seconds: I64, zone: Option<Bytes>)
    | Exception(typeName: Bytes, message: Bytes)
    | Type(name: Bytes)
    | BuiltinFunction(name: Bytes)
    | Path(path: Bytes)
    | FileHandle(path: Bytes, mode: Bytes, position: U64)
    | Function(name: Bytes, doc: Option<Bytes>)
    | Module(name: Bytes, id: Uuid, attrs: seq<Pair>)
    | ClassType(class_: Class)
    | ClassInstance(class_: Class, id: Uuid, attrs: seq<Pair>)
    | Repr(s: Bytes)
    | Cycle(identity: U64, placeholder: Bytes)

  function SeqTag(k: SeqKind): nat
  {
    match k
    case List => 11
    case Tuple => 12
    case Set => 15
    case FrozenSet => 16
  }

  /** No output-only kind anywhere inside. */
  predicate Encodable(v: Value)
  {
    match v
    case Seq(_, items) => forall i :: 0 <= i < |items| ==> Encodable(items[i])
    case NamedTuple(_, _, values) => forall i :: 0 <= i < |values| ==> Encodable(values[i])
    case Dict(pairs) => forall i :: 0 <= i < |pairs| ==> Encodable(pairs[i].key) && Encodable(pairs[i].value)
    case Module(_, _, attrs) => forall i :: 0 <= i < |attrs| ==> Encodable(attrs[i].key) && Encodable(attrs[i].value)
    case ClassType(_) => false
    case ClassInstance(_, _, _) => false
    case Repr(_) => false
    case Cycle(_, _) => false
    case _ => true
  }

  predicate AllEncodable(items: seq<Value>)
  {
    forall i :: 0 <= i < |items| ==> Encodable(items[i])
  }

  predicate PairsEncodable(pairs: seq<Pair>)
  {
    forall i :: 0 <= i < |pairs| ==> Encodable(pairs[i].key) && Encodable(pairs[i].value)
  }

  // ---------------------------------------------------------------------------
  // Encoding

  function BigEndian(n: nat): (b: Bytes)
  {
    if n == 0 then [] else BigEndian(n / 256) + [n % 256]
  }

  function FromBigEndian(b: Bytes): (n: nat)
  {
    if b == [] then 0 else 256 * FromBigEndian(b[..|b| - 1]) + b[|b| - 1]
  }

  function OptVarint(tag: nat, x: Option<I64>): seq<Field>
  {
    match x
    case None => []
    case Some(v) => [VarintField(tag, ToU64(v))]
  }

  function OptBytes(tag: nat, x: Option<Bytes>): seq<Field>
  {
    match x
    case None => []
    case Some(v) => [LenField(tag, v)]
  }

  function NameFields(names: seq<Bytes>): (fs: seq<Field>)
  {
    if names == [] then [] else [LenField(2, names[0])] + NameFields(names[1..])
  }

  /** The single field a value without children is written as. */
  function ScalarField(v: Value): (f: Field)
  {
    match v
    case Ellipsis => LenField(1, [])
    case NotImplemented => LenField(3, [])
    case Bool(b) => VarintField(4, if b then 1 else 0)
    case Int(i) => VarintField(5, EncodeZigZag(i))
    case BigInt(z) =>
      LenField(6, Write([VarintField(1, if z < 0 then 1 else 0), LenField(2, BigEndian(if z < 0 then -z else z))]))
    case Float(bits) => Fixed64Field(7, bits)
    case Complex(re, im) => LenField(31, Write([Fixed64Field(1, re), Fixed64Field(2, im)]))
    case Str(s) => LenField(8, s)
    case BytesVal(s) => LenField(9, s)
    case Date(y, m, d) => LenField(17, Write(DateFields(y, m, d)))
    case Time(_, _, _, _, _, _, _) => LenField(18, Write(TimeFields(v)))
    case DateTime(_, _, _, _, _, _, _, _, _) => LenField(19, Write(DateTimeFields(v)))
    case TimeDelta(d, s, us) =>
      LenField(20, Write([VarintField(1, ToU64(d)), VarintField(2, ToU64(s)), VarintField(3, ToU64(us))]))
    case TimeZone(s, zone) => LenField(21, Write([VarintField(1, ToU64(s))] + OptBytes(2, zone)))
    case Exception(t, m) =>
      LenField(22, Write([LenField(1, t)] + (if m == [] then [] else [LenField(2, m)])))
    case Type(name) => LenField(23, Write([LenField(1, name), VarintField(3, 1)]))
    case BuiltinFunction(name) => LenField(26, name)
    case Path(p) => LenField(27, p)
    case FileHandle(p, m, pos) => LenField(28, Write([LenField(1, p), LenField(2, m), VarintField(3, pos)]))
    case Function(name, doc) => LenField(25, Write([LenField(1, name)] + OptBytes(2, doc)))
    case _ => LenField(2, [])
  }

  function DateFields(y: I64, m: I64, d: I64): seq<Field>
  {
    [VarintField(1, ToU64(y)), VarintField(2, ToU64(m)), VarintField(3, ToU64(d))]
  }

  function TimeFields(v: Value): seq<Field>
    requires v.Time?
  {
    [VarintField(1, ToU64(v.hour)), VarintField(2, ToU64(v.minute)), VarintField(3, ToU64(v.second)),
     VarintField(4, ToU64(v.micro))]
    + OptVarint(5, v.offset) + OptBytes(6, v.zone) + [VarintField(7, ToU64(v.fold))]
  }

  function DateTimeFields(v: Value): seq<Field>
    requires v.DateTime?
  {
    DateFields(v.year, v.month, v.day)
    + [VarintField(4, ToU64(v.hour)), VarintField(5, ToU64(v.minute)), VarintField(6, ToU64(v.second)),
       VarintField(7, ToU64(v.micro))]
    + OptVarint(8, v.offset) + OptBytes(9, v.zone)
  }

  predicate IsContainer(v: Value)
  {
    v.Seq? || v.NamedTuple? || v.Dict? || v.Module?
  }

  function ModuleFields(name: Bytes, id: Uuid, attrs: Bytes): seq<Field>
  {
    [LenField(1, name), LenField(2, Write([LenField(1, id)])), LenField(3, attrs)]
  }

  /** The single field any encodable value is written as. */
  function KindField(v: Value): (f: Field)
    requires Encodable(v)
    decreases v, 0
  {
    match v
    case Seq(kind, items) => LenField(SeqTag(kind), Write(ItemFields(1, items)))
    case NamedTuple(t, names, values) =>
      LenField(13, Write([LenField(1, t)] + NameFields(names) + ItemFields(3, values)))
    case Dict(pairs) => LenField(14, Write(PairFields(pairs)))
    case Module(name, id, attrs) =>
      LenField(32, Write(ModuleFields(name, id, Write(PairFields(attrs)))))
    case _ => ScalarField(v)
  }

  function EncodeValue(v: Value): (b: Bytes)
    requires Encodable(v)
    ensures |b| >= 2
    decreases v, 1
  {
    WriteField(KindField(v))
  }

  function ItemFields(tag: nat, items: seq<Value>): (fs: seq<Field>)
    requires AllEncodable(items)
    ensures |fs| == |items|
    decreases items, 0
  {
    if items == [] then [] else [LenField(tag, EncodeValue(items[0]))] + ItemFields(tag, items[1..])
  }

  function PairBody(p: Pair): (b: Bytes)
    requires Encodable(p.key) && Encodable(p.value)
    decreases p, 0
  {
    Write([LenField(1, EncodeValue(p.key)), LenField(2, EncodeValue(p.value))])
  }

  function PairFields(pairs: seq<Pair>): (fs: seq<Field>)
    requires PairsEncodable(pairs)
    ensures |fs| == |pairs|
    decreases pairs, 0
  {
    if pairs == [] then [] else [LenField(1, PairBody(pairs[0]))] + PairFields(pairs[1..])
  }

  // ---------------------------------------------------------------------------
  // Shapes of the field lists

  ghost predicate AllLen(fs: seq<Field>, tag: nat)
  {
    forall i :: 0 <= i < |fs| ==> fs[i].typ.Len? && fs[i].varint == 0 && fs[i].fixed64 == 0 && fs[i].tag == tag
  }

  lemma {:induction false} ItemFieldsAt(tag: nat, items: seq<Value>)
    requires AllEncodable(items)
    ensures AllLen(ItemFields(tag, items), tag)
    ensures forall i :: 0 <= i < |items| ==> ItemFields(tag, items)[i] == LenField(tag, EncodeValue(items[i]))
  {
    hide EncodeValue;
    if items != [] {
      ItemFieldsAt(tag, items[1..]);
    }
  }

  lemma {:induction false} PairFieldsAt(pairs: seq<Pair>)
    requires PairsEncodable(pairs)
    ensures AllLen(PairFields(pairs), 1)
    ensures forall i :: 0 <= i < |pairs| ==> PairFields(pairs)[i] == LenField(1, PairBody(pairs[i]))
  {
    hide PairBody;
    if pairs != [] {
      PairFieldsAt(pairs[1..]);
    }
  }

  lemma {:induction false} NameFieldsAt(names: seq<Bytes>)
    ensures |NameFields(names)| == |names| && AllLen(NameFields(names), 2)
    ensures AllBytesOf(NameFields(names), 2) == names
  {
    if names != [] {
      NameFieldsAt(names[1..]);
    }
  }

  // ---------------------------------------------------------------------------
  // Normal form: years, offsets and time deltas travel as int32

  function Trunc32Opt(x: Option<I64>): Option<I64>
  {
    match x
    case None => None
    case Some(v) => Some(Trunc32(v))
  }

  function Normal(v: Value): (r: Value)
    decreases v, 0
  {
    match v
    case Seq(kind, items) => Seq(kind, NormalItems(items))
    case NamedTuple(t, names, values) => NamedTuple(t, names, NormalItems(values))
    case Dict(pairs) => Dict(NormalPairs(pairs))
    case Module(name, id, attrs) => Module(name, id, NormalPairs(attrs))
    case Date(y, m, d) => Date(Trunc32(y), m, d)
    case Time(h, mi, s, us, offset, zone, fold) => Time(h, mi, s, us, Trunc32Opt(offset), zone, fold)
    case DateTime(y, m, d, h, mi, s, us, offset, zone) =>
      DateTime(Trunc32(y), m, d, h, mi, s, us, Trunc32Opt(offset), zone)
    case TimeDelta(d, s, us) => TimeDelta(Trunc32(d), Trunc32(s), Trunc32(us))
    case TimeZone(s, zone) => TimeZone(Trunc32(s), zone)
    case _ => v
  }

  function NormalItems(items: seq<Value>): (r: seq<Value>)
    ensures |r| == |items|
    ensures forall i :: 0 <= i < |items| ==> r[i] == Normal(items[i])
    decreases items, 0
  {
    if items == [] then [] else [Normal(items[0])] + NormalItems(items[1..])
  }

  function NormalPair(p: Pair): Pair
    decreases p, 0
  {
    Pair(Normal(p.key), Normal(p.value))
  }

  function NormalPairs(pairs: seq<Pair>): (r: seq<Pair>)
    ensures |r| == |pairs|
    ensures forall i :: 0 <= i < |pairs| ==> r[i] == NormalPair(pairs[i])
    decreases pairs, 0
  {
    if pairs == [] then [] else [NormalPair(pairs[0])] + NormalPairs(pairs[1..])
  }
}
