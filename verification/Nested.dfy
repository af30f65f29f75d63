/**
 The nested decoder: one message per value, children inside their parents. It is the
 reference meaning of a value on the wire.
 */
module Nested {
  import opened Common
  import opened Wire
  import opened Values

  // ---------------------------------------------------------------------------
  // Kinds without children

  function DecodeBigInt(data: Bytes): Result<Value>
  {
    var p := Parse(data);
    if !p.ok then Err
    else
      var n: int := FromBigEndian(BytesOf(p.fields, 2));
      Ok(BigInt(if VarintOf(p.fields, 1) != 0 then -n else n))
  }

  function Fixed64Of(fs: seq<Field>, tag: nat): U64
  {
    match LastField(fs, tag)
    case None => 0
    case Some(f) => f.fixed64
  }

  predicate PartsAreFixed64(fs: seq<Field>)
  {
    forall i :: 0 <= i < |fs| && (fs[i].tag == 1 || fs[i].tag == 2) ==> fs[i].typ.Fixed64?
  }

  function DecodeComplex(data: Bytes): Result<Value>
  {
    var p := Parse(data);
    if !p.ok || !PartsAreFixed64(p.fields) || LastField(p.fields, 1).None? || LastField(p.fields, 2).None? then Err
    else Ok(Complex(Fixed64Of(p.fields, 1), Fixed64Of(p.fields, 2)))
  }

  function DecodeDate(data: Bytes): Value
  {
    var fs := Parse(data).fields;
    Date(ToI32(VarintOf(fs, 1)), ToI64(VarintOf(fs, 2)), ToI64(VarintOf(fs, 3)))
  }

  function TimeOf(fs: seq<Field>): Value
  {
    Time(ToI64(VarintOf(fs, 1)), ToI64(VarintOf(fs, 2)), ToI64(VarintOf(fs, 3)), ToI64(VarintOf(fs, 4)),
         OptInt32Of(fs, 5), OptBytesOf(fs, 6), ToI64(VarintOf(fs, 7)))
  }

  function DateTimeOf(fs: seq<Field>): Value
  {
    DateTime(ToI32(VarintOf(fs, 1)), ToI64(VarintOf(fs, 2)), ToI64(VarintOf(fs, 3)),
             ToI64(VarintOf(fs, 4)), ToI64(VarintOf(fs, 5)), ToI64(VarintOf(fs, 6)), ToI64(VarintOf(fs, 7)),
             OptInt32Of(fs, 8), OptBytesOf(fs, 9))
  }

  function DecodeTimeDelta(data: Bytes): Value
  {
    var fs := Parse(data).fields;
    TimeDelta(ToI32(VarintOf(fs, 1)), ToI32(VarintOf(fs, 2)), ToI32(VarintOf(fs, 3)))
  }

  function DecodeTimeZone(data: Bytes): Value
  {
    var fs := Parse(data).fields;
    TimeZone(ToI32(VarintOf(fs, 1)), OptBytesOf(fs, 2))
  }

  function DecodeException(data: Bytes): Value
  {
    var fs := Parse(data).fields;
    Exception(BytesOf(fs, 1), BytesOf(fs, 2))
  }

  function DecodeFileHandle(data: Bytes): Value
  {
    var fs := Parse(data).fields;
    FileHandle(BytesOf(fs, 1), BytesOf(fs, 2), VarintOf(fs, 3))
  }

  function DecodeFunction(data: Bytes): Value
  {
    var fs := Parse(data).fields;
    Function(BytesOf(fs, 1), OptBytesOf(fs, 2))
  }

  function DecodeCycle(data: Bytes): Value
  {
    var fs := Parse(data).fields;
    Cycle(VarintOf(fs, 1), BytesOf(fs, 2))
  }

  /** Several of these ignore a malformed tail and keep what was read before it. */
  function DecodeScalar(f: Field): Result<Value>
  {
    if f.tag == 1 then Ok(Ellipsis)
    else if f.tag == 2 then Ok(NoneVal)
    else if f.tag == 3 then Ok(NotImplemented)
    else if f.tag == 4 then Ok(Bool(f.varint != 0))
    else if f.tag == 5 then Ok(Int(DecodeZigZag(f.varint)))
    else if f.tag == 6 then DecodeBigInt(f.bytes)
    else if f.tag == 7 then Ok(Float(f.fixed64))
    else if f.tag == 8 then Ok(Str(f.bytes))
    else if f.tag == 9 then Ok(BytesVal(f.bytes))
    else if f.tag == 17 then Ok(DecodeDate(f.bytes))
    else if f.tag == 18 then Ok(TimeOf(Parse(f.bytes).fields))
    else if f.tag == 19 then Ok(DateTimeOf(Parse(f.bytes).fields))
    else if f.tag == 20 then Ok(DecodeTimeDelta(f.bytes))
    else if f.tag == 21 then Ok(DecodeTimeZone(f.bytes))
    else if f.tag == 22 then Ok(DecodeException(f.bytes))
    else if f.tag == 25 then Ok(DecodeFunction(f.bytes))
    else if f.tag == 26 then Ok(BuiltinFunction(f.bytes))
    else if f.tag == 27 then Ok(Path(f.bytes))
    else if f.tag == 28 then Ok(DecodeFileHandle(f.bytes))
    else if f.tag == 29 then Ok(Repr(f.bytes))
    else if f.tag == 30 then Ok(DecodeCycle(f.bytes))
    else if f.tag == 31 then DecodeComplex(f.bytes)
    else Err
  }

  function SeqKindOf(tag: nat): Option<SeqKind>
  {
    if tag == 11 then Some(List)
    else if tag == 12 then Some(Tuple)
    else if tag == 15 then Some(Set)
    else if tag == 16 then Some(FrozenSet)
    else None
  }

  /** Every identity present must be 16 bytes; the last one counts. */
  function DecodeUuid(data: Bytes): (r: Result<Uuid>)
  {
    var p := Parse(data);
    if p.ok && LastField(p.fields, 1).Some?
       && (forall i :: 0 <= i < |p.fields| && p.fields[i].tag == 1 ==> |p.fields[i].bytes| == 16)
    then
      LastFieldIn(p.fields, 1);
      Ok(BytesOf(p.fields, 1))
    else Err
  }

  lemma {:induction false} LastFieldIn(fs: seq<Field>, tag: nat)
    ensures LastField(fs, tag).Some? ==> LastField(fs, tag).value in fs && LastField(fs, tag).value.tag == tag
  {
    if fs != [] {
      LastFieldIn(fs[..|fs| - 1], tag);
    }
  }

  /** A module without its attributes: all three fields must be messages, none repeated. */
  datatype ModuleParts = ModuleParts(name: Bytes, id: Uuid, attrs: Bytes)

  predicate ModuleFieldsUnique(fs: seq<Field>)
  {
    && (forall i :: 0 <= i < |fs| && 1 <= fs[i].tag <= 3 ==> fs[i].typ.Len?)
    && (forall i, j :: 0 <= i < j < |fs| && 1 <= fs[i].tag <= 3 ==> fs[i].tag != fs[j].tag)
  }

  function ModulePartsOf(data: Bytes): (r: Result<ModuleParts>)
    ensures r.Ok? ==> |r.value.attrs| < |data|
  {
    var p := Parse(data);
    if !p.ok || !ModuleFieldsUnique(p.fields) || LastField(p.fields, 2).None? || LastField(p.fields, 3).None? then Err
    else
      match DecodeUuid(BytesOf(p.fields, 2))
      case Err => Err
      case Ok(id) =>
        LastFieldIn(p.fields, 3);
        Ok(ModuleParts(BytesOf(p.fields, 1), id, BytesOf(p.fields, 3)))
  }

  // ---------------------------------------------------------------------------
  // The recursive decoder

  function DecodeValue(data: Bytes): (r: Result<Value>)
    decreases |data|, 0, 0
  {
    var p := Parse(data);
    if !p.ok || |p.fields| != 1 then Err else DecodeKind(p.fields[0])
  }

  function DecodeKind(f: Field): (r: Result<Value>)
    decreases |f.bytes|, 3, 0
  {
    if SeqKindOf(f.tag).Some? then
      match DecodeObjectList(f.bytes)
      case Err => Err
      case Ok(items) => Ok(Seq(SeqKindOf(f.tag).value, items))
    else if f.tag == 13 then
      var p := Parse(f.bytes);
      if !p.ok then Err
      else
        match DecodeItems(p.fields, 3, |f.bytes|)
        case Err => Err
        case Ok(values) => Ok(NamedTuple(BytesOf(p.fields, 1), AllBytesOf(p.fields, 2), values))
    else if f.tag == 14 then
      match DecodeDict(f.bytes)
      case Err => Err
      case Ok(pairs) => Ok(Dict(pairs))
    else if f.tag == 23 then
      match DecodeClass(f.bytes)
      case Err => Err
      case Ok(c) => Ok(if c.origin == 1 then Type(c.name) else ClassType(c))
    else if f.tag == 24 then DecodeInstance(f.bytes)
    else if f.tag == 32 then
      match ModulePartsOf(f.bytes)
      case Err => Err
      case Ok(m) =>
        match DecodeDict(m.attrs)
        case Err => Err
        case Ok(attrs) => Ok(Module(m.name, m.id, attrs))
    else DecodeScalar(f)
  }

  function DecodeObjectList(data: Bytes): (r: Result<seq<Value>>)
    decreases |data|, 1, 0
  {
    var p := Parse(data);
    if !p.ok then Err else DecodeItems(p.fields, 1, |data|)
  }

  function DecodeItems(fs: seq<Field>, tag: nat, n: nat): (r: Result<seq<Value>>)
    requires Below(fs, n)
    decreases n, 0, |fs|
  {
    if fs == [] then Ok([])
    else if fs[0].tag != tag then DecodeItems(fs[1..], tag, n)
    else
      match DecodeValue(fs[0].bytes)
      case Err => Err
      case Ok(v) =>
        match DecodeItems(fs[1..], tag, n)
        case Err => Err
        case Ok(vs) => Ok([v] + vs)
  }

  function DecodeDict(data: Bytes): (r: Result<seq<Pair>>)
    decreases |data|, 1, 0
  {
    var p := Parse(data);
    if !p.ok then Err else DecodePairs(p.fields, |data|)
  }

  function DecodePairs(fs: seq<Field>, n: nat): (r: Result<seq<Pair>>)
    requires Below(fs, n)
    decreases n, 0, |fs|
  {
    if fs == [] then Ok([])
    else if fs[0].tag != 1 then DecodePairs(fs[1..], n)
    else
      match DecodePair(fs[0].bytes)
      case Err => Err
      case Ok(pair) =>
        match DecodePairs(fs[1..], n)
        case Err => Err
        case Ok(pairs) => Ok([pair] + pairs)
  }

  function DecodePair(data: Bytes): (r: Result<Pair>)
    decreases |data|, 1, 0
  {
    var p := Parse(data);
    if !p.ok then Err else DecodePairParts(p.fields, Pair(NoneVal, NoneVal), |data|)
  }

  function DecodePairParts(fs: seq<Field>, pair: Pair, n: nat): (r: Result<Pair>)
    requires Below(fs, n)
    decreases n, 0, |fs|
  {
    if fs == [] then Ok(pair)
    else
      match DecodeValue(fs[0].bytes)
      case Err => Err
      case Ok(v) =>
        var next := if fs[0].tag == 1 then pair.(key := v) else if fs[0].tag == 2 then pair.(value := v) else pair;
        DecodePairParts(fs[1..], next, n)
  }

  /** Every attribute field must decode; the last one counts. */
  function DecodeLastDict(fs: seq<Field>, tag: nat, last: seq<Pair>, n: nat): (r: Result<seq<Pair>>)
    requires Below(fs, n)
    decreases n, 0, |fs|
  {
    if fs == [] then Ok(last)
    else if fs[0].tag != tag then DecodeLastDict(fs[1..], tag, last, n)
    else
      match DecodeDict(fs[0].bytes)
      case Err => Err
      case Ok(pairs) => DecodeLastDict(fs[1..], tag, pairs, n)
  }

  predicate UuidsDecode(fs: seq<Field>, tag: nat)
  {
    forall i :: 0 <= i < |fs| && fs[i].tag == tag ==> DecodeUuid(fs[i].bytes).Ok?
  }

  function UuidOf(fs: seq<Field>, tag: nat): Uuid
  {
    match DecodeUuid(BytesOf(fs, tag))
    case Err => [0, 0, 0, 0, 0, 0, 0, 0, 0, 0, 0, 0, 0, 0, 0, 0]
    case Ok(id) => id
  }

  function DecodeClass(data: Bytes): (r: Result<Class>)
    decreases |data|, 2, 0
  {
    var p := Parse(data);
    var fs := p.fields;
    if !p.ok || !UuidsDecode(fs, 2) then Err
    else
      match DecodeLastDict(fs, 5, [], |data|)
      case Err => Err
      case Ok(attrs) =>
        var origin := VarintOf(fs, 3) % TWO32;
        if origin < 1 || origin > 3 || LastField(fs, 2).Some? != (origin != 1) then Err
        else Ok(Class(BytesOf(fs, 1), UuidOf(fs, 2), origin, VarintOf(fs, 4) != 0, attrs))
  }

  function DecodeLastClass(fs: seq<Field>, last: Result<Class>, n: nat): (r: Result<Class>)
    requires Below(fs, n)
    decreases n, 0, |fs|
  {
    if fs == [] then last
    else if fs[0].tag != 1 then DecodeLastClass(fs[1..], last, n)
    else
      match DecodeClass(fs[0].bytes)
      case Err => Err
      case Ok(c) => DecodeLastClass(fs[1..], Ok(c), n)
  }

  function DecodeInstance(data: Bytes): (r: Result<Value>)
    decreases |data|, 2, 0
  {
    var p := Parse(data);
    var fs := p.fields;
    if !p.ok || !UuidsDecode(fs, 2) || LastField(fs, 2).None? then Err
    else
      match DecodeLastClass(fs, Err, |data|)
      case Err => Err
      case Ok(c) =>
        if c.origin == 1 then Err
        else
          match DecodeLastDict(fs, 3, [], |data|)
          case Err => Err
          case Ok(attrs) => Ok(ClassInstance(c, UuidOf(fs, 2), attrs))
  }

  // ---------------------------------------------------------------------------
  // Round trip

  lemma {:induction false} BigEndianRoundTrip(n: nat)
    ensures FromBigEndian(BigEndian(n)) == n
  {
    if n != 0 {
      BigEndianRoundTrip(n / 256);
      var b := BigEndian(n);
      assert b[..|b| - 1] == BigEndian(n / 256);
    }
  }

  lemma BigIntRoundTrip(z: int)
    requires |ScalarField(BigInt(z)).bytes| < TWO64
    ensures DecodeScalar(ScalarField(BigInt(z))) == Ok(BigInt(z))
  {
    hide Parse, Write, LastField;
    var n := if z < 0 then -z else z;
    var fs := [VarintField(1, if z < 0 then 1 else 0), LenField(2, BigEndian(n))];
    ParseMessage(fs);
    LastFieldIncreasing(fs);
    BigEndianRoundTrip(n);
    assert LastField(fs, fs[0].tag) == Some(fs[0]);
    assert LastField(fs, fs[1].tag) == Some(fs[1]);
  }

  lemma ComplexRoundTrip(v: Value)
    requires v.Complex? && |ScalarField(v).bytes| < TWO64
    ensures DecodeScalar(ScalarField(v)) == Ok(v)
  {
    hide Parse, Write, LastField;
    var fs := [Fixed64Field(1, v.re), Fixed64Field(2, v.im)];
    ParseMessage(fs);
    LastFieldIncreasing(fs);
    assert LastField(fs, fs[0].tag) == Some(fs[0]);
    assert LastField(fs, fs[1].tag) == Some(fs[1]);
  }

  lemma VarintAt(fs: seq<Field>, i: nat, tag: nat, x: I64)
    requires Increasing(fs) && i < |fs| && fs[i] == VarintField(tag, ToU64(x))
    ensures VarintOf(fs, tag) == ToU64(x) && ToI64(VarintOf(fs, tag)) == x
    ensures ToI32(VarintOf(fs, tag)) == Trunc32(x)
  {
    hide LastField;
    LastFieldAt(fs, i, tag);
  }

  lemma OptInt32At(fs: seq<Field>, i: nat, tag: nat, x: Option<I64>)
    requires Increasing(fs) && i <= |fs| && OptVarint(tag, x) <= fs[i..]
    requires x.None? ==> forall k :: 0 <= k < |fs| ==> fs[k].tag != tag
    ensures OptInt32Of(fs, tag) == Trunc32Opt(x)
  {
    hide LastField;
    if x.Some? {
      assert fs[i] == fs[i..][0] == VarintField(tag, ToU64(x.value));
      LastFieldAt(fs, i, tag);
    } else {
      LastFieldAbsent(fs, tag);
    }
  }

  lemma OptBytesAt(fs: seq<Field>, i: nat, tag: nat, x: Option<Bytes>)
    requires Increasing(fs) && i <= |fs| && OptBytes(tag, x) <= fs[i..]
    requires x.None? ==> forall k :: 0 <= k < |fs| ==> fs[k].tag != tag
    ensures OptBytesOf(fs, tag) == x
  {
    hide LastField;
    if x.Some? {
      assert fs[i] == fs[i..][0] == LenField(tag, x.value);
      LastFieldAt(fs, i, tag);
    } else {
      LastFieldAbsent(fs, tag);
    }
  }

  lemma TimeLayout(v: Value)
    requires v.Time?
    ensures
      var fs := TimeFields(v);
      var k := 4 + |OptVarint(5, v.offset)|;
      && AllShaped(fs) && Increasing(fs) && |fs| == k + |OptBytes(6, v.zone)| + 1
      && fs[0] == VarintField(1, ToU64(v.hour)) && fs[1] == VarintField(2, ToU64(v.minute))
      && fs[2] == VarintField(3, ToU64(v.second)) && fs[3] == VarintField(4, ToU64(v.micro))
      && OptVarint(5, v.offset) <= fs[4..] && OptBytes(6, v.zone) <= fs[k..]
      && fs[|fs| - 1] == VarintField(7, ToU64(v.fold))
      && (v.offset.None? ==> forall i :: 0 <= i < |fs| ==> fs[i].tag != 5)
      && (v.zone.None? ==> forall i :: 0 <= i < |fs| ==> fs[i].tag != 6)
  {
    hide ToU64;
  }

  lemma TimeFieldsByTag(v: Value)
    requires v.Time?
    ensures AllShaped(TimeFields(v))
    ensures TimeOf(TimeFields(v)) == Normal(v)
  {
    TimeLayout(v);
    hide TimeFields, VarintOf, OptInt32Of, OptBytesOf, AllShaped, Increasing, OptVarint, OptBytes, ToU64, ToI64, ToI32,
      Trunc32, Trunc32Opt;
    var fs := TimeFields(v);
    VarintAt(fs, 0, 1, v.hour);
    VarintAt(fs, 1, 2, v.minute);
    VarintAt(fs, 2, 3, v.second);
    VarintAt(fs, 3, 4, v.micro);
    OptInt32At(fs, 4, 5, v.offset);
    OptBytesAt(fs, 4 + |OptVarint(5, v.offset)|, 6, v.zone);
    VarintAt(fs, |fs| - 1, 7, v.fold);
  }

  lemma TimeRoundTrip(v: Value)
    requires v.Time? && |ScalarField(v).bytes| < TWO64
    ensures Parse(ScalarField(v).bytes).ok
    ensures TimeOf(Parse(ScalarField(v).bytes).fields) == Normal(v)
  {
    hide Parse, Write, TimeFields, TimeOf;
    TimeFieldsByTag(v);
    ParseMessage(TimeFields(v));
  }

  lemma DateTimeLayout(v: Value)
    requires v.DateTime?
    ensures
      var fs := DateTimeFields(v);
      var k := 7 + |OptVarint(8, v.offset)|;
      && AllShaped(fs) && Increasing(fs) && |fs| == k + |OptBytes(9, v.zone)|
      && fs[0] == VarintField(1, ToU64(v.year)) && fs[1] == VarintField(2, ToU64(v.month))
      && fs[2] == VarintField(3, ToU64(v.day)) && fs[3] == VarintField(4, ToU64(v.hour))
      && fs[4] == VarintField(5, ToU64(v.minute)) && fs[5] == VarintField(6, ToU64(v.second))
      && fs[6] == VarintField(7, ToU64(v.micro))
      && OptVarint(8, v.offset) <= fs[7..] && OptBytes(9, v.zone) <= fs[k..]
      && (v.offset.None? ==> forall i :: 0 <= i < |fs| ==> fs[i].tag != 8)
      && (v.zone.None? ==> forall i :: 0 <= i < |fs| ==> fs[i].tag != 9)
  {
    hide ToU64;
  }

  lemma DateTimeFieldsByTag(v: Value)
    requires v.DateTime?
    ensures AllShaped(DateTimeFields(v))
    ensures DateTimeOf(DateTimeFields(v)) == Normal(v)
  {
    DateTimeLayout(v);
    hide DateTimeFields, VarintOf, OptInt32Of, OptBytesOf, AllShaped, Increasing, OptVarint, OptBytes, ToU64, ToI64,
      ToI32, Trunc32, Trunc32Opt;
    var fs := DateTimeFields(v);
    VarintAt(fs, 0, 1, v.year);
    VarintAt(fs, 1, 2, v.month);
    VarintAt(fs, 2, 3, v.day);
    VarintAt(fs, 3, 4, v.hour);
    VarintAt(fs, 4, 5, v.minute);
    VarintAt(fs, 5, 6, v.second);
    VarintAt(fs, 6, 7, v.micro);
    OptInt32At(fs, 7, 8, v.offset);
    OptBytesAt(fs, 7 + |OptVarint(8, v.offset)|, 9, v.zone);
  }

  lemma DateTimeRoundTrip(v: Value)
    requires v.DateTime? && |ScalarField(v).bytes| < TWO64
    ensures DecodeScalar(ScalarField(v)) == Ok(Normal(v))
  {
    hide Parse, Write, DateTimeFields, DateTimeOf;
    DateTimeFieldsByTag(v);
    ParseMessage(DateTimeFields(v));
  }

  lemma DateRoundTrip(v: Value)
    requires v.Date? && |ScalarField(v).bytes| < TWO64
    ensures DecodeScalar(ScalarField(v)) == Ok(Normal(v))
  {
    hide Parse, Write, LastField;
    var fs := DateFields(v.year, v.month, v.day);
    ParseMessage(fs);
    assert Increasing(fs);
    LastFieldAt(fs, 0, 1);
    LastFieldAt(fs, 1, 2);
    LastFieldAt(fs, 2, 3);
  }

  lemma TimeDeltaRoundTrip(v: Value)
    requires v.TimeDelta? && |ScalarField(v).bytes| < TWO64
    ensures DecodeScalar(ScalarField(v)) == Ok(Normal(v))
  {
    hide Parse, Write, LastField;
    var fs := [VarintField(1, ToU64(v.days)), VarintField(2, ToU64(v.seconds)), VarintField(3, ToU64(v.micros))];
    ParseMessage(fs);
    assert Increasing(fs);
    LastFieldAt(fs, 0, 1);
    LastFieldAt(fs, 1, 2);
    LastFieldAt(fs, 2, 3);
  }

  lemma TimeZoneRoundTrip(v: Value)
    requires v.TimeZone? && |ScalarField(v).bytes| < TWO64
    ensures DecodeScalar(ScalarField(v)) == Ok(Normal(v))
  {
    hide Parse, Write, LastField;
    var fs := [VarintField(1, ToU64(v.seconds))] + OptBytes(2, v.zone);
    ParseMessage(fs);
    assert Increasing(fs);
    LastFieldAt(fs, 0, 1);
    if v.zone.Some? { LastFieldAt(fs, 1, 2); } else { LastFieldAbsent(fs, 2); }
  }

  lemma ExceptionRoundTrip(v: Value)
    requires v.Exception? && |ScalarField(v).bytes| < TWO64
    ensures DecodeScalar(ScalarField(v)) == Ok(v)
  {
    hide Parse, Write, LastField;
    var fs := [LenField(1, v.typeName)] + (if v.message == [] then [] else [LenField(2, v.message)]);
    ParseMessage(fs);
    assert Increasing(fs);
    LastFieldAt(fs, 0, 1);
    if v.message != [] { LastFieldAt(fs, 1, 2); } else { LastFieldAbsent(fs, 2); }
  }

  lemma FileHandleRoundTrip(v: Value)
    requires v.FileHandle? && |ScalarField(v).bytes| < TWO64
    ensures DecodeScalar(ScalarField(v)) == Ok(v)
  {
    hide Parse, Write, LastField;
    var fs := [LenField(1, v.path), LenField(2, v.mode), VarintField(3, v.position)];
    ParseMessage(fs);
    assert Increasing(fs);
    LastFieldAt(fs, 0, 1);
    LastFieldAt(fs, 1, 2);
    LastFieldAt(fs, 2, 3);
  }

  lemma FunctionRoundTrip(v: Value)
    requires v.Function? && |ScalarField(v).bytes| < TWO64
    ensures DecodeScalar(ScalarField(v)) == Ok(v)
  {
    hide Parse, Write, LastField;
    var fs := [LenField(1, v.name)] + OptBytes(2, v.doc);
    ParseMessage(fs);
    assert Increasing(fs);
    LastFieldAt(fs, 0, 1);
    if v.doc.Some? { LastFieldAt(fs, 1, 2); } else { LastFieldAbsent(fs, 2); }
  }

  lemma TypeRoundTrip(name: Bytes)
    requires |ScalarField(Type(name)).bytes| < TWO64
    ensures DecodeKind(ScalarField(Type(name))) == Ok(Type(name))
  {
    hide Parse, Write, LastField;
    var fs := [LenField(1, name), VarintField(3, 1)];
    ParseMessage(fs);
    LastFieldIncreasing(fs);
    assert LastField(fs, fs[0].tag) == Some(fs[0]);
    assert LastField(fs, fs[1].tag) == Some(fs[1]);
    assert DecodeLastDict(fs, 5, [], |Write(fs)|) == DecodeLastDict(fs[1..], 5, [], |Write(fs)|) == Ok([]);
  }

  predicate HasChildren(tag: nat)
  {
    11 <= tag <= 16 || tag == 23 || tag == 24 || tag == 32
  }

  lemma DecodeKindOfScalar(f: Field)
    requires !HasChildren(f.tag)
    ensures DecodeKind(f) == DecodeScalar(f)
  {
    hide DecodeScalar, Parse, DecodeItems, DecodeDict, DecodeClass, ModulePartsOf;
  }

  /** Kinds whose payload is the field itself. */
  predicate Plain(v: Value)
  {
    v.NoneVal? || v.Ellipsis? || v.NotImplemented? || v.Bool? || v.Int? || v.Float? || v.Str? || v.BytesVal?
    || v.BuiltinFunction? || v.Path?
  }

  lemma PlainRoundTrip(v: Value)
    requires Plain(v)
    ensures DecodeScalar(ScalarField(v)) == Ok(Normal(v))
  {
    hide Write, DecodeBigInt, DecodeComplex, TimeOf, DateTimeOf, DecodeDate, DecodeTimeDelta, DecodeTimeZone,
      DecodeException, DecodeFileHandle, DecodeFunction, DecodeCycle;
    if v.Int? {
      ZigZagRoundTrip(v.i, 0);
    }
  }

  lemma ScalarTags(v: Value)
    requires Encodable(v) && !IsContainer(v)
    ensures v.Type? <==> ScalarField(v).tag == 23
    ensures !v.Type? ==> !HasChildren(ScalarField(v).tag)
  {
    hide Write, TimeFields, DateTimeFields, DateFields, BigEndian;
  }

  predicate IsCalendar(v: Value)
  {
    v.Time? || v.DateTime? || v.Date? || v.TimeDelta? || v.TimeZone?
  }

  /** Each kind's round trip, before looking at how the tag dispatches. */
  lemma PayloadRoundTrip(v: Value)
    requires Encodable(v) && !IsContainer(v) && !v.Type?
    requires |ScalarField(v).bytes| < TWO64
    ensures DecodeScalar(ScalarField(v)) == Ok(Normal(v))
  {
    hide DecodeScalar, ScalarField;
    if IsCalendar(v) {
      CalendarRoundTrip(v);
    } else {
      KeptRoundTrip(v);
    }
  }

  lemma CalendarRoundTrip(v: Value)
    requires IsCalendar(v) && |ScalarField(v).bytes| < TWO64
    ensures DecodeScalar(ScalarField(v)) == Ok(Normal(v))
  {
    hide DecodeScalar, ScalarField, Normal;
    match v {
      case Time(_, _, _, _, _, _, _) => TimePayload(v);
      case DateTime(_, _, _, _, _, _, _, _, _) => DateTimeRoundTrip(v);
      case Date(_, _, _) => DateRoundTrip(v);
      case TimeDelta(_, _, _) => TimeDeltaRoundTrip(v);
      case TimeZone(_, _) => TimeZoneRoundTrip(v);
    }
  }

  lemma KeptRoundTrip(v: Value)
    requires Encodable(v) && !IsContainer(v) && !v.Type? && !IsCalendar(v)
    requires |ScalarField(v).bytes| < TWO64
    ensures DecodeScalar(ScalarField(v)) == Ok(Normal(v))
  {
    hide DecodeScalar, ScalarField;
    if Plain(v) {
      PlainRoundTrip(v);
    } else {
      match v {
        case BigInt(z) => BigIntRoundTrip(z);
        case Complex(_, _) => ComplexRoundTrip(v);
        case Exception(_, _) => ExceptionRoundTrip(v);
        case FileHandle(_, _, _) => FileHandleRoundTrip(v);
        case Function(_, _) => FunctionRoundTrip(v);
      }
    }
  }

  lemma TimePayload(v: Value)
    requires v.Time? && |ScalarField(v).bytes| < TWO64
    ensures DecodeScalar(ScalarField(v)) == Ok(Normal(v))
  {
    hide Parse, Write, TimeFields, TimeOf, Normal;
    TimeRoundTrip(v);
  }

  lemma ScalarRoundTrip(v: Value)
    requires Encodable(v) && !IsContainer(v)
    requires |ScalarField(v).bytes| < TWO64
    ensures DecodeKind(ScalarField(v)) == Ok(Normal(v))
  {
    hide DecodeKind, DecodeScalar, ScalarField;
    ScalarTags(v);
    if v.Type? {
      TypeRoundTrip(v.name);
    } else {
      PayloadRoundTrip(v);
      DecodeKindOfScalar(ScalarField(v));
    }
  }

  lemma {:induction false} DecodeItemsSkip(fs: seq<Field>, gs: seq<Field>, tag: nat, n: nat)
    requires Below(fs + gs, n) && Below(gs, n)
    requires forall i :: 0 <= i < |fs| ==> fs[i].tag != tag
    ensures DecodeItems(fs + gs, tag, n) == DecodeItems(gs, tag, n)
  {
    hide DecodeValue;
    if fs == [] {
      assert fs + gs == gs;
    } else {
      assert (fs + gs)[1..] == fs[1..] + gs;
      DecodeItemsSkip(fs[1..], gs, tag, n);
    }
  }

  lemma {:induction false} ItemsRoundTrip(tag: nat, items: seq<Value>, n: nat)
    requires AllEncodable(items)
    requires Below(ItemFields(tag, items), n)
    requires n <= TWO64
    ensures DecodeItems(ItemFields(tag, items), tag, n) == Ok(NormalItems(items))
    decreases items, 0
  {
    hide DecodeValue, EncodeValue, Encodable, Normal;
    if items != [] {
      var fs := ItemFields(tag, items);
      assert fs[0] == LenField(tag, EncodeValue(items[0]));
      assert fs[1..] == ItemFields(tag, items[1..]);
      NestedRoundTrip(items[0]);
      ItemsRoundTrip(tag, items[1..], n);
    }
  }

  lemma {:induction false} PairRoundTrip(p: Pair)
    requires Encodable(p.key) && Encodable(p.value)
    requires |PairBody(p)| < TWO64
    ensures DecodePair(PairBody(p)) == Ok(NormalPair(p))
    decreases p, 0
  {
    hide DecodeValue, EncodeValue, Encodable, Normal, Parse, Write;
    var fs := [LenField(1, EncodeValue(p.key)), LenField(2, EncodeValue(p.value))];
    ParseMessage(fs);
    WriteLength(fs, 0);
    WriteLength(fs, 1);
    NestedRoundTrip(p.key);
    NestedRoundTrip(p.value);
    var n := |PairBody(p)|;
    var half := Pair(Normal(p.key), NoneVal);
    assert DecodePairParts(fs, Pair(NoneVal, NoneVal), n) == DecodePairParts(fs[1..], half, n);
    assert DecodePairParts(fs[1..], half, n) == DecodePairParts(fs[1..][1..], NormalPair(p), n);
  }

  lemma {:induction false} PairsRoundTrip(pairs: seq<Pair>, n: nat)
    requires PairsEncodable(pairs)
    requires Below(PairFields(pairs), n)
    requires n <= TWO64
    ensures DecodePairs(PairFields(pairs), n) == Ok(NormalPairs(pairs))
    decreases pairs, 0
  {
    hide DecodePair, PairBody, Encodable, NormalPair;
    if pairs != [] {
      var fs := PairFields(pairs);
      assert fs[0] == LenField(1, PairBody(pairs[0]));
      assert fs[1..] == PairFields(pairs[1..]);
      PairRoundTrip(pairs[0]);
      PairsRoundTrip(pairs[1..], n);
    }
  }

  lemma {:induction false} DictRoundTrip(pairs: seq<Pair>)
    requires PairsEncodable(pairs)
    requires |Write(PairFields(pairs))| < TWO64
    ensures DecodeDict(Write(PairFields(pairs))) == Ok(NormalPairs(pairs))
    decreases pairs, 1
  {
    hide Parse, Write, DecodePairs, PairFields, NormalPairs;
    PairFieldsAt(pairs);
    ParseMessage(PairFields(pairs));
    PairsRoundTrip(pairs, |Write(PairFields(pairs))|);
  }

  function NamedFields(t: Bytes, names: seq<Bytes>, last: seq<Field>): seq<Field>
  {
    [LenField(1, t)] + NameFields(names) + last
  }

  /** Reading back the parts of a named tuple, whatever its value fields hold. */
  lemma NamedFieldsByTag(t: Bytes, names: seq<Bytes>, last: seq<Field>)
    requires forall i :: 0 <= i < |last| ==> last[i].tag == 3
    ensures BytesOf(NamedFields(t, names, last), 1) == t
    ensures AllBytesOf(NamedFields(t, names, last), 2) == names
  {
    hide NameFields;
    NameFieldsAt(names);
    var head := [LenField(1, t)];
    LastFieldSkip(head + NameFields(names), last, 1);
    LastFieldSkip(head, NameFields(names), 1);
    AllBytesConcat(head + NameFields(names), last, 2);
    AllBytesConcat(head, NameFields(names), 2);
    AllBytesAbsent(last, 2);
    AllBytesAbsent(head, 2);
  }

  lemma {:induction false} ListRoundTrip(items: seq<Value>)
    requires AllEncodable(items)
    requires |Write(ItemFields(1, items))| < TWO64
    ensures DecodeObjectList(Write(ItemFields(1, items))) == Ok(NormalItems(items))
    decreases items, 1
  {
    hide Parse, Write, ItemFields, NormalItems, DecodeItems;
    ItemFieldsAt(1, items);
    ParseMessage(ItemFields(1, items));
    ItemsRoundTrip(1, items, |Write(ItemFields(1, items))|);
  }

  /** What the fields of a named tuple's message hold. */
  lemma {:induction false} NamedTupleParts(typeName: Bytes, names: seq<Bytes>, values: seq<Value>)
    requires AllEncodable(values)
    requires |Write(NamedFields(typeName, names, ItemFields(3, values)))| < TWO64
    ensures
      var body := Write(NamedFields(typeName, names, ItemFields(3, values)));
      var p := Parse(body);
      && p.ok && BytesOf(p.fields, 1) == typeName && AllBytesOf(p.fields, 2) == names
      && Below(p.fields, |body|) && DecodeItems(p.fields, 3, |body|) == Ok(NormalItems(values))
    decreases values, 1
  {
    hide Parse, Write, BytesOf, AllBytesOf, NameFields, ItemFields, NormalItems, DecodeItems;
    var last := ItemFields(3, values);
    var head := [LenField(1, typeName)] + NameFields(names);
    ItemFieldsAt(3, values);
    NameFieldsAt(names);
    assert NamedFields(typeName, names, last) == head + last;
    ParseMessage(head + last);
    NamedFieldsByTag(typeName, names, last);
    var n := |Write(head + last)|;
    forall i | 0 <= i < |last| ensures |last[i].bytes| < n {
      assert last[i] == (head + last)[|head| + i];
    }
    DecodeItemsSkip(head, last, 3, n);
    ItemsRoundTrip(3, values, n);
  }

  lemma {:induction false} NamedTupleRoundTrip(v: Value)
    requires v.NamedTuple? && Encodable(v)
    requires |KindField(v).bytes| < TWO64
    ensures DecodeKind(KindField(v)) == Ok(Normal(v))
    decreases v.values, 2
  {
    hide Parse, Write, BytesOf, AllBytesOf, NameFields, ItemFields, NormalItems, DecodeItems;
    assert KindField(v) == LenField(13, Write(NamedFields(v.typeName, v.fieldNames, ItemFields(3, v.values))));
    NamedTupleParts(v.typeName, v.fieldNames, v.values);
  }

  lemma UuidRoundTrip(id: Uuid)
    ensures DecodeUuid(Write([LenField(1, id)])) == Ok(id)
  {
    hide Parse, Write, LastField;
    var fs := [LenField(1, id)];
    assert |Write(fs)| < TWO64 by {
      UuidLength(id);
    }
    ParseMessage(fs);
    LastFieldIncreasing(fs);
    assert LastField(fs, fs[0].tag) == Some(fs[0]);
  }

  lemma UuidLength(id: Uuid)
    ensures |Write([LenField(1, id)])| == 18
  {
    assert Write([LenField(1, id)]) == FieldBytes(1, id) + Write([]);
  }

  /** A module message read back up to its attribute body. */
  lemma ModulePartsRoundTrip(name: Bytes, id: Uuid, attrs: Bytes)
    requires |Write(ModuleFields(name, id, attrs))| < TWO64
    ensures ModulePartsOf(Write(ModuleFields(name, id, attrs))) == Ok(ModuleParts(name, id, attrs))
  {
    hide Parse, Write, LastField, DecodeUuid;
    var fs := ModuleFields(name, id, attrs);
    ParseMessage(fs);
    UuidRoundTrip(id);
    LastFieldIncreasing(fs);
    assert fs[0].tag == 1 && fs[1].tag == 2 && fs[2].tag == 3;
  }

  lemma {:induction false} KindRoundTrip(v: Value)
    requires Encodable(v)
    requires |KindField(v).bytes| < TWO64
    ensures DecodeKind(KindField(v)) == Ok(Normal(v))
    decreases v, 0
  {
    hide Parse, Write, ItemFields, PairFields, NormalItems, NormalPairs, DecodeItems, DecodeObjectList, DecodeDict,
      ScalarField, DecodeScalar, ModulePartsOf, DecodeClass, DecodeInstance;
    match v {
      case Seq(kind, items) =>
        ListRoundTrip(items);
      case NamedTuple(_, _, _) =>
        NamedTupleRoundTrip(v);
      case Dict(pairs) =>
        DictRoundTrip(pairs);
      case Module(name, id, attrs) =>
        var body := Write(PairFields(attrs));
        WriteLength(ModuleFields(name, id, body), 2);
        ModulePartsRoundTrip(name, id, body);
        DictRoundTrip(attrs);
      case _ =>
        ScalarRoundTrip(v);
    }
  }

  /** Encoding then decoding any encodable value yields its normal form. */
  lemma {:induction false} NestedRoundTrip(v: Value)
    requires Encodable(v)
    requires |EncodeValue(v)| < TWO64
    ensures DecodeValue(EncodeValue(v)) == Ok(Normal(v))
    decreases v, 1
  {
    hide Parse, WriteField, KindField, DecodeKind, Normal, Encodable;
    KindFieldShaped(v);
    ParseWriteField(KindField(v));
    KindRoundTrip(v);
  }

  lemma KindFieldShaped(v: Value)
    requires Encodable(v)
    ensures Shaped(KindField(v))
    ensures |KindField(v).bytes| < |EncodeValue(v)|
  {
    hide Write, ItemFields, PairFields, NameFields, ModuleFields, ScalarField;
    if !IsContainer(v) {
      ScalarFieldShaped(v);
    }
    ShapedIsLonger(KindField(v));
  }

  lemma ScalarFieldShaped(v: Value)
    requires Encodable(v) && !IsContainer(v)
    ensures Shaped(ScalarField(v))
  {
    hide Write, DateFields, TimeFields, DateTimeFields, Encodable;
  }

  lemma ShapedIsLonger(f: Field)
    requires Shaped(f)
    ensures |f.bytes| < |WriteField(f)|
  {
  }
}
