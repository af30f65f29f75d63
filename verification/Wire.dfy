/**
 The protobuf wire layer: base-128 varints, tags, fixed-width and length-delimited
 values, skipped groups, and the field-by-field parser every codec is built on.
 */
module Wire {
  import opened Common

  /** The longest frame either side sends. */
  const MAX_FRAME_LEN: int := 0x1000_0000

  // ---------------------------------------------------------------------------
  // Consumers: each either fails or returns a value and the bytes it used up.

  datatype Consumed<+T> = Bad | Got(value: T, n: nat)

  function EncodeVarint(v: nat): (b: Bytes)
    ensures |b| >= 1
  {
    if v < 128 then [v] else [v % 128 + 128] + EncodeVarint(v / 128)
  }

  /** What the digits from position k on may still add up to in a 64-bit varint. */
  function VarintCap(k: nat): (c: nat)
    requires k <= 9
    ensures c >= 2
    decreases 9 - k
  {
    if k == 9 then 2 else 128 * VarintCap(k + 1)
  }

  lemma VarintCapIs64Bits()
    ensures VarintCap(0) == TWO64
  {
    assert VarintCap(8) == 256;
    assert VarintCap(6) == 128 * 128 * 256;
    assert VarintCap(4) == 128 * 128 * VarintCap(6);
    assert VarintCap(2) == 128 * 128 * VarintCap(4);
    assert VarintCap(0) == 128 * 128 * VarintCap(2);
  }

  /** Reads digits k, k+1, ... of a varint; the tenth digit may only be 0 or 1. */
  function VarintDigits(b: Bytes, k: nat): (r: Consumed<nat>)
    requires k <= 9
    ensures r.Got? ==> 1 <= r.n <= |b| && r.value < VarintCap(k)
    decreases 9 - k
  {
    if b == [] then Bad
    else if k == 9 then (if b[0] < 2 then Got(b[0], 1) else Bad)
    else if b[0] < 128 then Got(b[0], 1)
    else
      match VarintDigits(b[1..], k + 1)
      case Bad => Bad
      case Got(v, n) => Got(b[0] - 128 + 128 * v, n + 1)
  }

  function ConsumeVarint(b: Bytes): (r: Consumed<U64>)
    ensures r.Got? ==> 1 <= r.n <= |b|
  {
    VarintCapIs64Bits();
    match VarintDigits(b, 0)
    case Bad => Bad
    case Got(v, n) => Got(v, n)
  }

  function LittleEndian(v: nat, n: nat): (b: Bytes)
    ensures |b| == n
  {
    if n == 0 then [] else [v % 256] + LittleEndian(v / 256, n - 1)
  }

  function FromLittleEndian(b: Bytes): (v: nat)
  {
    if b == [] then 0 else b[0] + 256 * FromLittleEndian(b[1..])
  }

  function Pow256(n: nat): (p: nat)
    ensures p >= 1
  {
    if n == 0 then 1 else 256 * Pow256(n - 1)
  }

  lemma {:induction false} FromLittleEndianBound(b: Bytes)
    ensures FromLittleEndian(b) < Pow256(|b|)
  {
    if b != [] {
      FromLittleEndianBound(b[1..]);
    }
  }

  lemma Pow256Of8()
    ensures Pow256(4) == TWO32
    ensures Pow256(8) == TWO64
  {
    assert Pow256(2) == 65536;
    assert Pow256(4) == 65536 * Pow256(2);
    assert Pow256(6) == 65536 * Pow256(4);
    assert Pow256(8) == 65536 * Pow256(6);
  }

  function ConsumeFixed64(b: Bytes): (r: Consumed<U64>)
    ensures r.Got? ==> r.n == 8 <= |b|
  {
    if |b| < 8 then Bad
    else
      FromLittleEndianBound(b[..8]);
      Pow256Of8();
      Got(FromLittleEndian(b[..8]), 8)
  }

  function ConsumeBytes(b: Bytes): (r: Consumed<Bytes>)
    ensures r.Got? ==> |r.value| < r.n <= |b|
  {
    match ConsumeVarint(b)
    case Bad => Bad
    case Got(m, n) => if m > |b| - n then Bad else Got(b[n..n + m], n + m)
  }

  // ---------------------------------------------------------------------------
  // Tags and groups

  datatype WireType = Varint | Fixed64 | Len | StartGroup | EndGroup | Fixed32

  function TypeCode(t: WireType): (c: nat)
    ensures c <= 5
  {
    match t
    case Varint => 0
    case Fixed64 => 1
    case Len => 2
    case StartGroup => 3
    case EndGroup => 4
    case Fixed32 => 5
  }

  function TypeOfCode(c: nat): (t: Option<WireType>)
    ensures t.Some? <==> c <= 5
    ensures t.Some? ==> TypeCode(t.value) == c
  {
    if c == 0 then Some(Varint)
    else if c == 1 then Some(Fixed64)
    else if c == 2 then Some(Len)
    else if c == 3 then Some(StartGroup)
    else if c == 4 then Some(EndGroup)
    else if c == 5 then Some(Fixed32)
    else None
  }

  predicate ValidTag(tag: int)
  {
    1 <= tag < TWO31
  }

  /** A tag with a reserved type code (6 or 7) is as fatal as a malformed one. */
  function ConsumeTag(b: Bytes): (r: Consumed<(nat, WireType)>)
    ensures r.Got? ==> 1 <= r.n <= |b| && ValidTag(r.value.0)
  {
    match ConsumeVarint(b)
    case Bad => Bad
    case Got(x, n) =>
      if x / 8 < 1 || x / 8 >= TWO31 then Bad
      else
        match TypeOfCode(x % 8)
        case None => Bad
        case Some(t) => Got((x / 8, t), n)
  }

  const GROUP_DEPTH: int := 10000

  /** Length of one value of the given type. */
  function SkipValue(num: nat, t: WireType, b: Bytes, depth: int): (r: Consumed<()>)
    ensures r.Got? ==> r.n <= |b|
    decreases |b|, 1
  {
    match t
    case Varint => (match ConsumeVarint(b) case Bad => Bad case Got(_, n) => Got((), n))
    case Fixed64 => if |b| < 8 then Bad else Got((), 8)
    case Len => (match ConsumeBytes(b) case Bad => Bad case Got(_, n) => Got((), n))
    case StartGroup => if depth < 0 then Bad else SkipGroup(num, b, depth)
    case EndGroup => Bad
    case Fixed32 => if |b| < 4 then Bad else Got((), 4)
  }

  /** Length of a group body up to and including its matching end tag. */
  function SkipGroup(num: nat, b: Bytes, depth: int): (r: Consumed<()>)
    ensures r.Got? ==> r.n <= |b|
    decreases |b|, 0
  {
    match ConsumeTag(b)
    case Bad => Bad
    case Got((num2, t2), n) =>
      if t2.EndGroup? then (if num2 == num then Got((), n) else Bad)
      else
        match SkipValue(num2, t2, b[n..], depth - 1)
        case Bad => Bad
        case Got(_, m) =>
          match SkipGroup(num, b[n + m..], depth)
          case Bad => Bad
          case Got(_, k) => Got((), n + m + k)
  }

  // ---------------------------------------------------------------------------
  // Fields

  /** A parsed field; the parts its type does not carry are zero. */
  datatype Field = Field(tag: nat, typ: WireType, varint: U64, fixed64: U64, bytes: Bytes)

  function VarintField(tag: nat, v: U64): Field { Field(tag, Varint, v, 0, []) }
  function Fixed64Field(tag: nat, v: U64): Field { Field(tag, Fixed64, 0, v, []) }
  function LenField(tag: nat, b: Bytes): Field { Field(tag, Len, 0, 0, b) }

  /** The value part of a field, after its tag. */
  function ConsumeValue(tag: nat, t: WireType, b: Bytes): (r: Consumed<Field>)
    ensures r.Got? ==> r.n <= |b| && |r.value.bytes| <= r.n && r.value.tag == tag && r.value.typ == t
  {
    match t
    case Varint => (match ConsumeVarint(b) case Bad => Bad case Got(v, n) => Got(VarintField(tag, v), n))
    case Fixed64 => (match ConsumeFixed64(b) case Bad => Bad case Got(v, n) => Got(Fixed64Field(tag, v), n))
    case Len => (match ConsumeBytes(b) case Bad => Bad case Got(v, n) => Got(LenField(tag, v), n))
    case Fixed32 => if |b| < 4 then Bad else Got(Field(tag, t, 0, 0, []), 4)
    case StartGroup =>
      (match SkipGroup(tag, b, GROUP_DEPTH) case Bad => Bad case Got(_, n) => Got(Field(tag, t, 0, 0, []), n))
    case EndGroup => Bad
  }

  function ConsumeField(b: Bytes): (r: Consumed<Field>)
    ensures r.Got? ==> 1 <= r.n <= |b| && |r.value.bytes| < |b| && ValidTag(r.value.tag)
  {
    match ConsumeTag(b)
    case Bad => Bad
    case Got((tag, t), n) =>
      match ConsumeValue(tag, t, b[n..])
      case Bad => Bad
      case Got(f, m) => Got(f, n + m)
  }

  /** The fields read before the end of the data, or before the first malformed one. */
  datatype Parsed = Parsed(fields: seq<Field>, ok: bool)

  ghost predicate Below(fields: seq<Field>, n: nat)
  {
    forall i :: 0 <= i < |fields| ==> |fields[i].bytes| < n
  }

  function Parse(data: Bytes): (p: Parsed)
    ensures Below(p.fields, |data|)
    ensures data == [] ==> p == Parsed([], true)
    decreases |data|
  {
    if data == [] then Parsed([], true)
    else
      match ConsumeField(data)
      case Bad => Parsed([], false)
      case Got(f, n) =>
        var rest := Parse(data[n..]);
        Parsed([f] + rest.fields, rest.ok)
  }

  /** The parser as the source runs it: a loop that advances through the data. */
  method ParseFields(data: Bytes) returns (fields: seq<Field>, ok: bool)
    ensures fields == Parse(data).fields && ok == Parse(data).ok
  {
    fields := [];
    var rest := data;
    while rest != []
      invariant Parse(data).fields == fields + Parse(rest).fields
      invariant Parse(data).ok == Parse(rest).ok
      decreases |rest|
    {
      var c := ConsumeField(rest);
      if c.Bad? {
        return fields, false;
      }
      assert Parse(rest).fields == [c.value] + Parse(rest[c.n..]).fields;
      fields := fields + [c.value];
      rest := rest[c.n..];
    }
    ok := true;
  }

  // ---------------------------------------------------------------------------
  // Writers

  function EncodeTag(tag: nat, t: WireType): (b: Bytes)
    ensures |b| >= 1
  {
    EncodeVarint(tag * 8 + TypeCode(t))
  }

  function FieldVarint(tag: nat, v: U64): (b: Bytes) ensures |b| >= 2
  {
    EncodeTag(tag, Varint) + EncodeVarint(v)
  }

  function FieldFixed64(tag: nat, v: U64): (b: Bytes) ensures |b| >= 2
  {
    EncodeTag(tag, Fixed64) + LittleEndian(v, 8)
  }

  function FieldBytes(tag: nat, v: Bytes): (b: Bytes) ensures |b| >= 2 + |v|
  {
    EncodeTag(tag, Len) + EncodeVarint(|v|) + v
  }

  function EncodeZigZag(x: I64): (u: U64)
  {
    if x >= 0 then 2 * x else -2 * x - 1
  }

  function DecodeZigZag(u: U64): (x: I64)
  {
    if u % 2 == 0 then u / 2 else -(u / 2) - 1
  }

  function FieldBool(tag: nat, v: bool): Bytes { FieldVarint(tag, if v then 1 else 0) }

  /** Fields a builder can write: scalar or length-delimited, unused parts zero. */
  predicate Shaped(f: Field)
  {
    ValidTag(f.tag) &&
    match f.typ
    case Varint => f.fixed64 == 0 && f.bytes == []
    case Fixed64 => f.varint == 0 && f.bytes == []
    case Len => f.varint == 0 && f.fixed64 == 0
    case _ => false
  }

  predicate Canonical(f: Field)
  {
    Shaped(f) && |f.bytes| < TWO64
  }

  /** One field as its builder writes it; anything but a scalar is length-delimited. */
  function WriteField(f: Field): (b: Bytes)
    ensures |b| >= 2
    ensures f.typ.Len? ==> |b| >= 2 + |f.bytes|
  {
    match f.typ
    case Varint => FieldVarint(f.tag, f.varint)
    case Fixed64 => FieldFixed64(f.tag, f.fixed64)
    case _ => FieldBytes(f.tag, f.bytes)
  }

  ghost predicate AllShaped(fs: seq<Field>)
  {
    forall i :: 0 <= i < |fs| ==> Shaped(fs[i])
  }

  ghost predicate AllCanonical(fs: seq<Field>)
  {
    forall i :: 0 <= i < |fs| ==> Canonical(fs[i])
  }

  function Write(fs: seq<Field>): (b: Bytes)
  {
    if fs == [] then [] else WriteField(fs[0]) + Write(fs[1..])
  }

  // ---------------------------------------------------------------------------
  // Reading a message by tag: a later field overrides an earlier one

  function LastField(fs: seq<Field>, tag: nat): (r: Option<Field>)
  {
    if fs == [] then None
    else if fs[|fs| - 1].tag == tag then Some(fs[|fs| - 1])
    else LastField(fs[..|fs| - 1], tag)
  }

  function VarintOf(fs: seq<Field>, tag: nat): U64
  {
    match LastField(fs, tag)
    case None => 0
    case Some(f) => f.varint
  }

  function BytesOf(fs: seq<Field>, tag: nat): Bytes
  {
    match LastField(fs, tag)
    case None => []
    case Some(f) => f.bytes
  }

  function OptBytesOf(fs: seq<Field>, tag: nat): Option<Bytes>
  {
    match LastField(fs, tag)
    case None => None
    case Some(f) => Some(f.bytes)
  }

  function OptInt32Of(fs: seq<Field>, tag: nat): Option<I64>
  {
    match LastField(fs, tag)
    case None => None
    case Some(f) => Some(ToI32(f.varint))
  }

  /** The bytes of every field with the tag, in order. */
  function AllBytesOf(fs: seq<Field>, tag: nat): seq<Bytes>
  {
    if fs == [] then []
    else if fs[0].tag == tag then [fs[0].bytes] + AllBytesOf(fs[1..], tag)
    else AllBytesOf(fs[1..], tag)
  }

  ghost predicate Increasing(fs: seq<Field>)
  {
    forall i, j :: 0 <= i < j < |fs| ==> fs[i].tag < fs[j].tag
  }

  /** Where tags increase, each tag names its own field and other tags name none. */
  lemma {:induction false} LastFieldIncreasing(fs: seq<Field>)
    requires Increasing(fs)
    ensures forall i :: 0 <= i < |fs| ==> LastField(fs, fs[i].tag) == Some(fs[i])
    ensures forall tag: nat :: (forall i :: 0 <= i < |fs| ==> fs[i].tag != tag) ==> LastField(fs, tag) == None
  {
    if fs != [] {
      LastFieldIncreasing(fs[..|fs| - 1]);
    }
  }

  lemma LastFieldAt(fs: seq<Field>, i: nat, tag: nat)
    requires Increasing(fs) && i < |fs| && fs[i].tag == tag
    ensures LastField(fs, tag) == Some(fs[i])
  {
    LastFieldIncreasing(fs);
  }

  lemma LastFieldAbsent(fs: seq<Field>, tag: nat)
    requires Increasing(fs)
    requires forall i :: 0 <= i < |fs| ==> fs[i].tag != tag
    ensures LastField(fs, tag) == None
  {
    LastFieldIncreasing(fs);
  }

  lemma {:induction false} LastFieldSkip(fs: seq<Field>, gs: seq<Field>, tag: nat)
    requires forall i :: 0 <= i < |gs| ==> gs[i].tag != tag
    ensures LastField(fs + gs, tag) == LastField(fs, tag)
  {
    if gs == [] {
      assert fs + gs == fs;
    } else {
      LastFieldSkip(fs, gs[..|gs| - 1], tag);
      assert (fs + gs)[..|fs + gs| - 1] == fs + gs[..|gs| - 1];
    }
  }

  lemma {:induction false} AllBytesConcat(fs: seq<Field>, gs: seq<Field>, tag: nat)
    ensures AllBytesOf(fs + gs, tag) == AllBytesOf(fs, tag) + AllBytesOf(gs, tag)
  {
    if fs == [] {
      assert fs + gs == gs;
    } else {
      AllBytesConcat(fs[1..], gs, tag);
      assert (fs + gs)[1..] == fs[1..] + gs;
    }
  }

  lemma {:induction false} AllBytesAbsent(fs: seq<Field>, tag: nat)
    requires forall i :: 0 <= i < |fs| ==> fs[i].tag != tag
    ensures AllBytesOf(fs, tag) == []
  {
    if fs != [] {
      AllBytesAbsent(fs[1..], tag);
    }
  }

  // ---------------------------------------------------------------------------
  // Scalar round trips

  lemma {:induction false} VarintDigitsRoundTrip(v: nat, k: nat, rest: Bytes)
    requires k <= 9 && v < VarintCap(k)
    ensures VarintDigits(EncodeVarint(v) + rest, k) == Got(v, |EncodeVarint(v)|)
    decreases 9 - k
  {
    var b := EncodeVarint(v) + rest;
    if v < 128 {
      assert b[0] == v;
    } else {
      VarintDigitsRoundTrip(v / 128, k + 1, rest);
      assert b[1..] == EncodeVarint(v / 128) + rest;
      assert b[0] == v % 128 + 128;
    }
  }

  /** Every 64-bit value is read back exactly, whatever follows it. */
  lemma VarintRoundTrip(v: U64, rest: Bytes)
    ensures ConsumeVarint(EncodeVarint(v) + rest) == Got(v, |EncodeVarint(v)|)
  {
    VarintCapIs64Bits();
    VarintDigitsRoundTrip(v, 0, rest);
  }

  lemma {:induction false} LittleEndianRoundTrip(v: nat, n: nat)
    requires v < Pow256(n)
    ensures FromLittleEndian(LittleEndian(v, n)) == v
  {
    if n != 0 {
      LittleEndianRoundTrip(v / 256, n - 1);
      assert LittleEndian(v, n)[1..] == LittleEndian(v / 256, n - 1);
    }
  }

  lemma Fixed64RoundTrip(v: U64, rest: Bytes)
    ensures ConsumeFixed64(LittleEndian(v, 8) + rest) == Got(v, 8)
  {
    Pow256Of8();
    LittleEndianRoundTrip(v, 8);
    assert (LittleEndian(v, 8) + rest)[..8] == LittleEndian(v, 8);
  }

  lemma BytesRoundTrip(v: Bytes, rest: Bytes)
    requires |v| < TWO64
    ensures ConsumeBytes(EncodeVarint(|v|) + v + rest) == Got(v, |EncodeVarint(|v|)| + |v|)
  {
    var head := EncodeVarint(|v|);
    VarintRoundTrip(|v|, v + rest);
    assert head + v + rest == head + (v + rest);
    assert (head + v + rest)[|head|..|head| + |v|] == v;
  }

  lemma TagRoundTrip(tag: nat, t: WireType, rest: Bytes)
    requires ValidTag(tag)
    ensures ConsumeTag(EncodeTag(tag, t) + rest) == Got((tag, t), |EncodeTag(tag, t)|)
  {
    var x := tag * 8 + TypeCode(t);
    VarintRoundTrip(x, rest);
    assert x / 8 == tag && x % 8 == TypeCode(t);
  }

  /** Signed integers survive the zigzag mapping in both directions. */
  lemma ZigZagRoundTrip(x: I64, u: U64)
    ensures DecodeZigZag(EncodeZigZag(x)) == x
    ensures EncodeZigZag(DecodeZigZag(u)) == u
  {
  }

  lemma FieldRoundTrip(f: Field, rest: Bytes)
    requires Canonical(f)
    ensures ConsumeField(WriteField(f) + rest) == Got(f, |WriteField(f)|)
  {
    hide ConsumeValue, ConsumeTag, EncodeTag, EncodeVarint, LittleEndian;
    var head := EncodeTag(f.tag, f.typ);
    var body := WriteValue(f);
    if f.typ.Len? {
      ConcatAssoc(head, EncodeVarint(|f.bytes|), f.bytes);
    }
    assert WriteField(f) == head + body;
    ConcatAssoc(head, body, rest);
    TagRoundTrip(f.tag, f.typ, body + rest);
    assert (head + (body + rest))[|head|..] == body + rest;
    ValueRoundTrip(f, rest);
  }

  /** The part of a written field after its tag. */
  function WriteValue(f: Field): Bytes
  {
    match f.typ
    case Varint => EncodeVarint(f.varint)
    case Fixed64 => LittleEndian(f.fixed64, 8)
    case _ => EncodeVarint(|f.bytes|) + f.bytes
  }

  lemma ValueRoundTrip(f: Field, rest: Bytes)
    requires Canonical(f)
    ensures ConsumeValue(f.tag, f.typ, WriteValue(f) + rest) == Got(f, |WriteValue(f)|)
  {
    hide ConsumeVarint, ConsumeFixed64, ConsumeBytes, EncodeVarint, LittleEndian;
    match f.typ {
      case Varint => VarintRoundTrip(f.varint, rest);
      case Fixed64 => Fixed64RoundTrip(f.fixed64, rest);
      case Len => BytesRoundTrip(f.bytes, rest);
      case _ =>
    }
  }

  // ---------------------------------------------------------------------------
  // The parser is a homomorphism

  /** Parsing what was written gives back exactly the fields, in order. */
  lemma {:induction false} ParseWrite(fs: seq<Field>)
    requires AllCanonical(fs)
    ensures Parse(Write(fs)) == Parsed(fs, true)
  {
    hide WriteField, ConsumeField, Canonical;
    if fs != [] {
      var rest := Write(fs[1..]);
      FieldRoundTrip(fs[0], rest);
      ParseWrite(fs[1..]);
      assert Write(fs)[|WriteField(fs[0])|..] == rest;
      assert [fs[0]] + fs[1..] == fs;
    }
  }

  lemma {:induction false} WriteLength(fs: seq<Field>, i: nat)
    requires i < |fs|
    ensures fs[i].typ.Len? ==> |fs[i].bytes| < |Write(fs)|
  {
    hide WriteField;
    if i > 0 {
      WriteLength(fs[1..], i - 1);
    }
  }

  /** The same for any message short enough to have a 64-bit length. */
  lemma ParseMessage(fs: seq<Field>)
    requires AllShaped(fs) && |Write(fs)| < TWO64
    ensures Parse(Write(fs)) == Parsed(fs, true)
  {
    hide Parse, Write;
    forall i | 0 <= i < |fs| ensures Canonical(fs[i]) {
      WriteLength(fs, i);
    }
    ParseWrite(fs);
  }

  lemma {:induction false} VarintDigitsPrefix(b: Bytes, c: Bytes, k: nat)
    requires k <= 9 && VarintDigits(b, k).Got?
    ensures VarintDigits(b + c, k) == VarintDigits(b, k)
    decreases 9 - k
  {
    if k < 9 && b[0] >= 128 {
      VarintDigitsPrefix(b[1..], c, k + 1);
      assert (b + c)[1..] == b[1..] + c;
    }
  }

  lemma VarintPrefix(b: Bytes, c: Bytes)
    requires ConsumeVarint(b).Got?
    ensures ConsumeVarint(b + c) == ConsumeVarint(b)
  {
    VarintDigitsPrefix(b, c, 0);
  }

  lemma TagPrefix(b: Bytes, c: Bytes)
    requires ConsumeTag(b).Got?
    ensures ConsumeTag(b + c) == ConsumeTag(b)
  {
    VarintPrefix(b, c);
  }

  lemma BytesPrefix(b: Bytes, c: Bytes)
    requires ConsumeBytes(b).Got?
    ensures ConsumeBytes(b + c) == ConsumeBytes(b)
  {
    VarintPrefix(b, c);
    var n, m := ConsumeVarint(b).n, ConsumeVarint(b).value;
    assert (b + c)[n..n + m] == b[n..n + m];
  }

  lemma {:induction false} SkipPrefix(num: nat, t: WireType, b: Bytes, c: Bytes, depth: int)
    requires SkipValue(num, t, b, depth).Got?
    ensures SkipValue(num, t, b + c, depth) == SkipValue(num, t, b, depth)
    decreases |b|, 1
  {
    match t {
      case Varint => VarintPrefix(b, c);
      case Len => BytesPrefix(b, c);
      case StartGroup => GroupPrefix(num, b, c, depth);
      case _ =>
    }
  }

  lemma {:induction false} GroupPrefix(num: nat, b: Bytes, c: Bytes, depth: int)
    requires SkipGroup(num, b, depth).Got?
    ensures SkipGroup(num, b + c, depth) == SkipGroup(num, b, depth)
    decreases |b|, 0
  {
    hide ConsumeTag, SkipValue;
    TagPrefix(b, c);
    var t := ConsumeTag(b);
    if !t.value.1.EndGroup? {
      var n := t.n;
      assert (b + c)[n..] == b[n..] + c;
      SkipPrefix(t.value.0, t.value.1, b[n..], c, depth - 1);
      var m := SkipValue(t.value.0, t.value.1, b[n..], depth - 1).n;
      assert (b + c)[n + m..] == b[n + m..] + c;
      GroupPrefix(num, b[n + m..], c, depth);
    }
  }

  lemma FieldPrefix(b: Bytes, c: Bytes)
    requires ConsumeField(b).Got?
    ensures ConsumeField(b + c) == ConsumeField(b)
  {
    TagPrefix(b, c);
    var t := ConsumeTag(b);
    var rest := b[t.n..];
    assert (b + c)[t.n..] == rest + c;
    match t.value.1 {
      case Varint => VarintPrefix(rest, c);
      case Fixed64 => assert (rest + c)[..8] == rest[..8];
      case Len => BytesPrefix(rest, c);
      case StartGroup => GroupPrefix(t.value.0, rest, c, GROUP_DEPTH);
      case _ =>
    }
  }

  /** Any well-formed message followed by any bytes parses as the concatenation. */
  lemma {:induction false} ParseConcat(b: Bytes, c: Bytes)
    requires Parse(b).ok
    ensures Parse(b + c) == Parsed(Parse(b).fields + Parse(c).fields, Parse(c).ok)
    decreases |b|
  {
    hide ConsumeField, Parse;
    ParseStep(b);
    ParseStep(b + c);
    if b == [] {
      assert b + c == c;
      assert [] + Parse(c).fields == Parse(c).fields;
    } else {
      FieldPrefix(b, c);
      var f, n := ConsumeField(b).value, ConsumeField(b).n;
      ParseConcat(b[n..], c);
      assert (b + c)[n..] == b[n..] + c;
      ConcatAssoc([f], Parse(b[n..]).fields, Parse(c).fields);
    }
  }

  /** How a non-empty message parses: by its first field. */
  lemma ParseStep(b: Bytes)
    ensures b == [] ==> Parse(b) == Parsed([], true)
    ensures b != [] && ConsumeField(b).Bad? ==> Parse(b) == Parsed([], false)
    ensures b != [] && ConsumeField(b).Got? ==>
      var rest := Parse(b[ConsumeField(b).n..]);
      Parse(b) == Parsed([ConsumeField(b).value] + rest.fields, rest.ok)
  {
    hide ConsumeField;
  }

  lemma ParseWriteField(f: Field)
    requires Canonical(f)
    ensures Parse(WriteField(f)) == Parsed([f], true)
  {
    hide WriteField, Canonical, ConsumeField;
    ParseWrite([f]);
    assert Write([f]) == WriteField(f) + Write([]);
    assert WriteField(f) + [] == WriteField(f);
  }

  lemma {:induction false} WriteConcat(fs: seq<Field>, gs: seq<Field>)
    ensures Write(fs + gs) == Write(fs) + Write(gs)
  {
    hide WriteField;
    if fs == [] {
      assert fs + gs == gs;
    } else {
      WriteConcat(fs[1..], gs);
      assert (fs + gs)[1..] == fs[1..] + gs;
    }
  }
}
