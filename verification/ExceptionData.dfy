/** Structured exception payloads, and the size caps that decide which of them cross the wire. */
module ExceptionData {
  import opened Common
  import opened Wire

  const FIELD_CAP: nat := 65536

  datatype Object = Raw(bytes: Bytes) | Text(text: Bytes)

  datatype Payload =
    | UnicodeError(encoding: Bytes, obj: Object, start: U64, end: U64, reason: Bytes)
    | JsonError(message: Bytes, document: Option<Bytes>, position: U64, line: U64, column: U64)

  function ObjectField(o: Object): Field
  {
    match o
    case Raw(b) => LenField(2, b)
    case Text(t) => LenField(3, t)
  }

  function PayloadFields(x: Payload): seq<Field>
  {
    match x
    case UnicodeError(encoding, obj, start, end, reason) =>
      [LenField(1, encoding), ObjectField(obj), VarintField(4, start), VarintField(5, end), LenField(6, reason)]
    case JsonError(message, document, position, line, column) =>
      [LenField(1, message)] + (if document.Some? then [LenField(2, document.value)] else [])
      + [VarintField(3, position), VarintField(4, line), VarintField(5, column)]
  }

  function PayloadTag(x: Payload): nat { if x.UnicodeError? then 1 else 2 }

  function EncodePayload(x: Payload): Bytes
  {
    Write([LenField(PayloadTag(x), Write(PayloadFields(x)))])
  }

  // ---------------------------------------------------------------------------
  // Decoding

  /** A field of a payload has its type, and its bytes are within the cap for its tag. */
  predicate FieldOk(tag: nat, f: Field, limit: nat)
  {
    if tag == 1 then
      (f.tag in {1, 2, 3, 6} ==> f.typ.Len? && |f.bytes| <= FIELD_CAP) && (f.tag in {4, 5} ==> f.typ.Varint?)
    else
      (f.tag == 1 ==> f.typ.Len? && |f.bytes| <= limit) && (f.tag == 2 ==> f.typ.Len? && |f.bytes| <= FIELD_CAP)
      && (f.tag in {3, 4, 5} ==> f.typ.Varint?)
  }

  ghost predicate FieldsOk(tag: nat, fs: seq<Field>, limit: nat)
  {
    forall i :: 0 <= i < |fs| ==> FieldOk(tag, fs[i], limit)
  }

  predicate IsObject(f: Field) { f.tag == 2 || f.tag == 3 }

  function Objects(fs: seq<Field>): seq<Object>
  {
    if fs == [] then []
    else
      var f := fs[|fs| - 1];
      Objects(fs[..|fs| - 1]) + (if f.tag == 2 then [Raw(f.bytes)] else if f.tag == 3 then [Text(f.bytes)] else [])
  }

  /** A payload body is accepted with well-typed, capped fields and, for unicode errors, one object. */
  ghost predicate BodyOk(tag: nat, p: Parsed, limit: nat)
  {
    p.ok && FieldsOk(tag, p.fields, limit) && (tag == 1 ==> |Objects(p.fields)| == 1)
  }

  function BodyOf(tag: nat, fs: seq<Field>): Payload
  {
    if tag == 1 then
      var objects := Objects(fs);
      UnicodeError(BytesOf(fs, 1), if objects == [] then Raw([]) else objects[0], VarintOf(fs, 4), VarintOf(fs, 5),
                   BytesOf(fs, 6))
    else JsonError(BytesOf(fs, 1), OptBytesOf(fs, 2), VarintOf(fs, 3), VarintOf(fs, 4), VarintOf(fs, 5))
  }

  /** One pass over a payload's fields, refusing the first that is mistyped, too big or a second object. */
  method DecodeBody(tag: nat, data: Bytes, limit: nat) returns (r: Result<Payload>)
    requires tag == 1 || tag == 2
    ensures r.Ok? <==> BodyOk(tag, Parse(data), limit)
    ensures r.Ok? ==> r.value == BodyOf(tag, Parse(data).fields)
  {
    hide Parse, FieldOk;
    var fields, ok := ParseFields(data);
    var objects: seq<Object> := [];
    var i := 0;
    while i < |fields|
      invariant i <= |fields| && objects == Objects(fields[..i]) && (tag == 1 ==> |objects| <= 1)
      invariant forall j :: 0 <= j < i ==> FieldOk(tag, fields[j], limit)
    {
      var f := fields[i];
      assert fields[..i + 1][..i] == fields[..i];
      if !FieldOk(tag, f, limit) {
        return Err;
      }
      if IsObject(f) {
        if tag == 1 && objects != [] {
          ObjectsGrow(fields, i + 1);
          return Err;
        }
        objects := objects + [if f.tag == 2 then Raw(f.bytes) else Text(f.bytes)];
      }
      i := i + 1;
    }
    assert fields[..i] == fields;
    if !ok || (tag == 1 && objects == []) {
      return Err;
    }
    return Ok(BodyOf(tag, fields));
  }

  lemma {:induction false} ObjectsGrow(fs: seq<Field>, i: nat)
    requires i <= |fs|
    ensures |Objects(fs[..i])| <= |Objects(fs)|
    decreases |fs|
  {
    if i == |fs| {
      assert fs[..i] == fs;
    } else {
      ObjectsGrow(fs[..|fs| - 1], i);
      assert fs[..|fs| - 1][..i] == fs[..i];
    }
  }

  predicate IsPayload(f: Field) { f.tag == 1 || f.tag == 2 }

  /** The payload of an exception: at most one, and none is no error. */
  ghost predicate DataOk(p: Parsed, limit: nat)
  {
    && p.ok
    && (forall i :: 0 <= i < |p.fields| && IsPayload(p.fields[i]) ==>
        && p.fields[i].typ.Len? && BodyOk(p.fields[i].tag, Parse(p.fields[i].bytes), limit)
        && forall j :: 0 <= j < |p.fields| && IsPayload(p.fields[j]) ==> j == i)
  }

  function DataOf(fs: seq<Field>): Option<Payload>
  {
    if fs == [] then None
    else
      var f := fs[|fs| - 1];
      if IsPayload(f) then Some(BodyOf(f.tag, Parse(f.bytes).fields)) else DataOf(fs[..|fs| - 1])
  }

  method DecodeData(data: Bytes, limit: nat) returns (r: Result<Option<Payload>>)
    ensures r.Ok? <==> DataOk(Parse(data), limit)
    ensures r.Ok? ==> r.value == DataOf(Parse(data).fields)
  {
    hide Parse, BodyOk, BodyOf;
    var fields, ok := ParseFields(data);
    var result: Option<Payload> := None;
    var i := 0;
    ghost var at := 0;
    while i < |fields|
      invariant i <= |fields| && result == DataOf(fields[..i])
      invariant result.None? ==> forall j :: 0 <= j < i ==> !IsPayload(fields[j])
      invariant result.Some? ==>
        && at < i && IsPayload(fields[at]) && fields[at].typ.Len?
        && BodyOk(fields[at].tag, Parse(fields[at].bytes), limit)
        && forall j :: 0 <= j < i && IsPayload(fields[j]) ==> j == at
    {
      var f := fields[i];
      assert fields[..i + 1][..i] == fields[..i];
      if IsPayload(f) {
        if result.Some? || !f.typ.Len? {
          return Err;
        }
        var body := DecodeBody(f.tag, f.bytes, limit);
        if body.Err? {
          return Err;
        }
        result := Some(body.value);
        at := i;
      }
      i := i + 1;
    }
    assert fields[..i] == fields;
    if !ok {
      return Err;
    }
    return Ok(result);
  }

  // ---------------------------------------------------------------------------
  // Round trip

  /** Within the caps: every text of a unicode error, a JSON document, and a message within its own limit. */
  predicate Capped(x: Payload, limit: nat)
  {
    match x
    case UnicodeError(encoding, obj, _, _, reason) =>
      && |encoding| <= FIELD_CAP && |reason| <= FIELD_CAP
      && (match obj case Raw(b) => |b| <= FIELD_CAP case Text(t) => |t| <= FIELD_CAP)
    case JsonError(message, document, _, _, _) =>
      |message| <= limit && (document.Some? ==> |document.value| <= FIELD_CAP)
  }

  lemma PayloadShape(x: Payload)
    ensures AllShaped(PayloadFields(x)) && Increasing(PayloadFields(x))
  {
  }

  lemma UnicodeBody(x: Payload, limit: nat)
    requires x.UnicodeError?
    ensures FieldsOk(1, PayloadFields(x), limit) <==> Capped(x, limit)
    ensures Objects(PayloadFields(x)) == [x.obj] && BodyOf(1, PayloadFields(x)) == x
  {
    hide LastField;
    var fs := PayloadFields(x);
    PayloadShape(x);
    UnicodeObjects(fs, x.obj);
    LastFieldAt(fs, 0, 1);
    LastFieldAt(fs, 2, 4);
    LastFieldAt(fs, 3, 5);
    LastFieldAt(fs, 4, 6);
    if FieldsOk(1, fs, limit) {
      assert FieldOk(1, fs[0], limit) && FieldOk(1, fs[1], limit) && FieldOk(1, fs[4], limit);
    }
  }

  lemma UnicodeObjects(fs: seq<Field>, o: Object)
    requires |fs| == 5 && fs[0].tag == 1 && fs[1] == ObjectField(o)
    requires fs[2].tag == 4 && fs[3].tag == 5 && fs[4].tag == 6
    ensures Objects(fs) == [o]
  {
    assert fs[..4][..3] == fs[..3] && fs[..3][..2] == fs[..2] && fs[..2][..1] == fs[..1] && fs[..1][..0] == [];
    assert Objects(fs[..1]) == [];
    assert Objects(fs[..2]) == [o];
    assert Objects(fs[..3]) == [o];
    assert Objects(fs[..4]) == [o];
  }

  lemma JsonBody(x: Payload, limit: nat)
    requires x.JsonError?
    ensures FieldsOk(2, PayloadFields(x), limit) <==> Capped(x, limit)
    ensures BodyOf(2, PayloadFields(x)) == x
  {
    hide LastField;
    var fs := PayloadFields(x);
    var k := if x.document.Some? then 2 else 1;
    PayloadShape(x);
    LastFieldAt(fs, 0, 1);
    if x.document.Some? {
      LastFieldAt(fs, 1, 2);
    } else {
      LastFieldAbsent(fs, 2);
    }
    LastFieldAt(fs, k, 3);
    LastFieldAt(fs, k + 1, 4);
    LastFieldAt(fs, k + 2, 5);
    if FieldsOk(2, fs, limit) {
      assert FieldOk(2, fs[0], limit) && FieldOk(2, fs[1], limit);
    }
  }

  /**
   A payload is accepted precisely when its texts are within the caps, and then it is read back
   exactly; an oversized one is refused, never truncated.
   */
  lemma PayloadRoundTrip(x: Payload, limit: nat)
    requires |EncodePayload(x)| < TWO64
    ensures
      var p := Parse(EncodePayload(x));
      && (DataOk(p, limit) <==> Capped(x, limit))
      && DataOf(p.fields) == Some(x)
  {
    hide Parse, Write, FieldsOk, Capped, BodyOf, Objects, PayloadFields;
    var body := Write(PayloadFields(x));
    var outer := [LenField(PayloadTag(x), body)];
    PayloadShape(x);
    ParseMessage(outer);
    OuterIsLonger(outer);
    ParseMessage(PayloadFields(x));
    if x.UnicodeError? {
      UnicodeBody(x, limit);
    } else {
      JsonBody(x, limit);
    }
    var p := Parse(EncodePayload(x));
    assert IsPayload(p.fields[0]);
    assert BodyOk(PayloadTag(x), Parse(body), limit) <==> Capped(x, limit);
  }

  lemma OuterIsLonger(outer: seq<Field>)
    requires |outer| == 1 && outer[0].typ.Len?
    ensures |outer[0].bytes| < |Write(outer)|
  {
    WriteLength(outer, 0);
  }
}
