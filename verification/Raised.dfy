/** Python exceptions on the wire: type, message, stack frames and an optional structured payload. */
module Raised {
  import opened Common
  import opened Wire
  import opened ExceptionData

  datatype StackFrame = StackFrame(
    filename: Bytes, line: U32, column: U32, endLine: U32, endColumn: U32,
    frameName: Bytes, preview: Bytes, hideCaret: bool, hideFrameName: bool)

  datatype Exception = Exception(typ: Bytes, message: Bytes, frames: seq<StackFrame>, data: Option<Payload>)

  // ---------------------------------------------------------------------------
  // Encoding

  function Optional(tag: nat, b: Bytes): seq<Field>
  {
    if b == [] then [] else [LenField(tag, b)]
  }

  function PlaceFields(line: U32, column: U32): seq<Field>
  {
    [VarintField(1, line), VarintField(2, column)]
  }

  function FrameFields(f: StackFrame): seq<Field>
  {
    [LenField(1, f.filename), LenField(2, Write(PlaceFields(f.line, f.column))),
     LenField(3, Write(PlaceFields(f.endLine, f.endColumn)))]
    + (Optional(4, f.frameName) + (Optional(5, f.preview)
       + [VarintField(6, if f.hideCaret then 1 else 0), VarintField(7, if f.hideFrameName then 1 else 0)]))
  }

  function FramesFields(fs: seq<StackFrame>): seq<Field>
  {
    if fs == [] then [] else FramesFields(fs[..|fs| - 1]) + [LenField(3, Write(FrameFields(fs[|fs| - 1])))]
  }

  function ExceptionFields(x: Exception): seq<Field>
  {
    [LenField(1, x.typ)] + Optional(2, x.message) + FramesFields(x.frames)
    + (match x.data case None => [] case Some(p) => [LenField(4, EncodePayload(p))])
  }

  // ---------------------------------------------------------------------------
  // Decoding

  /** All fields of all sub-messages with the tag; each is read up to its first malformed field. */
  function Inside(fs: seq<Field>, tag: nat): seq<Field>
  {
    if fs == [] then []
    else
      var f := fs[|fs| - 1];
      Inside(fs[..|fs| - 1], tag) + if f.tag == tag then Parse(f.bytes).fields else []
  }

  function FrameOf(fs: seq<Field>): StackFrame
  {
    var start, end := Inside(fs, 2), Inside(fs, 3);
    StackFrame(BytesOf(fs, 1), VarintOf(start, 1) % TWO32, VarintOf(start, 2) % TWO32, VarintOf(end, 1) % TWO32,
               VarintOf(end, 2) % TWO32, BytesOf(fs, 4), BytesOf(fs, 5), VarintOf(fs, 6) != 0, VarintOf(fs, 7) != 0)
  }

  function FramesOf(fs: seq<Field>): seq<StackFrame>
  {
    if fs == [] then []
    else
      var f := fs[|fs| - 1];
      FramesOf(fs[..|fs| - 1]) + if f.tag == 3 then [FrameOf(Parse(f.bytes).fields)] else []
  }

  /** Messages may be longer than the cap; a payload's message is bounded by the exception's. */
  function MessageLimit(message: Bytes): nat
  {
    if |message| > FIELD_CAP then |message| else FIELD_CAP
  }

  predicate PartOk(f: Field)
  {
    (f.tag == 3 ==> Parse(f.bytes).ok) && (f.tag == 4 ==> f.typ.Len?)
  }

  ghost predicate ExceptionOk(p: Parsed)
  {
    && p.ok
    && (forall i :: 0 <= i < |p.fields| ==> PartOk(p.fields[i]))
    && (LastField(p.fields, 4).Some? ==> DataOk(Parse(BytesOf(p.fields, 4)), MessageLimit(BytesOf(p.fields, 2))))
  }

  function ExceptionOf(fs: seq<Field>): Exception
  {
    Exception(BytesOf(fs, 1), BytesOf(fs, 2), FramesOf(fs),
              if LastField(fs, 4).Some? then DataOf(Parse(BytesOf(fs, 4)).fields) else None)
  }

  method DecodeException(data: Bytes) returns (r: Result<Exception>)
    ensures r.Ok? <==> ExceptionOk(Parse(data))
    ensures r.Ok? ==> r.value == ExceptionOf(Parse(data).fields)
  {
    hide Parse, DataOk, DataOf, FrameOf;
    var fields, ok := ParseFields(data);
    var typ: Bytes, message: Bytes, structured: Option<Bytes> := [], [], None;
    var frames: seq<StackFrame> := [];
    var i := 0;
    while i < |fields|
      invariant i <= |fields| && forall j :: 0 <= j < i ==> PartOk(fields[j])
      invariant typ == BytesOf(fields[..i], 1) && message == BytesOf(fields[..i], 2)
      invariant structured == OptBytesOf(fields[..i], 4) && frames == FramesOf(fields[..i])
    {
      var f := fields[i];
      assert fields[..i + 1][..i] == fields[..i];
      if f.tag == 1 {
        typ := f.bytes;
      } else if f.tag == 2 {
        message := f.bytes;
      } else if f.tag == 3 {
        var inner, well := ParseFields(f.bytes);
        if !well {
          return Err;
        }
        frames := frames + [FrameOf(inner)];
      } else if f.tag == 4 {
        if !f.typ.Len? {
          return Err;
        }
        structured := Some(f.bytes);
      }
      i := i + 1;
    }
    assert fields[..i] == fields;
    if !ok {
      return Err;
    }
    var payload: Option<Payload> := None;
    if structured.Some? {
      var d := DecodeData(structured.value, MessageLimit(message));
      if d.Err? {
        return Err;
      }
      payload := d.value;
    }
    return Ok(Exception(typ, message, frames, payload));
  }

  // ---------------------------------------------------------------------------
  // Round trip

  lemma PlaceRead(line: U32, column: U32)
    ensures
      var fs := Parse(Write(PlaceFields(line, column))).fields;
      VarintOf(fs, 1) == line && VarintOf(fs, 2) == column
  {
    hide Parse, Write, LastField;
    var fs := PlaceFields(line, column);
    assert AllCanonical(fs) && Increasing(fs);
    ParseWrite(fs);
    LastFieldAt(fs, 0, 1);
    LastFieldAt(fs, 1, 2);
  }

  lemma {:induction false} InsideOne(fs: seq<Field>, i: nat)
    requires Increasing(fs) && i < |fs|
    ensures Inside(fs, fs[i].tag) == Parse(fs[i].bytes).fields
  {
    hide Parse;
    var k := |fs| - 1;
    if i < k {
      InsideOne(fs[..k], i);
      assert Parse(fs[i].bytes).fields + [] == Parse(fs[i].bytes).fields;
    } else {
      InsideNone(fs[..k], fs[i].tag);
      assert [] + Parse(fs[i].bytes).fields == Parse(fs[i].bytes).fields;
    }
  }

  lemma {:induction false} InsideNone(fs: seq<Field>, tag: nat)
    requires forall i :: 0 <= i < |fs| ==> fs[i].tag != tag
    ensures Inside(fs, tag) == []
  {
    if fs != [] {
      InsideNone(fs[..|fs| - 1], tag);
    }
  }

  lemma FrameShape(f: StackFrame)
    ensures AllShaped(FrameFields(f)) && Increasing(FrameFields(f))
  {
    hide Write;
  }

  lemma ReadOptional(fs: seq<Field>, tag: nat, b: Bytes, i: nat)
    requires Increasing(fs)
    requires if b == [] then forall k :: 0 <= k < |fs| ==> fs[k].tag != tag else i < |fs| && fs[i] == LenField(tag, b)
    ensures BytesOf(fs, tag) == b
  {
    hide LastField;
    if b == [] {
      LastFieldAbsent(fs, tag);
    } else {
      LastFieldAt(fs, i, tag);
    }
  }

  lemma FrameRoundTrip(f: StackFrame)
    ensures FrameOf(FrameFields(f)) == f
  {
    hide Write, Parse, LastField, BytesOf, Inside;
    var fs := FrameFields(f);
    var a := if f.frameName == [] then 0 else 1;
    var b := if f.preview == [] then 0 else 1;
    FrameShape(f);
    assert fs[0] == LenField(1, f.filename);
    assert fs[3 + a + b].tag == 6 && fs[4 + a + b].tag == 7;
    PlaceRead(f.line, f.column);
    PlaceRead(f.endLine, f.endColumn);
    InsideOne(fs, 1);
    InsideOne(fs, 2);
    assert f.filename == [] || fs[0] == LenField(1, f.filename);
    FrameBytes(f, fs);
    LastFieldAt(fs, 3 + a + b, 6);
    LastFieldAt(fs, 4 + a + b, 7);
  }

  lemma FrameBytes(f: StackFrame, fs: seq<Field>)
    requires fs == FrameFields(f) && Increasing(fs)
    ensures BytesOf(fs, 1) == f.filename && BytesOf(fs, 4) == f.frameName && BytesOf(fs, 5) == f.preview
  {
    hide Write, LastField;
    LastFieldAt(fs, 0, 1);
    ReadOptional(fs, 4, f.frameName, 3);
    ReadOptional(fs, 5, f.preview, if f.frameName == [] then 3 else 4);
  }

  /** One frame's field, where it stands in an exception. */
  lemma FrameFieldRead(x: StackFrame)
    requires |Write(FrameFields(x))| < TWO64
    ensures
      var f := LenField(3, Write(FrameFields(x)));
      Shaped(f) && PartOk(f) && FrameOf(Parse(f.bytes).fields) == x
  {
    hide Write, FrameFields, Parse, FrameOf;
    FrameShape(x);
    ParseMessage(FrameFields(x));
    FrameRoundTrip(x);
  }

  lemma {:induction false} FramesRead(xs: seq<StackFrame>)
    requires forall i :: 0 <= i < |xs| ==> |Write(FrameFields(xs[i]))| < TWO64
    ensures AllShaped(FramesFields(xs)) && FramesOf(FramesFields(xs)) == xs
    ensures forall i :: 0 <= i < |FramesFields(xs)| ==> FramesFields(xs)[i].tag == 3 && PartOk(FramesFields(xs)[i])
  {
    hide Write, FrameFields, Parse, FrameOf, PartOk, Shaped;
    if xs != [] {
      var k := |xs| - 1;
      FramesRead(xs[..k]);
      FrameFieldRead(xs[k]);
      var before, f := FramesFields(xs[..k]), LenField(3, Write(FrameFields(xs[k])));
      assert FramesFields(xs) == before + [f];
      assert (before + [f])[..|before|] == before;
      assert xs[..k] + [xs[k]] == xs;
    }
  }

  lemma {:induction false} FramesConcat(a: seq<Field>, b: seq<Field>)
    ensures FramesOf(a + b) == FramesOf(a) + FramesOf(b)
  {
    hide Parse, FrameOf;
    if b == [] {
      assert a + b == a;
    } else {
      FramesConcat(a, b[..|b| - 1]);
      assert (a + b)[..|a + b| - 1] == a + b[..|b| - 1];
    }
  }

  lemma {:induction false} NoFrames(fs: seq<Field>)
    requires forall i :: 0 <= i < |fs| ==> fs[i].tag != 3
    ensures FramesOf(fs) == []
  {
    if fs != [] {
      NoFrames(fs[..|fs| - 1]);
    }
  }

  lemma FieldsRead(x: Exception)
    requires forall i :: 0 <= i < |x.frames| ==> |Write(FrameFields(x.frames[i]))| < TWO64
    ensures
      var fs := ExceptionFields(x);
      && AllShaped(fs) && (forall i :: 0 <= i < |fs| ==> PartOk(fs[i]))
      && BytesOf(fs, 1) == x.typ && BytesOf(fs, 2) == x.message && FramesOf(fs) == x.frames
      && OptBytesOf(fs, 4) == (match x.data case None => None case Some(p) => Some(EncodePayload(p)))
  {
    hide Write, FrameFields, Parse, FrameOf, EncodePayload, FramesFields, FramesOf, LastField;
    var head := [LenField(1, x.typ)] + Optional(2, x.message);
    var mid := FramesFields(x.frames);
    var tail := match x.data case None => [] case Some(p) => [LenField(4, EncodePayload(p))];
    FramesRead(x.frames);
    FramesConcat(head + mid, tail);
    FramesConcat(head, mid);
    NoFrames(head);
    NoFrames(tail);
    assert [] + x.frames + [] == x.frames;
    HeadRead(head, x);
    forall tag: nat | tag == 1 || tag == 2 ensures LastField(head + mid + tail, tag) == LastField(head, tag) {
      LastFieldSkip(head + mid, tail, tag);
      LastFieldSkip(head, mid, tag);
    }
    TailRead(head, mid, tail, x);
  }

  lemma HeadRead(head: seq<Field>, x: Exception)
    requires head == [LenField(1, x.typ)] + Optional(2, x.message)
    ensures BytesOf(head, 1) == x.typ && BytesOf(head, 2) == x.message
  {
    hide LastField;
    LastFieldAt(head, 0, 1);
    ReadOptional(head, 2, x.message, 1);
  }

  lemma TailRead(head: seq<Field>, mid: seq<Field>, tail: seq<Field>, x: Exception)
    requires tail == (match x.data case None => [] case Some(p) => [LenField(4, EncodePayload(p))])
    requires forall i :: 0 <= i < |head + mid| ==> (head + mid)[i].tag != 4
    ensures OptBytesOf(head + mid + tail, 4) == (match x.data case None => None case Some(p) => Some(EncodePayload(p)))
  {
    hide EncodePayload;
    if x.data.None? {
      LastFieldSkip([], head + mid, 4);
      assert [] + (head + mid) == head + mid + tail;
    } else {
      var all := head + mid + tail;
      assert all[|all| - 1] == tail[0];
    }
  }

  lemma {:induction false} FramesFieldsAt(xs: seq<StackFrame>, i: nat)
    requires i < |xs|
    ensures |FramesFields(xs)| == |xs| && FramesFields(xs)[i] == LenField(3, Write(FrameFields(xs[i])))
  {
    hide Write, FrameFields;
    if |xs| > 1 {
      FramesFieldsAt(xs[..|xs| - 1], if i < |xs| - 1 then i else 0);
    }
  }

  /** No text of the payload is over 64 KiB, but that its message may be as long as the exception's. */
  predicate Fits(x: Exception)
  {
    match x.data
    case None => true
    case Some(UnicodeError(encoding, obj, _, _, reason)) =>
      && |encoding| <= 65536 && |reason| <= 65536
      && (match obj case Raw(b) => |b| <= 65536 case Text(t) => |t| <= 65536)
    case Some(JsonError(message, document, _, _, _)) =>
      && (|message| <= 65536 || |message| <= |x.message|)
      && (document.Some? ==> |document.value| <= 65536)
  }

  /**
   An exception crosses the wire exactly, and is accepted at all, precisely when no text of its
   payload is over 64 KiB, where a payload's own message may be as long as the exception's.
   */
  lemma ExceptionRoundTrip(x: Exception)
    requires |Write(ExceptionFields(x))| < TWO64
    ensures
      var p := Parse(Write(ExceptionFields(x)));
      && (ExceptionOk(p) <==> Fits(x))
      && ExceptionOf(p.fields) == x
  {
    CappedFits(x);
    hide Write, FrameFields, Parse, FrameOf, EncodePayload, FramesFields, FramesOf, ExceptionFields, Capped, DataOk,
      DataOf, Fits;
    var fs := ExceptionFields(x);
    forall i | 0 <= i < |x.frames| ensures |Write(FrameFields(x.frames[i]))| < TWO64 {
      FrameIsInside(x, i);
    }
    FieldsRead(x);
    ParseMessage(fs);
    if x.data.Some? {
      PayloadIsInside(x);
      PayloadRoundTrip(x.data.value, MessageLimit(x.message));
    }
  }

  lemma CappedFits(x: Exception)
    ensures Fits(x) <==> (x.data.Some? ==> Capped(x.data.value, MessageLimit(x.message)))
  {
  }

  lemma FrameIsInside(x: Exception, i: nat)
    requires i < |x.frames|
    ensures |Write(FrameFields(x.frames[i]))| < |Write(ExceptionFields(x))|
  {
    hide Write, FrameFields, FramesFields, EncodePayload;
    FramesFieldsAt(x.frames, i);
    var k := 1 + |Optional(2, x.message)|;
    assert ExceptionFields(x)[k + i] == FramesFields(x.frames)[i];
    WriteLength(ExceptionFields(x), k + i);
  }

  lemma PayloadIsInside(x: Exception)
    requires x.data.Some?
    ensures |EncodePayload(x.data.value)| < |Write(ExceptionFields(x))|
  {
    hide Write, FrameFields, FramesFields, EncodePayload;
    var fs := ExceptionFields(x);
    assert fs[|fs| - 1] == LenField(4, EncodePayload(x.data.value));
    WriteLength(fs, |fs| - 1);
  }
}
