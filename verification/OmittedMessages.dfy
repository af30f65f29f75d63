/** Print segments, exceptions and envelopes that leave out what has its default value. */
module OmittedMessages {
  import opened Common
  import opened Wire
  import opened Omitted
  import Channel
  import opened ExceptionData
  import opened Raised
  import opened Snapshot

  // ---------------------------------------------------------------------------
  // Print segments

  /** A stream of zero and an empty text need not be written. */
  lemma SegmentOmitted(full: Bytes, less: Bytes, tag: nat)
    requires Omits(full, less, tag)
    ensures Channel.SegmentOf(less) == Channel.SegmentOf(full)
  {
    hide Parse, BytesOf, IsZero;
    var fs, gs := Parse(full).fields, Parse(less).fields;
    var i: nat :| OmittedAt(fs, gs, i) && fs[i].tag == tag;
    ReadsOmitted(fs, gs, i);
  }

  // ---------------------------------------------------------------------------
  // Exception payloads

  lemma WithoutIsShorter(full: seq<Field>, less: seq<Field>, i: nat)
    requires i < |full| - 1 && less == full[..i] + full[i + 1..]
    ensures
      var k := |full| - 1;
      && |less| == k && less[k - 1] == full[k]
      && less[..k - 1] == full[..k][..i] + full[..k][i + 1..]
  {
  }

  /** Everything but the object of a unicode error and the document of a JSON error. */
  predicate Plain(payload: nat, tag: nat)
  {
    if payload == 1 then !(tag in {2, 3}) else tag != 2
  }

  lemma {:induction false} ObjectsOmitted(full: seq<Field>, less: seq<Field>, i: nat)
    requires i < |full| && less == full[..i] + full[i + 1..] && !IsObject(full[i])
    ensures Objects(less) == Objects(full)
    decreases |full|
  {
    var k := |full| - 1;
    if i == k {
      assert less == full[..k];
    } else {
      WithoutIsShorter(full, less, i);
      ObjectsOmitted(full[..k], less[..|less| - 1], i);
    }
  }

  /** A payload that leaves out zeros and empty texts is accepted as the full one is, and read the same. */
  lemma PayloadOmitted(payload: nat, full: Bytes, less: Bytes, tag: nat, limit: nat)
    requires payload == 1 || payload == 2
    requires Omits(full, less, tag) && Plain(payload, tag)
    ensures BodyOk(payload, Parse(full), limit) ==> BodyOk(payload, Parse(less), limit)
    ensures BodyOf(payload, Parse(less).fields) == BodyOf(payload, Parse(full).fields)
  {
    hide Parse, BytesOf, FieldsOk, LastField, Objects, IsZero;
    var fs, gs := Parse(full).fields, Parse(less).fields;
    var i: nat :| OmittedAt(fs, gs, i) && fs[i].tag == tag;
    ReadsOmitted(fs, gs, i);
    if payload == 1 {
      ObjectsOmitted(fs, gs, i);
    }
    FewerFieldsOk(payload, fs, gs, i, limit);
  }

  lemma FewerFieldsOk(payload: nat, full: seq<Field>, less: seq<Field>, i: nat, limit: nat)
    requires i < |full| && less == full[..i] + full[i + 1..]
    ensures FieldsOk(payload, full, limit) ==> FieldsOk(payload, less, limit)
  {
    hide FieldOk;
    assert forall j :: 0 <= j < |less| ==> less[j] == full[if j < i then j else j + 1];
  }

  // ---------------------------------------------------------------------------
  // Stack frames

  lemma {:induction false} InsideOmitted(full: seq<Field>, less: seq<Field>, i: nat, tag: nat)
    requires i < |full| && less == full[..i] + full[i + 1..] && full[i].tag != tag
    ensures Inside(less, tag) == Inside(full, tag)
    decreases |full|
  {
    hide Parse;
    var k := |full| - 1;
    if i == k {
      assert less == full[..k];
    } else {
      WithoutIsShorter(full, less, i);
      InsideOmitted(full[..k], less[..|less| - 1], i, tag);
    }
  }

  lemma FrameOmitted(full: seq<Field>, less: seq<Field>, i: nat)
    requires OmittedAt(full, less, i) && full[i].tag != 2 && full[i].tag != 3
    ensures FrameOf(less) == FrameOf(full)
  {
    hide BytesOf, LastField, Inside;
    ReadsOmitted(full, less, i);
    InsideOmitted(full, less, i, 2);
    InsideOmitted(full, less, i, 3);
  }

  /** The one field with its tag, read from the inside. */
  lemma {:induction false} InsideOnly(fs: seq<Field>, i: nat)
    requires i < |fs| && forall j :: 0 <= j < |fs| && j != i ==> fs[j].tag != fs[i].tag
    ensures Inside(fs, fs[i].tag) == Parse(fs[i].bytes).fields
  {
    hide Parse;
    var k := |fs| - 1;
    if i < k {
      InsideOnly(fs[..k], i);
      assert Parse(fs[i].bytes).fields + [] == Parse(fs[i].bytes).fields;
    } else {
      InsideNone(fs[..k], fs[i].tag);
      assert [] + Parse(fs[i].bytes).fields == Parse(fs[i].bytes).fields;
    }
  }

  lemma {:induction false} InsideElsewhere(fs: seq<Field>, gs: seq<Field>, i: nat, tag: nat)
    requires i < |fs| == |gs| && gs == fs[i := gs[i]] && fs[i].tag == gs[i].tag != tag
    ensures Inside(gs, tag) == Inside(fs, tag)
    decreases |fs|
  {
    hide Parse;
    var k := |fs| - 1;
    if i == k {
      assert gs[..k] == fs[..k];
    } else {
      assert gs[..k] == fs[..k][i := gs[i]];
      InsideElsewhere(fs[..k], gs[..k], i, tag);
    }
  }

  lemma {:induction false} ReplacedElsewhere(fs: seq<Field>, gs: seq<Field>, i: nat, tag: nat)
    requires i < |fs| == |gs| && gs == fs[i := gs[i]] && fs[i].tag == gs[i].tag != tag
    ensures LastField(gs, tag) == LastField(fs, tag)
    decreases |fs|
  {
    var k := |fs| - 1;
    if i == k {
      assert gs[..k] == fs[..k];
    } else {
      assert gs[..k] == fs[..k][i := gs[i]];
      ReplacedElsewhere(fs[..k], gs[..k], i, tag);
    }
  }

  /** A position in a frame may leave out a line or column of zero. */
  lemma PlaceOmitted(fs: seq<Field>, gs: seq<Field>, i: nat, tag: nat)
    requires i < |fs| == |gs| && gs == fs[i := gs[i]] && gs[i] == fs[i].(bytes := gs[i].bytes)
    requires fs[i].tag in {2, 3} && forall j :: 0 <= j < |fs| && j != i ==> fs[j].tag != fs[i].tag
    requires Omits(fs[i].bytes, gs[i].bytes, tag)
    ensures FrameOf(gs) == FrameOf(fs)
  {
    hide Parse, LastField, Inside, IsZero;
    var a, b := Parse(fs[i].bytes).fields, Parse(gs[i].bytes).fields;
    var k: nat :| OmittedAt(a, b, k) && a[k].tag == tag;
    ReadsOmitted(a, b, k);
    InsideOnly(fs, i);
    InsideOnly(gs, i);
    InsideElsewhere(fs, gs, i, if fs[i].tag == 2 then 3 else 2);
    forall t: nat | t != fs[i].tag ensures LastField(gs, t) == LastField(fs, t) {
      ReplacedElsewhere(fs, gs, i, t);
    }
  }

  // ---------------------------------------------------------------------------
  // Exceptions

  lemma {:induction false} FramesOmitted(full: seq<Field>, less: seq<Field>, i: nat)
    requires i < |full| && less == full[..i] + full[i + 1..] && full[i].tag != 3
    ensures FramesOf(less) == FramesOf(full)
    decreases |full|
  {
    hide Parse, FrameOf;
    var k := |full| - 1;
    if i == k {
      assert less == full[..k];
    } else {
      WithoutIsShorter(full, less, i);
      FramesOmitted(full[..k], less[..|less| - 1], i);
    }
  }

  /** An exception need not write an empty type or message. */
  lemma ExceptionOmitted(full: Bytes, less: Bytes, tag: nat)
    requires Omits(full, less, tag) && tag != 3 && tag != 4
    ensures ExceptionOk(Parse(full)) ==> ExceptionOk(Parse(less))
    ensures ExceptionOf(Parse(less).fields) == ExceptionOf(Parse(full).fields)
  {
    hide Parse, LastField, FramesOf, DataOk, DataOf, MessageLimit, PartOk;
    var fs, gs := Parse(full).fields, Parse(less).fields;
    var i: nat :| OmittedAt(fs, gs, i) && fs[i].tag == tag;
    ReadsOmitted(fs, gs, i);
    FramesOmitted(fs, gs, i);
    assert forall j :: 0 <= j < |gs| ==> gs[j] == fs[if j < i then j else j + 1];
  }

  // ---------------------------------------------------------------------------
  // Envelopes

  /**
   An accepted envelope that leaves out a budget of zero is accepted and restores the same; without
   its sleep usage, as older formats wrote it, it says that it has none.
   */
  lemma EnvelopeOmitted(full: Bytes, less: Bytes, tag: nat)
    requires Omits(full, less, tag) && tag in {3, 4, 5}
    ensures Accepted(Magic() + full) ==> Accepted(Magic() + less)
    ensures
      var a, b := Restored(Parse(full).fields), Restored(Parse(less).fields);
      if tag != 5 then b == a
      else a.meta.hasSleepUsage && b == a.(meta := a.meta.(hasSleepUsage := false))
  {
    hide Parse, Magic, LastField;
    var fs, gs := Parse(full).fields, Parse(less).fields;
    var i: nat :| OmittedAt(fs, gs, i) && fs[i].tag == tag;
    assert (Magic() + full)[19..] == full && (Magic() + less)[19..] == less;
    ReadsOmitted(fs, gs, i);
    LastFieldIs(fs, tag);
    LastFieldIs(gs, tag);
    assert forall j :: 0 <= j < |gs| ==> gs[j] == fs[if j < i then j else j + 1];
  }
}
