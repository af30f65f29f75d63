/** The envelope that carries host-enforced budgets beside an opaque worker dump. */
module Snapshot {
  import opened Common
  import opened Wire

  /** The ASCII bytes of "monty-go snapshot", then 0 and 1. */
  function Magic(): (m: Bytes)
    ensures |m| == 19
  {
    [109, 111, 110, 116, 121, 45, 103, 111, 32, 115, 110, 97, 112, 115, 104, 111, 116, 0, 1]
  }

  /** The ASCII bytes of "1.2.0". */
  const RUNTIME_VERSION: Bytes := [49, 46, 50, 46, 48]

  datatype Meta = Meta(duration: I64, suspensions: U64, sleepUsed: I64, hasSleepUsage: bool)

  datatype Snap = Snap(state: Bytes, meta: Meta)

  function SnapshotFields(state: Bytes, meta: Meta): seq<Field>
  {
    [LenField(1, state), LenField(2, RUNTIME_VERSION), VarintField(3, ToU64(meta.duration)),
     VarintField(4, meta.suspensions), VarintField(5, ToU64(meta.sleepUsed))]
  }

  /** Builds the envelope the way the source does, field after field. */
  method EncodeSnapshot(state: Bytes, meta: Meta) returns (b: Bytes)
    ensures b == Magic() + Write(SnapshotFields(state, meta))
  {
    var fs := SnapshotFields(state, meta);
    b := Magic() + FieldBytes(1, state);
    b := b + FieldBytes(2, RUNTIME_VERSION);
    b := b + FieldVarint(3, ToU64(meta.duration));
    b := b + FieldVarint(4, meta.suspensions);
    b := b + FieldVarint(5, ToU64(meta.sleepUsed));
    WriteFive(fs[0], fs[1], fs[2], fs[3], fs[4]);
  }

  lemma WriteFive(a: Field, b: Field, c: Field, d: Field, e: Field)
    ensures Write([a, b, c, d, e])
         == WriteField(a) + (WriteField(b) + (WriteField(c) + (WriteField(d) + WriteField(e))))
  {
    hide WriteField;
    WriteFirst(a, [b, c, d, e]);
    WriteFirst(b, [c, d, e]);
    WriteFirst(c, [d, e]);
    WriteFirst(d, [e]);
    WriteFirst(e, []);
    assert Write([]) == [] && WriteField(e) + [] == WriteField(e);
  }

  lemma WriteFirst(f: Field, rest: seq<Field>)
    ensures Write([f] + rest) == WriteField(f) + Write(rest)
  {
    assert ([f] + rest)[1..] == rest;
  }

  predicate Known(f: Field) { 1 <= f.tag <= 5 }

  /** A known field has its one wire type and a value in range. */
  predicate WellTyped(f: Field)
  {
    if f.tag <= 2 then f.typ.Len?
    else f.typ.Varint? && (f.tag == 4 || f.varint < TWO63)
  }

  /** What an envelope's fields must be like, in any order and among any others. */
  ghost predicate Acceptable(fs: seq<Field>)
  {
    && (forall i, j :: 0 <= i < j < |fs| && Known(fs[i]) ==> fs[i].tag != fs[j].tag)
    && (forall i :: 0 <= i < |fs| && Known(fs[i]) ==> WellTyped(fs[i]))
  }

  ghost predicate Accepted(data: Bytes)
  {
    && Magic() <= data
    && var p := Parse(data[19..]);
       p.ok && Acceptable(p.fields) && BytesOf(p.fields, 1) != [] && BytesOf(p.fields, 2) == RUNTIME_VERSION
  }

  function Restored(fs: seq<Field>): Snap
  {
    Snap(BytesOf(fs, 1), Meta(ToI64(VarintOf(fs, 3)), VarintOf(fs, 4), ToI64(VarintOf(fs, 5)), LastField(fs, 5).Some?))
  }

  /** The variables the decoding pass fills in. */
  datatype Reading = Reading(snap: Snap, version: Bytes)

  function Take(r: Reading, f: Field): Reading
  {
    var m := r.snap.meta;
    if f.tag == 1 then r.(snap := r.snap.(state := f.bytes))
    else if f.tag == 2 then r.(version := f.bytes)
    else if f.tag == 3 then r.(snap := r.snap.(meta := m.(duration := ToI64(f.varint))))
    else if f.tag == 4 then r.(snap := r.snap.(meta := m.(suspensions := f.varint)))
    else if f.tag == 5 then r.(snap := r.snap.(meta := m.(sleepUsed := ToI64(f.varint), hasSleepUsage := true)))
    else r
  }

  lemma TakeReads(fs: seq<Field>, i: nat, r: Reading)
    requires i < |fs| && r == Reading(Restored(fs[..i]), BytesOf(fs[..i], 2))
    ensures Take(r, fs[i]) == Reading(Restored(fs[..i + 1]), BytesOf(fs[..i + 1], 2))
  {
    assert fs[..i + 1][..i] == fs[..i];
  }

  /** One pass with a set of tags already seen; accepts exactly the acceptable envelopes. */
  method DecodeSnapshot(data: Bytes) returns (r: Result<Snap>)
    ensures r.Ok? <==> Accepted(data)
    ensures r.Ok? ==> r.value == Restored(Parse(data[19..]).fields)
  {
    hide Magic, Parse, Restored, Acceptable;
    if !(Magic() <= data) {
      return Err;
    }
    var fields, ok := ParseFields(data[19..]);
    var reading := ReadFields(fields);
    if reading.Err? || !ok || reading.value.snap.state == [] || reading.value.version != RUNTIME_VERSION {
      RestoredState(fields);
      return Err;
    }
    RestoredState(fields);
    return Ok(reading.value.snap);
  }

  lemma RestoredState(fs: seq<Field>)
    ensures Restored(fs).state == BytesOf(fs, 1)
  {
  }

  method ReadFields(fields: seq<Field>) returns (r: Result<Reading>)
    ensures r.Ok? <==> Acceptable(fields)
    ensures r.Ok? ==> r.value == Reading(Restored(fields), BytesOf(fields, 2))
  {
    hide Restored, BytesOf, Acceptable, Take;
    var reading := Reading(Snap([], Meta(0, 0, 0, false)), []);
    var seen: set<nat> := {};
    var i := 0;
    EmptyReading();
    while i < |fields|
      invariant i <= |fields|
      invariant Acceptable(fields[..i])
      invariant seen == set j | 0 <= j < i && Known(fields[j]) :: fields[j].tag
      invariant reading == Reading(Restored(fields[..i]), BytesOf(fields[..i], 2))
    {
      var f := fields[i];
      if Known(f) {
        if f.tag in seen || !WellTyped(f) {
          Unacceptable(fields, i);
          return Err;
        }
        seen := seen + {f.tag};
      }
      TakeReads(fields, i, reading);
      reading := Take(reading, f);
      StillAcceptable(fields, i);
      i := i + 1;
    }
    assert fields[..i] == fields;
    return Ok(reading);
  }

  lemma EmptyReading()
    ensures Restored([]) == Snap([], Meta(0, 0, 0, false)) && BytesOf([], 2) == [] && Acceptable([])
  {
  }

  lemma Unacceptable(fs: seq<Field>, i: nat)
    requires i < |fs| && Known(fs[i])
    requires !WellTyped(fs[i]) || exists j :: 0 <= j < i && fs[j].tag == fs[i].tag
    ensures !Acceptable(fs)
  {
    if exists j :: 0 <= j < i && fs[j].tag == fs[i].tag {
      var j :| 0 <= j < i && fs[j].tag == fs[i].tag;
      assert Known(fs[j]);
    }
  }

  lemma StillAcceptable(fs: seq<Field>, i: nat)
    requires i < |fs| && Acceptable(fs[..i])
    requires Known(fs[i]) ==> WellTyped(fs[i]) && forall j :: 0 <= j < i ==> fs[j].tag != fs[i].tag
    ensures Acceptable(fs[..i + 1])
  {
    var more := fs[..i + 1];
    forall j, k | 0 <= j < k < |more| && Known(more[j]) ensures more[j].tag != more[k].tag {
      if k < i {
        assert more[j] == fs[..i][j] && more[k] == fs[..i][k];
      }
    }
    forall j | 0 <= j < |more| && Known(more[j]) ensures WellTyped(more[j]) {
      if j < i {
        assert more[j] == fs[..i][j];
      }
    }
  }

  // ---------------------------------------------------------------------------
  // What the envelope guarantees

  /**
   An envelope is read back, and read back exactly, precisely when it holds a worker state and
   neither budget is negative: a session with a negative duration setting dumps what no session
   can load.
   */
  lemma SnapshotRoundTrip(state: Bytes, meta: Meta)
    requires |Write(SnapshotFields(state, meta))| < TWO64
    ensures
      var data := Magic() + Write(SnapshotFields(state, meta));
      && (Accepted(data) <==> state != [] && meta.duration >= 0 && meta.sleepUsed >= 0)
      && (Accepted(data) ==> Restored(Parse(data[19..]).fields) == Snap(state, meta.(hasSleepUsage := true)))
  {
    hide Write, Magic, Parse, Acceptable, Restored, BytesOf, SnapshotFields;
    var fs := SnapshotFields(state, meta);
    var data := Magic() + Write(fs);
    assert data[19..] == Write(fs);
    SnapshotShape(state, meta);
    ParseMessage(fs);
    SnapshotReads(state, meta);
    SnapshotAcceptable(state, meta);
  }

  lemma SnapshotShape(state: Bytes, meta: Meta)
    ensures AllShaped(SnapshotFields(state, meta)) && Increasing(SnapshotFields(state, meta))
  {
  }

  lemma SnapshotReads(state: Bytes, meta: Meta)
    ensures
      var fs := SnapshotFields(state, meta);
      && BytesOf(fs, 1) == state && BytesOf(fs, 2) == RUNTIME_VERSION
      && Restored(fs) == Snap(state, meta.(hasSleepUsage := true))
  {
    hide LastField;
    var fs := SnapshotFields(state, meta);
    SnapshotShape(state, meta);
    LastFieldAt(fs, 0, 1);
    LastFieldAt(fs, 1, 2);
    LastFieldAt(fs, 2, 3);
    LastFieldAt(fs, 3, 4);
    LastFieldAt(fs, 4, 5);
  }

  lemma SnapshotAcceptable(state: Bytes, meta: Meta)
    ensures Acceptable(SnapshotFields(state, meta)) <==> meta.duration >= 0 && meta.sleepUsed >= 0
  {
    var fs := SnapshotFields(state, meta);
    assert fs[2] == VarintField(3, ToU64(meta.duration)) && fs[4] == VarintField(5, ToU64(meta.sleepUsed));
    assert meta.duration < 0 ==> !WellTyped(fs[2]);
    assert meta.sleepUsed < 0 ==> !WellTyped(fs[4]);
  }

  lemma MagicSays()
    ensures forall i :: 0 <= i < 17 ==> Magic()[i] as int == "monty-go snapshot"[i] as int
    ensures Magic()[17] == 0 && Magic()[18] == 1
  {
  }

  /** No envelope of another runtime's version is accepted, whatever else it says. */
  lemma VersionDecides(data: Bytes)
    requires Accepted(data)
    ensures Magic() <= data && Parse(data[19..]).ok
    ensures exists i ::
      && 0 <= i < |Parse(data[19..]).fields| && Parse(data[19..]).fields[i].tag == 2
      && Parse(data[19..]).fields[i].bytes == [49, 46, 50, 46, 48]
  {
    hide Magic, Parse, Acceptable;
    var fs := Parse(data[19..]).fields;
    LastFieldFound(fs, 2);
  }

  lemma Appended(data: Bytes, f: Field)
    requires Magic() <= data && Parse(data[19..]).ok && Canonical(f)
    ensures Magic() <= data + WriteField(f)
    ensures Parse((data + WriteField(f))[19..]) == Parsed(Parse(data[19..]).fields + [f], true)
  {
    hide Magic, Parse, WriteField;
    ParseConcat(data[19..], WriteField(f));
    ParseWriteField(f);
    assert (data + WriteField(f))[19..] == data[19..] + WriteField(f);
  }

  /** Appending any known field to an accepted envelope, repeated or mistyped, spoils it. */
  lemma AppendedFieldIsRejected(data: Bytes, f: Field)
    requires Accepted(data) && Canonical(f) && Known(f)
    requires !WellTyped(f) || LastField(Parse(data[19..]).fields, f.tag).Some?
    ensures !Accepted(data + WriteField(f))
  {
    hide Magic, Parse, WriteField, LastField, Acceptable, Canonical, BytesOf;
    Appended(data, f);
    var fs := Parse(data[19..]).fields;
    if LastField(fs, f.tag).Some? {
      LastFieldIsThere(fs, f.tag);
      var i :| 0 <= i < |fs| && fs[i].tag == f.tag;
      assert (fs + [f])[i].tag == f.tag;
    }
    Unacceptable(fs + [f], |fs|);
  }

  /** Fields of later formats are ignored: they change neither acceptance nor what is restored. */
  lemma UnknownFieldIsIgnored(data: Bytes, f: Field)
    requires Magic() <= data && Parse(data[19..]).ok && Canonical(f) && !Known(f)
    ensures Accepted(data + WriteField(f)) <==> Accepted(data)
    ensures Restored(Parse((data + WriteField(f))[19..]).fields) == Restored(Parse(data[19..]).fields)
  {
    hide Magic, Parse, WriteField, LastField, Acceptable, Canonical;
    Appended(data, f);
    var fs := Parse(data[19..]).fields;
    forall tag: nat | 1 <= tag <= 5 ensures LastField(fs + [f], tag) == LastField(fs, tag) {
      LastFieldSkip(fs, [f], tag);
    }
    UnknownIsAcceptable(fs, f);
  }

  lemma UnknownIsAcceptable(fs: seq<Field>, f: Field)
    requires !Known(f)
    ensures Acceptable(fs + [f]) <==> Acceptable(fs)
  {
    var more := fs + [f];
    if Acceptable(fs) {
      assert more[..|fs|] == fs;
      StillAcceptable(more, |fs|);
      assert more[..|fs| + 1] == more;
    }
    if Acceptable(more) {
      forall i, j | 0 <= i < j < |fs| && Known(fs[i]) ensures fs[i].tag != fs[j].tag {
        assert more[i] == fs[i] && more[j] == fs[j];
      }
      forall i | 0 <= i < |fs| && Known(fs[i]) ensures WellTyped(fs[i]) {
        assert more[i] == fs[i];
      }
    }
  }

  lemma {:induction false} LastFieldFound(fs: seq<Field>, tag: nat)
    ensures LastField(fs, tag).Some? ==>
      exists i :: 0 <= i < |fs| && fs[i].tag == tag && fs[i] == LastField(fs, tag).value
  {
    if fs != [] && fs[|fs| - 1].tag != tag {
      LastFieldFound(fs[..|fs| - 1], tag);
    }
  }

  lemma {:induction false} LastFieldIsThere(fs: seq<Field>, tag: nat)
    requires LastField(fs, tag).Some?
    ensures exists i :: 0 <= i < |fs| && fs[i].tag == tag
  {
    if fs[|fs| - 1].tag != tag {
      LastFieldIsThere(fs[..|fs| - 1], tag);
      var i :| 0 <= i < |fs| - 1 && fs[..|fs| - 1][i].tag == tag;
      assert fs[i].tag == tag;
    }
  }
}
