/**
 Messages that leave out what has its default value. Protocol Buffers writers need not write a
 scalar that is zero or a string that is empty; a reader must not be able to tell.
 */
module Omitted {
  import opened Common
  import opened Wire
  import opened Values
  import opened Nested
  import opened ArenaDecode
  import opened ArenaTheorems

  /** A field that says what its absence says. */
  predicate IsZero(f: Field)
  {
    f.varint == 0 && f.fixed64 == 0 && f.bytes == []
  }

  /** The same message but for one zero field, the only one with its tag. */
  ghost predicate OmittedAt(full: seq<Field>, less: seq<Field>, i: nat)
  {
    && i < |full| && IsZero(full[i]) && less == full[..i] + full[i + 1..]
    && forall j :: 0 <= j < |full| && j != i ==> full[j].tag != full[i].tag
  }

  /** Two bodies that differ by one zero field with this tag. */
  ghost predicate Omits(full: Bytes, less: Bytes, tag: nat)
  {
    var p, q := Parse(full), Parse(less);
    p.ok == q.ok && exists i: nat :: OmittedAt(p.fields, q.fields, i) && p.fields[i].tag == tag
  }

  lemma WithoutOne(a: seq<Field>, z: Field, b: seq<Field>)
    requires forall j :: 0 <= j < |a + b| ==> (a + b)[j].tag != z.tag
    requires IsZero(z)
    ensures OmittedAt(a + [z] + b, a + b, |a|) && (a + [z] + b)[|a|] == z
    ensures AllShaped(a + [z] + b) ==> AllShaped(a + b)
  {
    hide IsZero, Shaped;
    var full := a + [z] + b;
    assert a == full[..|a|] && b == full[|a| + 1..];
    forall j | 0 <= j < |full| && j != |a| ensures full[j].tag != z.tag {
      assert full[j] == (a + b)[if j < |a| then j else j - 1];
    }
    forall j | 0 <= j < |a + b| ensures (a + b)[j] == full[if j < |a| then j else j + 1] {
    }
  }

  /** Leaving a zero field out of what is written. */
  lemma WritingLess(a: seq<Field>, z: Field, b: seq<Field>)
    requires AllShaped(a + [z] + b) && |Write(a + [z] + b)| < TWO64 && |Write(a + b)| < TWO64 && IsZero(z)
    requires forall j :: 0 <= j < |a + b| ==> (a + b)[j].tag != z.tag
    ensures Omits(Write(a + [z] + b), Write(a + b), z.tag)
  {
    hide Write, Parse, OmittedAt, IsZero, AllShaped;
    WithoutOne(a, z, b);
    ParseMessage(a + [z] + b);
    ParseMessage(a + b);
  }

  // ---------------------------------------------------------------------------
  // Reading by tag

  ghost predicate IsLast(fs: seq<Field>, tag: nat, i: int)
  {
    0 <= i < |fs| && fs[i].tag == tag && forall j :: i < j < |fs| ==> fs[j].tag != tag
  }

  /** The last field with a tag is the one that counts, and there is none exactly when there is none. */
  lemma {:induction false} LastFieldIs(fs: seq<Field>, tag: nat)
    ensures LastField(fs, tag).None? <==> forall i :: 0 <= i < |fs| ==> fs[i].tag != tag
    ensures LastField(fs, tag).Some? ==> exists i :: IsLast(fs, tag, i) && fs[i] == LastField(fs, tag).value
  {
    if fs != [] && fs[|fs| - 1].tag != tag {
      var init := fs[..|fs| - 1];
      LastFieldIs(init, tag);
      if LastField(init, tag).Some? {
        var i :| IsLast(init, tag, i) && init[i] == LastField(init, tag).value;
        assert fs[i] == init[i] && forall j :: i < j < |init| ==> fs[j] == init[j];
        assert IsLast(fs, tag, i);
      }
    } else if fs != [] {
      assert IsLast(fs, tag, |fs| - 1);
    }
  }

  lemma {:induction false} LastFieldOmitted(full: seq<Field>, less: seq<Field>, i: nat, tag: nat)
    requires i < |full| && less == full[..i] + full[i + 1..] && full[i].tag != tag
    ensures LastField(less, tag) == LastField(full, tag)
    decreases |full|
  {
    var k := |full| - 1;
    if i == k {
      assert less == full[..k];
    } else if full[k].tag != tag {
      assert less[|less| - 1] == full[k];
      assert less[..|less| - 1] == full[..k][..i] + full[..k][i + 1..];
      LastFieldOmitted(full[..k], less[..|less| - 1], i, tag);
    } else {
      assert less[|less| - 1] == full[k];
    }
  }

  lemma ReadsOmitted(full: seq<Field>, less: seq<Field>, i: nat)
    requires OmittedAt(full, less, i)
    ensures forall tag: nat :: VarintOf(less, tag) == VarintOf(full, tag) && BytesOf(less, tag) == BytesOf(full, tag)
    ensures forall tag: nat :: tag != full[i].tag ==> LastField(less, tag) == LastField(full, tag)
  {
    forall tag: nat ensures VarintOf(less, tag) == VarintOf(full, tag) && BytesOf(less, tag) == BytesOf(full, tag) {
      if tag != full[i].tag {
        LastFieldOmitted(full, less, i, tag);
      } else {
        LastFieldIs(full, tag);
        LastFieldIs(less, tag);
        assert forall j :: 0 <= j < |less| ==> less[j] == full[if j < i then j else j + 1];
      }
    }
    forall tag: nat | tag != full[i].tag ensures LastField(less, tag) == LastField(full, tag) {
      LastFieldOmitted(full, less, i, tag);
    }
  }

  lemma {:induction false} AllBytesOmitted(full: seq<Field>, less: seq<Field>, i: nat, tag: nat)
    requires i < |full| && less == full[..i] + full[i + 1..] && full[i].tag != tag
    ensures AllBytesOf(less, tag) == AllBytesOf(full, tag)
  {
    AllBytesConcat(full[..i], full[i + 1..], tag);
    assert full == full[..i] + ([full[i]] + full[i + 1..]);
    AllBytesConcat(full[..i], [full[i]] + full[i + 1..], tag);
    assert ([full[i]] + full[i + 1..])[1..] == full[i + 1..];
  }

  lemma {:induction false} IndexesOmitted(full: seq<Field>, less: seq<Field>, i: nat, tag: nat)
    requires i < |full| && less == full[..i] + full[i + 1..] && full[i].tag != tag
    ensures Indexes(less, tag) == Indexes(full, tag)
    decreases i
  {
    if i == 0 {
      assert less == full[1..];
    } else {
      assert less[0] == full[0] && less[1..] == full[1..][..i - 1] + full[1..][i..];
      IndexesOmitted(full[1..], less[1..], i - 1, tag);
    }
  }

  lemma {:induction false} LastPairsOmitted(
      full: seq<Field>, less: seq<Field>, i: nat, tag: nat, last: seq<Pair>, values: seq<Value>)
    requires i < |full| && less == full[..i] + full[i + 1..] && full[i].tag != tag
    ensures LastArenaPairs(less, tag, last, values) == LastArenaPairs(full, tag, last, values)
    decreases i
  {
    hide ArenaPairs;
    if i == 0 {
      assert less == full[1..];
    } else {
      assert less[0] == full[0] && less[1..] == full[1..][..i - 1] + full[1..][i..];
      if full[0].tag != tag {
        LastPairsOmitted(full[1..], less[1..], i - 1, tag, last, values);
      } else if ArenaPairs(full[0].bytes, values).Ok? {
        LastPairsOmitted(full[1..], less[1..], i - 1, tag, ArenaPairs(full[0].bytes, values).value, values);
      }
    }
  }

  lemma {:induction false} LastDictOmitted(
      full: seq<Field>, less: seq<Field>, i: nat, tag: nat, last: seq<Pair>, n: nat, m: nat)
    requires Below(full, n) && Below(less, m)
    requires i < |full| && less == full[..i] + full[i + 1..] && full[i].tag != tag
    ensures DecodeLastDict(less, tag, last, m) == DecodeLastDict(full, tag, last, n)
    decreases |full|
  {
    hide DecodeDict;
    if i == 0 {
      assert less == full[1..];
      LastDictAnyBound(less, tag, last, n, m);
    } else {
      assert less[0] == full[0] && less[1..] == full[1..][..i - 1] + full[1..][i..];
      if full[0].tag != tag {
        LastDictOmitted(full[1..], less[1..], i - 1, tag, last, n, m);
      } else if DecodeDict(full[0].bytes).Ok? {
        LastDictOmitted(full[1..], less[1..], i - 1, tag, DecodeDict(full[0].bytes).value, n, m);
      }
    }
  }

  lemma {:induction false} LastDictAnyBound(fs: seq<Field>, tag: nat, last: seq<Pair>, n: nat, m: nat)
    requires Below(fs, n) && Below(fs, m)
    ensures DecodeLastDict(fs, tag, last, n) == DecodeLastDict(fs, tag, last, m)
    decreases |fs|
  {
    hide DecodeDict;
    if fs != [] {
      if fs[0].tag != tag {
        LastDictAnyBound(fs[1..], tag, last, n, m);
      } else if DecodeDict(fs[0].bytes).Ok? {
        LastDictAnyBound(fs[1..], tag, DecodeDict(fs[0].bytes).value, n, m);
      }
    }
  }

  // ---------------------------------------------------------------------------
  // Kinds

  /** The parts of each kind's message whose absence means zero, or the empty string. */
  predicate Implicit(kind: nat, tag: nat)
  {
    match kind
    case 6 => tag == 1 || tag == 2
    case 13 => tag == 1
    case 17 => 1 <= tag <= 3
    case 18 => 1 <= tag <= 4 || tag == 7
    case 19 => 1 <= tag <= 7
    case 20 => 1 <= tag <= 3
    case 21 => tag == 1
    case 22 => tag == 1 || tag == 2
    case 23 => tag == 1 || tag == 3 || tag == 4
    case 25 => tag == 1
    case 28 => 1 <= tag <= 3
    case _ => false
  }

  lemma ScalarOmitted(f: Field, g: Field, tag: nat)
    requires g == f.(bytes := g.bytes) && Omits(f.bytes, g.bytes, tag) && Implicit(f.tag, tag)
    requires f.tag != 13 && f.tag != 23
    ensures DecodeScalar(g) == DecodeScalar(f)
  {
    hide Parse, VarintOf, BytesOf, LastField, FromBigEndian, ToI32, ToI64;
    var full, less := Parse(f.bytes).fields, Parse(g.bytes).fields;
    var i: nat :| OmittedAt(full, less, i) && full[i].tag == tag;
    ReadsOmitted(full, less, i);
  }

  lemma {:induction false} ItemsAnyBound(fs: seq<Field>, tag: nat, n: nat, m: nat)
    requires Below(fs, n) && Below(fs, m)
    ensures DecodeItems(fs, tag, n) == DecodeItems(fs, tag, m)
    decreases |fs|
  {
    hide DecodeValue;
    if fs != [] {
      ItemsAnyBound(fs[1..], tag, n, m);
    }
  }

  lemma {:induction false} ItemsOmitted(full: seq<Field>, less: seq<Field>, i: nat, tag: nat, n: nat, m: nat)
    requires Below(full, n) && Below(less, m)
    requires i < |full| && less == full[..i] + full[i + 1..] && full[i].tag != tag
    ensures DecodeItems(less, tag, m) == DecodeItems(full, tag, n)
    decreases i
  {
    hide DecodeValue;
    if i == 0 {
      assert less == full[1..];
      ItemsAnyBound(less, tag, n, m);
    } else {
      assert less[0] == full[0] && less[1..] == full[1..][..i - 1] + full[1..][i..];
      ItemsOmitted(full[1..], less[1..], i - 1, tag, n, m);
    }
  }

  lemma UuidsOmitted(full: seq<Field>, less: seq<Field>, i: nat, tag: nat)
    requires i < |full| && less == full[..i] + full[i + 1..] && full[i].tag != tag
    ensures UuidsDecode(less, tag) == UuidsDecode(full, tag)
  {
    hide DecodeUuid;
    if UuidsDecode(full, tag) {
      forall j | 0 <= j < |less| && less[j].tag == tag ensures DecodeUuid(less[j].bytes).Ok? {
        assert less[j] == full[if j < i then j else j + 1];
      }
    }
    if UuidsDecode(less, tag) {
      forall j | 0 <= j < |full| && full[j].tag == tag ensures DecodeUuid(full[j].bytes).Ok? {
        assert full[j] == less[if j < i then j else j - 1];
      }
    }
  }

  lemma ClassOmitted(full: Bytes, less: Bytes, tag: nat)
    requires Omits(full, less, tag) && Implicit(23, tag)
    ensures DecodeClass(less) == DecodeClass(full)
  {
    hide Parse, VarintOf, BytesOf, LastField, DecodeLastDict, UuidsDecode;
    var fs, gs := Parse(full).fields, Parse(less).fields;
    var i: nat :| OmittedAt(fs, gs, i) && fs[i].tag == tag;
    ReadsOmitted(fs, gs, i);
    UuidsOmitted(fs, gs, i, 2);
    LastDictOmitted(fs, gs, i, 5, [], |full|, |less|);
  }

  lemma NestedTupleOmitted(full: Bytes, less: Bytes)
    requires Omits(full, less, 1)
    ensures DecodeKind(LenField(13, less)) == DecodeKind(LenField(13, full))
  {
    hide Parse, VarintOf, BytesOf, AllBytesOf, LastField, DecodeItems;
    var fs, gs := Parse(full).fields, Parse(less).fields;
    var i: nat :| OmittedAt(fs, gs, i) && fs[i].tag == 1;
    ReadsOmitted(fs, gs, i);
    AllBytesOmitted(fs, gs, i, 2);
    ItemsOmitted(fs, gs, i, 3, |full|, |less|);
  }

  lemma ClassKind(body: Bytes)
    ensures DecodeKind(LenField(23, body)) == (
      match DecodeClass(body)
      case Err => Err
      case Ok(c) => Ok(if c.origin == 1 then Type(c.name) else ClassType(c)))
  {
    hide DecodeClass;
  }

  lemma KindOmitted(kind: nat, full: Bytes, less: Bytes, tag: nat)
    requires Omits(full, less, tag) && Implicit(kind, tag)
    ensures DecodeKind(LenField(kind, less)) == DecodeKind(LenField(kind, full))
  {
    hide Omits, DecodeKind, DecodeClass, DecodeScalar;
    if kind == 13 {
      NestedTupleOmitted(full, less);
    } else if kind == 23 {
      ClassOmitted(full, less, tag);
      ClassKind(full);
      ClassKind(less);
    } else {
      ScalarOmitted(LenField(kind, full), LenField(kind, less), tag);
      DecodeKindOfScalar(LenField(kind, full));
      DecodeKindOfScalar(LenField(kind, less));
    }
  }

  lemma NodeClassOmitted(full: Bytes, less: Bytes, tag: nat, values: seq<Value>)
    requires Omits(full, less, tag) && Implicit(23, tag)
    ensures NodeClass(less, values) == NodeClass(full, values)
  {
    hide Parse, VarintOf, BytesOf, LastField, LastArenaPairs, UuidsDecode;
    var fs, gs := Parse(full).fields, Parse(less).fields;
    var i: nat :| OmittedAt(fs, gs, i) && fs[i].tag == tag;
    ReadsOmitted(fs, gs, i);
    UuidsOmitted(fs, gs, i, 2);
    LastPairsOmitted(fs, gs, i, 5, [], values);
  }

  lemma NodeInstanceOmitted(full: Bytes, less: Bytes, values: seq<Value>)
    requires Omits(full, less, 1)
    ensures NodeInstance(less, values) == NodeInstance(full, values)
  {
    hide Parse, VarintOf, BytesOf, LastField, LastArenaPairs, DecodeUuid;
    var fs, gs := Parse(full).fields, Parse(less).fields;
    var i: nat :| OmittedAt(fs, gs, i) && fs[i].tag == 1;
    ReadsOmitted(fs, gs, i);
    LastPairsOmitted(fs, gs, i, 3, [], values);
  }

  lemma NamedTupleOmitted(full: Bytes, less: Bytes, values: seq<Value>)
    requires Omits(full, less, 1)
    ensures NodeNamedTuple(less, values) == NodeNamedTuple(full, values)
  {
    hide Parse, VarintOf, BytesOf, AllBytesOf, LastField, Indexes;
    var fs, gs := Parse(full).fields, Parse(less).fields;
    var i: nat :| OmittedAt(fs, gs, i) && fs[i].tag == 1;
    ReadsOmitted(fs, gs, i);
    AllBytesOmitted(fs, gs, i, 2);
    IndexesOmitted(fs, gs, i, 3);
  }

  lemma TimeOmitted(full: Bytes, less: Bytes, tag: nat)
    requires Omits(full, less, tag) && Implicit(18, tag)
    ensures TimeOf(Parse(less).fields) == TimeOf(Parse(full).fields) && Parse(less).ok == Parse(full).ok
  {
    hide Parse, VarintOf, BytesOf, LastField, ToI64;
    var fs, gs := Parse(full).fields, Parse(less).fields;
    var i: nat :| OmittedAt(fs, gs, i) && fs[i].tag == tag;
    ReadsOmitted(fs, gs, i);
  }

  lemma PassedNode(kind: nat, body: Bytes, values: seq<Value>)
    requires PassedThrough(kind) && kind > 5 && kind != 7 && |body| < TWO64
    ensures DecodeNodeKind(LenField(kind, body), values) == DecodeKind(LenField(kind, body))
  {
    hide Parse, WriteField, DecodeKind;
    ParseWriteField(LenField(kind, body));
  }

  /**
   What a kind's message says does not depend on whether its zeros and empty strings are written out,
   neither in a nested message nor in an arena node; an instance's class index counts as well there.
   */
  lemma OmittedMeansZero(kind: nat, full: Bytes, less: Bytes, tag: nat, values: seq<Value>)
    requires Omits(full, less, tag) && |full| < TWO64 && |less| < TWO64
    requires Implicit(kind, tag) || (kind == 24 && tag == 1)
    ensures kind != 24 ==> DecodeKind(LenField(kind, less)) == DecodeKind(LenField(kind, full))
    ensures Implicit(kind, tag) && kind != 13 && kind != 23 ==>
      DecodeScalar(LenField(kind, less)) == DecodeScalar(LenField(kind, full))
    ensures DecodeNodeKind(LenField(kind, less), values) == DecodeNodeKind(LenField(kind, full), values)
  {
    hide Parse, Omits, DecodeKind, DecodeScalar, NodeNamedTuple, NodeClass, NodeInstance, TimeOf, DecodeValue,
      WriteField;
    if kind == 24 {
      NodeInstanceOmitted(full, less, values);
    } else {
      KindOmitted(kind, full, less, tag);
      if kind == 13 {
        NamedTupleOmitted(full, less, values);
      } else if kind == 23 {
        NodeClassOmitted(full, less, tag, values);
      } else {
        ScalarOmitted(LenField(kind, full), LenField(kind, less), tag);
        if kind == 18 {
          TimeOmitted(full, less, tag);
        } else {
          hide DecodeNodeKind;
          PassedNode(kind, full, values);
          PassedNode(kind, less, values);
        }
      }
    }
  }

  /** An optional number or string is another matter: there a zero that is written is not an absent one. */
  lemma OptionalIsKept(fs: seq<Field>, tag: nat)
    ensures OptInt32Of(fs + [VarintField(tag, 0)], tag) == Some(0)
    ensures OptBytesOf(fs + [LenField(tag, [])], tag) == Some([])
    ensures (forall i :: 0 <= i < |fs| ==> fs[i].tag != tag) ==>
      OptInt32Of(fs, tag) == None && OptBytesOf(fs, tag) == None
  {
    LastFieldIs(fs, tag);
  }

  // ---------------------------------------------------------------------------
  // Pairs of references

  /** A pair whose key or value is node 0 need not say so. */
  lemma PairOmitted(full: Bytes, less: Bytes, tag: nat, values: seq<Value>)
    requires Omits(full, less, tag) && (tag == 1 || tag == 2)
    ensures ResolvePair(less, values) == ResolvePair(full, values)
  {
    hide Parse, VarintOf, BytesOf, LastField;
    var fs, gs := Parse(full).fields, Parse(less).fields;
    var i: nat :| OmittedAt(fs, gs, i) && fs[i].tag == tag;
    ReadsOmitted(fs, gs, i);
  }

  /** The two shortest pairs: the key, or the value, is node 0. */
  lemma PairFromOneIndex(k: U64, values: seq<Value>)
    requires k < |values|
    ensures ResolvePair(Write([VarintField(2, k)]), values) == Ok(Pair(values[0], values[k]))
    ensures ResolvePair(Write([VarintField(1, k)]), values) == Ok(Pair(values[k], values[0]))
    ensures ResolvePair([], values) == Ok(Pair(values[0], values[0]))
  {
    assert Parse([]) == Parsed([], true) && VarintOf([], 1) == 0 == VarintOf([], 2);
    hide Parse, Write, VarintOf;
    ParseOne(VarintField(2, k));
    ParseOne(VarintField(1, k));
    OneVarint(1, k, 1);
    OneVarint(1, k, 2);
    OneVarint(2, k, 1);
    OneVarint(2, k, 2);
  }

  lemma OneVarint(tag: nat, k: U64, u: nat)
    ensures VarintOf([VarintField(tag, k)], u) == if u == tag then k else 0
  {
    if u == tag {
      LastFieldAt([VarintField(tag, k)], 0, tag);
    } else {
      LastFieldAbsent([VarintField(tag, k)], u);
    }
  }

  lemma ParseOne(f: Field)
    requires Canonical(f)
    ensures Parse(Write([f])) == Parsed([f], true)
  {
    hide Parse, WriteField;
    ParseWriteField(f);
    assert Write([f]) == WriteField(f) + Write([]);
    assert WriteField(f) + [] == WriteField(f);
  }

  ghost predicate PairOmitsAt(fs: seq<Field>, gs: seq<Field>, i: nat, tag: nat)
  {
    && i < |fs| == |gs| && fs[i].tag == 1 && 1 <= tag <= 2
    && gs == fs[i := fs[i].(bytes := gs[i].bytes)] && Omits(fs[i].bytes, gs[i].bytes, tag)
  }

  /** Two lists of pairs that differ by an index of zero in one pair. */
  ghost predicate PairsOmit(full: Bytes, less: Bytes)
  {
    var p, q := Parse(full), Parse(less);
    p.ok == q.ok && exists i: nat, tag: nat :: PairOmitsAt(p.fields, q.fields, i, tag)
  }

  lemma {:induction false} PairsReplaced(fs: seq<Field>, gs: seq<Field>, i: nat, values: seq<Value>)
    requires i < |fs| == |gs| && gs == fs[i := gs[i]] && gs[i].tag == fs[i].tag
    requires ResolvePair(gs[i].bytes, values) == ResolvePair(fs[i].bytes, values)
    ensures ResolvePairs(gs, values) == ResolvePairs(fs, values)
    decreases i
  {
    hide ResolvePair;
    if i > 0 {
      assert gs[0] == fs[0] && gs[1..] == fs[1..][i - 1 := gs[i]];
      PairsReplaced(fs[1..], gs[1..], i - 1, values);
    } else {
      assert gs[1..] == fs[1..];
    }
  }

  lemma ArenaPairsOmitted(full: Bytes, less: Bytes, values: seq<Value>)
    requires PairsOmit(full, less)
    ensures ArenaPairs(less, values) == ArenaPairs(full, values)
  {
    hide Parse, Omits, ResolvePairs;
    var fs, gs := Parse(full).fields, Parse(less).fields;
    var i: nat, tag: nat :| PairOmitsAt(fs, gs, i, tag);
    PairOmitted(fs[i].bytes, gs[i].bytes, tag, values);
    PairsReplaced(fs, gs, i, values);
  }

  /** So with a dict, and with the attributes that are last in a module, class or instance. */
  lemma OmittedIndexMeansZero(full: Bytes, less: Bytes, values: seq<Value>)
    requires PairsOmit(full, less)
    ensures DecodeNodeKind(LenField(14, less), values) == DecodeNodeKind(LenField(14, full), values)
    ensures forall fs, tag, last :: LastArenaPairs(fs + [LenField(tag, less)], tag, last, values)
                                 == LastArenaPairs(fs + [LenField(tag, full)], tag, last, values)
  {
    hide PairsOmit, ArenaPairs, LastArenaPairs;
    ArenaPairsOmitted(full, less, values);
    forall fs, tag, last ensures LastArenaPairs(fs + [LenField(tag, less)], tag, last, values)
                              == LastArenaPairs(fs + [LenField(tag, full)], tag, last, values)
    {
      AttrsReplaced(fs, full, less, tag, last, values);
    }
  }

  lemma {:induction false} AttrsReplaced(
      fs: seq<Field>, full: Bytes, less: Bytes, tag: nat, last: seq<Pair>, values: seq<Value>)
    requires ArenaPairs(less, values) == ArenaPairs(full, values)
    ensures LastArenaPairs(fs + [LenField(tag, less)], tag, last, values)
         == LastArenaPairs(fs + [LenField(tag, full)], tag, last, values)
    decreases |fs|
  {
    hide ArenaPairs;
    var a, b := fs + [LenField(tag, less)], fs + [LenField(tag, full)];
    if fs == [] {
      assert a[1..] == [] && b[1..] == [];
    } else {
      assert a[0] == fs[0] == b[0];
      assert a[1..] == fs[1..] + [LenField(tag, less)] && b[1..] == fs[1..] + [LenField(tag, full)];
      if fs[0].tag != tag {
        AttrsReplaced(fs[1..], full, less, tag, last, values);
      } else if ArenaPairs(fs[0].bytes, values).Ok? {
        AttrsReplaced(fs[1..], full, less, tag, ArenaPairs(fs[0].bytes, values).value, values);
      }
    }
  }
}
