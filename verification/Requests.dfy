/** Feed requests: named inputs that share one arena. */
module Requests {
  import opened Common
  import opened Wire
  import opened Values
  import opened Nested
  import opened Arena
  import opened ArenaDecode
  import opened ArenaMeaning
  import opened ArenaTheorems

  datatype Input = Input(name: Bytes, value: Value)

  /** An input as it stands in the request: its name and the arena index of its value. */
  datatype Named = Named(name: Bytes, index: U64)

  function NamedBytes(n: Named): Bytes
  {
    Write([LenField(1, n.name), VarintField(2, n.index)])
  }

  function NamedFields(ns: seq<Named>): seq<Field>
  {
    if ns == [] then [] else NamedFields(ns[..|ns| - 1]) + [LenField(2, NamedBytes(ns[|ns| - 1]))]
  }

  function ReadNamed(data: Bytes): Named
  {
    var fs := Parse(data).fields;
    Named(BytesOf(fs, 1), VarintOf(fs, 2))
  }

  function ReadAllNamed(datas: seq<Bytes>): seq<Named>
  {
    if datas == [] then [] else ReadAllNamed(datas[..|datas| - 1]) + [ReadNamed(datas[|datas| - 1])]
  }

  function FeedFields(code: Bytes, ns: seq<Named>, arena: Bytes, skip: bool, cwd: Bytes): seq<Field>
  {
    [LenField(1, code)] + NamedFields(ns)
    + ([LenField(3, arena), VarintField(4, if skip then 1 else 0)] + if cwd == [] then [] else [LenField(5, cwd)])
  }

  function InputValues(inputs: seq<Input>): (vs: seq<Value>)
    ensures |vs| == |inputs|
    ensures forall i :: 0 <= i < |inputs| ==> vs[i] == inputs[i].value
  {
    seq(|inputs|, i requires 0 <= i < |inputs| => inputs[i].value)
  }

  /** The names with the indexes their values got, one after another. */
  function NamedInputs(inputs: seq<Input>): (ns: seq<Named>)
    requires AllEncodable(InputValues(inputs))
    ensures |ns| == |inputs|
    ensures forall i :: 0 <= i < |inputs| ==> ns[i] == Named(inputs[i].name, IndexOf(InputValues(inputs), i))
  {
    seq(|inputs|, i requires 0 <= i < |inputs| => Named(inputs[i].name, IndexOf(InputValues(inputs), i)))
  }

  lemma {:induction false} FlattenAllSnoc(nodes: seq<Bytes>, vs: seq<Value>, v: Value)
    requires AllEncodable(vs) && AllEncodable(vs + [v]) && Encodable(v)
    ensures FlattenAll(nodes, vs + [v])
         == match FlattenAll(nodes, vs) case Err => Err case Ok(ns) => Flatten(ns, EncodeValue(v))
    decreases |vs|
  {
    hide Flatten, EncodeValue, Encodable;
    if vs == [] {
      assert vs + [v] == [v];
    } else {
      assert (vs + [v])[1..] == vs[1..] + [v];
      assert AllEncodable(vs[1..]) && AllEncodable(vs[1..] + [v]);
      match Flatten(nodes, EncodeValue(vs[0])) {
        case Err =>
        case Ok(ns) => FlattenAllSnoc(ns, vs[1..], v);
      }
    }
  }

  /** Adds one input's value to the arena and its name to the request. */
  method AddInput(a: ArenaEncoder, code: Bytes, inputs: seq<Input>, i: nat, b: Bytes) returns (c: Bytes)
    requires i < |inputs| && AllEncodable(InputValues(inputs)) && Sized(InputValues(inputs))
    requires FlattenAll([], InputValues(inputs)[..i]) == Ok(a.nodes)
    requires b == Write([LenField(1, code)] + NamedFields(NamedInputs(inputs)[..i]))
    modifies a
    ensures FlattenAll([], InputValues(inputs)[..i + 1]) == Ok(a.nodes)
    ensures c == Write([LenField(1, code)] + NamedFields(NamedInputs(inputs)[..i + 1]))
  {
    hide Flatten, EncodeValue, Encodable, IndexOf, Write, NamedBytes, FieldBytes, FlattenAll, InputValues, NamedInputs,
      NamedFields, Sized;
    ghost var ns := NamedInputs(inputs);
    AddOne(InputValues(inputs), i, a.nodes);
    var index := a.AddLegacy(EncodeValue(inputs[i].value));
    var n := Named(inputs[i].name, index.value);
    assert ns[..i + 1] == ns[..i] + [n];
    WriteNamed(code, ns[..i], n);
    c := b + FieldBytes(2, NamedBytes(n));
  }

  /** Adds the inputs, in name order, to one arena, naming each by the index it got. */
  method FeedRequest(code: Bytes, inputs: seq<Input>, skip: bool, cwd: Bytes) returns (r: Bytes)
    requires AllEncodable(InputValues(inputs)) && Sized(InputValues(inputs))
    ensures FlattenAll([], InputValues(inputs)).Ok?
    ensures r == Write(FeedFields(code, NamedInputs(inputs),
                                  ArenaBytes(FlattenAll([], InputValues(inputs)).value), skip, cwd))
  {
    hide Encodable, IndexOf, Write, FieldBytes, FieldVarint, ArenaBytes, FlattenAll, InputValues, NamedInputs,
      NamedFields, FeedFields, Sized;
    var a := new ArenaEncoder();
    r := FieldBytes(1, code);
    var i := 0;
    FeedStarts(code);
    assert InputValues(inputs)[..0] == [] && NamedInputs(inputs)[..0] == [];
    while i < |inputs|
      invariant i <= |inputs| && FlattenAll([], InputValues(inputs)[..i]) == Ok(a.nodes)
      invariant r == Write([LenField(1, code)] + NamedFields(NamedInputs(inputs)[..i]))
    {
      r := AddInput(a, code, inputs, i, r);
      i := i + 1;
    }
    assert InputValues(inputs)[..i] == InputValues(inputs) && NamedInputs(inputs)[..i] == NamedInputs(inputs);
    var arena := a.Encode();
    FeedEnds(code, NamedInputs(inputs), arena, skip, cwd);
    var tail := FieldBytes(3, arena) + FieldBool(4, skip);
    r := r + (tail + if cwd == [] then [] else FieldBytes(5, cwd));
  }

  lemma AddOne(vs: seq<Value>, i: nat, nodes: seq<Bytes>)
    requires AllEncodable(vs) && Sized(vs) && i < |vs| && FlattenAll([], vs[..i]) == Ok(nodes)
    ensures Flatten(nodes, EncodeValue(vs[i])).Ok?
    ensures FlattenAll([], vs[..i + 1]) == Flatten(nodes, EncodeValue(vs[i]))
    ensures IndexOf(vs, i) == LastIndex(Flatten(nodes, EncodeValue(vs[i])).value)
  {
    hide Flatten, EncodeValue, Encodable, Decodes, PostOrder;
    assert vs[..i + 1] == vs[..i] + [vs[i]];
    FlattenAllSnoc([], vs[..i], vs[i]);
    FlattenMeaning(nodes, [], vs[i]);
  }

  lemma FeedStarts(code: Bytes)
    ensures FieldBytes(1, code) == Write([LenField(1, code)] + NamedFields([]))
    ensures FlattenAll([], []) == Ok([])
  {
    hide FieldBytes;
    assert [LenField(1, code)] + NamedFields([]) == [LenField(1, code)];
    assert Write([LenField(1, code)]) == WriteField(LenField(1, code)) + Write([]);
    assert FieldBytes(1, code) + [] == FieldBytes(1, code);
  }

  lemma WriteOne(f: Field)
    ensures Write([f]) == WriteField(f)
  {
    hide WriteField;
    assert Write([f]) == WriteField(f) + Write([]);
    assert WriteField(f) + [] == WriteField(f);
  }

  lemma WriteNamed(code: Bytes, ns: seq<Named>, n: Named)
    ensures Write([LenField(1, code)] + NamedFields(ns + [n]))
         == Write([LenField(1, code)] + NamedFields(ns)) + FieldBytes(2, NamedBytes(n))
  {
    hide Write, NamedBytes, FieldBytes;
    var f := LenField(2, NamedBytes(n));
    assert (ns + [n])[..|ns|] == ns;
    assert NamedFields(ns + [n]) == NamedFields(ns) + [f];
    ConcatAssoc([LenField(1, code)], NamedFields(ns), [f]);
    WriteConcat([LenField(1, code)] + NamedFields(ns), [f]);
    WriteOne(f);
  }

  lemma FeedEnds(code: Bytes, ns: seq<Named>, arena: Bytes, skip: bool, cwd: Bytes)
    ensures Write(FeedFields(code, ns, arena, skip, cwd))
         == Write([LenField(1, code)] + NamedFields(ns))
          + (FieldBytes(3, arena) + FieldBool(4, skip) + if cwd == [] then [] else FieldBytes(5, cwd))
  {
    hide Write, FieldBytes, FieldVarint;
    var last := if cwd == [] then [] else [LenField(5, cwd)];
    var two := [LenField(3, arena), VarintField(4, if skip then 1 else 0)];
    WriteConcat([LenField(1, code)] + NamedFields(ns), two + last);
    WriteConcat(two, last);
    WriteConcat([two[0]], [two[1]]);
    assert [two[0]] + [two[1]] == two;
    WriteOne(two[0]);
    WriteOne(two[1]);
    if cwd != [] {
      WriteOne(LenField(5, cwd));
    } else {
      assert Write([]) == [] by { WriteNothing(); }
    }
  }

  lemma WriteNothing()
    ensures Write([]) == []
  {
  }

  // ---------------------------------------------------------------------------
  // What the worker finds

  lemma NamedRoundTrip(n: Named)
    requires |NamedBytes(n)| < TWO64
    ensures ReadNamed(NamedBytes(n)) == n
  {
    hide Write, Parse, LastField;
    var fs := [LenField(1, n.name), VarintField(2, n.index)];
    assert AllShaped(fs) && Increasing(fs);
    ParseMessage(fs);
    LastFieldAt(fs, 0, 1);
    LastFieldAt(fs, 1, 2);
  }

  lemma ReadAllSnoc(datas: seq<Bytes>, d: Bytes)
    ensures ReadAllNamed(datas + [d]) == ReadAllNamed(datas) + [ReadNamed(d)]
  {
    hide ReadNamed;
    assert (datas + [d])[..|datas|] == datas;
  }

  lemma NamedFieldsSnoc(ns: seq<Named>, n: Named)
    ensures NamedFields(ns + [n]) == NamedFields(ns) + [LenField(2, NamedBytes(n))]
  {
    hide NamedBytes;
    assert (ns + [n])[..|ns|] == ns;
  }

  lemma NamedFieldsShape(ns: seq<Named>)
    ensures AllShaped(NamedFields(ns))
    ensures forall i :: 0 <= i < |NamedFields(ns)| ==> NamedFields(ns)[i].tag == 2
  {
    hide NamedBytes, NamedFields;
    NamedFieldsCount(ns);
    forall i | 0 <= i < |NamedFields(ns)| ensures Shaped(NamedFields(ns)[i]) && NamedFields(ns)[i].tag == 2 {
      NamedFieldsAt(ns, i);
    }
  }

  lemma {:induction false} NamedFieldsCount(ns: seq<Named>)
    ensures |NamedFields(ns)| == |ns|
  {
    hide NamedBytes;
    if ns != [] {
      NamedFieldsCount(ns[..|ns| - 1]);
    }
  }

  ghost predicate Short(ns: seq<Named>)
  {
    forall i :: 0 <= i < |ns| ==> |NamedBytes(ns[i])| < TWO64
  }

  lemma ShortSplits(ns: seq<Named>)
    requires ns != [] && Short(ns)
    ensures Short(ns[..|ns| - 1]) && |NamedBytes(ns[|ns| - 1])| < TWO64
  {
    hide NamedBytes;
  }

  lemma {:induction false} NamedFieldsRead(ns: seq<Named>)
    requires Short(ns)
    ensures ReadAllNamed(AllBytesOf(NamedFields(ns), 2)) == ns
  {
    hide NamedBytes, ReadNamed, NamedFields, AllBytesOf, ReadAllNamed, Short;
    if ns == [] {
      ReadNothing();
    } else {
      ShortSplits(ns);
      NamedRoundTrip(ns[|ns| - 1]);
      NamedFieldsRead(ns[..|ns| - 1]);
      ReadOneMore(ns[..|ns| - 1], ns[|ns| - 1]);
      assert ns[..|ns| - 1] + [ns[|ns| - 1]] == ns;
    }
  }

  lemma ReadNothing()
    ensures ReadAllNamed(AllBytesOf(NamedFields([]), 2)) == []
  {
    assert NamedFields([]) == [] && AllBytesOf([], 2) == [];
  }

  lemma ReadOneMore(ns: seq<Named>, n: Named)
    ensures ReadAllNamed(AllBytesOf(NamedFields(ns + [n]), 2))
         == ReadAllNamed(AllBytesOf(NamedFields(ns), 2)) + [ReadNamed(NamedBytes(n))]
  {
    hide NamedBytes, ReadNamed, NamedFields, AllBytesOf, ReadAllNamed;
    NamedFieldsSnoc(ns, n);
    AllBytesConcat(NamedFields(ns), [LenField(2, NamedBytes(n))], 2);
    OneBytes(NamedBytes(n));
    ReadAllSnoc(AllBytesOf(NamedFields(ns), 2), NamedBytes(n));
  }

  lemma OneBytes(b: Bytes)
    ensures AllBytesOf([LenField(2, b)], 2) == [b]
  {
    assert AllBytesOf([LenField(2, b)], 2) == [b] + AllBytesOf([], 2);
  }

  lemma {:induction false} NamedFieldsAt(ns: seq<Named>, i: nat)
    requires i < |ns|
    ensures |NamedFields(ns)| == |ns| && NamedFields(ns)[i] == LenField(2, NamedBytes(ns[i]))
  {
    hide NamedBytes;
    if |ns| == 1 {
    } else if i < |ns| - 1 {
      NamedFieldsAt(ns[..|ns| - 1], i);
    } else {
      NamedFieldsAt(ns[..|ns| - 1], 0);
    }
  }

  lemma NamedIsInside(code: Bytes, ns: seq<Named>, arena: Bytes, skip: bool, cwd: Bytes, i: nat)
    requires i < |ns|
    ensures |NamedBytes(ns[i])| < |Write(FeedFields(code, ns, arena, skip, cwd))|
  {
    hide Write, NamedBytes, NamedFields;
    NamedFieldsAt(ns, i);
    WriteLength(FeedFields(code, ns, arena, skip, cwd), i + 1);
  }

  lemma FeedFieldsRead(code: Bytes, ns: seq<Named>, arena: Bytes, skip: bool, cwd: Bytes)
    requires Short(ns)
    ensures
      var fs := FeedFields(code, ns, arena, skip, cwd);
      && AllShaped(fs) && ReadAllNamed(AllBytesOf(fs, 2)) == ns && BytesOf(fs, 1) == code && BytesOf(fs, 3) == arena
      && VarintOf(fs, 4) == (if skip then 1 else 0) && BytesOf(fs, 5) == cwd
  {
    hide NamedBytes, NamedFields, LastField, AllBytesOf, ReadAllNamed, Short;
    NamedFieldsRead(ns);
    NamedFieldsShape(ns);
    var head, mid := [LenField(1, code)], NamedFields(ns);
    var tail := [LenField(3, arena), VarintField(4, if skip then 1 else 0)]
      + if cwd == [] then [] else [LenField(5, cwd)];
    AllBytesConcat(head + mid, tail, 2);
    AllBytesConcat(head, mid, 2);
    AllBytesAbsent(head, 2);
    AllBytesAbsent(tail, 2);
    assert [] + AllBytesOf(mid, 2) + [] == AllBytesOf(mid, 2);
    LastFieldSkip(head + mid, tail, 1);
    LastFieldSkip(head, mid, 1);
    assert Increasing(head) && Increasing(tail);
    LastFieldAt(head, 0, 1);
    LastFieldAfter(head + mid, tail, 0, 3);
    LastFieldAfter(head + mid, tail, 1, 4);
    if cwd == [] {
      LastFieldSkip(head + mid, tail, 5);
      LastFieldSkip(head, mid, 5);
      LastFieldAbsent(head, 5);
    } else {
      LastFieldAfter(head + mid, tail, 2, 5);
    }
  }

  lemma {:induction false} LastFieldAbsent(fs: seq<Field>, tag: nat)
    requires forall i :: 0 <= i < |fs| ==> fs[i].tag != tag
    ensures LastField(fs, tag) == None
  {
    if fs != [] {
      LastFieldAbsent(fs[..|fs| - 1], tag);
    }
  }

  lemma {:induction false} LastFieldAfter(fs: seq<Field>, gs: seq<Field>, i: nat, tag: nat)
    requires Increasing(gs) && i < |gs| && gs[i].tag == tag
    ensures LastField(fs + gs, tag) == Some(gs[i])
    decreases |gs|
  {
    var last := gs[|gs| - 1];
    assert (fs + gs)[..|fs + gs| - 1] == fs + gs[..|gs| - 1];
    if i < |gs| - 1 {
      LastFieldAfter(fs, gs[..|gs| - 1], i, tag);
    }
  }

  /**
   Whatever the inputs share or contain, the worker finds every input under its name with exactly
   the value its own nested encoding denotes, and the code, the flag and the directory as given.
   */
  lemma FeedRequestCarriesInputs(code: Bytes, inputs: seq<Input>, skip: bool, cwd: Bytes)
    requires AllEncodable(InputValues(inputs)) && Sized(InputValues(inputs)) && FlattenAll([], InputValues(inputs)).Ok?
    requires
      var arena := ArenaBytes(FlattenAll([], InputValues(inputs)).value);
      && |arena| <= MAX_FRAME_LEN
      && |Write(FeedFields(code, NamedInputs(inputs), arena, skip, cwd))| < TWO64
    ensures
      var arena := ArenaBytes(FlattenAll([], InputValues(inputs)).value);
      var fs := Parse(Write(FeedFields(code, NamedInputs(inputs), arena, skip, cwd))).fields;
      var named := ReadAllNamed(AllBytesOf(fs, 2));
      var values := ArenaValues(BytesOf(fs, 3));
      && BytesOf(fs, 1) == code && |named| == |inputs| && values.Ok?
      && VarintOf(fs, 4) == (if skip then 1 else 0) && BytesOf(fs, 5) == cwd
      && forall i :: 0 <= i < |inputs| ==>
        && named[i].name == inputs[i].name && named[i].index < |values.value|
        && DecodeValue(EncodeValue(inputs[i].value)) == Ok(values.value[named[i].index])
  {
    hide Write, Parse, FeedFields, NamedBytes, LastField, AllBytesOf, ReadAllNamed, Encodable, EncodeValue, DecodeValue,
      FlattenAll, ArenaBytes, ArenaValues, IndexOf, PostItems;
    var vs, ns := InputValues(inputs), NamedInputs(inputs);
    var arena := ArenaBytes(FlattenAll([], vs).value);
    forall i | 0 <= i < |ns| ensures |NamedBytes(ns[i])| < TWO64 {
      NamedIsInside(code, ns, arena, skip, cwd, i);
    }
    FeedFieldsRead(code, ns, arena, skip, cwd);
    ParseMessage(FeedFields(code, ns, arena, skip, cwd));
    ArenaPreservesMeaning(vs);
  }
}
