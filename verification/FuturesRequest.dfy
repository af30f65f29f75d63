/** Resuming with several outcomes at once: their values share one arena. */
module FuturesRequest {
  import opened Common
  import opened Wire
  import opened Values
  import opened Nested
  import opened Arena
  import opened ArenaDecode
  import opened ArenaMeaning
  import opened ArenaTheorems
  import opened Requests
  import F = Futures
  import R = Raised

  /** What a call is answered with. */
  datatype Result =
    | Value(v: Values.Value)
    | Raised(x: R.Exception)
    | Pending(id: U32)
    | NotFound(name: Bytes)
    | NotHandled

  datatype Answer = Answer(id: U32, result: Result)

  /** A value is sent as an index into the arena, anything else as itself. */
  function ResultField(r: Result, index: U64): (f: Field)
  {
    match r
    case Value(_) => VarintField(1, index)
    case Raised(x) => LenField(2, Write(R.ExceptionFields(x)))
    case Pending(id) => VarintField(3, id)
    case NotFound(name) => LenField(4, name)
    case NotHandled => LenField(5, [])
  }

  /** The values among the answers, in order. */
  function ValuesOf(answers: seq<Answer>): seq<Values.Value>
  {
    if answers == [] then []
    else
      var r := answers[|answers| - 1].result;
      ValuesOf(answers[..|answers| - 1]) + if r.Value? then [r.v] else []
  }

  /** The index the k-th answer's value got in the shared arena. */
  function IndexFor(answers: seq<Answer>, k: nat): U64
    requires AllEncodable(ValuesOf(answers)) && k < |answers|
  {
    var j := |ValuesOf(answers[..k])|;
    if answers[k].result.Value? && j < |ValuesOf(answers)| then IndexOf(ValuesOf(answers), j) else 0
  }

  function ItemsOf(answers: seq<Answer>): (items: seq<F.Item>)
    requires AllEncodable(ValuesOf(answers))
    ensures |items| == |answers|
    ensures forall k :: 0 <= k < |answers| ==>
      items[k] == F.Item(answers[k].id, WriteField(ResultField(answers[k].result, IndexFor(answers, k))))
  {
    seq(|answers|, k requires 0 <= k < |answers| =>
      F.Item(answers[k].id, WriteField(ResultField(answers[k].result, IndexFor(answers, k)))))
  }

  /** A value's place among the values is the number of values before it. */
  lemma {:induction false} ValuesPrefix(answers: seq<Answer>, i: nat)
    requires i < |answers|
    ensures
      var vs, before := ValuesOf(answers), ValuesOf(answers[..i]);
      && before <= vs && ValuesOf(answers[..i + 1]) <= vs
      && (answers[i].result.Value? ==>
          |before| < |vs| && vs[|before|] == answers[i].result.v && ValuesOf(answers[..i + 1]) == vs[..|before| + 1])
      && (!answers[i].result.Value? ==> ValuesOf(answers[..i + 1]) == before)
    decreases |answers|
  {
    var k := |answers| - 1;
    assert answers[..i + 1][..i] == answers[..i];
    if i == k {
      assert answers[..i + 1] == answers;
    } else {
      ValuesPrefix(answers[..k], i);
      assert answers[..k][..i] == answers[..i] && answers[..k][..i + 1] == answers[..i + 1];
    }
  }

  lemma {:induction false} ItemFieldsSnoc(items: seq<F.Item>, x: F.Item)
    ensures F.ItemFields(items + [x]) == F.ItemFields(items) + [LenField(1, F.ItemBytes(x))]
    decreases |items|
  {
    hide F.ItemBytes;
    if items == [] {
      assert [] + [x] == [x];
    } else {
      ItemFieldsSnoc(items[1..], x);
      assert (items + [x])[1..] == items[1..] + [x];
    }
  }

  lemma ItemWritten(items: seq<F.Item>, x: F.Item)
    ensures Write(F.ItemFields(items + [x])) == Write(F.ItemFields(items)) + FieldBytes(1, F.ItemBytes(x))
  {
    hide F.ItemBytes, F.ItemFields, Write, FieldBytes;
    ItemFieldsSnoc(items, x);
    WriteConcat(F.ItemFields(items), [LenField(1, F.ItemBytes(x))]);
    WriteOne(LenField(1, F.ItemBytes(x)));
  }

  /** Adds one answer's value, if it has one, and writes the answer. */
  method AddAnswer(a: ArenaEncoder, answers: seq<Answer>, i: nat, b: Bytes) returns (c: Bytes)
    requires i < |answers| && AllEncodable(ValuesOf(answers)) && Sized(ValuesOf(answers))
    requires AllEncodable(ValuesOf(answers[..i])) && FlattenAll([], ValuesOf(answers[..i])) == Ok(a.nodes)
    requires b == Write(F.ItemFields(ItemsOf(answers)[..i]))
    modifies a
    ensures AllEncodable(ValuesOf(answers[..i + 1])) && FlattenAll([], ValuesOf(answers[..i + 1])) == Ok(a.nodes)
    ensures c == Write(F.ItemFields(ItemsOf(answers)[..i + 1]))
  {
    hide Flatten, EncodeValue, Encodable, IndexOf, Write, F.ItemBytes, F.ItemFields, FieldBytes, FlattenAll, ValuesOf,
      ItemsOf, Sized, WriteField;
    ValuesPrefix(answers, i);
    ghost var vs := ValuesOf(answers);
    var index: U64 := 0;
    if answers[i].result.Value? {
      ghost var j := |ValuesOf(answers[..i])|;
      assert vs[..j] == ValuesOf(answers[..i]);
      AddOne(vs, j, a.nodes);
      var r := a.AddLegacy(EncodeValue(answers[i].result.v));
      index := r.value;
    }
    var x := F.Item(answers[i].id, WriteField(ResultField(answers[i].result, index)));
    assert ItemsOf(answers)[..i + 1] == ItemsOf(answers)[..i] + [x];
    ItemWritten(ItemsOf(answers)[..i], x);
    c := b + FieldBytes(1, F.ItemBytes(x));
  }

  /** Encodes every answer against one arena, then the arena. */
  method ResumeFutures(answers: seq<Answer>) returns (b: Bytes)
    requires AllEncodable(ValuesOf(answers)) && Sized(ValuesOf(answers))
    ensures FlattenAll([], ValuesOf(answers)).Ok?
    ensures b == Write(F.RequestFields(ItemsOf(answers), ArenaBytes(FlattenAll([], ValuesOf(answers)).value)))
  {
    hide Encodable, Write, FieldBytes, ArenaBytes, FlattenAll, ItemsOf, F.ItemFields, Sized;
    var a := new ArenaEncoder();
    b := [];
    var i := 0;
    NoAnswers();
    assert answers[..0] == [] && ItemsOf(answers)[..0] == [];
    while i < |answers|
      invariant i <= |answers| && AllEncodable(ValuesOf(answers[..i]))
      invariant FlattenAll([], ValuesOf(answers[..i])) == Ok(a.nodes)
      invariant b == Write(F.ItemFields(ItemsOf(answers)[..i]))
    {
      b := AddAnswer(a, answers, i, b);
      i := i + 1;
    }
    assert answers[..i] == answers && ItemsOf(answers)[..i] == ItemsOf(answers);
    var arena := a.Encode();
    WriteConcat(F.ItemFields(ItemsOf(answers)), [LenField(2, arena)]);
    WriteOne(LenField(2, arena));
    b := b + FieldBytes(2, arena);
  }

  lemma NoAnswers()
    ensures Write(F.ItemFields([])) == [] && FlattenAll([], []) == Ok([]) && ValuesOf([]) == []
  {
  }

  // ---------------------------------------------------------------------------
  // What the worker finds

  /** Reads an answer back, looking a value up in the arena. */
  function ReadResult(data: Bytes, values: seq<Values.Value>): Common.Result<Result>
  {
    var fs := Parse(data).fields;
    if |fs| != 1 then Err
    else if fs[0].tag == 1 then (if fs[0].varint < |values| then Ok(Value(values[fs[0].varint])) else Err)
    else if fs[0].tag == 2 then Ok(Raised(R.ExceptionOf(Parse(fs[0].bytes).fields)))
    else if fs[0].tag == 3 then Ok(Pending(fs[0].varint % TWO32))
    else if fs[0].tag == 4 then Ok(NotFound(fs[0].bytes))
    else if fs[0].tag == 5 then Ok(NotHandled)
    else Err
  }

  /** An answer as it arrives: a value in its normal form. */
  function Arrived(r: Result): Result
  {
    if r.Value? then Value(Normal(r.v)) else r
  }

  lemma ResultRead(r: Result, index: U64, values: seq<Values.Value>)
    requires |WriteField(ResultField(r, index))| < TWO64
    requires r.Value? ==> index < |values| && values[index] == Normal(r.v)
    ensures ReadResult(WriteField(ResultField(r, index)), values) == Ok(Arrived(r))
  {
    hide Write, Parse, WriteField, R.ExceptionFields, R.ExceptionOf, Normal;
    var f := ResultField(r, index);
    LengthInside(f);
    ParseWriteField(f);
    if r.Raised? {
      R.ExceptionRoundTrip(r.x);
    }
  }

  lemma LengthInside(f: Field)
    ensures f.typ.Len? ==> |f.bytes| < |WriteField(f)|
  {
  }

  lemma {:induction false} ItemFieldsAt(items: seq<F.Item>, k: nat)
    requires k < |items|
    ensures |F.ItemFields(items)| == |items| && F.ItemFields(items)[k] == LenField(1, F.ItemBytes(items[k]))
  {
    hide F.ItemBytes;
    if |items| > 1 {
      ItemFieldsAt(items[1..], if k > 0 then k - 1 else 0);
    }
  }

  lemma ItemIsInside(items: seq<F.Item>, arena: Bytes, k: nat)
    requires k < |items|
    ensures |F.ItemBytes(items[k])| < |Write(F.RequestFields(items, arena))|
    ensures |items[k].result| < |F.ItemBytes(items[k])|
  {
    hide Write, F.ItemFields;
    ItemFieldsAt(items, k);
    WriteLength(F.RequestFields(items, arena), k);
    WriteLength([VarintField(1, items[k].id), LenField(2, items[k].result)], 1);
  }

  /**
   However many answers share the arena, the worker reads every one of them under its own call,
   in order: exceptions and the rest exactly, values as what their own nested encoding denotes.
   */
  lemma ResumeFuturesCarriesAnswers(answers: seq<Answer>)
    requires AllEncodable(ValuesOf(answers)) && Sized(ValuesOf(answers))
    ensures FlattenAll([], ValuesOf(answers)).Ok?
    ensures
      var arena := ArenaBytes(FlattenAll([], ValuesOf(answers)).value);
      var b := Write(F.RequestFields(ItemsOf(answers), arena));
      |arena| <= MAX_FRAME_LEN && |b| < TWO64 ==>
        var fs := Parse(b).fields;
        var items := F.ReadItems(AllBytesOf(fs, 1));
        var values := ArenaValues(BytesOf(fs, 2));
        && |items| == |answers| && values.Ok?
        && forall k :: 0 <= k < |answers| ==>
          items[k].id == answers[k].id && ReadResult(items[k].result, values.value) == Ok(Arrived(answers[k].result))
  {
    hide Write, Parse, F.RequestFields, F.ReadItems, F.ItemBytes, AllBytesOf, BytesOf, Encodable, EncodeValue,
      DecodeValue, FlattenAll, ArenaBytes, ArenaValues, IndexOf, PostItems, ItemsOf, ValuesOf, ReadResult,
      ResultField, WriteField, Normal, Sized;
    var vs, items := ValuesOf(answers), ItemsOf(answers);
    ArenaPreservesMeaning(vs);
    var arena := ArenaBytes(FlattenAll([], vs).value);
    if |arena| <= MAX_FRAME_LEN && |Write(F.RequestFields(items, arena))| < TWO64 {
      forall k | 0 <= k < |items| ensures |F.ItemBytes(items[k])| < TWO64 {
        ItemIsInside(items, arena, k);
      }
      F.FuturesRequestRoundTrip(items, arena);
      var values := ArenaValues(arena).value;
      forall k | 0 <= k < |answers|
        ensures ReadResult(items[k].result, values) == Ok(Arrived(answers[k].result))
      {
        ItemIsInside(items, arena, k);
        AnswerRead(answers, k, values);
      }
    }
  }

  lemma AnswerRead(answers: seq<Answer>, k: nat, values: seq<Values.Value>)
    requires AllEncodable(ValuesOf(answers)) && Sized(ValuesOf(answers)) && k < |answers|
    requires |WriteField(ResultField(answers[k].result, IndexFor(answers, k)))| < TWO64
    requires forall j :: 0 <= j < |ValuesOf(answers)| ==>
      && IndexOf(ValuesOf(answers), j) < |values|
      && DecodeValue(EncodeValue(ValuesOf(answers)[j])) == Ok(values[IndexOf(ValuesOf(answers), j)])
    ensures ReadResult(WriteField(ResultField(answers[k].result, IndexFor(answers, k))), values)
         == Ok(Arrived(answers[k].result))
  {
    hide Write, Parse, Encodable, EncodeValue, DecodeValue, IndexOf, ValuesOf, ReadResult, ResultField, WriteField,
      Normal;
    ValuesPrefix(answers, k);
    if answers[k].result.Value? {
      var j := |ValuesOf(answers[..k])|;
      NestedRoundTrip(ValuesOf(answers)[j]);
    }
    ResultRead(answers[k].result, IndexFor(answers, k), values);
  }
}
