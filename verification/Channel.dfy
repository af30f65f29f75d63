/** Length-prefixed frames and the request/response exchange with one worker process. */
module Channel {
  import opened Common
  import opened Wire

  // ---------------------------------------------------------------------------
  // Frames

  function Frame(body: Bytes): (b: Bytes)
    ensures |b| == 4 + |body|
  {
    LittleEndian(|body|, 4) + body
  }

  function ReadFrame(b: Bytes): (r: Consumed<Bytes>)
    ensures r.Got? ==> 4 <= r.n <= |b| && |r.value| == r.n - 4 && |r.value| <= MAX_FRAME_LEN
  {
    if |b| < 4 then Bad
    else
      var size := FromLittleEndian(b[..4]);
      if size > MAX_FRAME_LEN || size > |b| - 4 then Bad else Got(b[4..4 + size], 4 + size)
  }

  lemma FrameRoundTrip(body: Bytes, rest: Bytes)
    ensures ReadFrame(Frame(body) + rest) == Got(body, |Frame(body)|) <==> |body| <= 268435456
  {
    var b := Frame(body) + rest;
    assert b[..4] == LittleEndian(|body|, 4);
    assert b[4..4 + |body|] == body;
    if |body| <= MAX_FRAME_LEN {
      Pow256Of8();
      LittleEndianRoundTrip(|body|, 4);
    }
  }

  function Stream(bodies: seq<Bytes>): Bytes
  {
    if bodies == [] then [] else Frame(bodies[0]) + Stream(bodies[1..])
  }

  /** Reads frames until the bytes run out or stop making sense. */
  function Frames(b: Bytes): (r: seq<Bytes>)
    decreases |b|
  {
    match ReadFrame(b)
    case Bad => []
    case Got(body, n) => [body] + Frames(b[n..])
  }

  ghost predicate Fits(bodies: seq<Bytes>)
  {
    forall i :: 0 <= i < |bodies| ==> |bodies[i]| <= MAX_FRAME_LEN
  }

  /** A stream of frames cut off anywhere reads back as exactly the frames that arrived whole. */
  lemma {:induction false} CutStream(bodies: seq<Bytes>, cut: nat)
    requires Fits(bodies) && cut <= |Stream(bodies)|
    ensures Frames(Stream(bodies)[..cut]) <= bodies
    ensures cut == |Stream(bodies)| ==> Frames(Stream(bodies)[..cut]) == bodies
    ensures forall k :: 0 <= k <= |bodies| ==>
      (|Stream(bodies[..k])| <= cut <==> k <= |Frames(Stream(bodies)[..cut])|)
    decreases |bodies|
  {
    hide ReadFrame, Frame;
    var b := Stream(bodies)[..cut];
    if bodies == [] {
      ShortFrame([], b);
      forall k | 0 <= k <= |bodies| ensures |Stream(bodies[..k])| <= cut <==> k <= |Frames(b)| {
        assert bodies[..k] == [];
      }
    } else {
      var head := Frame(bodies[0]);
      assert Stream(bodies) == head + Stream(bodies[1..]);
      if cut < |head| {
        assert b == head[..cut];
        ShortFrame(bodies[0], b);
        forall k | 0 <= k <= |bodies| ensures |Stream(bodies[..k])| <= cut <==> k <= |Frames(b)| {
          if k > 0 {
            StreamTake(bodies, k);
          }
        }
      } else {
        var rest := Stream(bodies[1..])[..cut - |head|];
        assert b == head + rest;
        FrameRoundTrip(bodies[0], rest);
        CutStream(bodies[1..], cut - |head|);
        assert b[|head|..] == rest;
        assert Frames(b) == [bodies[0]] + Frames(rest);
        assert [bodies[0]] + bodies[1..] == bodies;
        forall k | 0 <= k <= |bodies| ensures |Stream(bodies[..k])| <= cut <==> k <= |Frames(b)| {
          if k > 0 {
            StreamTake(bodies, k);
          }
        }
      }
    }
  }

  lemma StreamTake(bodies: seq<Bytes>, k: nat)
    requires 0 < k <= |bodies|
    ensures |Stream(bodies[..k])| == |Frame(bodies[0])| + |Stream(bodies[1..][..k - 1])|
  {
    assert bodies[..k][1..] == bodies[1..][..k - 1];
    assert bodies[..k][0] == bodies[0];
  }

  lemma ShortFrame(body: Bytes, b: Bytes)
    requires |body| <= MAX_FRAME_LEN && |b| < |Frame(body)| && b == Frame(body)[..|b|]
    ensures ReadFrame(b).Bad? && Frames(b) == []
  {
    if |b| >= 4 {
      assert b[..4] == LittleEndian(|body|, 4);
      Pow256Of8();
      LittleEndianRoundTrip(|body|, 4);
    }
  }

  // ---------------------------------------------------------------------------
  // Events

  datatype ChildEvent = ChildEvent(
    kind: nat, body: Bytes, micros: U64, maxSuspensions: Option<U64>, maxSleepMicros: Option<U64>,
    script: Option<Bytes>)

  predicate IsKind(f: Field) { 1 <= f.tag <= 12 }

  /** Exactly one field names the event's kind, and a sleep limit is a number. */
  ghost predicate IsEvent(p: Parsed)
  {
    && p.ok
    && (exists i :: 0 <= i < |p.fields| && IsKind(p.fields[i])
                    && forall j :: 0 <= j < |p.fields| && IsKind(p.fields[j]) ==> j == i)
    && (forall i :: 0 <= i < |p.fields| && p.fields[i].tag == 27 ==> p.fields[i].typ.Varint?)
  }

  const NO_EVENT: ChildEvent := ChildEvent(0, [], 0, None, None, None)

  function TakeField(e: ChildEvent, f: Field): ChildEvent
  {
    if IsKind(f) then e.(kind := f.tag, body := f.bytes)
    else if f.tag == 20 then e.(micros := f.varint)
    else if f.tag == 22 then e.(maxSuspensions := Some(f.varint))
    else if f.tag == 23 then e.(script := Some(f.bytes))
    else if f.tag == 27 then e.(maxSleepMicros := Some(f.varint))
    else e
  }

  function EventOf(fs: seq<Field>): ChildEvent
  {
    if fs == [] then NO_EVENT else TakeField(EventOf(fs[..|fs| - 1]), fs[|fs| - 1])
  }

  lemma {:induction false} EventKind(fs: seq<Field>)
    ensures EventOf(fs).kind != 0 <==> exists i :: 0 <= i < |fs| && IsKind(fs[i])
    ensures EventOf(fs).kind <= 12
  {
    if fs != [] {
      var init := fs[..|fs| - 1];
      EventKind(init);
      if exists i :: 0 <= i < |fs| && IsKind(fs[i]) {
        var i :| 0 <= i < |fs| && IsKind(fs[i]);
        assert i < |init| ==> IsKind(init[i]);
      }
      if exists i :: 0 <= i < |init| && IsKind(init[i]) {
        var i :| 0 <= i < |init| && IsKind(init[i]);
        assert IsKind(fs[i]);
      }
    }
  }

  /** No field has been refused so far. */
  ghost predicate Tolerable(fs: seq<Field>)
  {
    && (forall i, j :: 0 <= i < j < |fs| && IsKind(fs[i]) ==> !IsKind(fs[j]))
    && (forall i :: 0 <= i < |fs| && fs[i].tag == 27 ==> fs[i].typ.Varint?)
  }

  lemma TolerableStep(fs: seq<Field>, i: nat)
    requires i < |fs| && Tolerable(fs[..i])
    ensures Tolerable(fs[..i + 1])
       <==> !(IsKind(fs[i]) && EventOf(fs[..i]).kind != 0) && (fs[i].tag == 27 ==> fs[i].typ.Varint?)
    ensures EventOf(fs[..i + 1]) == TakeField(EventOf(fs[..i]), fs[i])
  {
    var a, b := fs[..i], fs[..i + 1];
    EventKind(a);
    assert b[..i] == a && b[i] == fs[i];
    if IsKind(fs[i]) && EventOf(a).kind != 0 {
      var j :| 0 <= j < |a| && IsKind(a[j]);
      assert IsKind(b[j]) && IsKind(b[i]);
    }
    if fs[i].tag == 27 && !fs[i].typ.Varint? {
      assert b[i].tag == 27;
    }
    if !(IsKind(fs[i]) && EventOf(a).kind != 0) && (fs[i].tag == 27 ==> fs[i].typ.Varint?) {
      forall j, k | 0 <= j < k < |b| && IsKind(b[j]) ensures !IsKind(b[k]) {
        assert b[j] == a[j];
        assert k < i ==> b[k] == a[k];
      }
      forall j | 0 <= j < |b| && b[j].tag == 27 ensures b[j].typ.Varint? {
        assert j < i ==> b[j] == a[j];
      }
    }
  }

  lemma TolerablePrefix(fs: seq<Field>, i: nat)
    requires i <= |fs| && Tolerable(fs)
    ensures Tolerable(fs[..i])
  {
    var a := fs[..i];
    assert forall j :: 0 <= j < i ==> a[j] == fs[j];
  }

  lemma EventIsTolerable(p: Parsed)
    ensures IsEvent(p) <==> p.ok && Tolerable(p.fields) && EventOf(p.fields).kind != 0
  {
    EventKind(p.fields);
    if p.ok && Tolerable(p.fields) && EventOf(p.fields).kind != 0 {
      var i :| 0 <= i < |p.fields| && IsKind(p.fields[i]);
      forall j | 0 <= j < |p.fields| && IsKind(p.fields[j]) ensures j == i {
      }
      assert IsEvent(p);
    }
  }

  /** Accepts exactly the frames with one kind, and gives what their fields say. */
  method DecodeEvent(frame: Bytes) returns (r: Result<ChildEvent>)
    ensures r.Ok? <==> IsEvent(Parse(frame))
    ensures r.Ok? ==> r.value == EventOf(Parse(frame).fields) && 1 <= r.value.kind <= 12
    ensures r == Event(frame)
  {
    hide IsEvent, Tolerable, TakeField, Parse;
    EventIsTolerable(Parse(frame));
    var fields, ok := ParseFields(frame);
    var e := NO_EVENT;
    var i := 0;
    assert Tolerable(fields[..0]) by { NothingIsTolerable(); }
    while i < |fields|
      invariant i <= |fields| && Tolerable(fields[..i]) && e == EventOf(fields[..i])
    {
      TolerableStep(fields, i);
      if (IsKind(fields[i]) && e.kind != 0) || (fields[i].tag == 27 && !fields[i].typ.Varint?) {
        if Tolerable(fields) {
          TolerablePrefix(fields, i + 1);
        }
        return Err;
      }
      e := TakeField(e, fields[i]);
      i := i + 1;
    }
    assert fields[..i] == fields;
    EventKind(fields);
    if !ok || e.kind == 0 {
      return Err;
    }
    return Ok(e);
  }

  lemma NothingIsTolerable()
    ensures Tolerable([])
  {
  }

  /** The event a frame carries, if it carries one. */
  ghost function Event(frame: Bytes): Result<ChildEvent>
  {
    if IsEvent(Parse(frame)) then Ok(EventOf(Parse(frame).fields)) else Err
  }

  // ---------------------------------------------------------------------------
  // One exchange

  datatype Segment = Segment(stream: nat, text: Bytes)

  function SegmentOf(data: Bytes): Segment
  {
    var fs := Parse(data).fields;
    Segment(VarintOf(fs, 1) % TWO32, BytesOf(fs, 2))
  }

  function SegmentsOf(fs: seq<Field>): seq<Segment>
  {
    if fs == [] then []
    else
      var f := fs[|fs| - 1];
      SegmentsOf(fs[..|fs| - 1]) + (if f.tag == 1 && f.typ.Len? then [SegmentOf(f.bytes)] else [])
  }

  function Segments(body: Bytes): seq<Segment> { SegmentsOf(Parse(body).fields) }

  function SegmentBody(s: Segment): Bytes
    requires s.stream < TWO32
  {
    Write([VarintField(1, s.stream), LenField(2, s.text)])
  }

  predicate Streams(segments: seq<Segment>)
  {
    forall i :: 0 <= i < |segments| ==> segments[i].stream < TWO32
  }

  function PrintFields(segments: seq<Segment>): (fs: seq<Field>)
    requires Streams(segments)
    ensures |fs| == |segments|
    ensures forall i :: 0 <= i < |fs| ==> fs[i] == LenField(1, SegmentBody(segments[i]))
  {
    if segments == [] then [] else [LenField(1, SegmentBody(segments[0]))] + PrintFields(segments[1..])
  }

  lemma SegmentRoundTrip(s: Segment)
    requires s.stream < TWO32 && |SegmentBody(s)| < TWO64
    ensures SegmentOf(SegmentBody(s)) == s
  {
    hide Parse, Write, LastField;
    var fs := [VarintField(1, s.stream), LenField(2, s.text)];
    ParseMessage(fs);
    LastFieldAt(fs, 0, 1);
    LastFieldAt(fs, 1, 2);
  }

  lemma {:induction false} SegmentsOfFields(fs: seq<Field>, segments: seq<Segment>)
    requires |fs| == |segments|
    requires forall i :: 0 <= i < |fs| ==>
      fs[i].tag == 1 && fs[i].typ.Len? && SegmentOf(fs[i].bytes) == segments[i]
    ensures SegmentsOf(fs) == segments
  {
    hide SegmentOf;
    if fs != [] {
      var k := |fs| - 1;
      SegmentsOfFields(fs[..k], segments[..k]);
      assert segments == segments[..k] + [segments[k]];
    }
  }

  lemma BodySegments(body: Bytes)
    ensures Segments(body) == SegmentsOf(Parse(body).fields)
  {
  }

  /** Whatever segments are printed, the host reads exactly those, in order. */
  lemma SegmentsRoundTrip(segments: seq<Segment>)
    requires Streams(segments) && |Write(PrintFields(segments))| < TWO64
    ensures Segments(Write(PrintFields(segments))) == segments
  {
    hide Parse, Write, SegmentOf, SegmentBody, SegmentsOf;
    var fs := PrintFields(segments);
    ParseMessage(fs);
    forall i | 0 <= i < |fs| ensures SegmentOf(fs[i].bytes) == segments[i] {
      WriteLength(fs, i);
      SegmentRoundTrip(segments[i]);
    }
    SegmentsOfFields(fs, segments);
  }

  const PRINT: nat := 1
  const FATAL: nat := 11

  /** What came of an exchange: a lost worker, an event withheld by a failed callback, or an event. */
  datatype Ending = Lost | Withheld | Told(e: ChildEvent)

  /** What the print callback has been called with, and whether its last call failed. */
  datatype Printed = Printed(segments: seq<Segment>, failed: bool)

  /** A callback judges the whole history it has been given; after a failure it is not called again. */
  function Deliver(p: Printed, segments: seq<Segment>, accepts: seq<Segment> -> bool): (q: Printed)
    ensures p.segments <= q.segments && (p.failed ==> q == p)
    ensures p.segments <= q.segments <= p.segments + segments
    ensures !q.failed ==> q.segments == p.segments + segments
    decreases |segments|
  {
    if p.failed || segments == [] then p
    else
      var more := p.segments + [segments[0]];
      assert more + segments[1..] == p.segments + segments;
      Deliver(Printed(more, !accepts(more)), segments[1..], accepts)
  }

  datatype Listened = Listened(ending: Ending, printed: Printed, used: nat)

  /** Reads frames up to the first event that is not a print. */
  ghost function Listen(frames: seq<Bytes>, p: Printed, accepts: seq<Segment> -> bool): (l: Listened)
    ensures l.used <= |frames|
    decreases |frames|
  {
    if frames == [] || Event(frames[0]).Err? then Listened(Lost, p, 0)
    else
      var e := Event(frames[0]).value;
      if e.kind != PRINT then Listened(if p.failed then Withheld else Told(e), p, 1)
      else
        var l := Listen(frames[1..], Deliver(p, Segments(e.body), accepts), accepts);
        l.(used := l.used + 1)
  }

  /** A worker process behind its pipes. `stdout` is all it will ever write that is yet unread. */
  class Worker {
    var stdin: Bytes
    var stdout: Bytes
    var dead: bool

    constructor (stdout: Bytes)
      ensures this.stdout == stdout && stdin == [] && !dead
    {
      this.stdout, stdin, dead := stdout, [], false;
    }

    method Read() returns (r: Consumed<Bytes>)
      modifies this`stdout
      ensures r == ReadFrame(old(stdout))
      ensures stdout == if r.Got? then old(stdout)[r.n..] else old(stdout)
    {
      r := ReadFrame(stdout);
      if r.Got? {
        stdout := stdout[r.n..];
      }
    }

    method Print(p: Printed, body: Bytes, accepts: seq<Segment> -> bool) returns (q: Printed)
      ensures q == Deliver(p, Segments(body), accepts)
      ensures forall segments :: Streams(segments) && body == Write(PrintFields(segments)) && |body| < TWO64 ==>
        q == Deliver(p, segments, accepts)
    {
      hide Write, PrintFields, Segments;
      forall segments | Streams(segments) && body == Write(PrintFields(segments)) && |body| < TWO64
        ensures Segments(body) == segments
      {
        SegmentsRoundTrip(segments);
      }
      BodySegments(body);
      q := p;
      var fields, _ := ParseFields(body);
      var segments := SegmentsOf(fields);
      var i := 0;
      while i < |segments| && !q.failed
        invariant i <= |segments|
        invariant Deliver(p, segments, accepts) == Deliver(q, segments[i..], accepts)
      {
        var more := q.segments + [segments[i]];
        assert segments[i..][1..] == segments[i + 1..];
        q := Printed(more, !accepts(more));
        i := i + 1;
      }
    }

    /**
     Writes one request and waits for its answer. `writes` says whether the pipe takes the frame,
     and `patience` after how many frames the caller's context expires.
     */
    method Exchange(body: Bytes, writes: bool, patience: nat, accepts: seq<Segment> -> bool)
      returns (ending: Ending, printed: Printed)
      modifies this
      ensures old(dead) ==> ending.Lost? && stdin == old(stdin) && stdout == old(stdout)
      ensures dead <==> ending.Lost? || (ending.Told? && ending.e.kind == FATAL)
      ensures
        var l := Listen(Frames(old(stdout)), Printed([], false), accepts);
        && printed.segments <= l.printed.segments
        && (!ending.Lost? ==>
            && ending == l.ending && printed == l.printed && stdin == old(stdin) + Frame(body)
            && Frames(stdout) == Frames(old(stdout))[l.used..])
        && (!old(dead) && writes && |body| <= MAX_FRAME_LEN && patience >= |Frames(old(stdout))| ==> ending == l.ending)
    {
      hide Event, Deliver, Frame, Frames, ReadFrame, Segments, Listen, SoFar, IsEvent, EventOf, Parse;
      printed := Printed([], false);
      ghost var all := Frames(stdout);
      ghost var l := Listen(all, printed, accepts);
      NothingReadYet(all, printed, accepts);
      SoFarGrows(l, all, 0, printed, accepts);
      if dead {
        return Lost, printed;
      }
      dead := true;
      if !writes || |body| > MAX_FRAME_LEN {
        return Lost, printed;
      }
      stdin := stdin + Frame(body);
      ghost var used := 0;
      ending := Lost;
      var left := patience;
      while left > 0
        invariant used <= |all| && left == patience - used && Frames(stdout) == all[used..] && dead && ending.Lost?
        invariant stdin == old(stdin) + Frame(body)
        invariant SoFar(l, all, used, printed, accepts) && printed.segments <= l.printed.segments
      {
        FrameRead(stdout, all, used);
        var frame := Read();
        if frame.Bad? {
          NoAnswer(l, all, used, printed, accepts);
          return Lost, printed;
        }
        var event := DecodeEvent(frame.value);
        if event.Err? {
          NoAnswer(l, all, used, printed, accepts);
          return Lost, printed;
        }
        if event.value.kind != PRINT {
          AnswerRead(l, all, used, printed, accepts);
          dead := !printed.failed && event.value.kind == FATAL;
          ending := if printed.failed then Withheld else Told(event.value);
          return;
        }
        PrintRead(l, all, used, printed, accepts);
        printed := Print(printed, event.value.body, accepts);
        used := used + 1;
        left := left - 1;
        SoFarGrows(l, all, used, printed, accepts);
      }
      if used == |all| {
        NoAnswer(l, all, used, printed, accepts);
      }
    }
  }

  /** After this many frames listening goes on with p, and will have ended in l. */
  ghost predicate SoFar(l: Listened, all: seq<Bytes>, used: nat, p: Printed, accepts: seq<Segment> -> bool)
  {
    && used <= |all|
    && var m := Listen(all[used..], p, accepts);
       l == m.(used := m.used + used)
  }

  lemma FrameRead(b: Bytes, all: seq<Bytes>, used: nat)
    requires used <= |all| && Frames(b) == all[used..]
    ensures ReadFrame(b).Bad? ==> used == |all|
    ensures
      var r := ReadFrame(b);
      r.Got? ==> used < |all| && all[used] == r.value && Frames(b[r.n..]) == all[used + 1..]
  {
    hide ReadFrame;
    if ReadFrame(b).Got? {
      assert all[used..][0] == all[used] && all[used..][1..] == all[used + 1..];
    }
  }

  lemma NothingReadYet(all: seq<Bytes>, p: Printed, accepts: seq<Segment> -> bool)
    ensures SoFar(Listen(all, p, accepts), all, 0, p, accepts)
  {
    assert all[0..] == all;
  }

  lemma SoFarGrows(l: Listened, all: seq<Bytes>, used: nat, p: Printed, accepts: seq<Segment> -> bool)
    requires SoFar(l, all, used, p, accepts)
    ensures p.segments <= l.printed.segments
  {
    PrintedGrows(all[used..], p, accepts);
  }

  lemma PrintRead(l: Listened, all: seq<Bytes>, used: nat, p: Printed, accepts: seq<Segment> -> bool)
    requires SoFar(l, all, used, p, accepts) && used < |all|
    requires Event(all[used]).Ok? && Event(all[used]).value.kind == PRINT
    ensures SoFar(l, all, used + 1, Deliver(p, Segments(Event(all[used]).value.body), accepts), accepts)
  {
    hide Event, Deliver, Segments;
    assert all[used..][0] == all[used] && all[used..][1..] == all[used + 1..];
  }

  lemma AnswerRead(l: Listened, all: seq<Bytes>, used: nat, p: Printed, accepts: seq<Segment> -> bool)
    requires SoFar(l, all, used, p, accepts) && used < |all|
    requires Event(all[used]).Ok? && Event(all[used]).value.kind != PRINT
    ensures l == Listened(if p.failed then Withheld else Told(Event(all[used]).value), p, used + 1)
  {
    hide Event;
  }

  lemma NoAnswer(l: Listened, all: seq<Bytes>, used: nat, p: Printed, accepts: seq<Segment> -> bool)
    requires SoFar(l, all, used, p, accepts) && (used == |all| || Event(all[used]).Err?)
    ensures l.ending.Lost? && l.printed == p
  {
    hide Event;
  }

  lemma {:induction false} PrintedGrows(frames: seq<Bytes>, p: Printed, accepts: seq<Segment> -> bool)
    ensures p.segments <= Listen(frames, p, accepts).printed.segments
    decreases |frames|
  {
    if frames != [] && Event(frames[0]).Ok? && Event(frames[0]).value.kind == PRINT {
      PrintedGrows(frames[1..], Deliver(p, Segments(Event(frames[0]).value.body), accepts), accepts);
    }
  }

  // ---------------------------------------------------------------------------
  // Requests and answers stay aligned

  ghost predicate IsPrint(frame: Bytes)
  {
    Event(frame).Ok? && Event(frame).value.kind == PRINT
  }

  ghost predicate IsAnswer(frame: Bytes)
  {
    Event(frame).Ok? && Event(frame).value.kind != PRINT
  }

  /** What a worker writes for one request: any prints, then one answer. */
  datatype Turn = Turn(prints: seq<Bytes>, answer: Bytes)

  ghost predicate Polite(t: Turn)
  {
    (forall i :: 0 <= i < |t.prints| ==> IsPrint(t.prints[i])) && IsAnswer(t.answer)
  }

  ghost function Answer(t: Turn): ChildEvent
  {
    if Event(t.answer).Ok? then Event(t.answer).value else NO_EVENT
  }

  ghost function Emitted(prints: seq<Bytes>): seq<Segment>
  {
    if prints == [] || Event(prints[0]).Err? then []
    else Segments(Event(prints[0]).value.body) + Emitted(prints[1..])
  }

  /**
   An exchange consumes exactly one turn, whatever its prints and even if the callback fails; it
   ends with that turn's own answer, withheld just when the callback failed; and the callback saw
   a prefix of what was printed, all of it unless it failed.
   */
  lemma {:induction false} ExchangeTakesOneTurn(t: Turn, rest: seq<Bytes>, p: Printed, accepts: seq<Segment> -> bool)
    requires Polite(t)
    ensures
      var l := Listen(t.prints + [t.answer] + rest, p, accepts);
      && l.used == |t.prints| + 1
      && l.ending == (if l.printed.failed then Withheld else Told(Answer(t)))
      && p.segments <= l.printed.segments <= p.segments + Emitted(t.prints)
      && (!l.printed.failed ==> l.printed.segments == p.segments + Emitted(t.prints))
    decreases |t.prints|
  {
    hide Event, Segments, Deliver;
    var frames := t.prints + [t.answer] + rest;
    if t.prints == [] {
      assert frames[0] == t.answer;
      assert IsAnswer(t.answer);
    } else {
      assert IsPrint(t.prints[0]);
      var first := Segments(Event(t.prints[0]).value.body);
      var q := Deliver(p, first, accepts);
      var more := t.prints[1..] + [t.answer] + rest;
      assert frames[0] == t.prints[0] && frames[1..] == more;
      assert forall i :: 0 <= i < |t.prints| - 1 ==> t.prints[1..][i] == t.prints[i + 1];
      ExchangeTakesOneTurn(Turn(t.prints[1..], t.answer), rest, q, accepts);
      EmittedSplits(t.prints);
      if q.failed {
        FailedStays(more, q, accepts);
      }
      hide Listen, Emitted;
      var l := Listen(more, q, accepts);
      ListenPrint(frames, p, accepts);
      PrefixStep(p.segments, first, Emitted(t.prints[1..]), q, l.printed);
    }
  }

  lemma EmittedSplits(prints: seq<Bytes>)
    requires prints != [] && Event(prints[0]).Ok?
    ensures Emitted(prints) == Segments(Event(prints[0]).value.body) + Emitted(prints[1..])
  {
  }

  lemma ListenPrint(frames: seq<Bytes>, p: Printed, accepts: seq<Segment> -> bool)
    requires frames != [] && IsPrint(frames[0])
    ensures
      var l := Listen(frames[1..], Deliver(p, Segments(Event(frames[0]).value.body), accepts), accepts);
      Listen(frames, p, accepts) == l.(used := l.used + 1)
  {
  }

  lemma PrefixStep(s: seq<Segment>, first: seq<Segment>, more: seq<Segment>, q: Printed, r: Printed)
    requires s <= q.segments <= s + first && (!q.failed ==> q.segments == s + first)
    requires q.segments <= r.segments <= q.segments + more && (q.failed ==> r == q)
    ensures s <= r.segments <= s + (first + more)
    ensures !q.failed && r.segments == q.segments + more ==> r.segments == s + (first + more)
  {
    assert (s + first) + more == s + (first + more);
  }

  lemma {:induction false} FailedStays(frames: seq<Bytes>, p: Printed, accepts: seq<Segment> -> bool)
    requires p.failed
    ensures Listen(frames, p, accepts).printed == p
    decreases |frames|
  {
    if frames != [] && Event(frames[0]).Ok? && Event(frames[0]).value.kind == PRINT {
      FailedStays(frames[1..], p, accepts);
    }
  }

  function Transcript(turns: seq<Turn>): seq<Bytes>
  {
    if turns == [] then [] else turns[0].prints + [turns[0].answer] + Transcript(turns[1..])
  }

  /** What is left unread after k exchanges, each with its own callback. */
  ghost function Unread(frames: seq<Bytes>, callbacks: seq<seq<Segment> -> bool>): seq<Bytes>
  {
    if callbacks == [] then frames
    else Unread(frames[Listen(frames, Printed([], false), callbacks[0]).used..], callbacks[1..])
  }

  lemma {:induction false} UnreadIsLater(turns: seq<Turn>, callbacks: seq<seq<Segment> -> bool>)
    requires |callbacks| <= |turns|
    requires forall i :: 0 <= i < |turns| ==> Polite(turns[i])
    ensures Unread(Transcript(turns), callbacks) == Transcript(turns[|callbacks|..])
    decreases |callbacks|
  {
    hide Listen, Event, Polite, Transcript;
    if callbacks == [] {
      assert turns[0..] == turns;
    } else {
      NextTurn(turns, callbacks[0]);
      UnreadIsLater(turns[1..], callbacks[1..]);
      assert turns[1..][|callbacks| - 1..] == turns[|callbacks|..];
    }
  }

  /**
   Over a whole conversation the k-th exchange gets the k-th answer: a failed callback withholds
   an answer but never shifts a later one.
   */
  lemma AnswersAlign(turns: seq<Turn>, callbacks: seq<seq<Segment> -> bool>, last: seq<Segment> -> bool)
    requires |callbacks| < |turns|
    requires forall i :: 0 <= i < |turns| ==> Polite(turns[i])
    ensures
      var k := |callbacks|;
      var l := Listen(Unread(Transcript(turns), callbacks), Printed([], false), last);
      && Unread(Transcript(turns), callbacks) == Transcript(turns[k..])
      && l.ending == (if l.printed.failed then Withheld else Told(Answer(turns[k])))
  {
    hide *;
    UnreadIsLater(turns, callbacks);
    var later := turns[|callbacks|..];
    assert later[0] == turns[|callbacks|];
    FirstAnswer(later, last);
  }

  lemma FirstAnswer(turns: seq<Turn>, accepts: seq<Segment> -> bool)
    requires turns != [] && Polite(turns[0])
    ensures
      var l := Listen(Transcript(turns), Printed([], false), accepts);
      l.ending == (if l.printed.failed then Withheld else Told(Answer(turns[0])))
  {
    hide Listen, Event, Emitted, Polite, Answer;
    ExchangeTakesOneTurn(turns[0], Transcript(turns[1..]), Printed([], false), accepts);
  }

  lemma NextTurn(turns: seq<Turn>, accepts: seq<Segment> -> bool)
    requires turns != [] && Polite(turns[0])
    ensures
      var frames := Transcript(turns);
      frames[Listen(frames, Printed([], false), accepts).used..] == Transcript(turns[1..])
  {
    hide Listen, Event, Emitted, Polite;
    var rest := Transcript(turns[1..]);
    ExchangeTakesOneTurn(turns[0], rest, Printed([], false), accepts);
    assert (turns[0].prints + [turns[0].answer] + rest)[|turns[0].prints| + 1..] == rest;
  }
}
