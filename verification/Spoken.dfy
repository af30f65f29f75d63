/**
 Workers that write well-formed events: what they print is what the host's callback is called with,
 and what they answer is what the host is told.
 */
module Spoken {
  import opened Common
  import opened Wire
  import opened Channel

  // ---------------------------------------------------------------------------
  // Events

  function OptNumber(tag: nat, x: Option<U64>): seq<Field>
  {
    if x.Some? then [VarintField(tag, x.value)] else []
  }

  function OptText(tag: nat, x: Option<Bytes>): seq<Field>
  {
    if x.Some? then [LenField(tag, x.value)] else []
  }

  function Timing(micros: U64, zeros: bool): seq<Field>
  {
    if micros == 0 && !zeros then [] else [VarintField(20, micros)]
  }

  function Trailer(e: ChildEvent, zeros: bool): seq<Field>
  {
    Timing(e.micros, zeros) + OptNumber(22, e.maxSuspensions) + OptText(23, e.script) + OptNumber(27, e.maxSleepMicros)
  }

  /** The event's kind and body, then execution time, limits and script; a time of zero may be left out. */
  function EventFields(e: ChildEvent, zeros: bool): seq<Field>
  {
    [LenField(e.kind, e.body)] + Trailer(e, zeros)
  }

  function EventFrame(e: ChildEvent, zeros: bool): Bytes { Write(EventFields(e, zeros)) }

  ghost predicate Sendable(e: ChildEvent, zeros: bool)
  {
    1 <= e.kind <= 12 && |EventFrame(e, zeros)| < TWO64
  }

  /** Of the fields after the kind none names another. */
  predicate Trailing(f: Field)
  {
    f.tag > 12 && (f.tag == 27 ==> f.typ.Varint?)
  }

  /** Reading at most one field more. */
  lemma EventStep(f: Field, rest: seq<Field>, more: seq<Field>)
    requires |more| <= 1
    ensures EventOf([f] + (rest + more))
         == if more == [] then EventOf([f] + rest) else TakeField(EventOf([f] + rest), more[0])
  {
    hide TakeField;
    assert [f] + (rest + more) == ([f] + rest) + more;
    var fs := ([f] + rest) + more;
    if more != [] {
      assert fs[..|fs| - 1] == [f] + rest;
    } else {
      assert fs == [f] + rest;
    }
  }

  /** An event that is written from its parts is read as these parts. */
  lemma EventRoundTrip(e: ChildEvent, zeros: bool)
    requires Sendable(e, zeros)
    ensures Event(EventFrame(e, zeros)) == Ok(e)
  {
    hide Parse, Write, IsEvent, EventOf;
    var fs := EventFields(e, zeros);
    EventLayout(e, zeros);
    ParseMessage(fs);
    EventReads(e, zeros);
  }

  ghost predicate AllTrailing(fs: seq<Field>)
  {
    forall i :: 0 <= i < |fs| ==> Trailing(fs[i]) && Shaped(fs[i])
  }

  lemma TrailingParts(e: ChildEvent, zeros: bool)
    ensures AllTrailing(Timing(e.micros, zeros))
    ensures AllTrailing(OptNumber(22, e.maxSuspensions)) && AllTrailing(OptText(23, e.script))
    ensures AllTrailing(OptNumber(27, e.maxSleepMicros))
  {
  }

  lemma TrailingConcat(a: seq<Field>, b: seq<Field>)
    requires AllTrailing(a) && AllTrailing(b)
    ensures AllTrailing(a + b)
  {
    hide Trailing, Shaped;
  }

  lemma KindThenTrailing(f: Field, rest: seq<Field>)
    requires IsKind(f) && Shaped(f) && AllTrailing(rest)
    ensures AllShaped([f] + rest) && IsEvent(Parsed([f] + rest, true))
  {
    hide Shaped;
    var fs := [f] + rest;
    assert fs[0] == f && f.tag != 27;
    forall i | 0 < i < |fs| ensures Trailing(fs[i]) && Shaped(fs[i]) && !IsKind(fs[i]) {
      assert fs[i] == rest[i - 1];
      TrailingIsNoKind(rest[i - 1]);
    }
    hide AllTrailing, IsKind;
    OneKind(fs);
  }

  lemma TrailingIsNoKind(f: Field)
    ensures Trailing(f) ==> !IsKind(f)
  {
  }

  lemma OneKind(fs: seq<Field>)
    requires fs != [] && IsKind(fs[0]) && fs[0].tag != 27
    requires forall i :: 0 < i < |fs| ==> Trailing(fs[i]) && !IsKind(fs[i])
    ensures IsEvent(Parsed(fs, true))
  {
    hide IsKind;
  }

  lemma EventLayout(e: ChildEvent, zeros: bool)
    requires 1 <= e.kind <= 12
    ensures AllShaped(EventFields(e, zeros)) && IsEvent(Parsed(EventFields(e, zeros), true))
  {
    var f := LenField(e.kind, e.body);
    assert IsKind(f) && Shaped(f);
    hide AllTrailing, AllShaped, IsEvent, Timing, OptNumber, OptText, IsKind, Shaped;
    TrailingParts(e, zeros);
    var a, b, c := Timing(e.micros, zeros), OptNumber(22, e.maxSuspensions), OptText(23, e.script);
    TrailingConcat(a, b);
    TrailingConcat(a + b, c);
    TrailingConcat(a + b + c, OptNumber(27, e.maxSleepMicros));
    KindThenTrailing(f, Trailer(e, zeros));
  }

  lemma EventReads(e: ChildEvent, zeros: bool)
    requires 1 <= e.kind <= 12
    ensures EventOf(EventFields(e, zeros)) == e
  {
    hide EventOf;
    var f := LenField(e.kind, e.body);
    assert EventOf([f]) == ChildEvent(e.kind, e.body, 0, None, None, None) by {
      assert EventOf([]) == NO_EVENT by { NoEvent(); }
      OneField(f);
    }
    var a, b, c := Timing(e.micros, zeros), OptNumber(22, e.maxSuspensions), OptText(23, e.script);
    assert [f] + [] == [f] && [] + a == a;
    EventStep(f, [], a);
    EventStep(f, a, b);
    EventStep(f, a + b, c);
    EventStep(f, a + b + c, OptNumber(27, e.maxSleepMicros));
  }

  lemma OneField(f: Field)
    ensures EventOf([f]) == TakeField(EventOf([]), f)
  {
    hide TakeField;
    assert [f][..0] == [];
  }

  lemma NoEvent()
    ensures EventOf([]) == NO_EVENT
  {
  }

  // ---------------------------------------------------------------------------
  // The callback

  /** Some part of the segments, from the first on, is refused by the callback. */
  ghost predicate Refuses(accepts: seq<Segment> -> bool, before: seq<Segment>, segments: seq<Segment>)
  {
    exists j :: 0 < j <= |segments| && !accepts(before + segments[..j])
  }

  /** The first j segments are refused, and no fewer. */
  ghost predicate FirstRefused(accepts: seq<Segment> -> bool, before: seq<Segment>, segments: seq<Segment>, j: int)
  {
    && 0 < j <= |segments| && !accepts(before + segments[..j])
    && forall i :: 0 < i < j ==> accepts(before + segments[..i])
  }

  /**
   The callback is called with one segment more each time until it refuses: it fails if and only if
   it refuses some part, has then seen the shortest it refuses, and else has seen everything.
   */
  lemma {:induction false} DeliverMeaning(p: Printed, segments: seq<Segment>, accepts: seq<Segment> -> bool)
    requires !p.failed
    ensures
      var q := Deliver(p, segments, accepts);
      && (q.failed <==> Refuses(accepts, p.segments, segments))
      && (!q.failed ==> q.segments == p.segments + segments)
      && (q.failed ==>
          exists j :: FirstRefused(accepts, p.segments, segments, j) && q.segments == p.segments + segments[..j])
    decreases |segments|
  {
    if segments != [] {
      var more := p.segments + [segments[0]];
      assert segments[..1] == [segments[0]];
      if accepts(more) {
        var rest := segments[1..];
        DeliverMeaning(Printed(more, false), rest, accepts);
        forall j | 0 < j < |segments| ensures more + rest[..j] == p.segments + segments[..j + 1] {
          assert segments[..j + 1] == [segments[0]] + rest[..j];
        }
        forall j | 1 < j <= |segments| ensures p.segments + segments[..j] == more + rest[..j - 1] {
          assert segments[..j] == [segments[0]] + rest[..j - 1];
        }
        var q := Deliver(p, segments, accepts);
        if q.failed {
          var j :| FirstRefused(accepts, more, rest, j) && q.segments == more + rest[..j];
          assert FirstRefused(accepts, p.segments, segments, j + 1);
        }
      } else {
        assert FirstRefused(accepts, p.segments, segments, 1);
        assert Refuses(accepts, p.segments, segments) by {
          assert !accepts(p.segments + segments[..1]);
        }
      }
    }
  }

  lemma {:induction false} DeliverOn(p: Printed, a: seq<Segment>, b: seq<Segment>, accepts: seq<Segment> -> bool)
    ensures Deliver(Deliver(p, a, accepts), b, accepts) == Deliver(p, a + b, accepts)
    decreases |a|
  {
    if a == [] {
      assert a + b == b;
    } else if !p.failed {
      assert (a + b)[0] == a[0] && (a + b)[1..] == a[1..] + b;
      var more := p.segments + [a[0]];
      DeliverOn(Printed(more, !accepts(more)), a[1..], b, accepts);
    }
  }

  // ---------------------------------------------------------------------------
  // Conversations

  /** What a worker says to one request: segments printed in any number of events, then its answer. */
  datatype Said = Said(prints: seq<seq<Segment>>, answer: ChildEvent)

  function PrintEvent(segments: seq<Segment>): ChildEvent
    requires Streams(segments)
  {
    ChildEvent(PRINT, Write(PrintFields(segments)), 0, None, None, None)
  }

  function PrintFrames(prints: seq<seq<Segment>>, zeros: bool): (frames: seq<Bytes>)
    requires forall i :: 0 <= i < |prints| ==> Streams(prints[i])
    ensures |frames| == |prints|
    ensures forall i :: 0 <= i < |prints| ==> frames[i] == EventFrame(PrintEvent(prints[i]), zeros)
  {
    seq(|prints|, i requires 0 <= i < |prints| => EventFrame(PrintEvent(prints[i]), zeros))
  }

  ghost predicate Speakable(s: Said, zeros: bool)
  {
    && s.answer.kind != PRINT && Sendable(s.answer, zeros)
    && forall i :: 0 <= i < |s.prints| ==> Streams(s.prints[i]) && Sendable(PrintEvent(s.prints[i]), zeros)
  }

  /** The frames of it. */
  ghost function Spoken(s: Said, zeros: bool): Turn
    requires Speakable(s, zeros)
  {
    Turn(PrintFrames(s.prints, zeros), EventFrame(s.answer, zeros))
  }

  /** Everything printed, in order. */
  function All(prints: seq<seq<Segment>>): seq<Segment>
  {
    if prints == [] then [] else prints[0] + All(prints[1..])
  }

  lemma PrintFrame(segments: seq<Segment>, zeros: bool)
    requires Streams(segments) && Sendable(PrintEvent(segments), zeros)
    ensures
      var frame := EventFrame(PrintEvent(segments), zeros);
      IsPrint(frame) && Segments(Event(frame).value.body) == segments
  {
    hide Write, Segments, Event, EventFields, PrintFields;
    EventRoundTrip(PrintEvent(segments), zeros);
    assert |Write(PrintFields(segments))| < TWO64 by {
      var fs := EventFields(PrintEvent(segments), zeros);
      FirstField(PrintEvent(segments), zeros);
      WriteLength(fs, 0);
    }
    SegmentsRoundTrip(segments);
  }

  lemma FirstField(e: ChildEvent, zeros: bool)
    ensures |EventFields(e, zeros)| > 0 && EventFields(e, zeros)[0] == LenField(e.kind, e.body)
  {
  }

  lemma {:induction false} EmittedIsAll(prints: seq<seq<Segment>>, zeros: bool)
    requires forall i :: 0 <= i < |prints| ==> Streams(prints[i]) && Sendable(PrintEvent(prints[i]), zeros)
    ensures Emitted(PrintFrames(prints, zeros)) == All(prints)
    ensures forall i :: 0 <= i < |prints| ==> IsPrint(PrintFrames(prints, zeros)[i])
  {
    hide EventFrame, PrintEvent, Event, Segments, Sendable;
    if prints != [] {
      var frames := PrintFrames(prints, zeros);
      PrintFrame(prints[0], zeros);
      EmittedIsAll(prints[1..], zeros);
      assert frames[1..] == PrintFrames(prints[1..], zeros);
      forall i | 0 <= i < |prints| ensures IsPrint(frames[i]) {
        if i > 0 {
          assert frames[i] == PrintFrames(prints[1..], zeros)[i - 1];
        }
      }
    }
  }

  lemma SpokenIsPolite(s: Said, zeros: bool)
    requires Speakable(s, zeros)
    ensures Polite(Spoken(s, zeros)) && Answer(Spoken(s, zeros)) == s.answer
    ensures Emitted(Spoken(s, zeros).prints) == All(s.prints)
  {
    hide EventFrame, Event, Emitted, PrintFrames, All, PrintEvent;
    EmittedIsAll(s.prints, zeros);
    EventRoundTrip(s.answer, zeros);
  }

  lemma {:induction false} ListenDelivers(t: Turn, rest: seq<Bytes>, p: Printed, accepts: seq<Segment> -> bool)
    requires Polite(t)
    ensures Listen(t.prints + [t.answer] + rest, p, accepts).printed == Deliver(p, Emitted(t.prints), accepts)
    decreases |t.prints|
  {
    hide Event, Segments, Deliver;
    var frames := t.prints + [t.answer] + rest;
    if t.prints == [] {
      assert frames[0] == t.answer;
      NothingDelivered(p, accepts);
    } else {
      var first := Segments(Event(t.prints[0]).value.body);
      var more := t.prints[1..] + [t.answer] + rest;
      assert frames[0] == t.prints[0] && frames[1..] == more;
      assert forall i :: 0 <= i < |t.prints| - 1 ==> t.prints[1..][i] == t.prints[i + 1];
      assert IsPrint(t.prints[0]);
      ListenDelivers(Turn(t.prints[1..], t.answer), rest, Deliver(p, first, accepts), accepts);
      ListenPrint(frames, p, accepts);
      EmittedSplits(t.prints);
      DeliverOn(p, first, Emitted(t.prints[1..]), accepts);
    }
  }

  lemma NothingDelivered(p: Printed, accepts: seq<Segment> -> bool)
    ensures Deliver(p, [], accepts) == p
  {
  }

  /**
   An exchange with a worker that prints these segments and gives this answer: the callback is called
   with the segments in order, up to the first it refuses or to the end; the answer is withheld if and
   only if it refuses one, and what the worker writes after that is left for the next exchange.
   */
  lemma SpokenExchange(s: Said, zeros: bool, rest: seq<Bytes>, accepts: seq<Segment> -> bool)
    requires Speakable(s, zeros)
    ensures
      var t := Spoken(s, zeros);
      var l := Listen(t.prints + [t.answer] + rest, Printed([], false), accepts);
      && l.used == |t.prints| + 1
      && l.ending == (if Refuses(accepts, [], All(s.prints)) then Withheld else Told(s.answer))
      && (if Refuses(accepts, [], All(s.prints))
          then exists j :: FirstRefused(accepts, [], All(s.prints), j) && l.printed.segments == All(s.prints)[..j]
          else l.printed.segments == All(s.prints))
  {
    hide Listen, Event, Emitted, Deliver, Polite, Answer, Spoken, Speakable;
    var t, none := Spoken(s, zeros), Printed([], false);
    SpokenIsPolite(s, zeros);
    ExchangeTakesOneTurn(t, rest, none, accepts);
    ListenDelivers(t, rest, none, accepts);
    DeliverMeaning(none, All(s.prints), accepts);
    assert forall j :: 0 < j <= |All(s.prints)| ==> [] + All(s.prints)[..j] == All(s.prints)[..j];
    assert [] + All(s.prints) == All(s.prints);
  }

  ghost function SpokenTurns(said: seq<Said>, zeros: bool): (turns: seq<Turn>)
    requires forall i :: 0 <= i < |said| ==> Speakable(said[i], zeros)
    ensures |turns| == |said| && forall i :: 0 <= i < |said| ==> turns[i] == Spoken(said[i], zeros)
  {
    seq(|said|, i requires 0 <= i < |said| => Spoken(said[i], zeros))
  }

  /**
   Over a whole conversation with such a worker the k-th exchange gets the k-th answer, and its
   callback the k-th turn's prints, whatever earlier callbacks refused.
   */
  lemma SpokenAnswersAlign(
      said: seq<Said>, zeros: bool, callbacks: seq<seq<Segment> -> bool>, last: seq<Segment> -> bool)
    requires |callbacks| < |said| && forall i :: 0 <= i < |said| ==> Speakable(said[i], zeros)
    ensures
      var s := said[|callbacks|];
      var l := Listen(Unread(Transcript(SpokenTurns(said, zeros)), callbacks), Printed([], false), last);
      && l.ending == (if Refuses(last, [], All(s.prints)) then Withheld else Told(s.answer))
      && (if Refuses(last, [], All(s.prints))
          then exists j :: FirstRefused(last, [], All(s.prints), j) && l.printed.segments == All(s.prints)[..j]
          else l.printed.segments == All(s.prints))
  {
    hide Listen, Unread, Event, Emitted, Polite, Answer, Spoken, Speakable, Refuses, FirstRefused, All;
    var turns, k := SpokenTurns(said, zeros), |callbacks|;
    forall i | 0 <= i < |turns| ensures Polite(turns[i]) {
      SpokenIsPolite(said[i], zeros);
    }
    UnreadIsLater(turns, callbacks);
    var later := turns[k..];
    assert later[0] == Spoken(said[k], zeros);
    SpokenExchange(said[k], zeros, Transcript(later[1..]), last);
  }
}
