/**
 The session layer's view of an exchange is the channel's: what comes off the pipe in frames is the
 reply a session is answered with.
 */
module ExchangeRefinement {
  import opened Common
  import opened S = Session
  import opened O = SessionObjects
  import C = Channel

  /** The kind a terminal event's field tag names. */
  function KindOf(tag: nat): Option<Kind>
  {
    match tag
    case 2 => Some(FunctionCall)
    case 3 => Some(OSCall)
    case 4 => Some(NameLookup)
    case 5 => Some(ResolveFutures)
    case 6 => Some(Complete)
    case 7 => Some(ErrorEvent)
    case 8 => Some(TypingError)
    case 9 => Some(Kind.DumpEvent)
    case 10 => Some(Kind.OkEvent)
    case 11 => Some(Fatal)
    case 12 => Some(ShutdownDump)
    case _ => None
  }

  /** An event as the session layer sees it, once its body has been decoded. */
  ghost predicate SameEvent(c: C.ChildEvent, e: Event)
  {
    && KindOf(c.kind) == Some(e.kind) && e.micros == c.micros
    && e.maxSuspensions == c.maxSuspensions && e.maxSleepMicros == c.maxSleepMicros
  }

  /** How an exchange ended, in both vocabularies. */
  ghost predicate Agrees(ending: C.Ending, answer: C.ChildEvent, reply: Reply)
  {
    match ending
    case Lost => reply == Crash
    case Withheld => reply.Discarded? && SameEvent(answer, reply.e)
    case Told(e) => reply.Answer? && e == answer && SameEvent(e, reply.e)
  }

  /** Only function calls, OS calls, name lookups and futures suspend, and only fatal events kill. */
  lemma KindsCorrespond(tag: nat)
    ensures KindOf(tag).Some? <==> 2 <= tag <= 12
    ensures KindOf(tag).Some? ==> (Suspends(KindOf(tag).value) <==> tag <= 5)
    ensures KindOf(tag).Some? ==> (KindOf(tag).value.Fatal? <==> tag == C.FATAL)
  {
  }

  /** The two layers agree on when an exchange costs the worker its life. */
  lemma DeathAgrees(ending: C.Ending, answer: C.ChildEvent, reply: Reply, vm: Vm)
    requires Agrees(ending, answer, reply) && (!reply.Crash? ==> !reply.vm.dead)
    ensures After(vm, reply).dead <==> ending.Lost? || (ending.Told? && ending.e.kind == C.FATAL)
  {
    if ending.Told? {
      KindsCorrespond(ending.e.kind);
    }
  }

  /**
   In a conversation with a worker that answers every request, whatever it prints and whichever
   callbacks fail, the k-th exchange gives the session layer the k-th answer: as an answer, or
   discarded just when this exchange's callback failed, and never a lost worker.
   */
  lemma SessionHearsItsAnswer(
      turns: seq<C.Turn>, callbacks: seq<seq<C.Segment> -> bool>, last: seq<C.Segment> -> bool, reply: Reply)
    requires |callbacks| < |turns| && forall i :: 0 <= i < |turns| ==> C.Polite(turns[i])
    requires
      var l := C.Listen(C.Unread(C.Transcript(turns), callbacks), C.Printed([], false), last);
      Agrees(l.ending, C.Answer(turns[|callbacks|]), reply)
    ensures
      var l := C.Listen(C.Unread(C.Transcript(turns), callbacks), C.Printed([], false), last);
      && !reply.Crash? && SameEvent(C.Answer(turns[|callbacks|]), reply.e)
      && (reply.Discarded? <==> l.printed.failed)
  {
    hide C.Listen, C.Unread, C.Transcript, C.Polite, C.Answer;
    C.AnswersAlign(turns, callbacks, last);
  }
}
