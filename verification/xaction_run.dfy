/** A transaction driven by a sequence of events.

    Every entry point of XactionRep is an event here, together with what the
    environment does between calls: the virgin pipe's producer adds bytes or
    ends, and the adapter produces output. Calls reach the transaction only
    while callable(); once doneAll() holds after a call, the job ends and
    swanSong() runs, as does an abort by the initiator or the adapter. A
    failed Must() ends the call where it failed; the job then stops and
    swanSong() runs from the state the call left. Only a check that fails
    inside swanSong() itself, which nothing catches, ends a run with a
    failure.
 */
module XactionRun {
  import opened Outcomes
  import opened BodyPipes
  import opened Adapters
  import opened XactionRep

  datatype Event =
    // calls the adapter transaction makes into the host
    | UseVirginCall
    | UseAdaptedCall(msg: Option<AdaptedMsg>)
    | BlockVirginCall
    | VbDiscardCall
    | VbMakeCall
    | VbStopMakingCall
    | VbMakeMoreCall
    | VbContentCall(offset: nat, size: Size)
    | VbContentShiftCall(n: nat)
    | AbContentDoneCall(atEnd: bool, room: nat)
    | AbContentAvailableCall(room: nat)
    | AdaptationDelayedCall
    | AdaptationAbortedCall
    // callbacks from the two body pipes
    | MoreBodySpaceAvailable(room: nat)
    | BodyConsumerAborted
    | MoreBodyDataAvailable
    | BodyProductionEnded
    | BodyProducerAborted
    // the initiator went away
    | InitiatorAborted
    // the environment, not the transaction
    | VirginBytesArrive(bytes: seq<byte>)
    | VirginProductionEnds
    | AdapterOutputs(bytes: seq<byte>)

  /** Lift a virgin-side step into the transaction. */
  function OnVirginSide(s: Xaction, r: Result<VirginSide>): (t: Result<Xaction>)
    ensures t.Ok? <==> r.Ok?
    ensures t.Ok? ==> t.value == s.(vb := r.value)
  {
    var v :- r;
    Ok(s.(vb := v))
  }

  /** The effect of one event on a transaction that is still callable. */
  function Handle(s: Xaction, e: Event): Result<Xaction> {
    match e
    case UseVirginCall => UseVirgin(s)
    case UseAdaptedCall(m) => UseAdapted(s, m)
    case BlockVirginCall => BlockVirgin(s)
    case VbDiscardCall => OnVirginSide(s, VbDiscard(s.vb))
    case VbMakeCall => OnVirginSide(s, VbMake(s.vb))
    case VbStopMakingCall => OnVirginSide(s, VbStopMaking(s.vb))
    case VbMakeMoreCall => OnVirginSide(s, VbMakeMore(s.vb))
    case VbContentCall(o, size) =>
      var view :- VbContent(s.vb, o, size);
      Ok(s)
    case VbContentShiftCall(n) => OnVirginSide(s, VbContentShift(s.vb, n))
    case AbContentDoneCall(atEnd, room) => NoteAbContentDone(s, atEnd, room)
    case AbContentAvailableCall(room) => NoteAbContentAvailable(s, room)
    case AdaptationDelayedCall => Ok(s)
    case AdaptationAbortedCall => SwanSong(s)
    case MoreBodySpaceAvailable(room) => NoteMoreBodySpaceAvailable(s, room)
    case BodyConsumerAborted => NoteBodyConsumerAborted(s)
    case MoreBodyDataAvailable => NoteMoreBodyDataAvailable(s)
    case BodyProductionEnded => NoteVbProductionStopped(s, true)
    case BodyProducerAborted => NoteVbProductionStopped(s, false)
    case InitiatorAborted => SwanSong(s)
    case VirginBytesArrive(bytes) =>
      if s.vb.pipe.Some? && !s.vb.pipe.value.productionEnded then
        var p := s.vb.pipe.value;
        Ok(s.(vb := s.vb.(pipe := Some(p.(content := p.content + bytes)))))
      else
        Ok(s)
    case VirginProductionEnds =>
      if s.vb.pipe.Some? then
        Ok(s.(vb := s.vb.(pipe := Some(s.vb.pipe.value.(productionEnded := true)))))
      else
        Ok(s)
    case AdapterOutputs(bytes) =>
      if s.master.Some? then Ok(s.(master := Some(Produce(s.master.value, bytes)))) else Ok(s)
  }

  /** The state a call leaves when one of its Must() checks throws: what
      the call did before the failed check stays. Three calls change
      something before a check of theirs: useVirgin() sets proxyingAb =
      opNever before preserveVb() checks that nothing was consumed,
      noteAbContentDone() latches how production ended before
      moveAbContent() runs, and noteBodyConsumerAborted() stops producing
      before Must(theMaster). useAdapted() checks its message before
      adopting it (XactionRep.UseAdaptedThrownAsWritten has the source's
      order); every other call checks before it changes anything. */
  function Thrown(s: Xaction, e: Event): (t: Xaction)
    ensures t.(ab := s.ab) == s
    ensures !(e.UseVirginCall? || e.AbContentDoneCall? || e.BodyConsumerAborted?) ==> t == s
    ensures e.UseVirginCall? ==>
              t.ab == s.ab.(proxyingAb := if s.ab.proxyingAb.OpUndecided? then OpNever else s.ab.proxyingAb)
    ensures e.AbContentDoneCall? ==> t.ab.(productionFinished := s.ab.productionFinished, productionAtEnd := s.ab.productionAtEnd) == s.ab
    ensures e.BodyConsumerAborted? && s.ab.proxyingAb.OpOn? && AbLinked(s.ab) ==> t.ab == StopProducing(s.ab, false)
    ensures e.BodyConsumerAborted? && !(s.ab.proxyingAb.OpOn? && AbLinked(s.ab)) ==> t == s
    // the latch happens once, while the adapted side is On and not yet finished
    ensures e.AbContentDoneCall? && s.ab.proxyingAb.OpOn? && !s.ab.productionFinished ==>
              t.ab.productionFinished && t.ab.productionAtEnd == e.atEnd
    ensures e.AbContentDoneCall? && !(s.ab.proxyingAb.OpOn? && !s.ab.productionFinished) ==> t == s
  {
    match e
    case UseVirginCall =>
      if s.ab.proxyingAb.OpUndecided? then s.(ab := s.ab.(proxyingAb := OpNever)) else s
    case AbContentDoneCall(atEnd, _) =>
      if s.ab.proxyingAb.OpOn? && !s.ab.productionFinished then Latched(s, atEnd) else s
    case BodyConsumerAborted =>
      if s.ab.proxyingAb.OpOn? && AbLinked(s.ab) then s.(ab := StopProducing(s.ab, false)) else s
    case _ => s
  }

  /** One event: dropped when the job is no longer callable; the job ends
      with swanSong() as soon as doneAll() holds after the call, and as
      soon as the call throws. */
  function Deliver(s: Xaction, e: Event): (r: Result<Xaction>)
    ensures !Callable(s) ==> r == Ok(s)
    // a job is never left done without its swanSong()
    ensures Callable(s) && r.Ok? ==> r.value.stopped || Callable(r.value)
    // a call that throws ends the job, keeping its answer and stopping the adapter
    ensures Callable(s) && Handle(s, e).Fail? && r.Ok? ==>
              && r.value.stopped && r.value.master.None? && r.value.answer == s.answer
              && r.value.calls == s.calls + (if s.master.Some? then [Stop] else [])
  {
    if !Callable(s) then
      Ok(s)
    else
      match Handle(s, e)
      case Ok(r) => if DoneAll(r) && !r.stopped then SwanSong(r) else Ok(r)
      case Fail(_) => SwanSong(Thrown(s, e))
  }

  /** A sequence of events, stopping at the first swanSong() that throws. */
  function Run(s: Xaction, es: seq<Event>): Result<Xaction>
    decreases |es|
  {
    if es == [] then
      Ok(s)
    else
      var s1 :- Deliver(s, es[0]);
      Run(s1, es[1..])
  }

  /** makeXactLauncher() followed by start(). */
  function Launched(virgin: VirginMsg, hasCause: bool, serviceKey: string, x: Option<Adapter>): Result<Xaction> {
    var s :- Launch(virgin, hasCause, serviceKey, x);
    XactionRep.Start(s)
  }

  /** The bytes the adapted pipe accepted so far. */
  function AbDelivered(s: Xaction): seq<byte> {
    if s.ab.pipe.Some? then s.ab.pipe.value.content else []
  }

  /** What holds of every transaction reachable from a launch. */
  predicate Inv(s: Xaction) {
    && (s.hasCause || s.virginIsRequest)
    // the virgin side: registered as consumer exactly while making vb
    && (s.vb.linked ==> s.vb.pipe.Some?)
    && (VbConsuming(s.vb) ==> s.vb.linked)
    && (VbConsuming(s.vb) <==> s.vb.makingVb.OpOn? && !s.stopped)
    // the adapted side: registered as producer exactly while proxying ab
    && (s.ab.linked <==> AbProducing(s.ab))
    && (s.ab.linked ==> s.ab.rep.Some?)
    && (AbProducing(s.ab) <==> s.ab.proxyingAb.OpOn? && !s.stopped)
    && (s.ab.proxyingAb.OpUndecided? ==> s.ab.pipe.None?)
    // a decided answer leaves proxyingAb; while the job runs, proxyingAb
    // leaves Undecided only with the answer (a throw can end a job between)
    && (s.answer.Some? ==> !s.ab.proxyingAb.OpUndecided?)
    && (!s.stopped ==> (s.ab.proxyingAb.OpUndecided? <==> s.answer.None?))
    // theMaster is held until swanSong(), which stops it once
    && (s.master.Some? <==> !s.stopped)
    && CountStops(s.calls) == (if s.stopped then 1 else 0)
    // the adapted pipe holds exactly the bytes the adapter's cursor passed
    && (s.master.Some? ==> s.master.value.shiftedOut == AbDelivered(s))
  }

  lemma LaunchedInv(virgin: VirginMsg, hasCause: bool, serviceKey: string, x: Option<Adapter>)
    requires x.Some? && Fresh(x.value)
    requires virgin.bodyPipe.Some? ==> !virgin.bodyPipe.value.consumerRegistered
    requires Launched(virgin, hasCause, serviceKey, x).Ok?
    ensures Inv(Launched(virgin, hasCause, serviceKey, x).value)
    ensures Launched(virgin, hasCause, serviceKey, x).value.calls == [AdapterCall.Start]
  {
  }

  /** What one successful event can do to a reachable transaction: the
      result is reachable again, a decided answer stays, Complete and Never
      are final on both sides, and the adapted pipe only grows. */
  predicate Follows(s: Xaction, r: Xaction) {
    && Inv(r)
    && (s.answer.Some? ==> r.answer == s.answer)
    && (Terminal(s.vb.makingVb) ==> r.vb.makingVb == s.vb.makingVb)
    && (Terminal(s.ab.proxyingAb) ==> r.ab.proxyingAb == s.ab.proxyingAb)
    && AbDelivered(s) <= AbDelivered(r)
  }

  lemma FollowsTransitive(a: Xaction, b: Xaction, c: Xaction)
    requires Follows(a, b) && Follows(b, c)
    ensures Follows(a, c)
  {
    assert AbDelivered(a) <= AbDelivered(c) by {
      assert AbDelivered(b)[..|AbDelivered(a)|] == AbDelivered(a);
    }
  }

  // ---------------------------------------------------------------------
  // One event keeps the invariant

  /** swanSong() of a reachable transaction never fails. */
  lemma SwanSongFollows(s: Xaction)
    requires Inv(s)
    ensures SwanSong(s).Ok?
    ensures Follows(s, SwanSong(s).value)
  {
    if s.stopped {
      var r := SwanSong(s).value;
      assert r.calls == s.calls && AbDelivered(r) == AbDelivered(s);
    } else {
      assert s.(ab := s.ab) == s;
      TeardownFollows(s, s.ab);
    }
  }

  /** A step that only touches the virgin side keeps Inv when the new side
      is consuming exactly while On and leaves a terminal state alone. */
  lemma VirginStepFollows(s: Xaction, w: VirginSide)
    requires Inv(s) && !s.stopped
    requires w.linked ==> w.pipe.Some?
    requires VbConsuming(w) ==> w.linked
    requires VbConsuming(w) <==> w.makingVb.OpOn?
    requires Terminal(s.vb.makingVb) ==> w.makingVb == s.vb.makingVb
    ensures Follows(s, s.(vb := w))
  {
  }

  lemma UseVirginFollows(s: Xaction)
    requires Inv(s) && !s.stopped && UseVirgin(s).Ok?
    ensures Follows(s, UseVirgin(s).value)
  {
  }

  lemma UseAdaptedFollows(s: Xaction, m: Option<AdaptedMsg>)
    requires Inv(s) && !s.stopped && UseAdapted(s, m).Ok?
    ensures Follows(s, UseAdapted(s, m).value)
  {
    if m.value.hasBody {
      CountStopsAppend(s.calls, AbMake);
    }
  }

  lemma BlockVirginFollows(s: Xaction)
    requires Inv(s) && !s.stopped && BlockVirgin(s).Ok?
    ensures Follows(s, BlockVirgin(s).value)
  {
  }

  lemma VirginCallbackFollows(s: Xaction, atEnd: bool, announce: bool)
    requires Inv(s) && !s.stopped
    requires announce ==> NoteMoreBodyDataAvailable(s).Ok?
    requires !announce ==> NoteVbProductionStopped(s, atEnd).Ok?
    ensures announce ==> Follows(s, NoteMoreBodyDataAvailable(s).value)
    ensures !announce ==> Follows(s, NoteVbProductionStopped(s, atEnd).value)
  {
    if announce {
      CountStopsAppend(s.calls, NoteVbContentAvailable);
    } else {
      CountStopsAppend(s.calls, NoteVbContentDone(atEnd));
    }
  }

  lemma ConsumerAbortedFollows(s: Xaction)
    requires Inv(s) && !s.stopped && NoteBodyConsumerAborted(s).Ok?
    ensures Follows(s, NoteBodyConsumerAborted(s).value)
  {
    CountStopsAppend(s.calls, AbStopMaking);
  }

  /** A drain keeps the adapted pipe equal to what the cursor passed. */
  lemma MoveFollows(s: Xaction, room: nat)
    requires Inv(s) && !s.stopped
    requires MoveAbContent(s, room).Ok?
    ensures Follows(s, MoveAbContent(s, room).value)
  {
    var r := MoveAbContent(s, room).value;
    var c := s.master.value.available;
    if |c| > 0 {
      var used := Min(room, |c|);
      if used > 0 {
        CountStopsAppend(s.calls, AdapterCall.AbContentShift(used));
      }
      assert AbDelivered(r) == AbDelivered(s) + c[..used];
    }
  }

  lemma AbContentDoneFollows(s: Xaction, atEnd: bool, room: nat)
    requires Inv(s) && !s.stopped
    requires NoteAbContentDone(s, atEnd, room).Ok?
    ensures Follows(s, NoteAbContentDone(s, atEnd, room).value)
  {
    var s1 := Latched(s, atEnd);
    assert AbDelivered(s1) == AbDelivered(s);
    MoveFollows(s1, room);
  }

  lemma FollowsReflexive(s: Xaction)
    requires Inv(s)
    ensures Follows(s, s)
  {
    assert AbDelivered(s) <= AbDelivered(s);
  }

  /** The adapter producing output leaves the host's state alone. */
  lemma AdapterOutputsFollows(s: Xaction, bytes: seq<byte>)
    requires Inv(s) && !s.stopped
    ensures Follows(s, s.(master := Some(Produce(s.master.value, bytes))))
  {
    var r := s.(master := Some(Produce(s.master.value, bytes)));
    assert AbDelivered(r) == AbDelivered(s);
  }

  /** The adapter's calls on the virgin side, and the virgin producer. */
  lemma VirginSideFollows(s: Xaction, e: Event)
    requires Inv(s) && !s.stopped
    requires || e.VbDiscardCall? || e.VbMakeCall? || e.VbStopMakingCall? || e.VbMakeMoreCall?
             || e.VbContentShiftCall? || e.VirginBytesArrive? || e.VirginProductionEnds?
    requires Handle(s, e).Ok?
    ensures Follows(s, Handle(s, e).value)
  {
    match e
    case VbDiscardCall =>
      var w := VbDiscard(s.vb).value;
      assert !VbConsuming(w);
      VirginStepFollows(s, w);
    case VbMakeCall => VirginStepFollows(s, VbMake(s.vb).value);
    case VbStopMakingCall =>
      var w := VbStopMaking(s.vb).value;
      assert !VbConsuming(w);
      VirginStepFollows(s, w);
    case VbMakeMoreCall => VirginStepFollows(s, VbMakeMore(s.vb).value);
    case VbContentShiftCall(n) => VirginStepFollows(s, VbContentShift(s.vb, n).value);
    case VirginBytesArrive(bytes) =>
      if s.vb.pipe.Some? && !s.vb.pipe.value.productionEnded {
        var p := s.vb.pipe.value;
        VirginStepFollows(s, s.vb.(pipe := Some(p.(content := p.content + bytes))));
      } else {
        FollowsReflexive(s);
      }
    case VirginProductionEnds =>
      if s.vb.pipe.Some? {
        VirginStepFollows(s, s.vb.(pipe := Some(s.vb.pipe.value.(productionEnded := true))));
      } else {
        FollowsReflexive(s);
      }
  }

  lemma HandleFollows(s: Xaction, e: Event)
    requires Inv(s) && Callable(s)
    requires Handle(s, e).Ok?
    ensures Follows(s, Handle(s, e).value)
  {
    match e
    case UseVirginCall => UseVirginFollows(s);
    case UseAdaptedCall(m) => UseAdaptedFollows(s, m);
    case BlockVirginCall => BlockVirginFollows(s);
    case VbContentCall(o, size) => FollowsReflexive(s);
    case AbContentDoneCall(atEnd, room) => AbContentDoneFollows(s, atEnd, room);
    case AbContentAvailableCall(room) => MoveFollows(s, room);
    case AdaptationDelayedCall => FollowsReflexive(s);
    case AdaptationAbortedCall => SwanSongFollows(s);
    case MoreBodySpaceAvailable(room) => MoveFollows(s, room);
    case BodyConsumerAborted => ConsumerAbortedFollows(s);
    case MoreBodyDataAvailable => VirginCallbackFollows(s, false, true);
    case BodyProductionEnded => VirginCallbackFollows(s, true, false);
    case BodyProducerAborted => VirginCallbackFollows(s, false, false);
    case InitiatorAborted => SwanSongFollows(s);
    case AdapterOutputs(bytes) => AdapterOutputsFollows(s, bytes);
    case _ => VirginSideFollows(s, e);
  }

  /** swanSong() from a running transaction whose adapted side was changed
      to `a` ends it cleanly, when `a` still leads answer() to a pipe only
      while we produce it and keeps what Follows keeps. */
  lemma TeardownFollows(s: Xaction, a: AdaptedSide)
    requires Inv(s) && !s.stopped
    requires a.linked <==> AbProducing(a)
    requires a.linked ==> a.rep.Some?
    requires a.proxyingAb.OpUndecided? ==> a.pipe.None?
    requires s.answer.Some? ==> !a.proxyingAb.OpUndecided?
    requires Terminal(s.ab.proxyingAb) ==> a.proxyingAb == s.ab.proxyingAb
    requires AbDelivered(s) <= AbDelivered(s.(ab := a))
    ensures SwanSong(s.(ab := a)).Ok?
    ensures Follows(s, SwanSong(s.(ab := a)).value)
  {
    var t := s.(ab := a);
    var r := SwanSong(t).value;
    CountStopsAppend(s.calls, Stop);
    assert AbDelivered(r) == AbDelivered(t);
  }

  /** Whatever a call did before one of its checks threw, the job then
      ends cleanly. */
  lemma ThrownFollows(s: Xaction, e: Event)
    requires Inv(s) && Callable(s)
    ensures SwanSong(Thrown(s, e)).Ok?
    ensures Follows(s, SwanSong(Thrown(s, e)).value)
  {
    var t := Thrown(s, e);
    if e.BodyConsumerAborted? && s.ab.proxyingAb.OpOn? && AbLinked(s.ab) {
      assert AbDelivered(t) == AbDelivered(s);
    }
    TeardownFollows(s, t.ab);
  }

  /** A delivered event never fails on a reachable transaction. */
  lemma DeliverFollows(s: Xaction, e: Event)
    requires Inv(s)
    ensures Deliver(s, e).Ok?
    ensures Follows(s, Deliver(s, e).value)
  {
    if Callable(s) {
      match Handle(s, e)
      case Ok(r) =>
        HandleFollows(s, e);
        if DoneAll(r) && !r.stopped {
          SwanSongFollows(r);
          FollowsTransitive(s, r, SwanSong(r).value);
        }
      case Fail(_) =>
        ThrownFollows(s, e);
    } else {
      FollowsReflexive(s);
    }
  }

  // ---------------------------------------------------------------------
  // Every run keeps it

  /** Every transaction reachable from a reachable one satisfies Inv; its
      answer, its terminal sides and its delivered bytes are kept. */
  lemma {:induction false} RunFollows(s: Xaction, es: seq<Event>)
    requires Inv(s)
    ensures Run(s, es).Ok?
    ensures Follows(s, Run(s, es).value)
    decreases |es|
  {
    if es == [] {
      FollowsReflexive(s);
    } else {
      DeliverFollows(s, es[0]);
      var s1 := Deliver(s, es[0]).value;
      RunFollows(s1, es[1..]);
      assert Run(s, es) == Run(s1, es[1..]);
      FollowsTransitive(s, s1, Run(s, es).value);
    }
  }

  /** Running two event sequences one after the other is running their
      concatenation; a failure in the first ends both. */
  lemma {:induction false} RunConcat(s: Xaction, es1: seq<Event>, es2: seq<Event>)
    ensures Run(s, es1 + es2) == (if Run(s, es1).Ok? then Run(Run(s, es1).value, es2) else Run(s, es1))
    decreases |es1|
  {
    if es1 != [] {
      assert (es1 + es2)[0] == es1[0] && (es1 + es2)[1..] == es1[1..] + es2;
      if Deliver(s, es1[0]).Ok? {
        RunConcat(Deliver(s, es1[0]).value, es1[1..], es2);
      }
    } else {
      assert es1 + es2 == es2;
    }
  }

  /** Every run from a launch, whatever checks fail along the way, ends
      without a failure, and stops the adapter at most once and only when
      the job ended. */
  lemma StopAtMostOnce(virgin: VirginMsg, hasCause: bool, serviceKey: string, x: Option<Adapter>, es: seq<Event>)
    requires x.Some? && Fresh(x.value)
    requires virgin.bodyPipe.Some? ==> !virgin.bodyPipe.value.consumerRegistered
    requires Launched(virgin, hasCause, serviceKey, x).Ok?
    ensures Run(Launched(virgin, hasCause, serviceKey, x).value, es).Ok?
    ensures var r := Run(Launched(virgin, hasCause, serviceKey, x).value, es).value;
            CountStops(r.calls) <= 1 && (CountStops(r.calls) == 1 <==> r.stopped)
  {
    var s := Launched(virgin, hasCause, serviceKey, x).value;
    LaunchedInv(virgin, hasCause, serviceKey, x);
    RunFollows(s, es);
  }

  /** Once an answer is decided, every disposition call is rejected. */
  lemma SecondDispositionRejected(s: Xaction, m: Option<AdaptedMsg>)
    requires Inv(s) && s.answer.Some?
    ensures UseVirgin(s) == Fail(AbNotUndecided)
    ensures BlockVirgin(s) == Fail(AbNotUndecided)
    ensures m.Some? ==> UseAdapted(s, m) == Fail(AbNotUndecided)
  {
  }

  /** After Complete the transaction never produces the adapted body again. */
  lemma CompleteNeverReproduces(s: Xaction, es: seq<Event>)
    requires Inv(s) && s.ab.proxyingAb.OpComplete?
    ensures Run(s, es).Ok?
    ensures !AbProducing(Run(s, es).value.ab) && !Run(s, es).value.ab.linked
  {
    RunFollows(s, es);
  }

  // ---------------------------------------------------------------------
  // useAdapted() adopts its message before checking it

  /** As written, a second useAdapted() makes m theAnswerRep before its
      check rejects it; swanSong() then looks for the adapted pipe in m and
      never leaves the first answer's pipe, so the ended job is still its
      producer. */
  lemma AsWrittenSecondAnswerLeaksProducer(s: Xaction, m: AdaptedMsg)
    requires Inv(s) && !s.stopped && AbProducing(s.ab) && !m.hostSetPipe
    ensures UseAdapted(s, Some(m)) == Fail(AbNotUndecided)
    ensures SwanSong(UseAdaptedThrownAsWritten(s, Some(m))).Ok?
    ensures var r := SwanSong(UseAdaptedThrownAsWritten(s, Some(m))).value;
            r.stopped && r.master.None? && AbProducing(r.ab)
  {
  }

  /** As written, a message whose header already has a host body pipe is
      adopted before Must(!msg->body_pipe) rejects it; swanSong() then finds
      in answer() a pipe we do not produce and its own check fails. */
  lemma AsWrittenHostPipeFailsTeardown(s: Xaction, m: AdaptedMsg)
    requires Inv(s) && !s.stopped && m.hostSetPipe
    requires s.ab.proxyingAb.OpUndecided? ==> m.hasBody
    ensures UseAdapted(s, Some(m)).Fail?
    ensures SwanSong(UseAdaptedThrownAsWritten(s, Some(m))) == Fail(NotProducing)
  {
  }

  /** With the message checked before it is adopted, a rejected useAdapted()
      ends the job cleanly: the answer already sent stays, and a pipe we were
      producing is left, with the consumer told it ended early. */
  lemma RejectedAnswerTearsDown(s: Xaction, m: Option<AdaptedMsg>)
    requires Inv(s) && Callable(s) && UseAdapted(s, m).Fail?
    ensures Deliver(s, UseAdaptedCall(m)).Ok?
    ensures var r := Deliver(s, UseAdaptedCall(m)).value;
            && r.stopped && r.master.None? && r.answer == s.answer && Inv(r)
            && !AbProducing(r.ab) && !r.ab.linked
            && (AbProducing(s.ab) ==> r.ab.pipe == Some(ClearProducer(s.ab.pipe.value, false)))
  {
    DeliverFollows(s, UseAdaptedCall(m));
  }

  /** A finished job ignores every further event. */
  lemma {:induction false} DoneIsFinal(s: Xaction, es: seq<Event>)
    requires Done(s)
    ensures Run(s, es) == Ok(s)
    decreases |es|
  {
    if es != [] {
      assert Deliver(s, es[0]) == Ok(s);
      DoneIsFinal(s, es[1..]);
    }
  }

  /** A drain that took everything leaves nothing for a repeated
      notification to do while production goes on. */
  lemma DrainIdempotent(s: Xaction, room: nat, room2: nat)
    requires MoveAbContent(s, room).Ok? && !s.ab.productionFinished
    requires room >= |s.master.value.available|
    ensures MoveAbContent(MoveAbContent(s, room).value, room2) == MoveAbContent(s, room)
  {
  }

  /** vbContentShift(n) then vbContent(0, nsize) shows what vbContent(k,
      nsize) showed before, for the k bytes the shift consumed. */
  lemma ShiftThenRead(v: VirginSide, n: nat)
    requires VbLinked(v)
    ensures var k := Min(n, |v.pipe.value.content|);
            VbContentShift(v, n).Ok? &&
            VbContent(VbContentShift(v, n).value, 0, NSize) == VbContent(v, k, NSize)
  {
    var k := Min(n, |v.pipe.value.content|);
    var w := VbContentShift(v, n).value;
    var have := v.pipe.value.content;
    assert w.pipe.value.content == have[k..];
    assert VbContent(w, 0, NSize).value == have[k..];
    assert VbContent(v, k, NSize).value == have[k..];
  }
}
