/** End-to-end runs of one transaction, each from a fresh launch.

    Every run is cut into single events. A step lemma states what one event
    does to one explicitly written state, and a scenario chains the steps.
 */
module Scenarios {
  import opened Outcomes
  import opened BodyPipes
  import opened Adapters
  import opened XactionRep
  import opened XactionRun

  /** An adapted message with a body the host ties a pipe to. */
  const WithBody := Some(AdaptedMsg(true, false))

  // ---------------------------------------------------------------------
  // The states the runs pass through

  /** A launched request (no cause) with no adapted side decided yet. */
  function Launched0(key: string, vb: VirginSide, x: Adapter): Xaction {
    Xaction(key, false, true, vb, AdaptedSide(None, None, false, OpUndecided, false, false),
            Some(x), None, [AdapterCall.Start], false)
  }

  /** The request forwards an adapted message whose body we produce: the
      adapter's cursor is `x`, the pipe accepted `delivered`, and `finished`
      says whether the adapter's output ended (at its end). */
  function Producing(key: string, x: Adapter, delivered: seq<byte>, finished: bool,
                     calls: seq<AdapterCall>): Xaction {
    Xaction(key, false, true, VirginSide(None, false, OpNever, false),
            AdaptedSide(WithBody, Some(AdaptedPipe(delivered, true, None)), true, OpOn, finished, finished),
            Some(x), Some(ForwardAdapted(AdaptedMsg(true, false))), calls, false)
  }

  /** The adapted body is complete with eof and the job has ended. */
  function Produced(key: string, delivered: seq<byte>, calls: seq<AdapterCall>): Xaction {
    Xaction(key, false, true, VirginSide(None, false, OpNever, false),
            AdaptedSide(WithBody, Some(AdaptedPipe(delivered, false, Some(true))), false, OpComplete, true, true),
            None, Some(ForwardAdapted(AdaptedMsg(true, false))), calls, true)
  }

  /** We consume virgin pipe `p` for the adapter; nothing is decided yet. */
  function Making(key: string, x: Adapter, p: VirginPipe, finished: bool,
                  calls: seq<AdapterCall>): Xaction {
    Xaction(key, false, true, VirginSide(Some(p), true, OpOn, finished),
            AdaptedSide(None, None, false, OpUndecided, false, false),
            Some(x), None, calls, false)
  }

  /** The virgin pipe left to drain itself, as sinkVb() leaves it. */
  function Sunk(p: VirginPipe, finished: bool): VirginSide {
    VirginSide(Some(p.(autoConsume := true, consumerRegistered := false)), false, OpComplete, finished)
  }

  // ---------------------------------------------------------------------
  // Single events

  /** Launching a request without a body pipe: makingVb becomes Never. */
  lemma LaunchWithoutBody(key: string, x: Adapter)
    ensures Launched(VirginMsg(true, None), false, key, Some(x))
            == Ok(Launched0(key, VirginSide(None, false, OpNever, false), x))
  {
    assert [] + [AdapterCall.Start] == [AdapterCall.Start];
  }

  /** Launching a request with a body pipe: makingVb stays Undecided. */
  lemma LaunchWithBody(key: string, x: Adapter, p: VirginPipe)
    ensures Launched(VirginMsg(true, Some(p)), false, key, Some(x))
            == Ok(Launched0(key, VirginSide(Some(p), true, OpUndecided, false), x))
  {
    assert [] + [AdapterCall.Start] == [AdapterCall.Start];
  }

  /** useAdapted() with a body ties an empty pipe and asks for the body. */
  lemma UseAdaptedStep(key: string, x: Adapter)
    ensures Deliver(Launched0(key, VirginSide(None, false, OpNever, false), x), UseAdaptedCall(WithBody))
            == Ok(Producing(key, x, [], false, [AdapterCall.Start, AbMake]))
  {
    var s := Launched0(key, VirginSide(None, false, OpNever, false), x);
    assert [AdapterCall.Start] + [AbMake] == [AdapterCall.Start, AbMake];
    assert UseAdapted(s, WithBody) == Ok(Producing(key, x, [], false, [AdapterCall.Start, AbMake]));
  }

  /** New adapter output reaches nobody until the host drains it. */
  lemma OutputStep(key: string, x: Adapter, d: seq<byte>, f: bool, calls: seq<AdapterCall>, bytes: seq<byte>)
    ensures Deliver(Producing(key, x, d, f, calls), AdapterOutputs(bytes))
            == Ok(Producing(key, Produce(x, bytes), d, f, calls))
  {
  }

  /** A drain with output available and room for `used` > 0 bytes moves
      exactly those bytes and shifts the adapter's cursor past them. */
  lemma MoveSome(key: string, x: Adapter, d: seq<byte>, f: bool, calls: seq<AdapterCall>, room: nat)
    requires |x.available| > 0 && room > 0
    ensures var used := Min(room, |x.available|);
            MoveAbContent(Producing(key, x, d, f, calls), room)
            == Ok(Producing(key, ShiftOutput(x, used), d + x.available[..used], f,
                            calls + [AdapterCall.AbContentShift(used)]))
  {
  }

  /** noteAbContentAvailable() drains. */
  lemma AvailableStep(key: string, x: Adapter, d: seq<byte>, calls: seq<AdapterCall>, room: nat)
    requires |x.available| > 0 && room > 0
    ensures var used := Min(room, |x.available|);
            Deliver(Producing(key, x, d, false, calls), AbContentAvailableCall(room))
            == Ok(Producing(key, ShiftOutput(x, used), d + x.available[..used], false,
                            calls + [AdapterCall.AbContentShift(used)]))
  {
    MoveSome(key, x, d, false, calls, room);
  }

  /** noteMoreBodySpaceAvailable() drains. */
  lemma SpaceStep(key: string, x: Adapter, d: seq<byte>, f: bool, calls: seq<AdapterCall>, room: nat)
    requires |x.available| > 0 && room > 0
    ensures var used := Min(room, |x.available|);
            Deliver(Producing(key, x, d, f, calls), MoreBodySpaceAvailable(room))
            == Ok(Producing(key, ShiftOutput(x, used), d + x.available[..used], f,
                            calls + [AdapterCall.AbContentShift(used)]))
  {
    MoveSome(key, x, d, f, calls, room);
  }

  /** noteAbContentDone(true) latches the end of output, then drains. */
  lemma DoneWithOutputStep(key: string, x: Adapter, d: seq<byte>, calls: seq<AdapterCall>, room: nat)
    requires |x.available| > 0 && room > 0
    ensures var used := Min(room, |x.available|);
            Deliver(Producing(key, x, d, false, calls), AbContentDoneCall(true, room))
            == Ok(Producing(key, ShiftOutput(x, used), d + x.available[..used], true,
                            calls + [AdapterCall.AbContentShift(used)]))
  {
    MoveSome(key, x, d, true, calls, room);
  }

  /** With nothing left and the output ended, a drain completes the body
      with eof; both sides are then terminal and swanSong() stops the adapter. */
  lemma MoveFinal(key: string, x: Adapter, d: seq<byte>, calls: seq<AdapterCall>, room: nat)
    requires x.available == []
    ensures var s := Producing(key, x, d, true, calls);
            var r := MoveAbContent(s, room);
            && r.Ok? && DoneAll(r.value) && !r.value.stopped
            && SwanSong(r.value) == Ok(Produced(key, d, calls + [Stop]))
  {
  }

  /** A space callback after the output ended with nothing left finishes. */
  lemma SpaceFinalStep(key: string, x: Adapter, d: seq<byte>, calls: seq<AdapterCall>, room: nat)
    requires x.available == []
    ensures Deliver(Producing(key, x, d, true, calls), MoreBodySpaceAvailable(room))
            == Ok(Produced(key, d, calls + [Stop]))
  {
    MoveFinal(key, x, d, calls, room);
  }

  /** noteAbContentDone(true) with nothing left finishes at once. */
  lemma DoneFinalStep(key: string, x: Adapter, d: seq<byte>, calls: seq<AdapterCall>, room: nat)
    requires x.available == []
    ensures Deliver(Producing(key, x, d, false, calls), AbContentDoneCall(true, room))
            == Ok(Produced(key, d, calls + [Stop]))
  {
    MoveFinal(key, x, d, calls, room);
  }

  /** vbMake() registers us as the consumer of a pipe nobody drained yet. */
  lemma VbMakeStep(key: string, x: Adapter, p: VirginPipe)
    requires !LateForConsumer(p)
    ensures Deliver(Launched0(key, VirginSide(Some(p), true, OpUndecided, false), x), VbMakeCall)
            == Ok(Making(key, x, p.(consumerRegistered := true), false, [AdapterCall.Start]))
  {
  }

  /** vbContentShift(k) consumes at most what is buffered. */
  lemma ShiftStep(key: string, x: Adapter, p: VirginPipe, f: bool, calls: seq<AdapterCall>, k: nat)
    requires k <= |p.content|
    ensures Deliver(Making(key, x, p, f, calls), VbContentShiftCall(k))
            == Ok(Making(key, x, Consume(p, k), f, calls))
  {
  }

  /** blockVirgin() sinks the rest of the virgin body; the block is the
      answer, both sides are terminal, and swanSong() stops the adapter. */
  lemma BlockStep(key: string, x: Adapter, p: VirginPipe, f: bool, calls: seq<AdapterCall>)
    requires p.consumerRegistered
    ensures Deliver(Making(key, x, p, f, calls), BlockVirginCall)
            == Ok(Xaction(key, false, true, Sunk(p, f),
                          AdaptedSide(None, None, false, OpNever, false, false),
                          None, Some(Block(key)), calls + [Stop], true))
  {
    var s := Making(key, x, p, f, calls);
    var r := Xaction(key, false, true, Sunk(p, f), AdaptedSide(None, None, false, OpNever, false, false),
                     Some(x), Some(Block(key)), calls, false);
    assert BlockVirgin(s) == Ok(r);
  }

  /** noteBodyProducerAborted() tells the adapter and latches the end. */
  lemma ProducerAbortedStep(key: string, x: Adapter, p: VirginPipe, calls: seq<AdapterCall>)
    ensures Deliver(Making(key, x, p, false, calls), BodyProducerAborted)
            == Ok(Making(key, x, p, true, calls + [NoteVbContentDone(false)]))
  {
  }

  /** vbStopMaking() sinks the virgin body; with no answer yet the job goes on. */
  lemma StopMakingStep(key: string, x: Adapter, p: VirginPipe, f: bool, calls: seq<AdapterCall>)
    requires p.consumerRegistered
    ensures Deliver(Making(key, x, p, f, calls), VbStopMakingCall)
            == Ok(Xaction(key, false, true, Sunk(p, f),
                          AdaptedSide(None, None, false, OpUndecided, false, false),
                          Some(x), None, calls, false))
  {
  }

  /** useVirgin() after the adapter consumed virgin bytes: proxyingAb is
      already Never when preserveVb() throws, and swanSong() then leaves the
      virgin pipe and stops the adapter. No answer was sent. */
  lemma ConsumedUseVirginStep(key: string, x: Adapter, p: VirginPipe, calls: seq<AdapterCall>)
    requires p.consumerRegistered && p.consumed > 0
    ensures Deliver(Making(key, x, p, false, calls), UseVirginCall)
            == Ok(Xaction(key, false, true,
                          VirginSide(Some(p.(consumerRegistered := false)), false, OpOn, false),
                          AdaptedSide(None, None, false, OpNever, false, false),
                          None, None, calls + [Stop], true))
  {
    var s := Making(key, x, p, false, calls);
    assert UseVirgin(s) == Fail(VbAlreadyConsumed);
  }

  /** A second useAdapted() is rejected; swanSong() leaves the first
      answer's pipe, with eof unknown, and stops the adapter. */
  lemma SecondAnswerStep(key: string, x: Adapter, d: seq<byte>, calls: seq<AdapterCall>)
    ensures Deliver(Producing(key, x, d, false, calls), UseAdaptedCall(Some(AdaptedMsg(false, false))))
            == Ok(Xaction(key, false, true, VirginSide(None, false, OpNever, false),
                          AdaptedSide(WithBody, Some(AdaptedPipe(d, false, Some(false))), false, OpOn, false, false),
                          None, Some(ForwardAdapted(AdaptedMsg(true, false))), calls + [Stop], true))
  {
    var s := Producing(key, x, d, false, calls);
    assert UseAdapted(s, Some(AdaptedMsg(false, false))) == Fail(AbNotUndecided);
  }

  // ---------------------------------------------------------------------
  // Whole runs

  /** A virgin request without a body: start() sets makingVb to Never, and
      useVirgin() alone finishes the job without registering on any pipe. */
  lemma NoBodyUseVirgin(x: Adapter, key: string)
    requires Fresh(x)
    ensures Launched(VirginMsg(true, None), false, key, Some(x)).Ok?
    ensures Launched(VirginMsg(true, None), false, key, Some(x)).value.vb.makingVb.OpNever?
    ensures var r := Run(Launched(VirginMsg(true, None), false, key, Some(x)).value, [UseVirginCall]);
            && r.Ok? && r.value.stopped
            && r.value.answer == Some(ForwardClone(false))
            && r.value.ab.proxyingAb.OpNever? && r.value.vb.makingVb.OpNever?
            && r.value.vb.pipe.None? && r.value.ab.pipe.None?
            && r.value.calls == [AdapterCall.Start, Stop]
  {
    LaunchWithoutBody(key, x);
    var s0 := Launched0(key, VirginSide(None, false, OpNever, false), x);
    var s1 := UseVirgin(s0).value;
    assert DoneAll(s1);
    assert Deliver(s0, UseVirginCall) == SwanSong(s1);
    assert Run(s0, [UseVirginCall]) == Run(SwanSong(s1).value, []);
  }

  /** The adapter answers with a body, outputs it, and says it reached the
      end; the adapted pipe has room for all of it. One drain moves every
      byte, the next one finds nothing left and completes with eof. */
  lemma AdaptedBodyInOneDrain(x: Adapter, key: string, body: seq<byte>, room: nat)
    requires Fresh(x) && x.available == [] && |body| > 0 && room >= |body|
    ensures var s0 := Launched(VirginMsg(true, None), false, key, Some(x));
            var r := Run(s0.value, [UseAdaptedCall(WithBody), AdapterOutputs(body),
                                    AbContentDoneCall(true, room), MoreBodySpaceAvailable(room)]);
            && s0.Ok? && r.Ok? && r.value.stopped
            && r.value.ab.proxyingAb.OpComplete? && !AbProducing(r.value.ab)
            && r.value.ab.pipe == Some(AdaptedPipe(body, false, Some(true)))
            && r.value.calls == [AdapterCall.Start, AbMake, AdapterCall.AbContentShift(|body|), Stop]
  {
    LaunchWithoutBody(key, x);
    var s0 := Launched0(key, VirginSide(None, false, OpNever, false), x);
    var c1 := [AdapterCall.Start, AbMake];
    var c2 := c1 + [AdapterCall.AbContentShift(|body|)];
    UseAdaptedStep(key, x);
    var s1 := Producing(key, x, [], false, c1);
    OutputStep(key, x, [], false, c1, body);
    var y := Produce(x, body);
    assert y.available == body;
    var s2 := Producing(key, y, [], false, c1);
    DoneWithOutputStep(key, y, [], c1, room);
    assert Min(room, |body|) == |body| && body[..|body|] == body;
    var z := ShiftOutput(y, |body|);
    var s3 := Producing(key, z, body, true, c2);
    SpaceFinalStep(key, z, body, c2, room);
    var s4 := Produced(key, body, c2 + [Stop]);
    assert Run(s3, [MoreBodySpaceAvailable(room)]) == Ok(s4);
    assert Run(s2, [AbContentDoneCall(true, room), MoreBodySpaceAvailable(room)]) == Ok(s4);
    assert Run(s1, [AdapterOutputs(body), AbContentDoneCall(true, room), MoreBodySpaceAvailable(room)]) == Ok(s4);
    assert Run(s0, [UseAdaptedCall(WithBody), AdapterOutputs(body),
                    AbContentDoneCall(true, room), MoreBodySpaceAvailable(room)]) == Ok(s4);
  }

  /** Backpressure: the adapted pipe takes 40 of 100 bytes; the cursor moves
      by 40 only, the other 60 stay available and move on the next drain;
      the output then ends with nothing left to move, which completes. */
  lemma AdaptedBodyUnderBackpressure(x: Adapter, key: string, body: seq<byte>)
    requires Fresh(x) && x.available == [] && |body| == 100
    ensures var s0 := Launched(VirginMsg(true, None), false, key, Some(x));
            var r := Run(s0.value, [UseAdaptedCall(WithBody), AdapterOutputs(body), AbContentAvailableCall(40)]);
            && s0.Ok? && r.Ok?
            && r.value.ab.pipe.Some? && r.value.ab.pipe.value.content == body[..40]
            && r.value.master == Some(Adapter(body[..40], body[40..]))
            && r.value.ab.proxyingAb.OpOn? && AbProducing(r.value.ab)
    ensures var s0 := Launched(VirginMsg(true, None), false, key, Some(x));
            var r := Run(s0.value, [UseAdaptedCall(WithBody), AdapterOutputs(body), AbContentAvailableCall(40),
                                    MoreBodySpaceAvailable(60), AbContentDoneCall(true, 0)]);
            && r.Ok? && r.value.stopped
            && r.value.ab.pipe == Some(AdaptedPipe(body, false, Some(true)))
            && r.value.calls == [AdapterCall.Start, AbMake, AdapterCall.AbContentShift(40),
                                 AdapterCall.AbContentShift(60), Stop]
  {
    var es1 := [UseAdaptedCall(WithBody), AdapterOutputs(body), AbContentAvailableCall(40)];
    var es2 := [MoreBodySpaceAvailable(60), AbContentDoneCall(true, 0)];
    LaunchWithoutBody(key, x);
    var s0 := Launched0(key, VirginSide(None, false, OpNever, false), x);
    BackpressureFirstDrain(x, key, body);
    BackpressureRest(key, body);
    RunConcat(s0, es1, es2);
    assert es1 + es2 == [UseAdaptedCall(WithBody), AdapterOutputs(body), AbContentAvailableCall(40),
                         MoreBodySpaceAvailable(60), AbContentDoneCall(true, 0)];
  }

  /** The first part of the backpressure run: 40 of 100 bytes move. */
  lemma BackpressureFirstDrain(x: Adapter, key: string, body: seq<byte>)
    requires Fresh(x) && x.available == [] && |body| == 100
    ensures Run(Launched0(key, VirginSide(None, false, OpNever, false), x),
                [UseAdaptedCall(WithBody), AdapterOutputs(body), AbContentAvailableCall(40)])
            == Ok(Producing(key, Adapter(body[..40], body[40..]), body[..40], false,
                            [AdapterCall.Start, AbMake, AdapterCall.AbContentShift(40)]))
  {
    var s0 := Launched0(key, VirginSide(None, false, OpNever, false), x);
    var c1 := [AdapterCall.Start, AbMake];
    var c2 := c1 + [AdapterCall.AbContentShift(40)];
    assert c2 == [AdapterCall.Start, AbMake, AdapterCall.AbContentShift(40)];
    UseAdaptedStep(key, x);
    var s1 := Producing(key, x, [], false, c1);
    OutputStep(key, x, [], false, c1, body);
    var y := Produce(x, body);
    assert y.available == body;
    var s2 := Producing(key, y, [], false, c1);
    AvailableStep(key, y, [], c1, 40);
    var z := ShiftOutput(y, 40);
    assert z == Adapter(body[..40], body[40..]);
    var s3 := Producing(key, z, body[..40], false, c2);
    assert Run(s2, [AbContentAvailableCall(40)]) == Ok(s3);
    assert Run(s1, [AdapterOutputs(body), AbContentAvailableCall(40)]) == Ok(s3);
  }

  /** The rest of the backpressure run: the other 60 bytes move, then the
      output ends with nothing left and the body completes with eof. */
  lemma BackpressureRest(key: string, body: seq<byte>)
    requires |body| == 100
    ensures Run(Producing(key, Adapter(body[..40], body[40..]), body[..40], false,
                          [AdapterCall.Start, AbMake, AdapterCall.AbContentShift(40)]),
                [MoreBodySpaceAvailable(60), AbContentDoneCall(true, 0)])
            == Ok(Produced(key, body, [AdapterCall.Start, AbMake, AdapterCall.AbContentShift(40),
                                       AdapterCall.AbContentShift(60), Stop]))
  {
    var c2 := [AdapterCall.Start, AbMake, AdapterCall.AbContentShift(40)];
    var c3 := c2 + [AdapterCall.AbContentShift(60)];
    var z := Adapter(body[..40], body[40..]);
    var s3 := Producing(key, z, body[..40], false, c2);
    SpaceStep(key, z, body[..40], false, c2, 60);
    assert z.available[..60] == body[40..];
    assert body[..40] + body[40..] == body;
    var w := ShiftOutput(z, 60);
    assert w.available == [];
    var s4 := Producing(key, w, body, false, c3);
    DoneFinalStep(key, w, body, c3, 0);
    var s5 := Produced(key, body, c3 + [Stop]);
    assert c3 + [Stop] == [AdapterCall.Start, AbMake, AdapterCall.AbContentShift(40),
                           AdapterCall.AbContentShift(60), Stop];
    assert Run(s4, [AbContentDoneCall(true, 0)]) == Ok(s5);
  }

  /** The adapter reads part of the virgin body, then blocks the message:
      the rest of the virgin body drains itself, we leave the pipe, and the
      block is the one answer. */
  lemma BlockAfterPartialRead(x: Adapter, key: string, bytes: seq<byte>, k: nat)
    requires Fresh(x) && 0 < k < |bytes|
    ensures var p := VirginPipe(bytes, 0, false, false, false, true);
            var s0 := Launched(VirginMsg(true, Some(p)), false, key, Some(x));
            var r := Run(s0.value, [VbMakeCall, VbContentShiftCall(k), BlockVirginCall]);
            && s0.Ok? && r.Ok? && r.value.stopped
            && r.value.answer == Some(Block(key))
            && r.value.vb.makingVb.OpComplete? && r.value.ab.proxyingAb.OpNever?
            && !VbConsuming(r.value.vb) && r.value.vb.pipe.Some? && r.value.vb.pipe.value.autoConsume
            && r.value.vb.pipe.value.consumed == k && r.value.vb.pipe.value.content == bytes[k..]
  {
    var p := VirginPipe(bytes, 0, false, false, false, true);
    LaunchWithBody(key, x, p);
    var s0 := Launched0(key, VirginSide(Some(p), true, OpUndecided, false), x);
    var q := p.(consumerRegistered := true);
    VbMakeStep(key, x, p);
    var s1 := Making(key, x, q, false, [AdapterCall.Start]);
    ShiftStep(key, x, q, false, [AdapterCall.Start], k);
    var q2 := Consume(q, k);
    var s2 := Making(key, x, q2, false, [AdapterCall.Start]);
    BlockStep(key, x, q2, false, [AdapterCall.Start]);
    var s3 := Xaction(key, false, true, Sunk(q2, false), AdaptedSide(None, None, false, OpNever, false, false),
                      None, Some(Block(key)), [AdapterCall.Start] + [Stop], true);
    assert Run(s2, [BlockVirginCall]) == Ok(s3);
    assert Run(s1, [VbContentShiftCall(k), BlockVirginCall]) == Ok(s3);
    assert Run(s0, [VbMakeCall, VbContentShiftCall(k), BlockVirginCall]) == Ok(s3);
  }

  /** The virgin body's producer aborts while we consume it: the adapter is
      told the body ended short, vbProductionFinished is latched, and
      makingVb stays On until the adapter calls vbStopMaking(). */
  lemma VirginProducerAborts(x: Adapter, key: string, bytes: seq<byte>)
    requires Fresh(x)
    ensures var p := VirginPipe(bytes, 0, false, false, false, true);
            var s0 := Launched(VirginMsg(true, Some(p)), false, key, Some(x));
            var r := Run(s0.value, [VbMakeCall, BodyProducerAborted]);
            && s0.Ok? && r.Ok? && !r.value.stopped
            && r.value.vb.productionFinished && r.value.vb.makingVb.OpOn? && VbConsuming(r.value.vb)
            && r.value.calls == [AdapterCall.Start, NoteVbContentDone(false)]
    ensures var p := VirginPipe(bytes, 0, false, false, false, true);
            var s0 := Launched(VirginMsg(true, Some(p)), false, key, Some(x));
            var r := Run(s0.value, [VbMakeCall, BodyProducerAborted, VbStopMakingCall]);
            && r.Ok? && r.value.vb.makingVb.OpComplete? && !VbConsuming(r.value.vb)
  {
    var p := VirginPipe(bytes, 0, false, false, false, true);
    LaunchWithBody(key, x, p);
    var s0 := Launched0(key, VirginSide(Some(p), true, OpUndecided, false), x);
    var q := p.(consumerRegistered := true);
    var c := [AdapterCall.Start] + [NoteVbContentDone(false)];
    VbMakeStep(key, x, p);
    var s1 := Making(key, x, q, false, [AdapterCall.Start]);
    ProducerAbortedStep(key, x, q, [AdapterCall.Start]);
    var s2 := Making(key, x, q, true, c);
    StopMakingStep(key, x, q, true, c);
    var s3 := Xaction(key, false, true, Sunk(q, true), AdaptedSide(None, None, false, OpUndecided, false, false),
                      Some(x), None, c, false);
    assert Run(s2, [VbStopMakingCall]) == Ok(s3);
    assert Run(s1, [BodyProducerAborted]) == Ok(s2);
    assert Run(s1, [BodyProducerAborted, VbStopMakingCall]) == Ok(s3);
    assert Run(s0, [VbMakeCall, BodyProducerAborted]) == Ok(s2);
    assert Run(s0, [VbMakeCall, BodyProducerAborted, VbStopMakingCall]) == Ok(s3);
  }

  /** The adapter reads part of the virgin body and then asks to forward the
      virgin message unchanged: preserveVb() rejects that, and the job ends
      without an answer, off the virgin pipe, having stopped the adapter. */
  lemma UseVirginAfterReading(x: Adapter, key: string, bytes: seq<byte>, k: nat)
    requires Fresh(x) && 0 < k <= |bytes|
    ensures var p := VirginPipe(bytes, 0, false, false, false, true);
            var s0 := Launched(VirginMsg(true, Some(p)), false, key, Some(x));
            var r := Run(s0.value, [VbMakeCall, VbContentShiftCall(k), UseVirginCall]);
            && s0.Ok? && r.Ok? && r.value.stopped && r.value.answer.None?
            && r.value.ab.proxyingAb.OpNever? && !VbConsuming(r.value.vb)
            && r.value.vb.pipe.Some? && r.value.vb.pipe.value.consumed == k
            && r.value.calls == [AdapterCall.Start, Stop]
  {
    var p := VirginPipe(bytes, 0, false, false, false, true);
    LaunchWithBody(key, x, p);
    var s0 := Launched0(key, VirginSide(Some(p), true, OpUndecided, false), x);
    var q := p.(consumerRegistered := true);
    VbMakeStep(key, x, p);
    var s1 := Making(key, x, q, false, [AdapterCall.Start]);
    ShiftStep(key, x, q, false, [AdapterCall.Start], k);
    var q2 := Consume(q, k);
    var s2 := Making(key, x, q2, false, [AdapterCall.Start]);
    ConsumedUseVirginStep(key, x, q2, [AdapterCall.Start]);
    var s3 := Deliver(s2, UseVirginCall).value;
    assert Run(s2, [UseVirginCall]) == Ok(s3);
    assert Run(s1, [VbContentShiftCall(k), UseVirginCall]) == Ok(s3);
    assert Run(s0, [VbMakeCall, VbContentShiftCall(k), UseVirginCall]) == Ok(s3);
    assert [AdapterCall.Start] + [Stop] == [AdapterCall.Start, Stop];
  }

  /** The adapter answers with a body and then answers again: the second
      answer is rejected, the first one stays, and the job ends having left
      the adapted pipe, whose reader learns the body ended early. */
  lemma SecondAnswerRejected(x: Adapter, key: string)
    requires Fresh(x)
    ensures var s0 := Launched(VirginMsg(true, None), false, key, Some(x));
            var r := Run(s0.value, [UseAdaptedCall(WithBody), UseAdaptedCall(Some(AdaptedMsg(false, false)))]);
            && s0.Ok? && r.Ok? && r.value.stopped
            && r.value.answer == Some(ForwardAdapted(AdaptedMsg(true, false)))
            && r.value.ab.pipe == Some(AdaptedPipe([], false, Some(false))) && !AbProducing(r.value.ab)
            && r.value.calls == [AdapterCall.Start, AbMake, Stop]
  {
    LaunchWithoutBody(key, x);
    var s0 := Launched0(key, VirginSide(None, false, OpNever, false), x);
    UseAdaptedStep(key, x);
    var s1 := Producing(key, x, [], false, [AdapterCall.Start, AbMake]);
    SecondAnswerStep(key, x, [], [AdapterCall.Start, AbMake]);
    var s2 := Deliver(s1, UseAdaptedCall(Some(AdaptedMsg(false, false)))).value;
    assert Run(s1, [UseAdaptedCall(Some(AdaptedMsg(false, false)))]) == Ok(s2);
    assert Run(s0, [UseAdaptedCall(WithBody), UseAdaptedCall(Some(AdaptedMsg(false, false)))]) == Ok(s2);
    assert [AdapterCall.Start, AbMake] + [Stop] == [AdapterCall.Start, AbMake, Stop];
  }
}
