/** The eCAP adaptation transaction (Adaptation::Ecap::XactionRep).

    A transaction is an immutable record; every entry point is a pure
    function from the record before the call to the record after it, or to
    the Must() check that failed. The transaction consumes the virgin body
    pipe (`makingVb`) and produces the adapted body pipe (`proxyingAb`);
    each side moves Undecided -> On -> Complete or Undecided -> Never. The
    two sides are kept in two small records so that a step on one side
    visibly leaves the other alone.
 */
module XactionRep {
  import opened Outcomes
  import opened BodyPipes
  import opened Adapters

  /** OperationState, in declaration order: doneAll() compares with `>=`. */
  datatype OpState = OpUndecided | OpOn | OpComplete | OpNever

  function Rank(op: OpState): nat {
    match op
    case OpUndecided => 0
    case OpOn => 1
    case OpComplete => 2
    case OpNever => 3
  }

  /** `op >= opComplete`: nothing more will happen on this side. */
  predicate Terminal(op: OpState) {
    Rank(op) >= Rank(OpComplete)
  }

  /** The virgin message: whether its header is a request, and its body pipe. */
  datatype VirginMsg = VirginMsg(isRequest: bool, bodyPipe: Option<VirginPipe>)

  /** The message the adapter offers: whether it has a libecap body, and
      whether the host already gave its header a body pipe. */
  datatype AdaptedMsg = AdaptedMsg(hasBody: bool, hostSetPipe: bool)

  /** What the transaction tells its initiator (sendAnswer). */
  datatype Answer =
    | ForwardClone(withBodyPipe: bool)  // Answer::Forward(clone of the virgin header)
    | ForwardAdapted(msg: AdaptedMsg)   // Answer::Forward(adapted header)
    | Block(serviceKey: string)         // Answer::Block(service key)

  /** The consumer side: the virgin body. */
  datatype VirginSide = VirginSide(
    pipe: Option<VirginPipe>,      // theVirginRep.raw().header->body_pipe
    linked: bool,                  // theVirginRep.raw().body_pipe is still set
    makingVb: OpState,
    productionFinished: bool)      // vbProductionFinished

  /** The producer side: the adapted message and its body. */
  datatype AdaptedSide = AdaptedSide(
    rep: Option<AdaptedMsg>,       // theAnswerRep
    pipe: Option<AdaptedPipe>,     // the pipe tieBody() created (or HostPipe, below)
    linked: bool,                  // answer().body_pipe is still set
    proxyingAb: OpState,
    productionFinished: bool,      // abProductionFinished
    productionAtEnd: bool)         // abProductionAtEnd

  datatype Xaction = Xaction(
    serviceKey: string,            // service().cfg().key
    hasCause: bool,                // theCauseRep != NULL (the cause is a request)
    virginIsRequest: bool,         // the virgin header is an HttpRequest
    vb: VirginSide,
    ab: AdaptedSide,
    master: Option<Adapter>,       // theMaster
    answer: Option<Answer>,        // what sendAnswer() reported, if anything
    calls: seq<AdapterCall>,       // every call made into the adapter, in order
    stopped: bool)                 // swanSong() ran

  /** We are the registered consumer of the virgin pipe. */
  predicate VbConsuming(v: VirginSide) {
    v.pipe.Some? && v.pipe.value.consumerRegistered
  }

  /** theVirginRep.raw().body_pipe can be dereferenced. */
  predicate VbLinked(v: VirginSide) {
    v.linked && v.pipe.Some?
  }

  /** We are the registered producer of the adapted pipe. */
  predicate AbProducing(a: AdaptedSide) {
    a.pipe.Some? && a.pipe.value.producerRegistered
  }

  /** answer().body_pipe can be dereferenced. */
  predicate AbLinked(a: AdaptedSide) {
    a.linked && a.pipe.Some?
  }

  /** The virgin pipe's bytes are the same in `v` and `w`. */
  predicate VbBytesKept(v: VirginSide, w: VirginSide) {
    && w.pipe.Some? == v.pipe.Some?
    && (v.pipe.Some? ==>
          && w.pipe.value.content == v.pipe.value.content
          && w.pipe.value.consumed == v.pipe.value.consumed)
  }

  // ---------------------------------------------------------------------
  // Lifecycle

  /** The constructor: both sides undecided, no master, nothing latched. */
  function New(virgin: VirginMsg, hasCause: bool, serviceKey: string): (s: Xaction)
    ensures s.vb.makingVb.OpUndecided? && s.ab.proxyingAb.OpUndecided?
    ensures s.master.None? && s.answer.None? && s.calls == [] && !s.stopped
    ensures s.vb.pipe == virgin.bodyPipe && s.vb.linked == virgin.bodyPipe.Some?
    ensures s.ab.pipe.None? && !s.ab.linked && s.ab.rep.None?
    ensures !s.vb.productionFinished && !s.ab.productionFinished && !s.ab.productionAtEnd
    ensures s.serviceKey == serviceKey && s.hasCause == hasCause && s.virginIsRequest == virgin.isRequest
  {
    Xaction(serviceKey, hasCause, virgin.isRequest,
            VirginSide(virgin.bodyPipe, virgin.bodyPipe.Some?, OpUndecided, false),
            AdaptedSide(None, None, false, OpUndecided, false, false),
            None, None, [], false)
  }

  /** master(x): assigns the adapter transaction, once. */
  function AssignMaster(s: Xaction, x: Option<Adapter>): (r: Result<Xaction>)
    ensures r.Ok? <==> s.master.None? && x.Some?
    ensures r.Ok? ==> r.value.master == x && r.value.(master := s.master) == s
  {
    var _ :- Must(s.master.None?, MasterAlreadySet);
    var _ :- Must(x.Some?, NullMaster);
    Ok(s.(master := x))
  }

  /** The transaction makeXactLauncher() builds: constructed, then given its master. */
  function Launch(virgin: VirginMsg, hasCause: bool, serviceKey: string, x: Option<Adapter>): (r: Result<Xaction>)
    ensures r.Ok? <==> x.Some?
    ensures r.Ok? ==> r.value.master == x && r.value.(master := None) == New(virgin, hasCause, serviceKey)
  {
    AssignMaster(New(virgin, hasCause, serviceKey), x)
  }

  /** start(): a virgin message without a body pipe never makes virgin body;
      then the adapter transaction is started. */
  function Start(s: Xaction): (r: Result<Xaction>)
    ensures r.Ok? <==> s.master.Some? && (s.hasCause || s.virginIsRequest)
    ensures r.Ok? ==> r.value.vb.makingVb == (if s.vb.linked then s.vb.makingVb else OpNever)
    ensures r.Ok? ==> r.value.calls == s.calls + [AdapterCall.Start]
    ensures r.Ok? ==> r.value.(vb := s.vb, calls := s.calls) == s && r.value.vb.(makingVb := s.vb.makingVb) == s.vb
  {
    var _ :- Must(s.master.Some?, NoMaster);
    var s1 := if !s.vb.linked then s.(vb := s.vb.(makingVb := OpNever)) else s;
    var _ :- Must(s1.hasCause || s1.virginIsRequest, NoRequest);
    Ok(s1.(calls := s1.calls + [AdapterCall.Start]))
  }

  /** terminateMaster(): clears theMaster first, then stops it, so stop() is
      called only while a master is held. */
  function TerminateMaster(s: Xaction): (r: Xaction)
    ensures r.master.None?
    ensures r.calls == s.calls + (if s.master.Some? then [Stop] else [])
    ensures r.(master := s.master, calls := s.calls) == s
  {
    if s.master.Some? then s.(master := None, calls := s.calls + [Stop]) else s
  }

  /** doneAll(): both sides are terminal and the initiator has its answer. */
  function DoneAll(s: Xaction): (b: bool)
    ensures b <==>
              && (s.vb.makingVb.OpComplete? || s.vb.makingVb.OpNever?)
              && (s.ab.proxyingAb.OpComplete? || s.ab.proxyingAb.OpNever?)
              && s.answer.Some?
  {
    Terminal(s.vb.makingVb) && Terminal(s.ab.proxyingAb) && s.answer.Some?
  }

  /** done(): the job was told to stop or has nothing left to do. */
  predicate Done(s: Xaction) {
    s.stopped || DoneAll(s)
  }

  /** callable(): calls are delivered only while the job is not done. */
  function Callable(s: Xaction): (b: bool)
    ensures b <==>
              && !s.stopped
              && (|| s.answer.None?
                  || s.vb.makingVb.OpUndecided? || s.vb.makingVb.OpOn?
                  || s.ab.proxyingAb.OpUndecided? || s.ab.proxyingAb.OpOn?)
  {
    !Done(s)
  }

  /** stopConsumingFrom(raw().body_pipe): leave the virgin pipe and drop our link. */
  function StopConsuming(v: VirginSide): (w: VirginSide)
    requires v.pipe.Some?
    ensures !VbConsuming(w) && !w.linked && VbBytesKept(v, w)
  {
    v.(pipe := Some(v.pipe.value.(consumerRegistered := false)), linked := false)
  }

  /** stopProducingFor(answer().body_pipe, atEof): leave the adapted pipe and drop our link. */
  function StopProducing(a: AdaptedSide, atEof: bool): (b: AdaptedSide)
    requires a.pipe.Some?
    ensures !AbProducing(b) && !b.linked
    ensures b.pipe.Some? && b.pipe.value.eof == Some(atEof) && b.pipe.value.content == a.pipe.value.content
    ensures b.(pipe := a.pipe, linked := a.linked) == a
  {
    a.(pipe := Some(ClearProducer(a.pipe.value, atEof)), linked := false)
  }

  /** The first step of swanSong(): an adapted body pipe still set must
      still have us as producer, and we leave it without reaching eof. */
  function LeaveAdaptedPipe(a: AdaptedSide): (r: Result<AdaptedSide>)
    ensures r.Ok? <==> (a.rep.Some? && AbLinked(a) ==> AbProducing(a))
    ensures r.Ok? && a.rep.Some? && AbLinked(a) ==> r.value == StopProducing(a, false)
    ensures r.Ok? && !(a.rep.Some? && AbLinked(a)) ==> r.value == a
  {
    if a.rep.Some? && AbLinked(a) then
      var _ :- Must(AbProducing(a), NotProducing);
      Ok(StopProducing(a, false))
    else
      Ok(a)
  }

  /** swanSong(): unregister from whatever pipe we are still attached to,
      stop the master, and end the job. The OpStates are left as they were.
      The source works on a local copy of answer().body_pipe, so the header
      keeps its pointer; `linked` here means "still ours to leave", and
      clearing it records that we left the pipe. */
  function SwanSong(s: Xaction): (r: Result<Xaction>)
    ensures r.Ok? <==>
              (s.ab.rep.Some? && AbLinked(s.ab) ==> AbProducing(s.ab)) && (s.hasCause || s.virginIsRequest)
    ensures r.Ok? ==> r.value.stopped && r.value.master.None?
    ensures r.Ok? && s.ab.rep.Some? ==> !AbLinked(r.value.ab)
    // a pipe we still produce is left short of eof, its bytes kept
    ensures r.Ok? && s.ab.rep.Some? && AbLinked(s.ab) ==>
              && !AbProducing(r.value.ab) && r.value.ab.pipe.Some? && r.value.ab.pipe.value.eof == Some(false)
              && r.value.ab.pipe.value.content == s.ab.pipe.value.content
              && r.value.ab == StopProducing(s.ab, false)
    ensures r.Ok? && !(s.ab.rep.Some? && AbLinked(s.ab)) ==> r.value.ab == s.ab
    ensures r.Ok? && s.vb.linked ==> !VbConsuming(r.value.vb)
    ensures r.Ok? ==> r.value.calls == s.calls + (if s.master.Some? then [Stop] else [])
    ensures r.Ok? ==> r.value.vb.makingVb == s.vb.makingVb && r.value.ab.proxyingAb == s.ab.proxyingAb
    ensures r.Ok? ==> r.value.answer == s.answer && VbBytesKept(s.vb, r.value.vb)
  {
    var ab :- LeaveAdaptedPipe(s.ab);
    var vb := if VbLinked(s.vb) && VbConsuming(s.vb) then StopConsuming(s.vb) else s.vb;
    var s1 := TerminateMaster(s.(ab := ab, vb := vb));
    var _ :- Must(s1.hasCause || s1.virginIsRequest, NoRequest);
    Ok(s1.(stopped := true))
  }

  // ---------------------------------------------------------------------
  // Leaving the virgin body

  /** forgetVb(): unregister as consumer if still registered; an undecided
      side becomes Never and an active one Complete. */
  function ForgetVb(v: VirginSide): (w: VirginSide)
    ensures !(w.linked && VbConsuming(w))
    ensures v.makingVb.OpUndecided? ==> w.makingVb.OpNever?
    ensures v.makingVb.OpOn? ==> w.makingVb.OpComplete?
    ensures Terminal(v.makingVb) ==> w.makingVb == v.makingVb
    ensures Terminal(w.makingVb)
    ensures VbBytesKept(v, w) && w.productionFinished == v.productionFinished
    ensures w.pipe.Some? ==> w.pipe.value.autoConsume == v.pipe.value.autoConsume
    ensures !(v.linked && VbConsuming(v)) ==> w.pipe == v.pipe && w.linked == v.linked
    // a consumer we still are is unregistered and unlinked
    ensures VbLinked(v) && VbConsuming(v) ==> !VbConsuming(w) && !w.linked
  {
    var v1 := if VbLinked(v) && VbConsuming(v) then StopConsuming(v) else v;
    var next := match v.makingVb
      case OpUndecided => OpNever
      case OpOn => OpComplete
      case other => other;
    v1.(makingVb := next)
  }

  /** sinkVb(): let the pipe drain itself (auto-consumption), then forget it. */
  function SinkVb(v: VirginSide): (w: VirginSide)
    ensures w.pipe.Some? ==> w.pipe.value.autoConsume
    ensures !(w.linked && VbConsuming(w)) && Terminal(w.makingVb)
    ensures v.makingVb.OpUndecided? ==> w.makingVb.OpNever?
    ensures v.makingVb.OpOn? ==> w.makingVb.OpComplete?
    ensures Terminal(v.makingVb) ==> w.makingVb == v.makingVb
    ensures VbBytesKept(v, w) && w.productionFinished == v.productionFinished
    ensures VbLinked(v) && VbConsuming(v) ==> !VbConsuming(w) && !w.linked
  {
    var v1 := if v.pipe.Some? then v.(pipe := Some(v.pipe.value.(autoConsume := true))) else v;
    ForgetVb(v1)
  }

  /** preserveVb(): forget the virgin pipe but leave its bytes for others;
      only possible while nobody consumed any of them. */
  function PreserveVb(v: VirginSide): (r: Result<VirginSide>)
    ensures r.Ok? <==> v.pipe.None? || v.pipe.value.consumed == 0
    ensures r.Ok? ==> VbBytesKept(v, r.value) && r.value.productionFinished == v.productionFinished
    ensures r.Ok? && r.value.pipe.Some? ==>
              r.value.pipe.value.consumed == 0 && r.value.pipe.value.autoConsume == v.pipe.value.autoConsume
    ensures r.Ok? ==> !(r.value.linked && VbConsuming(r.value)) && Terminal(r.value.makingVb)
    ensures r.Ok? && v.makingVb.OpUndecided? ==> r.value.makingVb.OpNever?
    ensures r.Ok? && v.makingVb.OpOn? ==> r.value.makingVb.OpComplete?
    ensures r.Ok? && VbLinked(v) && VbConsuming(v) ==> !VbConsuming(r.value) && !r.value.linked
  {
    var _ :- Must(v.pipe.None? || v.pipe.value.consumed == 0, VbAlreadyConsumed);
    Ok(ForgetVb(v))
  }

  // ---------------------------------------------------------------------
  // Disposition: exactly one of useVirgin, useAdapted, blockVirgin

  /** useVirgin(): forward a clone of the virgin message, preserving its body.
      The closing Must(done()) cannot fail: the ensures below prove it. */
  function UseVirgin(s: Xaction): (r: Result<Xaction>)
    ensures r.Ok? <==> s.ab.proxyingAb.OpUndecided? && (s.vb.pipe.None? || s.vb.pipe.value.consumed == 0)
    ensures r.Ok? ==> r.value.ab.proxyingAb.OpNever? && r.value.answer == Some(ForwardClone(s.vb.pipe.Some?))
    ensures r.Ok? ==> Done(r.value) && !(r.value.vb.linked && VbConsuming(r.value.vb))
    ensures r.Ok? ==> VbBytesKept(s.vb, r.value.vb)
    ensures r.Ok? && r.value.vb.pipe.Some? ==> r.value.vb.pipe.value.autoConsume == s.vb.pipe.value.autoConsume
    ensures r.Ok? ==> r.value.(vb := s.vb, ab := s.ab, answer := s.answer) == s
    ensures r.Ok? ==> r.value.ab.(proxyingAb := s.ab.proxyingAb) == s.ab
  {
    var _ :- Must(s.ab.proxyingAb.OpUndecided?, AbNotUndecided);
    var vb :- PreserveVb(s.vb);
    // clone() copies the header's body_pipe, so the clone has one exactly
    // when the virgin header has one
    Ok(s.(ab := s.ab.(proxyingAb := OpNever), vb := vb, answer := Some(ForwardClone(vb.pipe.Some?))))
  }

  /** useAdapted(m): forward the adapter's message; if it has a body, become
      the producer of its new body pipe and ask the adapter to make the body.
      m is checked before it becomes theAnswerRep (see UseAdaptedThrownAsWritten
      for the order the source uses). */
  function UseAdapted(s: Xaction, m: Option<AdaptedMsg>): (r: Result<Xaction>)
    ensures r.Ok? <==>
              && m.Some? && s.ab.proxyingAb.OpUndecided?
              && (m.value.hasBody ==> !m.value.hostSetPipe && s.master.Some?)
    ensures r.Ok? ==> r.value.answer == Some(ForwardAdapted(m.value)) && r.value.ab.rep == m
    ensures r.Ok? && !m.value.hasBody ==> r.value.ab.proxyingAb.OpNever? && r.value.calls == s.calls
    ensures r.Ok? && m.value.hasBody ==>
              && r.value.ab.proxyingAb.OpOn? && AbProducing(r.value.ab) && AbLinked(r.value.ab)
              && r.value.ab.pipe == Some(TiedPipe) && r.value.ab.pipe.value.content == []
              && r.value.ab.pipe.value.eof.None? && r.value.calls == s.calls + [AbMake]
    ensures r.Ok? && !m.value.hasBody ==> r.value.ab.pipe == s.ab.pipe && r.value.ab.linked == s.ab.linked
    ensures r.Ok? ==> r.value.(ab := s.ab, answer := s.answer, calls := s.calls) == s
    ensures r.Ok? ==>
              r.value.ab.(rep := s.ab.rep, proxyingAb := s.ab.proxyingAb, pipe := s.ab.pipe, linked := s.ab.linked) == s.ab
  {
    var _ :- Must(m.Some?, NullMessage);
    var _ :- Must(s.ab.proxyingAb.OpUndecided?, AbNotUndecided);
    var _ :- Must(!(m.value.hasBody && m.value.hostSetPipe), HostSetPipe);
    var ab := s.ab.(rep := m);
    if !m.value.hasBody then
      Ok(s.(ab := ab.(proxyingAb := OpNever), answer := Some(ForwardAdapted(m.value))))
    else
      var tied := ab.(proxyingAb := OpOn, pipe := Some(TiedPipe), linked := true);
      var _ :- Must(s.master.Some?, NoMaster);
      Ok(s.(ab := tied, answer := Some(ForwardAdapted(m.value)), calls := s.calls + [AbMake]))
  }

  /** The body pipe the host already put in an adapted header: the host, not
      this transaction, is its producer. */
  const HostPipe := AdaptedPipe([], false, None)

  /** `theAnswerRep = m`: answer() now reads m's header, whose body pipe is
      the host's when m carries one and absent otherwise. Without a host
      pipe, a pipe we tied for an earlier answer stays in the record as it
      was but is no longer reachable from answer(); with one, the record
      holds only the host's pipe and the earlier pipe is not modelled. */
  function Adopt(a: AdaptedSide, m: AdaptedMsg): (b: AdaptedSide)
    ensures b.rep == Some(m) && b.proxyingAb == a.proxyingAb
    ensures m.hostSetPipe ==> AbLinked(b) && !AbProducing(b) && b.pipe == Some(HostPipe)
    ensures !m.hostSetPipe ==> !b.linked && b.pipe == a.pipe
  {
    if m.hostSetPipe then a.(rep := Some(m), pipe := Some(HostPipe), linked := true)
    else a.(rep := Some(m), linked := false)
  }

  /** useAdapted(m) AS WRITTEN, up to the check that throws: m is adopted as
      theAnswerRep before Must(proxyingAb == opUndecided), and proxyingAb is
      set to opOn before Must(!msg->body_pipe). UseAdapted above checks m
      before adopting it and leaves the transaction alone when it rejects m;
      the run model tears down from that corrected state (see README,
      Findings). */
  function UseAdaptedThrownAsWritten(s: Xaction, m: Option<AdaptedMsg>): (t: Xaction)
    ensures m.None? ==> t == s
    ensures t.(ab := s.ab) == s
    ensures m.Some? ==> t.ab.rep == m && t.ab.productionFinished == s.ab.productionFinished
    // a rejected second disposition: answer() no longer leads to our pipe
    ensures m.Some? && !s.ab.proxyingAb.OpUndecided? ==>
              t.ab.proxyingAb == s.ab.proxyingAb
              && (!m.value.hostSetPipe ==> !t.ab.linked && t.ab.pipe == s.ab.pipe)
    // a first disposition with a body: proxyingAb is already On
    ensures m.Some? && s.ab.proxyingAb.OpUndecided? && m.value.hasBody ==> t.ab.proxyingAb.OpOn?
    // a host-set pipe is what answer() now leads to, and we do not produce it
    ensures m.Some? && m.value.hostSetPipe ==> AbLinked(t.ab) && !AbProducing(t.ab)
  {
    if m.None? then s
    else
      var ab := Adopt(s.ab, m.value);
      if s.ab.proxyingAb.OpUndecided? && m.value.hasBody then s.(ab := ab.(proxyingAb := OpOn))
      else s.(ab := ab)
  }

  /** blockVirgin(): block the message, sinking whatever virgin body remains.
      The closing Must(done()) cannot fail: the ensures below prove it. */
  function BlockVirgin(s: Xaction): (r: Result<Xaction>)
    ensures r.Ok? <==> s.ab.proxyingAb.OpUndecided?
    ensures r.Ok? ==> r.value.ab.proxyingAb.OpNever? && r.value.answer == Some(Block(s.serviceKey))
    ensures r.Ok? ==> Done(r.value) && !(r.value.vb.linked && VbConsuming(r.value.vb))
    ensures r.Ok? && r.value.vb.pipe.Some? ==> r.value.vb.pipe.value.autoConsume
    ensures r.Ok? ==> VbBytesKept(s.vb, r.value.vb)
    ensures r.Ok? ==> r.value.(vb := s.vb, ab := s.ab, answer := s.answer) == s
    ensures r.Ok? ==> r.value.ab.(proxyingAb := s.ab.proxyingAb) == s.ab
  {
    var _ :- Must(s.ab.proxyingAb.OpUndecided?, AbNotUndecided);
    Ok(s.(ab := s.ab.(proxyingAb := OpNever), vb := SinkVb(s.vb), answer := Some(Block(s.serviceKey))))
  }

  // ---------------------------------------------------------------------
  // Virgin body intake

  /** vbDiscard(): the adapter will never read the virgin body. The closing
      Must(makingVb == opNever) cannot fail: the ensures below prove it. */
  function VbDiscard(v: VirginSide): (r: Result<VirginSide>)
    ensures r.Ok? <==> v.makingVb.OpUndecided?
    ensures r.Ok? ==> r.value.makingVb.OpNever? && !(r.value.linked && VbConsuming(r.value))
    ensures r.Ok? && r.value.pipe.Some? ==> r.value.pipe.value.autoConsume
    ensures r.Ok? ==> VbBytesKept(v, r.value)
    ensures r.Ok? && VbLinked(v) && VbConsuming(v) ==> !VbConsuming(r.value) && !r.value.linked
  {
    var _ :- Must(v.makingVb.OpUndecided?, VbNotUndecided);
    Ok(SinkVb(v))
  }

  /** vbMake(): the adapter wants the virgin body; register as its consumer. */
  function VbMake(v: VirginSide): (r: Result<VirginSide>)
    ensures r.Ok? <==> v.makingVb.OpUndecided? && VbLinked(v) && !LateForConsumer(v.pipe.value)
    ensures r.Ok? ==> r.value.makingVb.OpOn? && VbConsuming(r.value) && VbLinked(r.value)
    ensures r.Ok? ==> r.value.pipe == Some(v.pipe.value.(consumerRegistered := true))
    ensures r.Ok? ==> r.value.(pipe := v.pipe, makingVb := v.makingVb) == v
  {
    var _ :- Must(v.makingVb.OpUndecided?, VbNotUndecided);
    var _ :- Must(VbLinked(v), NoVirginPipe);
    var p := SetConsumerIfNotLate(v.pipe.value);
    var _ :- Must(p.Some?, LateConsumer);
    Ok(v.(pipe := p, makingVb := OpOn))
  }

  /** vbStopMaking(): the adapter needs no more virgin body. The closing
      Must(makingVb == opComplete) cannot fail: the ensures below prove it. */
  function VbStopMaking(v: VirginSide): (r: Result<VirginSide>)
    ensures r.Ok? <==> v.makingVb.OpOn?
    ensures r.Ok? ==> r.value.makingVb.OpComplete? && !(r.value.linked && VbConsuming(r.value))
    ensures r.Ok? && r.value.pipe.Some? ==> r.value.pipe.value.autoConsume
    ensures r.Ok? ==> VbBytesKept(v, r.value)
    ensures r.Ok? && VbLinked(v) && VbConsuming(v) ==> !VbConsuming(r.value) && !r.value.linked
  {
    var _ :- Must(v.makingVb.OpOn?, VbNotOn);
    Ok(SinkVb(v))
  }

  /** vbMakeMore(): a pure check that more virgin body may still come. */
  function VbMakeMore(v: VirginSide): (r: Result<VirginSide>)
    ensures r.Ok? <==>
              && v.makingVb.OpOn? && VbLinked(v) && VbConsuming(v)
              && !v.pipe.value.productionEnded && v.pipe.value.mayNeedMoreData
    ensures r.Ok? ==> r.value == v
  {
    var _ :- Must(v.makingVb.OpOn?, VbNotOn);
    var _ :- Must(VbLinked(v) && VbConsuming(v), VbNotConsuming);
    var _ :- Must(!v.pipe.value.productionEnded && v.pipe.value.mayNeedMoreData, VbNoMoreExpected);
    Ok(v)
  }

  /** A libecap size argument: `nsize` means "no limit". */
  datatype Size = NSize | Bytes(n: nat)

  /** vbContent(o, s): a view of the buffered virgin bytes from offset `o`. */
  function VbContent(v: VirginSide, o: nat, size: Size): (r: Result<seq<byte>>)
    ensures r.Ok? <==> VbLinked(v) && o <= |v.pipe.value.content|
    ensures r.Ok? ==> o + |r.value| <= |v.pipe.value.content|
    ensures r.Ok? ==> r.value == v.pipe.value.content[o .. o + |r.value|]
    ensures r.Ok? && size.NSize? ==> o + |r.value| == |v.pipe.value.content|
    ensures r.Ok? && size.Bytes? ==> |r.value| == Min(|v.pipe.value.content| - o, size.n)
    ensures r.Ok? && o == |v.pipe.value.content| ==> r.value == []
  {
    var _ :- Must(VbLinked(v), NoVirginPipe);
    var have := v.pipe.value.content;
    var _ :- Must(o <= |have|, OffsetBeyondContent);
    var want := match size
      case NSize => |have| - o
      case Bytes(n) => n;
    Ok(have[o .. o + Min(|have| - o, want)])
  }

  /** vbContentShift(n): consume up to n buffered virgin bytes, never more
      than are buffered. */
  function VbContentShift(v: VirginSide, n: nat): (r: Result<VirginSide>)
    ensures r.Ok? <==> VbLinked(v)
    ensures r.Ok? ==> r.value.pipe.Some?
    ensures r.Ok? ==>
              var k := Min(n, |v.pipe.value.content|);
              && r.value.pipe.value.consumed == v.pipe.value.consumed + k
              && v.pipe.value.content == v.pipe.value.content[..k] + r.value.pipe.value.content
    ensures r.Ok? ==> r.value.(pipe := v.pipe) == v
    ensures r.Ok? ==> r.value.pipe.value.(content := v.pipe.value.content, consumed := v.pipe.value.consumed) == v.pipe.value
  {
    var _ :- Must(VbLinked(v), NoVirginPipe);
    var p := v.pipe.value;
    Ok(v.(pipe := Some(Consume(p, Min(n, |p.content|)))))
  }

  // ---------------------------------------------------------------------
  // Virgin pipe callbacks (we are its consumer)

  /** noteMoreBodyDataAvailable(): tell the adapter more virgin body came. */
  function NoteMoreBodyDataAvailable(s: Xaction): (r: Result<Xaction>)
    ensures r.Ok? <==> s.vb.makingVb.OpOn? && s.master.Some?
    ensures r.Ok? ==> r.value.calls == s.calls + [NoteVbContentAvailable]
    ensures r.Ok? ==> r.value.(calls := s.calls) == s
  {
    var _ :- Must(s.vb.makingVb.OpOn?, VbNotOn);
    var _ :- Must(s.master.Some?, NoMaster);
    Ok(s.(calls := s.calls + [NoteVbContentAvailable]))
  }

  /** noteBodyProductionEnded() (atEnd) and noteBodyProducerAborted() (!atEnd):
      tell the adapter the virgin body ended and latch vbProductionFinished.
      makingVb stays On: the adapter decides when to stop making it. */
  function NoteVbProductionStopped(s: Xaction, atEnd: bool): (r: Result<Xaction>)
    ensures r.Ok? <==> s.vb.makingVb.OpOn? && s.master.Some?
    ensures r.Ok? ==> r.value.vb.productionFinished && r.value.vb.makingVb.OpOn?
    ensures r.Ok? ==> r.value.calls == s.calls + [NoteVbContentDone(atEnd)]
    ensures r.Ok? ==> r.value.(vb := s.vb, calls := s.calls) == s
    ensures r.Ok? ==> r.value.vb.(productionFinished := s.vb.productionFinished) == s.vb
  {
    var _ :- Must(s.vb.makingVb.OpOn?, VbNotOn);
    var _ :- Must(s.master.Some?, NoMaster);
    Ok(s.(calls := s.calls + [NoteVbContentDone(atEnd)], vb := s.vb.(productionFinished := true)))
  }

  // ---------------------------------------------------------------------
  // Adapted body delivery (we are the adapted pipe's producer)

  /** What moveAbContent() needs: we are proxying the adapted body, hold the
      master, and reach the adapted pipe whenever there is output to put in
      it or its production to end. */
  predicate CanDrain(s: Xaction) {
    && s.ab.proxyingAb.OpOn? && s.master.Some?
    && ((|AbContent(s.master.value)| == 0 && !s.ab.productionFinished) || AbLinked(s.ab))
  }

  /** `r` is what a drain of `s` into a pipe with `room` free bytes left. */
  predicate Drained(s: Xaction, room: nat, r: Xaction)
    requires CanDrain(s)
  {
    var c := s.master.value.available;
    // only the adapted pipe, the master's cursor and the call log change
    && r.(ab := s.ab, master := s.master, calls := s.calls) == s
    && r.ab.(pipe := s.ab.pipe, linked := s.ab.linked, proxyingAb := s.ab.proxyingAb) == s.ab
    // no output now or ever: the pipe is told how production ended
    && (|c| == 0 && s.ab.productionFinished ==>
          && r.ab.proxyingAb.OpComplete? && !AbProducing(r.ab) && !r.ab.linked
          && r.ab.pipe.Some? && r.ab.pipe.value.eof == Some(s.ab.productionAtEnd)
          && r.ab.pipe.value.content == s.ab.pipe.value.content
          && r.master == s.master && r.calls == s.calls)
    // output available: the pipe takes what it has room for, the cursor
    // moves by exactly that much, and the rest stays available
    && (|c| > 0 ==>
          var used := Min(room, |c|);
          && r.ab == s.ab.(pipe := r.ab.pipe)
          && r.ab.pipe.Some? && r.ab.pipe.value == s.ab.pipe.value.(content := r.ab.pipe.value.content)
          && r.ab.pipe.value.content == s.ab.pipe.value.content + c[..used]
          && r.master.Some?
          && r.master.value.available == c[used..]
          && r.master.value.shiftedOut == s.master.value.shiftedOut + c[..used]
          && r.calls == s.calls + (if used > 0 then [AdapterCall.AbContentShift(used)] else []))
    // nothing available, production not finished: nothing changes
    && (|c| == 0 && !s.ab.productionFinished ==> r == s)
  }

  /** moveAbContent(): move the adapter's available output into the adapted
      pipe, which accepts at most `room` bytes now. With nothing available
      and production finished, stop producing and complete. */
  function MoveAbContent(s: Xaction, room: nat): (r: Result<Xaction>)
    ensures r.Ok? <==> CanDrain(s)
    ensures r.Ok? ==> Drained(s, room, r.value)
  {
    var _ :- Must(s.ab.proxyingAb.OpOn?, AbNotOn);
    var _ :- Must(s.master.Some?, NoMaster);
    var c := AbContent(s.master.value);
    if |c| == 0 && s.ab.productionFinished then
      var _ :- Must(AbLinked(s.ab), NoAdaptedPipe);
      Ok(FinishAb(s, room))
    else if |c| > 0 then
      var _ :- Must(AbLinked(s.ab), NoAdaptedPipe);
      Ok(PutAbContent(s, room))
    else
      Ok(s)
  }

  /** The drain with no output now or ever: stop producing, complete. */
  function FinishAb(s: Xaction, room: nat): (r: Xaction)
    requires CanDrain(s) && |s.master.value.available| == 0 && s.ab.productionFinished
    ensures Drained(s, room, r)
  {
    s.(ab := StopProducing(s.ab, s.ab.productionAtEnd).(proxyingAb := OpComplete))
  }

  /** The drain with output available: putMoreData() takes what fits and
      abContentShift() moves the adapter's cursor past it. */
  function PutAbContent(s: Xaction, room: nat): (r: Xaction)
    requires CanDrain(s) && |s.master.value.available| > 0
    ensures Drained(s, room, r)
  {
    var c := AbContent(s.master.value);
    var used := Accepted(|c|, room);
    var ab := s.ab.(pipe := Some(PutMoreData(s.ab.pipe.value, c, room)));
    if used > 0 then
      s.(ab := ab, master := Some(ShiftOutput(s.master.value, used)),
         calls := s.calls + [AdapterCall.AbContentShift(used)])
    else
      s.(ab := ab)
  }

  /** abProductionFinished and abProductionAtEnd latched by noteAbContentDone(atEnd). */
  function Latched(s: Xaction, atEnd: bool): (t: Xaction)
    ensures t.ab.productionFinished && t.ab.productionAtEnd == atEnd
    ensures t.ab.(productionFinished := s.ab.productionFinished, productionAtEnd := s.ab.productionAtEnd) == s.ab
    ensures t.(ab := s.ab) == s
  {
    s.(ab := s.ab.(productionFinished := true, productionAtEnd := atEnd))
  }

  /** noteAbContentDone(atEnd): the adapter's output ended; remember how
      until we can stop producing, then drain. A second call is rejected. */
  function NoteAbContentDone(s: Xaction, atEnd: bool, room: nat): (r: Result<Xaction>)
    ensures r.Ok? <==> !s.ab.productionFinished && CanDrain(Latched(s, atEnd))
    ensures r.Ok? ==> Drained(Latched(s, atEnd), room, r.value)
    ensures r.Ok? ==> r.value.ab.productionFinished && r.value.ab.productionAtEnd == atEnd
    // with the adapter's output all taken, the body is complete at once
    ensures r.Ok? && |s.master.value.available| == 0 ==>
              r.value.ab.proxyingAb.OpComplete? && r.value.ab.pipe.value.eof == Some(atEnd)
  {
    var _ :- Must(s.ab.proxyingAb.OpOn? && !s.ab.productionFinished, AbAlreadyFinished);
    MoveAbContent(Latched(s, atEnd), room)
  }

  /** noteAbContentAvailable(): the adapter has more output; drain. Rejected
      once the adapter said its output ended. */
  function NoteAbContentAvailable(s: Xaction, room: nat): (r: Result<Xaction>)
    ensures r.Ok? <==> !s.ab.productionFinished && CanDrain(s)
    ensures r.Ok? ==> Drained(s, room, r.value)
    ensures r.Ok? ==> r.value.ab.proxyingAb.OpOn? && !r.value.ab.productionFinished
  {
    var _ :- Must(s.ab.proxyingAb.OpOn? && !s.ab.productionFinished, AbAlreadyFinished);
    MoveAbContent(s, room)
  }

  /** noteMoreBodySpaceAvailable(): the adapted pipe has room again; drain. */
  function NoteMoreBodySpaceAvailable(s: Xaction, room: nat): (r: Result<Xaction>)
    ensures r.Ok? <==> CanDrain(s)
    ensures r.Ok? ==> Drained(s, room, r.value)
    ensures r.Ok? ==> r.value.ab.productionFinished == s.ab.productionFinished
  {
    var _ :- Must(s.ab.proxyingAb.OpOn?, AbNotOn);
    MoveAbContent(s, room)
  }

  /** noteBodyConsumerAborted(): the adapted body's reader is gone; stop
      producing, tell the adapter to stop making the body, and complete. */
  function NoteBodyConsumerAborted(s: Xaction): (r: Result<Xaction>)
    ensures r.Ok? <==> s.ab.proxyingAb.OpOn? && AbLinked(s.ab) && s.master.Some?
    ensures r.Ok? ==>
              && r.value.ab.proxyingAb.OpComplete? && !AbProducing(r.value.ab) && !r.value.ab.linked
              && r.value.ab.pipe.Some? && r.value.ab.pipe.value.eof == Some(false)
              && r.value.ab.pipe.value.content == s.ab.pipe.value.content
              && r.value.calls == s.calls + [AbStopMaking]
    ensures r.Ok? ==> r.value.(ab := s.ab, calls := s.calls) == s
    ensures r.Ok? ==> r.value.ab.(pipe := s.ab.pipe, linked := s.ab.linked, proxyingAb := s.ab.proxyingAb) == s.ab
  {
    var _ :- Must(s.ab.proxyingAb.OpOn?, AbNotOn);
    var _ :- Must(AbLinked(s.ab), NoAdaptedPipe);
    var ab := StopProducing(s.ab, false);
    var _ :- Must(s.master.Some?, NoMaster);
    Ok(s.(ab := ab.(proxyingAb := OpComplete), calls := s.calls + [AbStopMaking]))
  }
}
