/** The two flow-controlled body pipes as the eCAP transaction sees them.

    BodyPipe.cc is not part of this model. A pipe is reduced to the state
    XactionRep.cc reads or changes through it: the buffered bytes, how many
    were consumed, whether this transaction is registered as consumer or
    producer, and the end-of-production flags.
 */
module BodyPipes {
  import opened Outcomes

  newtype byte = b: int | 0 <= b < 0x100

  /** The virgin body pipe; the transaction may be its consumer.
      `content` is what `buf()` holds: bytes produced but not yet consumed. */
  datatype VirginPipe = VirginPipe(
    content: seq<byte>,
    consumed: nat,             // consumedSize()
    consumerRegistered: bool,  // stillConsuming(transaction)
    autoConsume: bool,         // enableAutoConsumption() was called
    productionEnded: bool,     // productionEnded()
    mayNeedMoreData: bool)     // mayNeedMoreData()

  /** A registration is late once somebody started draining the pipe. */
  predicate LateForConsumer(p: VirginPipe) {
    p.autoConsume || p.consumed > 0
  }

  /** setConsumerIfNotLate(): None when the registration comes too late. */
  function SetConsumerIfNotLate(p: VirginPipe): (r: Option<VirginPipe>)
    ensures r.None? <==> LateForConsumer(p)
    ensures r.Some? ==> r.value == p.(consumerRegistered := true)
  {
    if LateForConsumer(p) then None else Some(p.(consumerRegistered := true))
  }

  /** consume(n): drop the first n buffered bytes. */
  function Consume(p: VirginPipe, n: nat): (r: VirginPipe)
    requires n <= |p.content|
    ensures r.consumed + |r.content| == p.consumed + |p.content|
    ensures p.content == p.content[..n] + r.content
    ensures r.(content := p.content, consumed := p.consumed) == p
  {
    p.(content := p.content[n..], consumed := p.consumed + n)
  }

  /** The adapted body pipe; the transaction is its producer.
      `content` is every byte the pipe ever accepted. */
  datatype AdaptedPipe = AdaptedPipe(
    content: seq<byte>,
    producerRegistered: bool,  // stillProducing(transaction)
    eof: Option<bool>)         // how clearProducer() ended production

  /** The pipe MessageRep::tieBody creates: empty, with us as producer. */
  const TiedPipe := AdaptedPipe([], true, None)

  /** How many of `offered` bytes putMoreData() takes when it has `room`. */
  function Accepted(offered: nat, room: nat): (used: nat)
    ensures used <= offered && used <= room
    ensures used == offered || used == room
  {
    Min(room, offered)
  }

  /** putMoreData(bytes): appends the accepted prefix of `bytes`. */
  function PutMoreData(p: AdaptedPipe, bytes: seq<byte>, room: nat): (r: AdaptedPipe)
    ensures r.content == p.content + bytes[..Accepted(|bytes|, room)]
    ensures r.producerRegistered == p.producerRegistered && r.eof == p.eof
  {
    p.(content := p.content + bytes[..Accepted(|bytes|, room)])
  }

  /** clearProducer(atEof): the producer leaves, telling how production ended. */
  function ClearProducer(p: AdaptedPipe, atEof: bool): (r: AdaptedPipe)
    ensures !r.producerRegistered && r.eof == Some(atEof)
    ensures r.content == p.content
  {
    p.(producerRegistered := false, eof := Some(atEof))
  }
}
