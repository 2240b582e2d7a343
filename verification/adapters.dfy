/** The adapter side of a transaction, as seen from the host.

    The adapter transaction (libecap::adapter::Xaction) is foreign code. The
    host only reads its adapted-body output and tells it how far it got, and
    otherwise calls into it; the model keeps the output as a sequence with a
    cursor and records every call the host makes.
 */
module Adapters {
  import opened BodyPipes

  /** A call the host makes into the adapter transaction. */
  datatype AdapterCall =
    | Start
    | Stop
    | AbMake
    | AbStopMaking
    | AbContentShift(size: nat)
    | NoteVbContentAvailable
    | NoteVbContentDone(atEnd: bool)

  /** The adapter's adapted-body output: the bytes the host already took
      (`shiftedOut`) and the bytes still available behind the cursor. */
  datatype Adapter = Adapter(shiftedOut: seq<byte>, available: seq<byte>)

  /** A freshly made adapter transaction has handed nothing over yet. */
  predicate Fresh(a: Adapter) {
    a.shiftedOut == []
  }

  /** abContent(0, nsize): everything available from the cursor on. */
  function AbContent(a: Adapter): seq<byte> {
    a.available
  }

  /** abContentShift(n): the host took the first n available bytes. */
  function ShiftOutput(a: Adapter, n: nat): (r: Adapter)
    requires n <= |a.available|
    ensures r.shiftedOut + r.available == a.shiftedOut + a.available
    ensures r.shiftedOut == a.shiftedOut + a.available[..n]
  {
    Adapter(a.shiftedOut + a.available[..n], a.available[n..])
  }

  /** The adapter produced more output (not a host action). */
  function Produce(a: Adapter, bytes: seq<byte>): (r: Adapter)
    ensures r.shiftedOut == a.shiftedOut
    ensures r.available == a.available + bytes
  {
    a.(available := a.available + bytes)
  }

  /** How many times the host called stop(). */
  function CountStops(calls: seq<AdapterCall>): nat {
    multiset(calls)[Stop]
  }

  /** Appending a call adds one stop exactly when the call is stop(). */
  lemma CountStopsAppend(calls: seq<AdapterCall>, c: AdapterCall)
    ensures CountStops(calls + [c]) == CountStops(calls) + (if c == Stop then 1 else 0)
  {
    assert multiset(calls + [c]) == multiset(calls) + multiset{c};
  }
}
