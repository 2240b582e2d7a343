/** Failure-compatible wrappers for the eCAP host model.

    Squid guards every transition with `Must(condition)`, which throws a
    TextException when the condition is false; the exception ends the
    asynchronous job. The model turns each such check into a `Fail` value
    naming the check that did not hold, so callers see the error path
    instead of a precondition.
 */
module Outcomes {

  /** A value that may be absent: a null pointer, an empty shared_ptr. */
  datatype Option<+T> = None | Some(value: T)

  /** The Must() check (or unchecked dereference) that stopped a call. */
  datatype Violation =
    | MasterAlreadySet      // master(): theMaster was already assigned
    | NullMaster            // master(): the adapter transaction is null
    | NoMaster              // theMaster is needed but not held
    | NoRequest             // neither the cause nor the virgin header is a request
    | AbNotUndecided        // a disposition when proxyingAb != opUndecided
    | AbNotOn               // an adapted-body step when proxyingAb != opOn
    | AbAlreadyFinished     // the adapter already said its output ended
    | VbNotUndecided        // vbMake/vbDiscard when makingVb != opUndecided
    | VbNotOn               // a virgin-body step when makingVb != opOn
    | NoVirginPipe          // the virgin body pipe is not (or no longer) set
    | LateConsumer          // setConsumerIfNotLate refused the registration
    | VbAlreadyConsumed     // preserveVb after bytes were consumed
    | VbNotConsuming        // vbMakeMore while not the virgin pipe's consumer
    | VbNoMoreExpected      // vbMakeMore when no more virgin bytes can come
    | OffsetBeyondContent   // vbContent offset past the buffered bytes
    | NullMessage           // useAdapted with an empty message pointer
    | HostSetPipe           // the adapted message already has a body pipe
    | NoAdaptedPipe         // the answer's body pipe is not (or no longer) set
    | NotProducing          // swanSong: answer pipe set but we are not its producer
    | ServiceDown           // a ServiceRep call that needs up()

  /** The outcome of a guarded call: the new value, or the failed check. */
  datatype Result<+T> = Ok(value: T) | Fail(violation: Violation) {

    predicate IsFailure() {
      Fail?
    }

    function PropagateFailure<U>(): Result<U>
      requires Fail?
    {
      Fail(violation)
    }

    function Extract(): T
      requires Ok?
    {
      value
    }
  }

  /** Squid's `Must(condition)`, failing with `v`; written
      `var _ :- Must(c, v); ...` so a failed check ends the call. */
  function Must(condition: bool, v: Violation): (r: Result<()>)
    ensures r.Ok? <==> condition
    ensures r.Fail? ==> r.violation == v
  {
    if condition then Ok(()) else Fail(v)
  }

  function Min(a: nat, b: nat): (m: nat)
    ensures m <= a && m <= b
    ensures m == a || m == b
  {
    if a <= b then a else b
  }
}
