# eCAP adaptation transaction and service directory, in Dafny

This project models the core of Squid's eCAP host side:

- **The adaptation transaction** (`Adaptation::Ecap::XactionRep`). It sits between Squid and a loaded eCAP adapter. It consumes the virgin message body from one body pipe (state `makingVb`) and produces the adapted body into another (state `proxyingAb`). Each side moves Undecided → On → Complete, or Undecided → Never.
  - The adapter picks exactly one disposition: `useVirgin`, `useAdapted` or `blockVirgin`.
  - Every entry point is guarded by `Must()` checks.
  - The job ends (`swanSong`) once both sides are terminal and the answer was sent.
- **The eCAP service side** (`Adaptation::Ecap::ServiceRep`):
  - the directory of adapter services that loaded modules register, keyed by URI;
  - the warning scan for loaded-but-unconfigured services;
  - the configuration visitor handed to adapters;
  - the `up`/`detach`/`status` logic of a configured service.

How it is modelled:

- A transaction is an immutable record, and every entry point is a pure function. A failed `Must()` becomes a `Fail(violation)` result naming the check (module `Outcomes`), so the checks are part of the model rather than preconditions.
- A dereference of a pointer the code does not check (`theMaster`, `answer().body_pipe`) is modelled as a failed check too.
- In a run, a call whose check fails ends at that check. What the call changed before the check stays (`XactionRun.Thrown`), the job stops, and `swanSong` runs from that state, as the job machinery does after an exception. Only a check that fails inside `swanSong` itself, which nothing catches, ends a run with a failure.
- The two body pipes (module `BodyPipes`) are reduced to what the transaction reads or changes through them: the buffered bytes, the consumed count, the registration flags and the end-of-production flags.
- The adapter (module `Adapters`) is its output bytes with a cursor, plus a log of every call the host makes into it.
- Module `XactionRun` drives a transaction with a sequence of events: the adapter's calls, the pipe callbacks, aborts, and the environment adding bytes. It proves an invariant of every reachable state:
  - the transaction is the virgin pipe's consumer exactly while `makingVb` is On and the job has not ended;
  - it is the adapted pipe's producer exactly while `proxyingAb` is On and the job has not ended;
  - until the job ends, the answer is decided exactly when `proxyingAb` leaves Undecided, and a decided answer always has `proxyingAb` past Undecided;
  - the adapter is stopped at most once, and every run from a launch ends without a failure, whatever checks fail along the way;
  - the adapted pipe holds exactly the bytes the adapter's cursor has passed.
- Module `Scenarios` proves seven end-to-end cases, each cut into single events whose effect on an explicitly written state is a lemma of its own.

A virgin-body producer abort does not end the virgin side. `noteBodyProducerAborted` (src/adaptation/ecap/XactionRep.cc:413-420) only tells the adapter and latches `vbProductionFinished`; `makingVb` stays On until the adapter calls `vbStopMaking` (`Scenarios.VirginProducerAborts`).

`useAdapted` makes its message `theAnswerRep` before checking it. A rejected message then decides what `swanSong` does, which the code evidently does not intend (see "## Findings"). The model checks the message first, and keeps the source's order in `XactionRep.UseAdaptedThrownAsWritten`.

## Model

| member | source | states |
|---|---|---|
| Adapters.ShiftOutput | src/adaptation/ecap/XactionRep.cc:439-442 | abContentShift(n) moves exactly the first n available bytes behind the cursor; nothing is lost or duplicated |
| XactionRep.New | src/adaptation/ecap/XactionRep.cc:18-32 | a new transaction has both sides Undecided, no master, no answer, no adapted message, nothing latched, and the virgin message's body pipe; it carries the service key, whether a cause was given, and whether the virgin header is a request |
| XactionRep.AssignMaster | src/adaptation/ecap/XactionRep.cc:41-47 | the adapter transaction is assigned only once and only when non-null; nothing else changes |
| XactionRep.Launch | src/adaptation/ecap/ServiceRep.cc:105-107 | a launched transaction is the new one with its master set; it fails exactly when the adapter transaction is null |
| XactionRep.Start | src/adaptation/ecap/XactionRep.cc:56-74 | start needs a master and a request among cause and virgin; a virgin message without a body pipe sets makingVb to Never; the adapter's start() is called |
| XactionRep.DoneAll | src/adaptation/ecap/XactionRep.cc:144-149 | doneAll holds exactly when each side is Complete or Never (the `>= opComplete` comparison) and the initiator has its answer |
| XactionRep.Callable | src/adaptation/ecap/XactionRep.cc:373-377 | a job is callable exactly while it has not ended and some side is still Undecided or On or no answer was sent |
| XactionRep.TerminateMaster | src/adaptation/ecap/XactionRep.cc:134-142 | the master is released, and stop() is called once if and only if a master was held |
| XactionRep.LeaveAdaptedPipe | src/adaptation/ecap/XactionRep.cc:82-88 | a still-set adapted body pipe must still have us as producer, and we leave it without eof; otherwise nothing changes |
| XactionRep.SwanSong | src/adaptation/ecap/XactionRep.cc:76-104 | teardown leaves both pipes and stops the master once: a linked adapted pipe gets `stopProducingFor(false)`, so we no longer produce it, its eof is false and its bytes stay, and an adapted side with nothing to leave is unchanged; it leaves the OpStates, the answer and the virgin bytes as they were; it succeeds exactly when the adapted-pipe check and the request check hold |
| XactionRep.ForgetVb | src/adaptation/ecap/XactionRep.cc:181-195 | forgetVb unregisters the consumer: a pipe we were linked to and consuming ends unlinked and with no consumer, and any other virgin side keeps its pipe and link; it maps Undecided to Never and On to Complete and leaves Complete and Never alone; the virgin bytes are kept |
| XactionRep.SinkVb | src/adaptation/ecap/XactionRep.cc:151-163 | sinkVb enables auto-consumption of a present pipe, then forgets the virgin body with the same state mapping, so a pipe we were consuming ends with no consumer |
| XactionRep.PreserveVb | src/adaptation/ecap/XactionRep.cc:165-179 | preserveVb succeeds if and only if no virgin byte was consumed; it then forgets the virgin body without enabling auto-consumption, so a pipe we were consuming ends with no consumer |
| XactionRep.UseVirgin | src/adaptation/ecap/XactionRep.cc:197-212 | useVirgin succeeds if and only if proxyingAb is Undecided and nothing was consumed; it forwards a clone with the same pipe presence, sets Never, and the job is done |
| XactionRep.UseAdapted | src/adaptation/ecap/XactionRep.cc:214-239 | useAdapted succeeds exactly when it gets a message while Undecided and a message with a body has no host pipe yet and a master is held; the message is the answer; a bodiless answer sets Never; an answer with a body sets On, makes us producer of a new empty pipe with no eof, and calls abMake; a bodiless answer keeps the pipe and link it found; nothing else changes, including the latched production flags |
| XactionRep.Adopt | src/adaptation/ecap/XactionRep.cc:219 | after `theAnswerRep = m`, answer() leads to m's host pipe, which we do not produce, or to no pipe; a pipe we tied earlier stays as it was only when m has no host pipe |
| XactionRep.UseAdaptedThrownAsWritten | src/adaptation/ecap/XactionRep.cc:217-228 | in the source's order, a rejected message is already theAnswerRep: a rejected second answer cuts answer() off from our pipe, a first answer with a body is already On, and a host pipe is what answer() leads to |
| XactionRep.BlockVirgin | src/adaptation/ecap/XactionRep.cc:241-252 | blockVirgin succeeds if and only if proxyingAb is Undecided; it reports Block with the service key, sinks the virgin body, and the job is done |
| XactionRep.VbDiscard | src/adaptation/ecap/XactionRep.cc:254-261 | vbDiscard succeeds if and only if makingVb is Undecided, and ends in Never with auto-consumption and no consumer |
| XactionRep.VbMake | src/adaptation/ecap/XactionRep.cc:263-271 | vbMake succeeds if and only if makingVb is Undecided, the pipe is set, and the registration is not late; it ends On with us registered as consumer |
| XactionRep.VbStopMaking | src/adaptation/ecap/XactionRep.cc:273-280 | vbStopMaking succeeds if and only if makingVb is On, and ends in Complete with auto-consumption and no consumer |
| XactionRep.VbMakeMore | src/adaptation/ecap/XactionRep.cc:282-290 | vbMakeMore is a pure check: On, still consuming, production not ended, and more data possibly needed |
| XactionRep.VbContent | src/adaptation/ecap/XactionRep.cc:292-314 | the view needs a pipe and an offset within the buffered bytes; it starts at the offset, has length min(buffered - o, s), or runs to the end for nsize, and is empty at the end |
| XactionRep.VbContentShift | src/adaptation/ecap/XactionRep.cc:316-328 | exactly min(n, buffered) bytes are consumed from the front; the rest of the pipe is unchanged |
| XactionRep.NoteMoreBodyDataAvailable | src/adaptation/ecap/XactionRep.cc:396-402 | needs makingVb On and a master; only tells the adapter |
| XactionRep.NoteVbProductionStopped | src/adaptation/ecap/XactionRep.cc:404-420 | the end or abort of virgin production tells the adapter how it ended and latches vbProductionFinished; makingVb stays On |
| XactionRep.MoveAbContent | src/adaptation/ecap/XactionRep.cc:428-443 | a drain succeeds exactly while On with a master and a reachable pipe whenever there is output or production ended; with no output and production finished, we stop producing as the adapter said and Complete; with k bytes available, the pipe takes used = min(room, k), the cursor moves by exactly used, and the rest stays available; otherwise nothing changes |
| XactionRep.FinishAb | src/adaptation/ecap/XactionRep.cc:433-437 | with no output now or later, the pipe is told how production ended, we stop producing, and the side is Complete |
| XactionRep.PutAbContent | src/adaptation/ecap/XactionRep.cc:438-442 | with output available, the pipe appends what fits, and the adapter's cursor moves past exactly those bytes, with abContentShift called only for a non-zero count |
| XactionRep.Latched | src/adaptation/ecap/XactionRep.cc:333-335 | noteAbContentDone latches that production finished and how, and changes nothing else |
| XactionRep.NoteAbContentDone | src/adaptation/ecap/XactionRep.cc:330-338 | accepted once, while production has not finished and the latched state can be drained; the result is that drain, so with no output left the body completes with the eof the adapter gave |
| XactionRep.NoteAbContentAvailable | src/adaptation/ecap/XactionRep.cc:340-345 | accepted exactly while production has not finished and a drain is possible (On, a master, and a reachable pipe when there is output); its effect is that drain: the pipe takes what fits, the cursor moves by that much, and the side stays On and unfinished |
| XactionRep.NoteMoreBodySpaceAvailable | src/adaptation/ecap/XactionRep.cc:379-384 | accepted exactly when a drain is possible (On, a master, and a reachable pipe when there is output or production ended); its effect is that drain, and the production flags stay as they were |
| XactionRep.NoteBodyConsumerAborted | src/adaptation/ecap/XactionRep.cc:386-394 | needs On, the pipe and a master; we stop producing without eof, call abStopMaking, and Complete |
| XactionRun.LaunchedInv | src/adaptation/ecap/XactionRep.cc:18-74 | a freshly launched and started transaction satisfies the reachable-state invariant and has called only start() |
| XactionRun.SwanSongFollows | src/adaptation/ecap/XactionRep.cc:76-104 | teardown of a reachable state never fails; it keeps the invariant, the answer, the terminal states and the adapted pipe's bytes |
| XactionRun.UseVirginFollows | src/adaptation/ecap/XactionRep.cc:197-212 | a successful useVirgin keeps the invariant: the answer is decided together with proxyingAb leaving Undecided, and we are nobody's consumer |
| XactionRun.UseAdaptedFollows | src/adaptation/ecap/XactionRep.cc:214-239 | a successful useAdapted keeps the invariant: we are the adapted pipe's producer exactly when proxyingAb became On |
| XactionRun.BlockVirginFollows | src/adaptation/ecap/XactionRep.cc:241-252 | a successful blockVirgin keeps the invariant and sinks the virgin body without a consumer left registered |
| XactionRun.VirginSideFollows | src/adaptation/ecap/XactionRep.cc:254-328 | every virgin-body call and every change the producer makes to the virgin pipe keeps the invariant: we consume exactly while makingVb is On |
| XactionRun.VirginCallbackFollows | src/adaptation/ecap/XactionRep.cc:396-420 | the virgin pipe's callbacks keep the invariant, a decided answer, Complete and Never, and the adapted pipe's bytes |
| XactionRun.ConsumerAbortedFollows | src/adaptation/ecap/XactionRep.cc:386-394 | a consumer abort of the adapted pipe keeps the invariant and the bytes the pipe accepted |
| XactionRun.MoveFollows | src/adaptation/ecap/XactionRep.cc:428-443 | a drain keeps the pipe's content equal to the bytes the adapter's cursor passed, and only appends to it |
| XactionRun.AbContentDoneFollows | src/adaptation/ecap/XactionRep.cc:330-338 | noteAbContentDone keeps the invariant and only appends to the adapted pipe |
| XactionRun.AdapterOutputsFollows | src/adaptation/ecap/XactionRep.cc:428-437 | new adapter output keeps the invariant and leaves the adapted pipe's bytes alone until a drain takes them |
| XactionRun.Thrown | src/adaptation/ecap/XactionRep.cc:197-394 | a throw keeps what the call did before the failed check: useVirgin's Never before preserveVb, noteAbContentDone's latch before the drain, noteBodyConsumerAborted's stopProducingFor before Must(theMaster); the latch records how production ended only while On and not yet finished, and each call that changes nothing before its check leaves the job as it was; useAdapted is taken in the corrected order, checking before adopting; nothing else changes |
| XactionRun.TeardownFollows | src/adaptation/ecap/XactionRep.cc:76-104 | swanSong from a running state whose adapted side changed, but still leads to a pipe only while we produce it, succeeds and keeps the invariant, the answer, the terminal states and the adapted pipe's bytes |
| XactionRun.ThrownFollows | src/adaptation/ecap/XactionRep.cc:76-104 | whatever a call did before one of its checks threw, swanSong then ends the job cleanly and keeps the invariant |
| XactionRun.HandleFollows | src/adaptation/ecap/XactionRep.cc:197-443 | every entry point that succeeds on a callable reachable state keeps the invariant, a decided answer, Complete and Never, and the adapted pipe's bytes |
| XactionRun.Deliver | src/adaptation/ecap/XactionRep.cc:373-377 | a job that is not callable ignores the call; a callable job is afterwards still callable or torn down, never done without swanSong; a call that throws ends the job, keeping the answer and stopping the adapter |
| XactionRun.DeliverFollows | src/adaptation/ecap/XactionRep.cc:373-377 | delivering any event to a reachable state never fails, and keeps all of the above, also when the call throws and the job is torn down |
| XactionRun.RunFollows | src/adaptation/ecap/XactionRep.cc:144-149 | every event sequence from a reachable state runs without failure to a state that satisfies the invariant; over every run the first answer stays, Complete and Never are final, and the adapted pipe only grows |
| XactionRun.StopAtMostOnce | src/adaptation/ecap/XactionRep.cc:134-142 | every run from a launch, whatever checks fail in it, ends without failure; stop() is called at most once, and exactly once when the job ended |
| XactionRun.SecondDispositionRejected | src/adaptation/ecap/XactionRep.cc:197-252 | once an answer is decided, useVirgin, useAdapted and blockVirgin all fail the Undecided check |
| XactionRun.CompleteNeverReproduces | src/adaptation/ecap/XactionRep.cc:435-437 | after the adapted side completes, every run goes on without failure and the transaction never becomes the adapted pipe's producer again |
| XactionRun.AsWrittenSecondAnswerLeaksProducer | src/adaptation/ecap/XactionRep.cc:218-220 | in the source's order, a rejected second answer leaves the ended job still registered as producer of the first answer's pipe |
| XactionRun.AsWrittenHostPipeFailsTeardown | src/adaptation/ecap/XactionRep.cc:219-228 | in the source's order, a rejected message with a host pipe makes swanSong's producer check fail |
| XactionRun.RejectedAnswerTearsDown | src/adaptation/ecap/XactionRep.cc:214-221 | with the message checked first, a rejected useAdapted ends the job cleanly: the first answer stays, and the pipe we produced is left with eof unknown |
| XactionRun.DoneIsFinal | src/adaptation/ecap/XactionRep.cc:373-377 | a job that is done ignores every further event |
| XactionRun.DrainIdempotent | src/adaptation/ecap/XactionRep.cc:433-442 | after a drain that took all available output, a repeated drain with no new output changes nothing |
| XactionRun.ShiftThenRead | src/adaptation/ecap/XactionRep.cc:292-328 | after vbContentShift(n), vbContent(0, nsize) shows what vbContent(k, nsize) showed before, for the k consumed bytes |
| Scenarios.NoBodyUseVirgin | src/adaptation/ecap/XactionRep.cc:56-74 | with no virgin body, start sets Never; useVirgin forwards the clone and the job ends with no pipe ever touched |
| Scenarios.AdaptedBodyInOneDrain | src/adaptation/ecap/XactionRep.cc:330-338 | an adapted body the pipe accepts in full arrives in one drain; the next drain completes with eof as the adapter said |
| Scenarios.AdaptedBodyUnderBackpressure | src/adaptation/ecap/XactionRep.cc:439-442 | when the pipe takes 40 of 100 bytes, the cursor moves by 40 only; the other 60 move on the next drain and the body arrives whole |
| Scenarios.BlockAfterPartialRead | src/adaptation/ecap/XactionRep.cc:241-252 | blocking after a partial read sinks the rest, leaves the pipe, Completes makingVb, and reports Block once |
| Scenarios.VirginProducerAborts | src/adaptation/ecap/XactionRep.cc:413-420 | a producer abort tells the adapter the body ended short and latches the flag; makingVb stays On until vbStopMaking |
| Scenarios.UseVirginAfterReading | src/adaptation/ecap/XactionRep.cc:197-205 | useVirgin after the adapter consumed k virgin bytes throws in preserveVb; the job ends with Never, no answer, the pipe left with k bytes consumed, and the adapter stopped once |
| Scenarios.SecondAnswerRejected | src/adaptation/ecap/XactionRep.cc:214-221 | a second useAdapted is rejected; the first answer stays, its pipe is left with eof unknown, and the adapter was started, asked for the body and stopped |
| ServiceRep.FirstIndex | src/adaptation/ecap/ServiceRep.cc:148-153 | the scan stops at the first entry with the URI, or finds none when no entry has it |
| ServiceRep.FindAdapterService | src/adaptation/ecap/ServiceRep.cc:144-154 | the lookup returns the first entry with the URI, or nothing exactly when no entry has it |
| ServiceRep.RegisterAdapterService | src/adaptation/ecap/ServiceRep.cc:156-171 | registration replaces the first entry with the same URI in place, or appends; every other entry stays |
| ServiceRep.UnregisterAdapterService | src/adaptation/ecap/ServiceRep.cc:173-185 | unregistration erases only the first entry with the URI and keeps the order of the rest; with no match nothing changes |
| ServiceRep.FindAfterRegister | src/adaptation/ecap/ServiceRep.cc:144-171 | after registering s, looking up s's URI returns s |
| ServiceRep.RegisterKeepsOthers | src/adaptation/ecap/ServiceRep.cc:156-171 | registering s does not change lookups of any other URI |
| ServiceRep.RegisterKeepsUnique | src/adaptation/ecap/ServiceRep.cc:156-171 | if URIs were unique before a registration, they are unique after it |
| ServiceRep.RegisterIdempotent | src/adaptation/ecap/ServiceRep.cc:156-171 | registering the same service twice equals registering it once |
| ServiceRep.UnregisterUndoesRegister | src/adaptation/ecap/ServiceRep.cc:156-185 | unregistering a URI just registered for the first time restores the directory |
| ServiceRep.UnregisterForgets | src/adaptation/ecap/ServiceRep.cc:173-185 | with unique URIs, an unregistered URI is no longer found and URIs stay unique |
| ServiceRep.Unconfigured | src/adaptation/ecap/ServiceRep.cc:187-202 | a loaded URI is listed exactly when no configured service names it |
| ServiceRep.CheckUnusedAdapterServices | src/adaptation/ecap/ServiceRep.cc:187-202 | the nested search warns, in directory order, about exactly the loaded services no configured URI matches |
| ServiceRep.VisitEach | src/adaptation/ecap/ServiceRep.cc:34-47 | the visitor first receives ("bypassable", "1" or "0" by the bypass flag), then every extension in stored order |
| ServiceRep.VisitEachRoundTrip | src/adaptation/ecap/ServiceRep.cc:34-47 | the bypass flag and every option can be read back from the visits |
| ServiceRep.NewService | src/adaptation/ecap/ServiceRep.cc:51-55 | a new service is neither up nor detached |
| ServiceRep.Up | src/adaptation/ecap/ServiceRep.cc:89-92 | up holds exactly when an adapter service is held, which `ServiceRep.Finalize` makes true exactly when the directory has the configured URI |
| ServiceRep.Detached | src/adaptation/ecap/ServiceRep.cc:139-142 | detached holds exactly when detach() ran, as `ServiceRep.Detach` and `ServiceRep.NewService` state |
| ServiceRep.Finalize | src/adaptation/ecap/ServiceRep.cc:66-82 | after finalize the service is up exactly when the directory has an adapter service with the configured URI, and holds that entry |
| ServiceRep.WantsUrl | src/adaptation/ecap/ServiceRep.cc:94-98 | wantsUrl fails exactly when the service is down, and otherwise gives the adapter service's answer |
| ServiceRep.MakeXactLauncher | src/adaptation/ecap/ServiceRep.cc:100-109 | only an up service makes a transaction; it is new, carries the service key, and has the adapter transaction as master |
| ServiceRep.Detach | src/adaptation/ecap/ServiceRep.cc:134-137 | detach sets detached and changes nothing else |
| ServiceRep.Status | src/adaptation/ecap/ServiceRep.cc:111-132 | the status is bracketed, and its length is set by "up"/"down" and ",detached" |
| ServiceRep.StatusRoundTrip | src/adaptation/ecap/ServiceRep.cc:111-132 | the status string determines both up() and detached() |
| ServiceRep.DetachKeepsUp | src/adaptation/ecap/ServiceRep.cc:89-92 | a finalized, detached service is up exactly when its URI was found, and its status says so |

## Left out

- src/squid.h holds only includes, macros and globals; it has no logic.
- Diagnostics are left out: `debugs` logging, `XactionRep::status()`, and the adaptation history records (`recordXactStart`, `recordXactFinish`).
- The AsyncJob and Initiate machinery is reduced to what it does around a call (`XactionRun.Deliver`): calls arrive only while `callable()`, and after a call that throws or leaves `doneAll()` true, `swanSong` runs. `mustStop`, `tellQueryAborted`, `Initiate::swanSong` and the call scheduling are left out.
  - `sendAnswer` is modelled as recording the answer.
  - `Initiate::doneAll()` is modelled as "an answer was given".
- XactionRun.Launched: a `start()` whose request check fails (src/adaptation/ecap/XactionRep.cc:66) is a failed launch. The `swanSong` that would follow fails the same check (src/adaptation/ecap/XactionRep.cc:98), after stopping the adapter.
- A dereference of a null `theMaster` (in `useAdapted` before `abMake`, and in `moveAbContent`) is a failed check that changes nothing. No run reaches one: the invariant keeps a master until the job ends.
- XactionRep.Adopt: when m carries a host pipe, the record keeps only that pipe. A pipe we tied for an earlier answer, which in the source stays alive with us as its producer, is no longer represented. The consequence of an earlier answer left registered is shown for an m without a host pipe (`XactionRun.AsWrittenSecondAnswerLeaksProducer`).
- A host-set body pipe is represented only as the pipe `answer()` leads to after a message with one was adopted (`XactionRep.HostPipe`); its bytes are not modelled.
- The foreign libecap calls are parameters. These are the adapter transaction `makeXaction` returns, the adapter service's `wantsUrl` answer, and the room the adapted pipe has.
- The calls `configure` and `start` made on the adapter service in `finalize` are left out.
- `Area` is modelled as a sequence slice.
- BodyPipe.cc is not part of this model:
  - a consumer registration is late when auto-consumption is on or bytes were consumed;
  - `putMoreData` takes min(room, offered) bytes.
- MessageRep.cc is not part of this model:
  - `tieBody` gives an empty pipe with us as producer;
  - `clone()` keeps body-pipe presence, so the check at src/adaptation/ecap/XactionRep.cc:208 always passes;
  - the `dynamic_cast` checks on the answer always pass;
  - a header with a body pipe always gets a body, so an adapted message never has a host pipe without a body. `XactionRep.AdaptedMsg` can express that combination; `XactionRep.UseAdapted` then treats the message as bodiless and keeps the pipe it found, where the source's `swanSong` would find the host's pipe through `answer()` and its producer check would fail.
- The checks `Must(*s)` in the directory cannot fail in the model, because directory entries are values rather than pointers.
- The disabled `setAdaptedBodySize` (src/adaptation/ecap/XactionRep.cc:347-356) is not implemented in the source.
- `ServiceRep::noteFailure` (an assertion failure) and `ServiceRep::probed` (always true) are left out.
- `XactionRep::service()` is left out; the model keeps only the service key.
- Pointer ownership, reference counting and the destructors' assertions are left out.
- The `size_t` and `uint64_t` casts marked XXX are not modelled; sizes are unbounded naturals.
- XactionRun.LaunchedInv: assumes the adapter transaction has produced no output yet and the virgin pipe has no consumer yet. Both come from code outside this model.
- ServiceRep.Status: states the string's shape and length; the exact text is recovered by ServiceRep.StatusRoundTrip.

## Findings

| source | as written | input that shows it | evidently intended | confidence | as-written member | corrected member |
|---|---|---|---|---|---|---|
| src/adaptation/ecap/XactionRep.cc:218-220 | `theAnswerRep = m` runs before `Must(proxyingAb == opUndecided)`, so a rejected second answer replaces the first as `theAnswerRep` | `useAdapted(m1)` with a body, then `useAdapted(m2)` where m2 has no body pipe: the check throws, `swanSong` reads `answer().body_pipe` from m2, finds none, and never leaves m1's pipe; the ended job stays its producer | a rejected answer leaves the transaction alone, so `swanSong` leaves m1's pipe and its reader learns production stopped short of eof | medium; not executed | XactionRep.UseAdaptedThrownAsWritten, XactionRun.AsWrittenSecondAnswerLeaksProducer | XactionRep.UseAdapted, XactionRun.RejectedAnswerTearsDown |
| src/adaptation/ecap/XactionRep.cc:219-228 | `theAnswerRep = m` and `proxyingAb = opOn` run before `Must(!msg->body_pipe)` | `useAdapted(m)` where m has a body and the host already set its header's body pipe: the check throws, `swanSong` finds that pipe in `answer()`, and its `Must(body_pipe->stillProducing(this))` fails inside `swanSong`, where nothing catches it | the rejection ends the job cleanly, like every other failed check | medium; not executed | XactionRep.UseAdaptedThrownAsWritten, XactionRun.AsWrittenHostPipeFailsTeardown | XactionRep.UseAdapted, XactionRun.StopAtMostOnce |
