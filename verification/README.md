# A verified model of the telemetry samples

This project models the parts of the repository that hold logic of their own and proves properties of them.

* **`event-comparison`**: `fetchUser` looks a user up in a cache and, on a miss, in a database with bounded retries
  and linear backoff. It can be cancelled at every wait, keeps four running results in a deferred closure, and emits
  nested spans, named events and diagnostic log records. Around it are two event recorders, a span processor for
  request info, a log processor that copies the event name, a seeded scenario generator and a request loop.
* **`span-link`**: messages are published under root spans, received by concurrent callbacks until a batch is full,
  and processed under new root spans that are linked to the spans that sent them.
* **`signoz-wide-event/logger.go`**: a log core that drops one field before the core it wraps.

## How it is built

Everything a request emits goes into one chronological history of entries (`Telemetry.dfy`). What the program cannot
control is answered by a `World` (`Clock.dfy`): how long each wait and each clock reading takes, and whether the
context interrupts it. A statement about all worlds covers every schedule, every cancellation instant and every
choice `select` makes when timer and context are ready together. Ideal clocks, worlds without cancellation and timers
that keep time are predicates on worlds.

`Fetch.dfy`, `LoadGen.dfy`, `Runs.dfy`, `LogPipeline.dfy`, `ReceiveBatch.dfy` and `SpanLink.dfy` hold the imperative
program as classes and methods. `FetchSpec.dfy` says as functions what a request emits; `maxAttempts` is any limit of
at least 1, and the retry loop is stated for arbitrary turns so that each law is one short induction. The remaining
files prove the laws:

| file | laws |
|---|---|
| `FetchCounters.dfy`, `FetchRows.dfy` | calls, retries and the attributes of the root span against the history |
| `Rows.dfy`, `ChildRows.dfy`, `CallReadings.dfy`, `RequestReadings.dfy` | histories read back span by span and event by event, in literal columns |
| `FetchSpans.dfy` | spans as a stack, in every reachable state |
| `FetchTime.dfy`, `FetchDeadline.dfy` | durations, the closed form, cancellation on an ideal clock |
| `CallTimes.dfy` | the call time of the root span against the SELECT spans |
| `FetchCalls.dfy` | when the call count follows from the retry count |
| `FetchRecorders.dfy` | the two event recorders against each other |
| `DatabaseCalls.dfy` | any sequence of calls on one database |
| `LogPipeline.dfy`, `RequestInfoForest.dfy` | the two processors |
| `DrawLaws.dfy` | the random scenario, draw by draw |
| `RunLaws.dfy`, `RunRows.dfy`, `RunOutcomes.dfy`, `RunDeadline.dfy` | runs of any number of requests, uncancelled and cancelled |
| `ReceiveBatch.dfy`, `ReceiveBound.dfy` | every interleaving of the receiving callbacks |
| `TraceContext.dfy`, `SpanLink.dfy` | propagation as text, and links |
| `Delivery.dfy` | publishing, receiving and processing together |
| `DropField.dfy` | wrapped log cores |

In Go, deferred calls run last-in first-out. The model writes them in that order at the end of the method: in
`FetchUser` the closure (`WriteOutcome`) before `End`, in `Cache.Get` and `UserDB.SelectUser` just `End`. The body of
the loop of `fetchUser` is split over `Attempt`, `TimedSelect` and `Retry`.

Where the documentation and the code differ, the model follows the code:

* A SELECT that the context interrupts before the last attempt is still followed by a `db.query.retry` event, and
  counted as a retry; only the backoff after it notices the context. So `retry.count` can equal `app.db.call.count`.
* `event-comparison/README.md:231` calls `app.db.call.count` computable from `retry.count`. It is not: a hit and a
  miss, or two misses, can agree on the one and differ in the other. `CallsByDeadline` and `CallsAreRetriesPlusOne`
  say exactly when calls are retries plus one.
* The comment at `span-link/config.go:18` speaks of many links on one process span; the code puts one link on each.

## Model

| member | source | states |
|---|---|---|
| `Clocks.Clock.Sleep` | event-comparison/store.go:117-126 | a wait ends with the timer or with the context's error, as the world decides; where timers keep time an uninterrupted wait is not short, and where only a done context interrupts, an interrupted one leaves it done |
| `Clocks.IdealWorlds` | event-comparison/store.go:120-125 | ideal clocks exist for each cancellation instant and each choice between a timer and a context ready together |
| `Fetch.Tracer.OnStart` | event-comparison/reqctx.go:75-83 | request info is written to spans without a parent in this process, and to no others |
| `Fetch.Tracer.RecordSpanError` | event-comparison/store.go:129-132 | a failed span gets the error status and `error.type` |
| `Fetch.LogEventRecorder.Event` | event-comparison/events.go:39-51 | one named record with severity, message as body and the attributes, correlated with the span of the context if there is one |
| `Fetch.LogEventRecorder.Exception` | event-comparison/events.go:54-60 | the exception as a named ERROR record with the `exception.*` attributes |
| `Fetch.SpanEventRecorder.Event` | event-comparison/events.go:75-77 | one event on the span of the context, or nothing without a span of this process; severity and message are lost |
| `Fetch.SpanEventRecorder.Exception` | event-comparison/events.go:80-82 | the exception as a span event called `exception`, whatever its name |
| `Fetch.Cache.Get` | event-comparison/store.go:25-41 | the child span of the lookup and its result, for hit, miss and interruption |
| `Fetch.UserDB.SelectUser` | event-comparison/store.go:69-114 | the child span of a call and its result; only completed calls are counted, and the first `timeouts` of them time out |
| `Fetch.UserDB.RecordTimeout` | event-comparison/store.go:88-105 | status, pool attributes and the diagnostic record of a timed-out call, on its own span |
| `Fetch.UserService.TimedSelect` | event-comparison/fetch.go:81-84 | the measured time covers the call and lies between two clock readings |
| `Fetch.UserService.Retry` | event-comparison/fetch.go:91-100 | the retry event precedes the backoff, which may be interrupted |
| `Fetch.UserService.Attempt` | event-comparison/fetch.go:81-100 | one turn of the loop is the turn of the specification, and the loop goes on exactly when that says so |
| `Fetch.UserService.RetryLoop` | event-comparison/fetch.go:80-101 | the loop's history, result, call and retry counters and total call time, for every limit and every world |
| `Fetch.UserService.Run` | event-comparison/fetch.go:76-102 | the cache answers or fails, or the loop runs |
| `Fetch.UserService.WriteOutcome` | event-comparison/fetch.go:60-74 | the deferred closure: final attributes, and status, `error.type` and exception event exactly on an error |
| `Fetch.UserService.FetchUser` | event-comparison/fetch.go:46-102 | the whole history a request appends, for every limit, timeouts, cache flag, recorder and world, under any context |
| `FetchCounters.LoopCounts` | event-comparison/fetch.go:80-101 | from any attempt on: as many SELECT spans and retry events as counted, numbered in order, within the attempts left |
| `FetchCounters.LookupCounts` | event-comparison/fetch.go:52-101 | the counter law: SELECT spans numbered 1..c, retry events 2..r+1 with backoff 10 i ms, c-1 <= r <= c <= N, r <= N-1; r = c > 0 exactly after an interrupted backoff; c = 0 exactly when the cache answers or fails |
| `FetchRows.RequestCounts` | event-comparison/fetch.go:46-102 | one root span, and one error status and one exception event exactly when the request fails |
| `FetchRows.RequestRow` | event-comparison/fetch.go:60-74 | the attributes the root span ends with agree with the counted history; status and `error.type` are set exactly on failure |
| `Rows.ErrorsRead` | event-comparison/fetch.go:104-108 | messages and Go type names of the three errors, word for word |
| `ChildRows.SelectReads` | event-comparison/store.go:69-114 | the stored row of one call in literal columns: pool 10/0 and the timeout, pool 3/7 and one row, or the context's error and no pool; one diagnostic exactly on a timeout, with the numbers of its row |
| `ChildRows.CacheReads` | event-comparison/store.go:25-41 | the stored row of the lookup: `user:` and the user with the answer, or the context's error |
| `CallReadings.LoopReadsAs` | event-comparison/fetch.go:80-101 | in order, each call's row and the retry event after it, which tells the error of that row, the next attempt and the backoff; with timers that keep time the backoff lies between the event and the next call |
| `RequestReadings.HistoryReads` | event-comparison/fetch.go:46-102 | the whole history of any request read back: root row with all its columns, lookup row, call rows, retry events, and one exception event exactly on an error, with the row's type and the error's message |
| `CallTimes.DurationCovers` | event-comparison/fetch.go:66-84 | `app.db.duration_ms` covers the time of the SELECT spans up to the last millisecond in every world, is that time in whole milliseconds if clock readings take no time, and 20 per call on an ideal clock |
| `FetchSpans.RequestReplays` | event-comparison/fetch.go:47-74 | spans nest as a stack under the innermost open span, each ends once, nothing is written to an ended span, and the stack is left as found |
| `FetchSpans.ReplayPrefix` | event-comparison/fetch.go:50-60 | the discipline holds at every point of a history, not just at its end |
| `FetchTime.DurationRounds` | event-comparison/fetch.go:66 | the duration attribute is the floor of the summed call times: at least the sum of the floors, and less than the number of calls above it |
| `FetchTime.RequestLasts` | event-comparison/fetch.go:76-98 | in every world the cache lookup, the measured calls and all backoffs as they really went fit into the root span; with timers that keep time the backoffs are as long as announced, except an interrupted last one |
| `FetchTime.LoopCloses` | event-comparison/fetch.go:80-101 | without interruption, k timeouts to come mean min(k+1, attempts left) calls, and success exactly when k is below the attempts left |
| `FetchTime.RequestCloses` | event-comparison/fetch.go:76-101 | without cancellation the result in closed form: `cached-name`, or the name after k+1 calls, or the timeout after N |
| `FetchTime.RequestNames` | event-comparison/fetch.go:76-100 | in any world the result is the cached name, the name of the user, or nothing with an error |
| `FetchTime.RequestTakes` | event-comparison/store.go:29-82 | on an ideal clock 5 ms on a hit and 5 + 20 c + 5 r (r + 1) ms on a miss |
| `FetchCalls.CallsNotDeterminedByRetries` | event-comparison/README.md:231 | a hit and a miss with the same retry count and different call counts |
| `FetchCalls.MissesDisagree` | event-comparison/README.md:231 | two misses with the same retry count and different call counts, one of them cancelled during its first call |
| `FetchCalls.CallsAreRetriesPlusOne` | event-comparison/README.md:231 | in any world, calls are retries plus one exactly when the cache misses uninterrupted and no backoff is interrupted; otherwise the two are equal |
| `FetchCalls.CallsByDeadline` | event-comparison/README.md:231 | on an ideal clock, limit, timeouts left and start fix one instant: cancelled later, calls are retries plus one; cancelled earlier, the two are equal; on a hit both are 0 |
| `FetchDeadline.LoopMeets` | event-comparison/fetch.go:80-101 | a loop on an ideal clock with cancellation at T is the undisturbed loop, or that loop cut off at T with the context's error |
| `FetchDeadline.RequestMeets` | event-comparison/store.go:117-126 | the request is over by max(T, start), no SELECT starts after T, it is the undisturbed request if that ends before T, and ends at max(T, start) with the context's error if that would end after T |
| `FetchDeadline.StopsOnCancel` | event-comparison/cancel_test.go:13-29 | three timeouts and a deadline after 30 ms end the request right at the deadline with the context's error |
| `FetchRecorders.RequestTranslates` | event-comparison/events.go:17-22 | the span recorder's history is the log recorder's with each named record turned in place into a span event |
| `FetchRecorders.RecordersAgree` | event-comparison/events.go:39-82 | named records without severity and body are the root span's events in order; spans, attributes, statuses and diagnostics are identical |
| `DatabaseCalls.FirstCallsTimeOut` | event-comparison/store.go:82-87 | over any sequence of calls the timed-out ones are the first of the completed ones, as many as timeouts are left; interrupted calls consume none |
| `DatabaseCalls.DiagnosticsMatch` | event-comparison/store.go:87-106 | diagnostic records and spans failed with the timeout match one to one, in order |
| `LogPipeline.LoggerProvider.OnEmit` | event-comparison/eventname.go:30-35 | the shared record gains the attribute in place when it has an event name |
| `LogPipeline.LoggerProvider.Emit` | event-comparison/eventname.go:16-17 | each exporter receives the record as the processors registered before it left it |
| `LogPipeline.CopyBeforeExport` | event-comparison/telemetry.go:51-56 | copying before exporting marks exactly the named records, with their name, and erasing the mark gives back the stream |
| `LogPipeline.DeliveredMarks` | event-comparison/eventname.go:16-35 | in any pipeline each exporter gets the record once, marked exactly if a copying processor is registered before it |
| `LogPipeline.ExportOnly` | event-comparison/telemetry.go:51-56 | without the copying processor, or with it registered last, the stream is exported unchanged |
| `LogPipeline.RequestExports` | event-comparison/telemetry.go:51-57 | both statements for the full log stream of any request |
| `RequestInfoForest.CarriersAreLocalRoots` | event-comparison/reqctx.go:75-83 | in any forest a span carries request info exactly when it is a root of this process |
| `RequestInfoForest.StartForest` | event-comparison/reqctx.go:75-83 | starting the spans of a forest one after the other writes the history these laws are about |
| `RequestInfoForest.OneCarrier` | event-comparison/reqctx_test.go:13-79 | every span has exactly one carrier among itself and its ancestors in this process: the outermost |
| `RequestInfoForest.CarriesItsOwn` | event-comparison/reqctx.go:43-53 | the carrier has the info of the context it was started under and no other |
| `LoadGen.Rand.Pick` | event-comparison/loadgen.go:88-90 | one draw chooses the element |
| `LoadGen.MakeInfo` | event-comparison/loadgen.go:47-59 | the draws of the request info, in order, and the generator state after them |
| `RunOutcomes.RandomRequestOutcome` | event-comparison/loadgen.go:66-84 | what the choice of timeouts comes to: on a hit the cache answers; a miss fails exactly when it is doomed, or slow with one attempt only; otherwise a slow one succeeds at its second call and the rest at their first |
| `LoadGen.MakeRandomScenario` | event-comparison/loadgen.go:46-86 | scenario and generator state as functions of the generator; the draws do not depend on the flag |
| `DrawLaws.DrawsRead` | event-comparison/loadgen.go:46-67 | the scenario in literals, from eight draws in order and a ninth on a miss |
| `DrawLaws.DefectIsDrawn` | event-comparison/loadgen.go:70 | the planted defect is drawn exactly with first draw 0 and fourth and fifth draw 1 |
| `RunOutcomes.FixedRequestOutcome` | event-comparison/loadgen.go:19-39 | the fixed request fails after all attempts exactly with the flag or with one attempt only; otherwise it succeeds at its second call, with one retry |
| `RunOutcomes.FixedRunExits` | event-comparison/main.go:85-93 | an uncancelled run of one request exits with 1 exactly with the flag or with one attempt only |
| `Runs.Send` | event-comparison/main.go:57-68 | one request with its own cache, database and service under a context with its request info |
| `Runs.Iterate` | event-comparison/main.go:53-75 | one iteration: leave when the context is done, otherwise send, count and wait |
| `Runs.Run` | event-comparison/main.go:50-93 | history, counters, generator state and exit code after any number of iterations |
| `Runs.RunRecorded` | event-comparison/main.go:45-48 | with span events no named record reaches the history, without them no span event |
| `RunLaws.RunConserves` | event-comparison/main.go:51-75 | in every world and after any number of iterations: as many root spans as requests sent, as many error statuses and exception events as failures, and all spans nested and ended |
| `RunRows.RunTells` | event-comparison/main.go:57-75 | one root span for each request in order, whose row has the eight columns of that request's scenario and its failure; no other span has any of them; with timers that keep time the interval lies between requests |
| `RunOutcomes.RunDraws` | event-comparison/main.go:50-60 | one request is the fixed scenario word for word; otherwise each scenario is drawn from the state the one before left, starting with the seed |
| `RunOutcomes.RunLeaves` | event-comparison/main.go:73-75 | an interrupted wait between requests ends the run |
| `RunLaws.RunSends` | event-comparison/main.go:53-76 | without cancellation max(requests, 0) requests are sent for nonzero `requests` |
| `RunLaws.ExitCodeLaw` | event-comparison/main.go:85-93 | the exit code is 1 exactly when one request was asked for and the one sent failed |
| `RunLaws.TwinRuns` | event-comparison/loadgen.go:46-86 | runs with and without the flag from one seed send the same users, infos and cache hits with the same generator states; failures without it are failures with it, and with it the failures are the misses |
| `RunDeadline.RunOnTime` | event-comparison/main.go:53-76 | in a run cancelled at T on an ideal clock every root span starts before T, and the loop is over by T, or by its start if that is later |
| `RunDeadline.RunEnds` | event-comparison/main.go:53-76 | such a run ends also with `requests` 0: each iteration takes 5 ms or ends at T |
| `ReceiveBatch.Receiver.AppendMessage` | span-link/main.go:95-98 | the critical section appends and tells whether the batch is full |
| `ReceiveBatch.Receiver.AckMessage` | span-link/main.go:100 | the acknowledgement is a step of its own |
| `ReceiveBatch.Receiver.CancelWhenDone` | span-link/main.go:101-103 | only a callback that saw the batch full cancels |
| `ReceiveBatch.Receiver.Callback` | span-link/main.go:94-104 | the callback takes its steps in order around any steps of others, and cancels by what its own append saw |
| `ReceiveBatch.Receiver.Interleave` | span-link/main.go:94-104 | the shared state after any interleaving of the callbacks is that of the state machine |
| `ReceiveBatch.RunKeeps` | span-link/main.go:87-104 | every interleaving keeps the invariant: deliveries collected and acknowledged once, the batch seen full exactly from append number B on, cancellation only when full |
| `ReceiveBatch.BatchDelivered` | span-link/main.go:83-109 | max(0, len-B+1) callbacks saw the batch full; acknowledged deliveries are collected, and cancellation from inside follows the acknowledgement of a delivery that found the batch full; when Receive returns, every delivery was collected and acknowledged exactly once, and the batch is full unless the parent was cancelled |
| `ReceiveBound.BatchBounded` | span-link/main.go:85-86 | with slots held until the callback returns and no callback started after cancellation, no reachable state has more than 2B-1 messages |
| `ReceiveBound.BoundReached` | span-link/main.go:85-104 | for every B some run reaches 2B-1 |
| `ReceiveBound.NoBoundIfReleasedAtAck` | span-link/main.go:100-103 | with slots released at the acknowledgement there is no bound |
| `ReceiveBound.NoBoundIfStartedLate` | span-link/main.go:100-103 | if callbacks could start after cancellation there is no bound either |
| `ReceiveBound.ShortBatch` | span-link/main.go:91-108 | a cancelled parent can make Receive return nil with nothing collected |
| `TraceContext.ParseTraceparent` | span-link/publisher/publisher.go:38-39 | reading a written header gives back identifiers and flags, as remote |
| `TraceContext.TraceparentParse` | span-link/consumer/consumer.go:30-31 | an accepted header is the one header of its span context, which is valid |
| `TraceContext.TraceparentReads` | span-link/publisher/publisher.go:38-39 | the header as laid out by section 3.2.2 of W3C Trace Context, digit by digit |
| `TraceContext.ParseAccepts` | span-link/consumer/consumer.go:30-31 | a header is accepted exactly if it is laid out so for a valid span context |
| `TraceContext.CarrierReads` | span-link/telemetry/trace.go:19-28 | only the key `traceparent` is written, and read |
| `TraceContext.ExtractInject` | span-link/telemetry/trace.go:19-28 | extraction undoes injection for every valid span context and carrier |
| `SpanLink.Pubsub.Start` | span-link/consumer/consumer.go:33-35 | under a valid span context a span joins its trace as a child, otherwise it starts a trace |
| `SpanLink.Pubsub.Publish` | span-link/publisher/publisher.go:18-52 | a root span and a message for each publish up to the first rejection, whose span records the error and is marked failed; each message carries the context of its span |
| `SpanLink.Pubsub.Consume` | span-link/consumer/consumer.go:25-53 | a new root span with one link for each message, in order |
| `SpanLink.Demo` | span-link/main.go:47-65 | publish, take in any order of delivery, process: the spans of the whole program, each process span linked to the send span of its message and in a new trace; or the first rejection's error, with the spans up to it |
| `SpanLink.SendReads` | span-link/publisher/publisher.go:24-48 | the send span in words, accepted and rejected |
| `SpanLink.ProcessReads` | span-link/consumer/consumer.go:35-51 | the process span in words; span and link have the identifier of the message |
| `SpanLink.EachLinksToItsSender` | span-link/README.md:34 | in any order of delivery, also repeated, each process span is a root in a new trace linked to the send span of its own message and to no other |
| `SpanLink.NewTracesIffNoParent` | span-link/consumer/consumer.go:33-35 | process spans are roots of new traces exactly if none is started under a valid span context |
| `SpanLink.ChildJoinsSender` | span-link/consumer/consumer.go:20-23 | started under the extracted context a process span would be a child in the trace of its sender |
| `SpanLink.LinkingIsBijective` | span-link/consumer/consumer.go:18-24 | linking is a bijection between process and send spans exactly when the order of delivery is a permutation |
| `Delivery.Program` | span-link/main.go:47-65 | publish n, receive a batch of n under any interleaving, process: every process span links to the send span of its message, and the links are 1:1 exactly when no message was delivered twice |
| `DropField.FilterFields` | signoz-wide-event/logger.go:86-95 | the loop keeps exactly the fields of other keys, in order |
| `DropField.WrappedAgreesWithPlain` | signoz-wide-event/logger.go:70-84 | for any chain of derived loggers ending in a checked write, a core wrapped any number of times writes what the plain core writes for all the fields with the key removed |
| `DropField.NothingLeaks` | signoz-wide-event/logger.go:74-80 | whatever core is wrapped, a field of the key in a line was already in that core's own context |
| `DropField.TeeBranches` | signoz-wide-event/logger.go:33-43 | standard output gets all fields but the context, the bridge all fields, each at its own levels |
| `DropField.CtxLogs` | signoz-wide-event/logger.go:46-62 | on any logger derived from the program's, standard output shows the identifiers of a valid span in place of the context, and the bridge gets the context too |
| `DropField.CtxIsVisibleAsIds` | signoz-wide-event/logger.go:46-61 | behind the filter only the identifiers are left |

## Left out

- Clocks.Clock: time passes in waits and in the clock readings around a database call; other statements take no time, and a record carries the reading of its moment.
- Clocks.Clock.Sleep: which worlds are real is left to predicates on worlds, so that each law assumes only what it needs; a context that is done may still lose to a timer that is ready.
- Runs.Run: observed for a given number of iterations, because `requests == 0` has no end; with `requests > 0` any number from `requests` on shows the whole run. Flag parsing, telemetry setup and shutdown are not modelled.
- LoadGen.Rand.IntN: the generator is any deterministic step with a value in range; the algorithm and the rates it yields are not modelled.
- LogPipeline.MutableRecord.AddAttribute: appends; replacing an attribute of the same key is not modelled, and no record of the program has `event.name` before the processor runs.
- TraceContext.Parse: only version 00 of the header; tracestate and baggage, which the program never sets, are not modelled. Flags travel unchanged; a library that clears bits other than `sampled` is not part of this model.
- SpanLink.Pubsub.Publish: a publish that fails is taken not to have reached the topic.
- ReceiveBatch.Receiver: the return of a callback and the cancellation of the parent are steps of the state machine only, since the library and the environment take them. An error from Receive itself only passes through.
- DropField.Check: inner cores are writing cores or wrapped ones; a wrapped tee of cores with different levels is not part of this model.
- The event recorder interface is a sum of its two implementations.
- Samplers, exporters, batching, resources and shutdown: configuration of libraries that are not part of this model. Sampled spans and synchronous processors are assumed.
- Stack traces are one opaque value; Go type names are constants.
- Limits below 1 for `maxAttempts` and for the batch size.
- The other samples (`batch`, `worker`, `simple`, `bridge`, `multi-package`, `microservice`, gateways and collectors): straight-line span code and configuration.
