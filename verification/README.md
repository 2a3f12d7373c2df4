# Verified model of the task queue

This project models the delivery protocol of the queue (producer, consumer, priority consumer,
dead-letter replay) and the API's token-bucket rate limiter, and proves what they keep in every run.
`dafny verify dfyconfig.toml` checks all of it.

## How the model is built

* `Tasks`: tasks, stream entries, events, store replies. A store call that reports an error may still
  have taken effect, so a reply is `Ok` or `Err(landed)`.
* `Queue`: the protocol as a state machine, one store call, channel operation, publish attempt or
  processor return per step: `Start`, the fetcher, every worker, producers, any number of replay
  requests, cancellation, key expiry, and malformed entries written by somebody else. A message ID is
  a position in one append-only journal of both streams. Which steps are possible and what they do never
  depends on the histories kept for the proofs (`HistoryIsInert`, module `Inert`).
* `Gauges`, `Custody`, `Handling`: sums over the worker pool, and the invariant: WaitGroup and channel,
  the one place of every delivered entry, and what each worker knows about its message.
* `Lineage`, `KeyedLoss`, `Accounting`, `Idempotency`, `Termination`, `Shutdown`, `Liveness`, `Delivery`,
  `EventLanguage`, `Overlap`: the properties of all runs of that machine. `Scenarios` builds single runs step
  by step, for the statements that something can happen.
* `WorkerCode`: `fetchTasks`, `processMessage` and `handleTaskFailure` as imperative methods, each remote
  call being an enabled step of the machine. Before every call the rest of the system takes whatever steps a
  schedule decides, and the contracts hold for every schedule. `Valid()` says that the object's state is where
  a run of the machine has led, so the theorems about runs hold at every call of the methods.
* `ReplayHandler`: `handleRetryDLQ` as a loop over the dead-letter stream.
* `Routing`, `PriorityFetch`, `PriorityMachine`, `PriorityRouting`, `PriorityCode`: priorities. The machine
  of the priority consumer gives IDs that are unique within a stream only, so a misdirected
  acknowledgement can hit another message. `PriorityCode` has the code of its worker, amid the steps of others.
* `PriorityLoss`, `PriorityPolicy`, `PriorityRuns`: what the priority consumer loses. A policy says which
  priorities may be replayed, on which streams foreign entries may land, and whether adds may fail; for every
  policy and every task, either all runs keep the task or there is a run from the start that loses it.
* `Bucket`, `RateLimiting`: one visitor's bucket on values, with evictions; then the limiter as a class
  over a map of mutable cells, and histories of calls from many addresses.
* `Sequences`: two facts about appending.

## Assumptions

Encoding a task and decoding it gives the task back; the processor does not alter the task; the clock
is monotonic; a consumer group starts at the beginning of a fresh stream; integers do not overflow; reading
the dead-letter stream returns all of it; elapsed whole seconds are exact. A computation between
two remote calls is part of the step of the call before it. A publish attempt is one step whether
or not it fails, since the consumer ignores the error. A timeout is one way for the processor to
return an error.

## Where the code and its documentation differ

The model follows the code.

* A panicking processor ends its worker, and the message stays unacknowledged
  (consumer/consumer.go:129-140); docs/04_reliability_patterns.md:408 says the worker continues.
* Pending entries are never read again (redisadapter/adapter.go:47 asks for new messages only);
  docs/04_reliability_patterns.md:406 says they are redelivered on restart. No loss therefore
  means "kept", not "processed in the end".
* A keyed task marks its key before it is processed, so its own retry or replay is dropped as a duplicate
  (consumer/consumer.go:164-175). `KeyedLoss.KeptIffUnkeyed` is the exact statement.
* The priority consumer ignores a failed add and acknowledges all the same
  (consumer/priority_consumer.go:171-183). `PriorityRuns.AddLost` is the run in which any task is lost so, and
  `PriorityLoss.LostIff` says exactly which replies of the store lose a task.
* A replayed urgent or low-priority task goes to the base stream (api/server.go:200), and the priority consumer
  then acknowledges it on another stream, where it can hit another message. `PriorityRouting.AckFindsItsMessage`
  says when, `PriorityRuns.ReplayLoses` and `PriorityRuns.ForeignLoses` are runs that lose a task so, and
  `PriorityRuns.KeptIff` and `PriorityRuns.StrayFreeIff` are the exact conditions.
* A dead-letter entry put back twice, because a delete failed or two replays overlapped
  (api/server.go:184-209), makes two live copies of one task; `Overlap.LifecyclesIffOnce`.
* `Consumer.maxRetries` is never read; the limit is the task's own (consumer/consumer.go:233).
* `Produce` stores before it announces, so `Pending` can come after `Processing`
  (producer/producer.go:30-39); `Scenarios.PendingLate` is the run.

## Model

| member | source | states |
|---|---|---|
| Queue.TakeNext | consumer/consumer.go:138-160 | a receive takes the oldest queued message into one idle worker's hands; nothing else changes place |
| Queue.AddNext | consumer/consumer.go:241-264 | an add that takes effect puts one copy on the main stream for a retry and on the dead-letter stream otherwise; a worker whose add reports an error drops its message unacknowledged even if the copy landed |
| Queue.AckNext | consumer/consumer.go:267-271 | an acknowledgement that takes effect removes exactly the worker's own message from the pending ones; one that does not strands it |
| Queue.CrashNext | consumer/consumer.go:128-140 | a panic ends the worker, lowers the WaitGroup by one and leaves the message pending |
| WorkerCode.Consumer.FetchTurn | consumer/consumer.go:95-121 | one turn of the fetcher, whatever the others do meanwhile: nothing after cancellation, nothing sent after a failed read, else a prefix of the messages read in stream order, all of them unless the dispatch was cancelled or waits for room |
| WorkerCode.Consumer.ReadGroup | consumer/consumer.go:102-110 | a read returns the next messages or fails, and a failed one ends the loop exactly when the context is cancelled by then |
| WorkerCode.Consumer.Dispatch | consumer/consumer.go:112-119 | the dispatch loop sends the batch in order until it is through, cancelled, or waits because the channel is full; what a cancelled dispatch did not send is abandoned |
| WorkerCode.Consumer.Receive | consumer/consumer.go:138-164 | the received body decides: malformed goes to acknowledgement, a keyed task to the check when there is a checker, any other task to processing |
| WorkerCode.Consumer.CheckKey | consumer/consumer.go:164-175 | only a check that succeeds on a known key drops the task; a failed check lets it through; a check that takes effect marks the key |
| WorkerCode.Consumer.PublishEvent | consumer/consumer.go:177-182 | a publish attempt, whatever the others did before it, records exactly the event the worker stands at and leads to the step after it |
| WorkerCode.Consumer.Process | consumer/consumer.go:199-216 | the processor's answer alone decides between completion and failure; no store state changes |
| WorkerCode.Consumer.AddCopy | consumer/consumer.go:241-262 | the one copy goes to the main or the dead-letter stream; an error ends the handling without acknowledgement |
| WorkerCode.Consumer.StoreAndAcknowledge | consumer/consumer.go:241-270 | the copy is stored first, and the original acknowledged only if that was reported to work |
| WorkerCode.Consumer.BuryTask | consumer/consumer.go:250-270 | the calls are, in this order, the dead-letter event, the add to the dead-letter stream, the acknowledgement |
| WorkerCode.Consumer.Acknowledge | consumer/consumer.go:267-271 | exactly the worker's message is acknowledged, and the worker is free whether or not the call failed |
| WorkerCode.Consumer.HandleTaskFailure | consumer/consumer.go:230-270 | a failed task leaves one copy, with the error and one more retry on the main stream or unchanged retries on the dead-letter stream; its original is acknowledged only if the add succeeded; and the order of the calls |
| WorkerCode.Consumer.ProcessNew | consumer/consumer.go:177-228 | a task that passed the check is acknowledged without a copy on success, handed to failure handling on an error, and left pending by a dead worker on a panic |
| WorkerCode.Consumer.Panic | consumer/consumer.go:128-140 | a panicking processor ends the worker and leaves the message unacknowledged |
| WorkerCode.Consumer.ProcessMessage | consumer/consumer.go:146-228 | for every body, every answer or panic of the processor, every pattern of replies and every schedule of the others between the calls: the calls made and their order, what is stored, whether the message is acknowledged, and whether the worker is idle again or gone |
| Delivery.ChannelDiscipline | consumer/consumer.go:67-126 | in every reachable state the channel holds at most ten messages a worker, the WaitGroup counts the live goroutines, only the fetcher sends, never after the close, and the channel is closed once |
| Delivery.OnePlace | consumer/consumer.go:101-143 | every delivered entry is in exactly one of acknowledged, stuck, channel, batch and a worker's hands; no two workers hold one; channel order is stream order |
| Delivery.NeverTakenAgain | redisadapter/adapter.go:38-50 | once an entry has left the queue no continuation gives it to a worker again |
| Delivery.StuckOnlyByFaults | consumer/consumer.go:101-144 | a message gets stuck only by a failed or lost reply, a panic or a cancelled dispatch, and stays stuck; acknowledged stays acknowledged |
| Lineage.CopyFidelity | consumer/consumer.go:230-262 | every copy on either stream equals the produced task but for retry count and error; a count in range stays in range; a dead-letter copy has spent every retry |
| Lineage.NoLoss | consumer/consumer.go:199-265 | in every run every stored task that no check may drop has an undelivered, pending or dead-letter entry, or its processor returned nil |
| KeyedLoss.RetryLost | consumer/consumer.go:164-175 | for every keyed task with retries left, a run without any store fault in which its own retry is dropped and nothing of it is left |
| KeyedLoss.ReplayLost | api/server.go:196-208 | for every keyed task without retries left, a run without any store fault in which its replayed copy is dropped and nothing of it is left |
| KeyedLoss.KeptIffUnkeyed | consumer/consumer.go:164-175 | a task is kept in all runs if and only if there is no checker or the task has no key |
| Accounting.AttemptBudget | consumer/consumer.go:230-262 | processor calls never exceed one plus the retries left, summed over the injections, for each task, each injection and in total |
| Accounting.BudgetExhausted | consumer/consumer.go:230-262 | when all attempts fail, nothing is stuck and the run drains, the budget is spent exactly and each injection left one dead-letter entry |
| Accounting.DrainedEnds | consumer/consumer.go:199-265 | in a drained run with nothing stuck every injection of an unkeyed scope has succeeded or left one dead-letter entry |
| Accounting.Conservation | api/server.go:196-209 | injections equal successes plus drops plus dead-letter adds plus live entries, in every run, for any scope |
| Accounting.CountersTell | consumer/consumer.go:203-250 | the success, duplicate, failed and dead-letter counters agree with the entries' fates and the handlers still mid-failure |
| Idempotency.AtMostOncePerKey | consumer/consumer.go:164-175 | calls for one key are at most one plus failed checks plus expiries, in every interleaving |
| Idempotency.DuplicatesFollowMarks | redisadapter/idempotency.go:25-31 | a message acknowledged as a duplicate follows an earlier check that marked its key |
| Termination.StepPays | consumer/consumer.go:230-265 | every step that moves a message lowers the workload, and no step but a produce, a foreign entry or a replay raises it |
| Termination.RetriesTerminate | consumer/consumer.go:230-265 | without new work every run moves messages at most as often as the workload says, whatever fails |
| Shutdown.OwnStepDescends | consumer/consumer.go:91-143 | after cancellation every step of the process lowers a lexicographic measure |
| Shutdown.OtherStepKeeps | consumer/consumer.go:95-119 | producers, replays and expiries cannot raise that measure or undo the cancellation |
| Shutdown.SomeStepEnabled | consumer/consumer.go:67-143 | after cancellation some step of the process is enabled until `Start` has returned |
| Shutdown.StartReturns | consumer/consumer.go:86-88 | in every endless run that is cancelled and does not starve the process, `Start` returns |
| Shutdown.CleanShutdown | consumer/consumer.go:86-143 | when `Start` has returned, with a worker and no panic, the channel is empty and every delivered message was acknowledged, met a failed store call or was never dispatched |
| Liveness.Drains | consumer/consumer.go:91-143 | in every endless run from a healthy state, with nothing new, no fault and nobody starved, everything read and unread is handled in the end |
| Liveness.EverythingEnds | consumer/consumer.go:199-265 | and then every injection of an unkeyed scope has succeeded or is on the dead-letter stream |
| EventLanguage.AcceptedAreLifecycles | consumer/consumer.go:177-228 | the words an automaton accepts are exactly the lifecycles: failed tries, then completion or dead-letter, a new round only after dead-letter |
| EventLanguage.EventsFormLifecycles | consumer/consumer.go:177-256 | in every interleaving and whatever fails, the publish attempts for an unkeyed task produced once form a lifecycle, with no more tries in a round than the task had retries, if none of its dead-letter entries is put back twice |
| EventLanguage.SerialIsOrderly | api/server.go:184-209 | replays that do not overlap and whose deletes take effect put nothing back twice |
| Overlap.TwiceBreaks | api/server.go:199-209 | for every unkeyed task, a run that puts its dead-letter entry back twice after a failed delete, and whose events are no lifecycle |
| Overlap.LifecyclesIffOnce | api/server.go:184-209 | the events of an unkeyed task produced once form a lifecycle in all runs if and only if putting an entry back twice is ruled out |
| Scenarios.PendingLate | producer/producer.go:30-39 | for every task, a run in which it is announced as pending after its processing was announced |
| ReplayHandler.Server.RetryOne | api/server.go:186-215 | a malformed message is left alone, a failed add leaves the message, and only a stored task is deleted, counted and announced |
| ReplayHandler.Server.RetryAll | api/server.go:184-216 | for every snapshot and error pattern: what the main stream gains in order, what the dead-letter stream keeps in order, what is counted and announced |
| ReplayHandler.Server.HandleRetryDlq | api/server.go:153-223 | the wrong method, a wrong key and a failed read change nothing; otherwise the count and both streams are as the loop says |
| ReplayHandler.CountIsGrowth | api/server.go:184-216 | when failed adds have no effect, the reported count is the growth of the main stream |
| ReplayHandler.LeavesExactly | api/server.go:205-209 | a message leaves the dead-letter stream if and only if its add succeeded and its delete took effect; malformed ones stay |
| ReplayHandler.MovedNotLost | api/server.go:199-209 | every task on the dead-letter stream is still there or on the main stream, with its retries reset |
| Bucket.SameAnswer | api/middleware.go:110-141 | a bucket that is evicted when stale answers every call as one that never is, when 300 seconds earn the burst |
| Bucket.ProbeTells | api/middleware.go:133-141 | when they do not, a history that tells the two apart |
| Bucket.NoBurstTells | api/middleware.go:114-118 | with no burst at all, a history that tells the two apart |
| Bucket.ExactAdmitsToo | api/middleware.go:120-130 | every call the truncating bucket admits, an exact bucket with fractional refill that decides for itself admits |
| Bucket.TokensPay | api/middleware.go:120-130 | admitted calls plus tokens left never exceed tokens at the start plus tokens earned, and tokens stay within the burst |
| Bucket.AdmissionBound | api/middleware.go:110-141 | in any window, evictions included, at most burst plus rate times whole seconds |
| RateLimiting.RateLimiter.Allow | api/middleware.go:110-131 | the in-place update of the visitor map decides and changes exactly the caller's bucket |
| RateLimiting.Cell.Charge | api/middleware.go:120-130 | the update of a visitor in place decides and changes as the bucket on values does |
| RateLimiting.RateLimiter.Cleanup | api/middleware.go:133-141 | the loop deletes exactly the stale visitors and keeps the others' cells |
| RateLimiting.Isolation | api/middleware.go:110-118 | an address's bucket after any history is that of its own calls and the cleanups alone |
| RateLimiting.TransparentIff | api/middleware.go:133-141 | cleanup never changes an answer, on any history of any addresses, if and only if 1 <= burst <= 300 * rate, which the server's 100 and 200 satisfy |
| RateLimiting.GrantBound | api/middleware.go:110-141 | in any window one address is granted at most burst plus rate times whole seconds, whatever other addresses do |
| RateLimiting.ExactGrantsToo | api/middleware.go:110-141 | what the limiter grants, cleanups included, an exact bucket for that address grants |
| Routing.NamesDiffer | producer/priority.go:50-68 | the base, urgent, low and dead-letter streams are four different streams, whatever the base name |
| Routing.RoutedToRead | producer/priority.go:50-68 | every priority is routed to one of the streams read, never to the dead-letter stream |
| Routing.Producer.Produce | producer/priority.go:31-48 | the task is appended to the stream of its priority and no other; it is announced only if the add succeeded |
| PriorityFetch.Fetcher.Dispatch | consumer/priority_consumer.go:110-117 | a batch is sent in order up to where cancellation cuts it, and it is known whether it was cut and whether there was anything to send |
| PriorityFetch.Fetcher.FetchRound | consumer/priority_consumer.go:99-118 | a round reads the three streams in order of urgency, goes on after a failed read, sends what it read, and stops exactly where a read or a dispatch was cancelled |
| PriorityFetch.RoundEffect | consumer/priority_consumer.go:99-118 | a round sends the oldest low entries, at most a batch, behind at most two batches of others |
| PriorityFetch.LowAdvances | consumer/priority_consumer.go:99-118 | over any number of rounds the old low entries are sent in order, a batch a round |
| PriorityFetch.BoundedOvertaking | consumer/priority_consumer.go:93-124 | a low entry with k older ones is sent within k / b + 1 rounds and overtaken by at most 2b(k / b + 1) others |
| PriorityRouting.RoutingAgrees | consumer/priority_consumer.go:162-195 | in every run an entry is on the stream of its priority if and only if it is not a replayed urgent or low task |
| PriorityRouting.AckFindsItsMessage | consumer/priority_consumer.go:148-183 | exactly when an acknowledgement names the stream its message was read from; then it hits that pending message and no other, else it misses it |
| PriorityLoss.LossHasACause | consumer/priority_consumer.go:165-183 | in every run a stored task is kept or has succeeded, or the add of one of its copies did not land, or an acknowledgement meant for another message hit one of them |
| PriorityLoss.LostIff | consumer/priority_consumer.go:171-183 | a task never replayed is lost if and only if the add after its newest copy did not land, or that copy was hit astray before it was handled, and each of its entries was acknowledged |
| PriorityLoss.FailedAddLoses | consumer/priority_consumer.go:171-183 | in every state where the copy about to be stored is all that would be left of a task, an add that does not land loses it by the worker's own next steps |
| PriorityRuns.AddLost | consumer/priority_consumer.go:171-183 | for every task, a run from the start that loses it by one add that does not land |
| PriorityRuns.ForeignLoses | consumer/priority_consumer.go:148-152 | for every normal task, a run from the start in which a malformed urgent or low entry costs it, with no failed add |
| PriorityRuns.ReplayLoses | api/server.go:199-200 | for every urgent or low task, a run from the start in which the replay of another one costs it, with no failed add |
| PriorityRuns.KeptIff | consumer/priority_consumer.go:145-184 | under a policy a task is kept in all runs if and only if adds may not fail and, for an urgent or low task, its priority is not replayed, for any other, nothing foreign lands on the urgent and low streams |
| PriorityRuns.StrayFreeIff | consumer/priority_consumer.go:148-183 | no acknowledgement ever hits another message if and only if no urgent or low task is replayed and nothing foreign lands on their streams |
| PriorityCode.PriorityConsumer.StoreCopy | consumer/priority_consumer.go:168-178 | a failed task goes back to the stream of its priority with one more retry, or to the dead-letter stream, which is told afterwards; the worker goes on to acknowledge whatever the reply |
| PriorityCode.PriorityConsumer.ProcessMessage | consumer/priority_consumer.go:145-184 | for every body, every answer or panic of the processor, every reply and every schedule of the others between the calls: the calls and their order, the copy stored, and what the acknowledgement on the recomputed stream left pending |

## Left out

- A panic anywhere else than in the processor: a step of the machines, not a path of the methods of `WorkerCode` and `PriorityCode`.
- PriorityFetch.BoundedOvertaking: reads succeed and nothing is cancelled during the rounds; failed reads and cancellation are part of `FetchRound`.
- ReplayHandler.CountIsGrowth: an add that lands although it reports an error is stored but not counted, so the lemma is for failed adds without effect.
- Liveness.EverythingEnds: a task with a key that is checked may be dropped (`KeyedLoss.KeptIffUnkeyed`), so the lemma is for the others.
- Start-up of the priority consumer (three group creations and the spawning of goroutines): the same as the consumer's, which is modelled.
- Reconnection and the store adapters themselves: the store is the contract of task/store.go.
- Redelivery of pending entries: the code has none.
- Event delivery to subscribers, server-sent events, the dashboard, health and worker endpoints, HTTP server lifecycle and the encoding of responses.
- CORS, the general API-key and panic middleware, and configuration loading.
- Histograms, logging, sleeps and wall-clock timeouts.
- Overflow of 64-bit integers, and floating-point rounding of elapsed seconds.
- Two overlapping calls to the limiter: a mutex serialises them, and the model has one call at a time.
