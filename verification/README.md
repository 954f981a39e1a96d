# Verified model of the nats client's protocols

This project models the concurrent and algorithmic core of a Go client library for NATS JetStream and
proves what that core promises. JetStream, the key-value store and the network appear as small abstract
machines: a map from sequence numbers to messages, a key-value map, and a message whose first settlement
wins. Every request to them may fail.

The parts, in the order of their difficulty:

- **Worker pool** (`Pool*.dfy`, `Totals.dfy`): lock-free publishers, any number of workers, three atomic
  counters, a condition variable and a channel that is never closed, one step per atomic operation. No
  accepted message is lost or run twice by a graceful stop, a pool that is up runs every message it
  accepts, no wake-up is lost, and shutdown terminates under every scheduler.
- **Searches and range reads over a stream with gaps** (`Log.dfy`, `Search.dfy`,
  `SearchLoops.dfy`, `Range.dfy`): binary search by timestamp with a bounded neighbour probe, its exact
  progress law, exactly when it loops, and capped range reads.
- **Claim-before-process idempotency** (`Claims.dfy`): any number of deliveries against one bucket; what each
  return of nil and each error means.
- **Settlement** (`PullBatch.dfy`, `PoolBatch.dfy`, `Dlq.dfy`, `Decimal.dfy`): every message of a batch gets a
  disposition, exactly when a batch reports an error, exactly when a message is Acked or Nak'd, and a poison
  message is published before it is terminated.
- **Supervisors and detectors** (`Supervisor.dfy`, `SupervisorRuns.dfy`, `Watchers.dfy`, `Fingerprint.dfy`,
  `FingerprintWindow.dfy`): loops equal to declarative specifications over whole runs.
- **Smaller refinements** (`Subjects.dfy`, `Filters.dfy`, `Shard.dfy`, `Redrive.dfy`, `Outbox.dfy`, `Recorder.dfy`).

Concurrent code is a transition system: a state, an enabled condition and a successor per action, and runs
as sequences of states; where a law is about what happened, the state also keeps the set of past actions,
which no action reads. Sequential code keeps its loops, fields and arrays and is proved against
specification functions. Failures of the environment are parameters (`Luck`, `Arrival`, `Input`) or
nondeterministic choices (`:= *`), which a parameter `up` or `calm` can rule out.

Taken from the environment: Go atomics are sequentially consistent; handlers return; a blocking publish on
the pool returns to the batch that made it; a stream does not
change during one search or range read, its LastSeq is below 2^64-1, and its timestamps do not decrease
with the sequence number (only where a lemma says so); a store creates a key only if it is absent; ids from
the id generator are fresh; watchers see a clock that does not run backwards.

Findings where the code falls short of a natural reading of its promise, each with its exact condition:

- A graceful stop can lose accepted messages exactly when the channel is buffered and the parent context is
  cancelled before the stop begins.
- The two timestamp searches can loop forever. With distinct timestamps some search loops exactly if 1 to 254
  numbers are deleted behind the last stored entry, or a number is deleted before the last entry that is probed
  while every probe is early; so with one of the last 255 numbers stored, exactly if any number is deleted.
  Behind a longer deleted tail a search can also leave the loop by a missed probe. An iteration is stuck
  exactly as `SearchLoops.StuckExactly` says, and a gap away from the boundary can be enough.
- The searches can report not-found for an entry that is there: never with fewer than 255 numbers deleted
  behind the last stored entry, and for some goal on every stream with 255 or more.
- The comment on `commonWildcardSubject` (consumer_filter.go:38) promises a subject covering all filters. A
  filter that is itself the shared prefix, such as `orders` beside `orders.x`, is not covered.
- The comments in slow_consumer.go:224 and slow_consumer.go:258 speak of re-arming after a clear; the code
  reports at most one event ever, and the model follows the code.
- A handler that itself returns the routed error makes processMessage report success for a message that is
  neither settled nor published to the dead-letter queue; no other delivery does.
- A dead letter can be lost: a second message with the same Nats-Msg-Id, or with an id equal to another one's
  derived id, is dropped as a duplicate, reported as published, and terminated. Nothing is lost exactly if no
  two messages share an id and no id is held by another message; derived ids never clash with each other.
- A claim whose holder crashed, whose release failed, or whose Create was answered with an error blocks its id
  until the bucket expires it.
- The supervisor's backoff overflows: every wait is positive exactly if no delay reachable within MaxRetries
  doubles 2^62 ns or more. A cap of the largest duration, meant as no cap, makes some run retry without waiting.
  Its poll interval overflows in the same way, exactly if some doubling of the base interval reaches 2^62 ns
  below the healthy interval.
- A capsule whose window end wraps around uint64 is refused; the shard index divides by zero at positive
  multiples of 2^32.

## Model

| member | source | states |
|---|---|---|
| `PoolTheorems.GracefulStopLosesNothing` | workerpool/workerpool.go:100-298 | For any number of publishers and workers and every interleaving: when the GracefulStop that began the shutdown has returned, the pool is stopped, the channel is empty, nothing is in flight, all workers have returned, every accepted publish has had its handler called exactly once and no other publish ever ran; needs that the parent context was not cancelled before the stop began, or an unbuffered channel |
| `PoolTheorems.RunningPoolRunsAll` | workerpool/workerpool.go:90-276 | A pool that is neither stopped nor cancelled runs what it accepts: when none of its threads can act any more, nothing is queued, all counters are zero, every publish call has returned and the handler was called exactly once for every accepted message and for no other |
| `PoolTermination.AcceptedIsRun` | workerpool/workerpool.go:90-276 | Without new publish calls every scheduling of a running pool is finite with an explicit bound, and one that cannot be continued, nobody having stopped or cancelled the pool, has run every accepted message exactly once |
| `PoolRuns.RefusedForCause` | workerpool/workerpool.go:211-276 | In every run a publish call returns false only if the pool was not running when the call looked at its state, or the buffer was full at a non-blocking call, or a context ended under a blocking one |
| `PoolRuns.ReturnsAfterZeros` | workerpool/workerpool.go:117-150 | In every run a worker returns only after it has read publishers, then depth, then inFlight as zero |
| `PoolRuns.PooledTasksAreClean` | workerpool/workerpool.go:158-256 | In every run a task object that is put back into the free pool, after a handler or a rollback, holds no message any more |
| `PoolRuns.SizeIsFixed` | workerpool/workerpool.go:57-99 | A pool has the number of workers and the buffer asked for, at least one and none, in every state of every run |
| `PoolEarlyCancel.EarlyCancelLosesTasks` | workerpool/workerpool.go:57-150 | The condition above is exact: for every number of workers and every buffered channel there is a run in which the parent context is cancelled first, a publish is accepted, GracefulStop returns and the handler was never called |
| `PoolTheorems.AtMostOnce` | workerpool/workerpool.go:158-276 | In every reachable state a handler was called at most once per publish, and never for one that was rejected, rolled back or not yet sent |
| `PoolTheorems.RightMessage` | workerpool/workerpool.go:158-188 | A worker about to call a handler holds the message of exactly the accepted publish that filled the pooled task, and that message has not run yet |
| `PoolTheorems.OneOwner` | workerpool/workerpool.go:158-276 | Every pooled task object is in exactly one place in every reachable state: the free pool, one publisher, the channel (once), or one worker |
| `PoolTheorems.QueueDepthExact` | workerpool/workerpool.go:210-280 | In every reachable state depth = channel length + publishers between increment and send or rollback + workers between receive and decrement; publishers and inFlight count exactly their regions; so QueueDepth is never negative and never below the real queue length |
| `PoolTheorems.SleeperIsWoken` | workerpool/workerpool.go:117-156 | No lost wake-up: a worker asleep in cond.Wait always has a broadcast still to come from a publisher, a worker or GracefulStop, whatever the counters show |
| `PoolTheorems.DrainNeverStuck` | workerpool/workerpool.go:117-150 | In every reachable state after cancel with a worker that has not returned, some publisher, worker or the stopping caller has an enabled step |
| `PoolTheorems.ShutdownNeverStuck` | workerpool/workerpool.go:282-298 | From the compare-and-swap of GracefulStop to its return some thread of the pool can always act |
| `PoolTermination.ShutdownCompletes` | workerpool/workerpool.go:282-298 | Once GracefulStop has begun and no further publish call arrives, every scheduling is finite with an explicit bound, also when the parent context ends and the free pool is evicted meanwhile, and one that cannot be continued has GracefulStop returned |
| `PoolTermination.Lowers` | workerpool/workerpool.go:100-298 | Every action but a new publish call strictly lowers one measure: working, checking and sleeping steps of the threads, select branches of callers, the parent's cancellation, evictions from the free pool |
| `PoolTermination.QuietRunsAreBounded` | workerpool/workerpool.go:100-298 | The measure bounds the length of every run without new publish calls |
| `PoolDrain.Kept` | workerpool/workerpool.go:90-298 | Each atomic load, add, compare-and-swap, channel, lock and task-pool step keeps all eight invariants: counters, lock holder, task owners, message fates, phases, drain order, sleepers, arrivals |
| `PoolDrain.InvOnRuns` | workerpool/workerpool.go:57-298 | The invariants hold in every state of every run from New and Consume |
| `PoolDrain.DrainWorker` | workerpool/workerpool.go:117-133 | The order of the loads publishers, depth, inFlight: once a worker has seen no publishers nobody can send any more, and once it has then seen depth zero the queue stays empty |
| `PoolDrain.DrainPub` | workerpool/workerpool.go:210-276 | No step of a publisher breaks that: after a worker saw no publishers, the state gate is closed to every later call |
| `PoolDrain.NonzeroWillSignal` | workerpool/workerpool.go:134-150 | A worker that finds a nonzero counter under the lock and goes to sleep leaves a thread behind that will signal |
| `Log.WalkForward` | stream_manager.go:334-347 | Returns the least stored sequence after the given one, up to the bound, or reports that there is none; it fails only if a request fails |
| `Log.NextStoredExact` | stream_manager.go:334-347 | The reference for the walk: the result is stored and nothing stored lies before it; none means the interval is empty |
| `Log.StoredInExact` | replay.go:381-480 | The reference list of an interval holds exactly its stored messages, each once, in ascending order |
| `Search.GetExistingAtOrNear` | replay.go:597-643 | A probe answers with the entry itself, else the next stored one, else the nearest previous one among 128 numbers, clamped to the stream |
| `Search.PrevStoredExact` | replay.go:623-643 | The backward walk finds the nearest stored entry at or below, within the step limit, or proves the stretch empty |
| `Search.FindFirstSeqAtOrAfter` | replay.go:509-551 | The loop refines the abstract search for the boundary between earlier and later messages, round by round; it fails only if a request fails |
| `Search.FindLastSeqAtOrBefore` | replay.go:553-595 | The dual loop refines the same abstract search; it fails only if a request fails |
| `Search.Progress` | replay.go:524-544 | Exact progress law: a probe inside [lo,hi] strictly shrinks the interval, one outside leaves every loop variable unchanged, and the meaning of the variables is kept |
| `SearchLoops.StuckExactly` | replay.go:524-588 | Exactly when an iteration changes nothing: nothing is stored from the middle to the upper end, and that end was cut off by a later entry or the backward walk returns to the last earlier one |
| `Search.EndsOrNever` | replay.go:524-588 | A search ends within one round per sequence number, with the result of the abstract search, or no number of rounds is enough |
| `Search.FinishedIsExact` | replay.go:509-595 | Partial correctness for every gap pattern: a finished search holds the first late and the last early entry, or 0 exactly when there is none |
| `Search.FoundIsRight` | replay.go:509-595 | A returned sequence is stored, its time qualifies, and every stored entry on the far side does not |
| `SearchLoops.FoundHasNeighbour` | replay.go:524-588 | A search succeeds only if the entry next to the answer, across the boundary, is stored too or lies outside the stream; timestamps may be in any order |
| `SearchLoops.NotFoundIsRight` | replay.go:597-643 | Not-found is right whenever one of the last 255 sequence numbers is still stored, for every gap pattern |
| `SearchLoops.NotFoundExact` | replay.go:509-643 | Every not-found answer on a stream is right if and only if fewer than 255 numbers are deleted behind its last stored entry |
| `SearchLoops.AllEarlyAnswer` | replay.go:524-588 | When every stored entry is on the early side, the deleted tail alone decides the answer: right without one, never for 1 to 254 deleted numbers, not-found from 255 on |
| `SearchLoops.LostBehindTail` | replay.go:597-643 | One stored entry and 299 deleted numbers behind it: both searches report not-found although the entry qualifies |
| `SearchLoops.GapFreeSearch` | replay.go:509-595 | Without deleted entries both searches end within one round per sequence number and report not-found exactly when no message qualifies |
| `SearchLoops.FinishesIffGapFree` | replay.go:524-588 | With distinct timestamps every search runs its interval out, rather than looping or stopping at a missed probe, if and only if the stream has no deleted entry |
| `SearchLoops.LoopsExactly` | replay.go:524-643 | With distinct timestamps some search loops forever if and only if between 1 and 254 numbers are deleted behind the last stored entry, or a number is deleted before the last entry that is probed while every probe is early |
| `SearchLoops.LoopsUnlessGapFree` | replay.go:524-643 | With distinct timestamps and one of the last 255 numbers stored, no search loops if and only if no number is deleted |
| `SearchLoops.NoLoop` | replay.go:524-643 | The half of the above that holds for any timestamps: without such a tail and such a deleted number no search loops |
| `SearchLoops.GapLoops` | replay.go:524-643 | The other half for one deleted number: it suffices that the entries on its two sides have different times |
| `SearchLoops.StuckIsEndless` | replay.go:524-588 | An iteration that changes nothing is reached exactly by the searches for which no number of iterations is enough |
| `SearchLoops.LongTailEndsAll` | replay.go:597-643 | Deleted entries without a loop: entries 1 and 3 of 500, where every search stops at a missed probe |
| `SearchLoops.TiesHideGaps` | replay.go:524-588 | Why distinct timestamps are needed: two entries of one time with a deleted number between them, where every search finishes |
| `SearchLoops.GapNeverEnds` | replay.go:524-588 | If the entry asked for has a deleted neighbour across the boundary, and one of the last 255 numbers is stored, the search loops forever |
| `SearchLoops.TwoEntriesNeverEnd` | replay.go:524-544 | The smallest case: entries 1 and 10, asked for the second one |
| `SearchLoops.DistantGapNeverEnds` | replay.go:524-544 | A gap away from the boundary suffices: entries 1, 2, 3 and 100, asked for 3 |
| `Range.GetMsgRange` | replay.go:381-480 | Returns exactly the first max stored messages of [start, min(end,last)] in ascending order, truncated exactly if more exist; refused exactly for zero or reversed bounds; it fails only if a request fails |
| `Range.MaxMessages` | replay_options.go:16-36 | The cap is the last positive option, 1000 if there is none |
| `Range.FirstInRange` | replay.go:416-450 | The first stored message of an interval, and what is left of it |
| `Range.ApplyMsgRangeOpts` | replay_options.go:24-36 | The loop over the options computes that cap |
| `Range.WindowIsRange` | replay.go:482-507 | The messages of a closed time window are exactly those between the two search results |
| `Range.GetMsgRangeByTime` | replay.go:482-507 | A read by time that returns messages returns exactly the first max of the closed window; otherwise it reports which search did not succeed; no failure unless a request fails |
| `Range.CaptureRange` | incident_capsule.go:150-170 | A capsule's range read is the first `window` (50 by default) stored messages from half a window before the failing one to half a window after; it contains every stored message from its start to the failing one, and is refused exactly when the window's end wraps around uint64 |
| `Range.WindowHasFailing` | incident_capsule.go:158-170 | The window arithmetic keeps the failing entry, and every stored one of the half window before it, among the first `window` entries, for every window and gap pattern |
| `Claims.MutualExclusion` | idempotency/idempotency.go:70-112 | At most one delivery per id is inside the handler in every state of every run, with calls failing before or after taking effect and deliveries crashing anywhere |
| `Claims.AckOnlyAfterSuccess` | idempotency/idempotency.go:70-112 | nil is returned only if some handler call for the id succeeded, or the key was done before the run |
| `Claims.ErrorHasCause` | idempotency/idempotency.go:70-112 | An error is returned only after a failed Create or Get, a failed handler, a failed Mark, or a claim that was not done |
| `Claims.SuccessIsMarked` | idempotency/idempotency.go:90-112 | A handler that returned nil is followed by a Mark: without a failed Mark or a crash the delivery ends with nil returned and the key stored as done |
| `Claims.ReleasedAfterFailure` | idempotency/idempotency.go:90-112 | A claim is released, and the handler called a second time for an id that was absent, only after the handler or the Mark of a delivery of that id failed |
| `Claims.DoneIsAcknowledged` | idempotency/idempotency.go:76-90 | A delivery that reads a done claim returns nil, unless it crashes |
| `Claims.RedeliveryAcknowledged` | idempotency/idempotency.go:70-112 | After a Mark that returned nil every later delivery of the id ends with nil returned, unless a store call fails or it crashes, and never reaches the handler |
| `Claims.DoneBeforeAcknowledged` | idempotency/kv_store.go:40-98 | The same for every delivery of an id stored as done before the run, with the present or the legacy value |
| `Claims.GoesOn` | idempotency/idempotency.go:70-112 | A delivery that has not returned can always go on without a fault |
| `Claims.NeverAgainAfterMark` | idempotency/kv_store.go:58-98 | After a Mark that returned nil the handler is never called again for that id, over the whole rest of the run |
| `Claims.OncePerRelease` | idempotency/kv_store.go:71-98 | A handler is called again for an id that was absent only after a release took effect |
| `Claims.OrphanBlocks` | idempotency/idempotency.go:70-112 | A claim that is neither done nor held blocks its id for the rest of the run: it stays as it is, the handler is not called again and no further delivery returns nil |
| `Claims.OrphanedExactly` | idempotency/idempotency.go:70-112 | Such a claim is left behind exactly by a crash of its holder, a release that fails without effect, or a Create that takes effect and is answered with an error |
| `Claims.InvOnRuns` | idempotency/idempotency.go:70-112 | The claim invariants hold in every state of every run, from any bucket contents |
| `PullBatch.EachExactlyOnce` | consumer_pull.go:449-528 | When the concurrent path returns, each message was handed to processMessage or Nak'd, exactly once in all, and every processMessage call has returned, however workers, errors and cancellation interleave |
| `PullBatch.NoNeedlessNak` | consumer_pull.go:449-528 | A message is Nak'd outside processMessage only after a processMessage call of the batch failed or the context was cancelled, and the batch returns an error only after a cancellation |
| `PullBatch.ToldOnRuns` | consumer_pull.go:449-528 | In every run an error is recorded exactly if a processMessage call failed or a worker Nak'd its message, which happens only after a cancellation |
| `PullBatch.CancelIsReported` | consumer_pull.go:518-528 | A cancellation before the wait is over makes the batch return an error, whatever the handlers returned |
| `PullBatch.FeederStops` | consumer_pull.go:509-520 | Once a processMessage call has failed or the context is cancelled, the message the feeder looks at next and all after it are Nak'd and never handed over |
| `PullBatch.CancelStopsWorkers` | consumer_pull.go:481-502 | After a cancellation no message is handed to processMessage but by a worker that had already looked at the context |
| `PullBatch.CrewOnRuns` | consumer_pull.go:460-507 | There are as many workers as the requested concurrency, or as messages if those are fewer, so no more calls are in flight |
| `PullBatch.NeverStuck` | consumer_pull.go:449-528 | Until the concurrent path returns, one of its goroutines can act |
| `PullBatch.BatchReturns` | consumer_pull.go:449-528 | Every scheduling of the concurrent path is finite with an explicit bound, and one that cannot be continued has returned |
| `PullBatch.ProcessSequential` | consumer_pull.go:299-333 | The sequential path hands over exactly the messages before the first look that sees the context cancelled, in order, and Naks exactly the rest, with an error exactly if there was such a look |
| `PullBatch.NakRemaining` | consumer_pull.go:335-345 | Every remaining message is Nak'd, in order |
| `PoolBatch.WaitGroupBalanced` | consumer_pull.go:347-447 | On every path the WaitGroup is never negative, and zero exactly when no publish call is open and every accepted closure has finished |
| `PoolBatch.EveryMessageDisposed` | consumer_pull.go:299-447 | When the pool path returns without error every message was processed to the end or settled by backpressure; with an error every message was Nak'd after a prefix of the batch was handed over or settled; handlers still run then only if the context was cancelled |
| `PoolBatch.ErrorExactlyIf` | consumer_pull.go:299-447 | The pool path returns an error exactly if a processMessage call of the batch failed, the pool refused a message, backpressure failed to settle one, or a cancellation was seen; so when it returns nil every message handed over was processed without an error |
| `PoolBatch.NoNakWhileRunning` | consumer_pull.go:299-447 | Without a cancellation no message is Nak'd by the batch while its handler may still run |
| `PoolBatch.BatchReturns` | consumer_pull.go:347-447 | If every publish call on the pool returns, every scheduling of the pool path is finite with an explicit bound, and one that cannot be continued has returned |
| `PoolBatch.NeverStuck` | consumer_pull.go:347-447 | Until the pool path returns, its goroutine (given that a publish call returns) or an accepted closure can act |
| `PoolBatch.HandlePoolBackpressure` | backpressure.go:12-97 | Which of the four outcomes occurs for which mode, capacity, depth and settlement failure, and what happened to the message in each |
| `Dlq.ProcessMessage` | consumer_push.go:387-459 | processMessage around the middleware refines the specification of one delivery: final settlement, returned error, contents of the dead-letter stream, and the log of every handler call, publish, Ack, Nak and Term in order |
| `Dlq.DoWith` | dlq/dlq.go:107-150 | The middleware refines its specification, log included, for every handler result, panic, delivery count and failure |
| `Dlq.DoRoute` | dlq/dlq.go:165-243 | Publish, then Terms only if it worked: the copy's id, the order of the requests, the settlement and the returned error as specified |
| `Dlq.TermThrice` | dlq/dlq.go:208-219 | Up to three Term requests, stopping at the first that succeeds |
| `Dlq.DedupeId` | dlq/dlq.go:193-198 | The original id if there is one, else one derived from the position |
| `Dlq.Deliver` | consumer_push.go:387-459 | Any deliveries of any messages against one dead-letter stream: the log of each and the final contents are those the lemmas below speak about |
| `Dlq.PublishBeforeTerm` | dlq/dlq.go:200-219 | Every Term request in the log of a delivery has a dead-letter publish that succeeded before it |
| `Dlq.TermedByRequest` | dlq/dlq.go:208-219 | A message the handler did not terminate itself is terminated only by a Term request that succeeded |
| `Dlq.NoNakAfterPublish` | consumer_push.go:415-459 | The log of a delivery whose dead-letter publish succeeded holds no Nak and no Ack request, and the delivery returns nil |
| `Dlq.AckOrNak` | consumer_push.go:387-486 | From the inputs of a delivery: an Ack is requested exactly if the handler was called and returned nil; a Nak exactly if the payload does not decompress, the dead-letter publish failed, or the handler failed or panicked and neither asked for the dead-letter queue nor claimed a routing; neither exactly if the message was routed or the handler claimed so |
| `Dlq.FinalState` | consumer_push.go:387-486 | From the inputs of a delivery: the settlement it leaves, for all four of them, and exactly when it reports success |
| `Dlq.AckedAfterSuccess` | consumer_push.go:387-459 | A message the handler left open is Acked only after the handler returned nil |
| `Dlq.RouteEvents` | dlq/dlq.go:165-243 | A routing publishes first, makes Term requests only after a publish that worked, and three of them if none gets through |
| `Dlq.LeftOpen` | consumer_push.go:415-459 | Exactly when a delivery leaves the message unsettled |
| `Dlq.SilentLoss` | consumer_push.go:415-459 | Success for a message neither settled nor published to the dead-letter queue happens exactly if the handler itself returns ErrDLQRouted |
| `Dlq.RanOnlyEarly` | dlq/dlq.go:117-127 | The log of a delivery holds one handler call exactly if the payload decompresses and the delivery number is at most MaxDeliver, or there is no limit, or the number cannot be read; else none |
| `Dlq.AtMostMaxDeliver` | dlq/dlq.go:107-127 | Over every sequence of deliveries of any messages the handler is called at most MaxDeliver times per message, plus once per delivery whose metadata could not be read |
| `Dlq.OneCopy` | dlq/dlq.go:193-206 | However often Term fails or a publish reports failure after it was stored, a message adds at most one copy, plus one per delivery that reached the stream without any id |
| `Dlq.CopiedIffSent` | dlq/dlq.go:193-206 | A message whose id nobody else uses has a copy of its own if and only if it had one before or one of its deliveries reached the stream |
| `Dlq.TerminatedIsCopied` | dlq/dlq.go:193-219 | A message the middleware terminated has a copy of its own in the dead-letter stream, over every sequence of deliveries of a set of messages without shared ids, whatever failed before or after |
| `Dlq.NothingLostExactly` | dlq/dlq.go:174-219 | For every set of messages and contents of the dead-letter stream: no terminated message is ever lost if and only if every message has a copy already or an id used by no other message and not held |
| `Dlq.SharedIdLoses` | dlq/dlq.go:174-219 | Two messages with one id: the second is reported as published, terminated, and has no copy |
| `Dlq.LostLetters` | dlq/dlq.go:174-198 | The smallest losses: one publisher id in two streams, and a publisher id equal to another message's derived one |
| `Dlq.DerivedIdsAreSafe` | dlq/dlq.go:193-198 | Messages without an id of their own are never lost: derived ids do not clash with each other |
| `Dlq.DerivedIdsInjective` | dlq/dlq.go:193-198 | Derived ids are injective in (stream, sequence), also for stream names containing dashes |
| `Supervisor.Supervised.Loop` | supervisor.go:128-244 | The loop refines the step function over every sequence of checks, subscribe results and interruptions |
| `Supervisor.RunsAreOrderly` | supervisor.go:128-244 | In every run of every configuration: at most MaxRetries subscribe calls between healthy checks, give-up only at exactly MaxRetries and nothing but the final unsubscribe after it, every wait the delay for the failures so far, event attempt numbers exact |
| `Supervisor.NoSubscriptionLeaks` | supervisor.go:128-244 | Every subscription ever created is the current one or was unsubscribed, and none is left after cancel or give-up |
| `Supervisor.BackoffStep` | supervisor.go:246-253 | Delays are positive, and below 2^62 ns one doubling with a cap follows the closed form: Initial first, even above Max, then min(Initial*2^k, Max) after k failures |
| `Supervisor.ClosedForm` | supervisor.go:246-253 | For all positive durations: every delay has the closed form (Initial, then min(Initial*2^k, Max) for k > 0), and is positive, if and only if both durations are below 2^62 ns |
| `Supervisor.ClosedFormUpTo` | supervisor.go:246-253 | The same for the first n delays, with the exact condition on Initial, Max and n |
| `Supervisor.CalmWaits` | supervisor.go:205-244 | Under the exact condition every wait of every run is Initial before the first failure and min(Initial*2^k, Max) after k > 0 of them, and positive |
| `Supervisor.WaitsPositive` | supervisor.go:205-253 | Every wait of every run is positive if and only if no delay reachable within MaxRetries doubles 2^62 ns or more; otherwise a run without waiting exists |
| `Supervisor.NoCapSpins` | supervisor.go:205-253 | Unlimited retries, one second and the largest duration as the cap: some run waits for no time at all |
| `SupervisorRuns.EndsExactly` | supervisor.go:128-244 | From the inputs: the loop is live exactly until the first check that finds MaxRetries invalid ones in a row before it, where it gives up, or the end of the context, where it is cancelled |
| `SupervisorRuns.LogIsComplete` | supervisor.go:160-244 | In every run: one give-up event exactly if it gave up, one resubscribed event for every subscribe call that succeeded, every invalid check reported and followed by one wait and one call unless it was the last |
| `SupervisorRuns.IntervalExact` | supervisor.go:161-186 | A live run looks at the subscription every CheckInterval, and once the last HealthyChecks checks in a row were healthy, at an interval doubled with each further one up to the healthy interval |
| `SupervisorRuns.IntervalBounded` | supervisor.go:161-186 | The poll interval of every live run stays between the base and the healthy interval if and only if no doubling of the base below the healthy interval starts at 2^62 ns or more |
| `SupervisorRuns.IntervalWraps` | supervisor.go:161-186 | Otherwise a run of healthy checks arrives at an interval that is not positive |
| `SupervisorRuns.DefaultRun` | supervisor.go:53-72 | The zero configuration: ten attempts after 1, 2, 4, 8, 16 and then 30 seconds, and then the give-up |
| `Supervisor.WithDefaults` | supervisor.go:53-72 | Defaults make retries nonzero and all delays positive |
| `Supervisor.SupervisePullProcess` | supervisor.go:360-407 | How many runs happen, which result ends the loop, and that the waits between them are the delay sequence, for every configuration |
| `Watchers.EvaluateSlowConsumer` | slow_consumer.go:88-108 | A reason is reported exactly if its threshold is reached, 1000, 1000 and nine tenths by default, each at most once; slow exactly if there is one |
| `Watchers.ConsumerLagMessages` | slow_consumer.go:111-117 | The lag is the missing distance, and zero exactly when there is none |
| `Watchers.WatchSlowConsumer` | slow_consumer.go:170-263 | On every poll trace with a nondecreasing clock: at most one event ever, exactly at the first poll that ends an unbroken run of slow polls spanning SustainFor, carrying the length of that run |
| `Watchers.SustainedFromStart` | slow_consumer.go:205-215 | Measuring from the first poll of a run is the same as asking whether any stretch of it is long enough |
| `Watchers.WatchSoftLiveness` | soft_liveness.go:153-216 | The loop reports exactly the due stalls of the successful polls it has seen, and stops early only with CircuitStop |
| `Watchers.StallsExactlyWhenDue` | soft_liveness.go:153-216 | A stall is reported at a successful poll exactly if the last RisingWindows polls all rose, all after the previous event, and nothing succeeded for StallAfter |
| `Watchers.StallsAreSeparated` | soft_liveness.go:170-216 | Two stall events are at least RisingWindows successful polls apart, all of them strictly rising |
| `Fingerprint.BehaviorFingerprint.Tick` | behavior_fingerprint.go:234-334 | One poll refines the specification of the new state and the event |
| `Fingerprint.BehaviorFingerprint.MeasureLocked` | behavior_fingerprint.go:236-239 | The window is measured and kept as the latest snapshot |
| `Fingerprint.BehaviorFingerprint.Judge` | behavior_fingerprint.go:241-275 | The classification of a poll: learning, idle, healthy, adrift or anomalous |
| `Fingerprint.BehaviorFingerprint.Settle` | behavior_fingerprint.go:254-312 | The state change and the event for each classification |
| `Fingerprint.BehaviorFingerprint.Observe` | behavior_fingerprint.go:182-194 | An observation adds one sample and trims; negative durations are ignored |
| `Fingerprint.BehaviorFingerprint.UpdateBaselineLocked` | behavior_fingerprint.go:375-389 | The baseline becomes the first snapshot or the exponential average, latency truncated to whole nanoseconds |
| `Fingerprint.BehaviorFingerprint.TrimLocked` | behavior_fingerprint.go:391-401 | Drops exactly the leading samples older than the window |
| `Fingerprint.BehaviorFingerprint.WindowStatsLocked` | behavior_fingerprint.go:403-427 | Rate per minute and mean latency of the samples |
| `Fingerprint.CutIsWindow` | behavior_fingerprint.go:391-401 | With samples in time order, trimming keeps exactly those inside the window |
| `FingerprintWindow.SamplesAreWindow` | behavior_fingerprint.go:182-401 | In every run the samples a poll measures are exactly the observations of the last window, in order |
| `FingerprintWindow.BreachExactly` | behavior_fingerprint.go:99-117 | A poll finds a breach exactly if warm-up, window and sample count are over, there is a baseline, and the observations of the last window came at its rate, within the tolerance, with a mean at or above the factor times its latency, that product rounded down; rate and mean are taken from the number and the sum of the observations |
| `FingerprintWindow.EventIsRegression` | behavior_fingerprint.go:276-312 | Every event carries the rate and the mean of its window, and these are such a regression from the baseline it reports |
| `FingerprintWindow.PollTrains` | behavior_fingerprint.go:241-275 | How every poll moves the baseline: not without traffic, to the window itself at first, by a twentieth of the difference while learning, later by a fiftieth and exactly on polls at its rate with a mean of at most five quarters of its latency that are no breach |
| `Fingerprint.EventReportsBreachBaseline` | behavior_fingerprint.go:234-312 | No poll in a breach changes the learned baseline; an event's Normal is the baseline the breach began with and its duration is measured from there |
| `Fingerprint.BaselineGrowth` | behavior_fingerprint.go:375-389 | After warm-up, n polls raise the latency baseline to at most 1.005^n times its value, over every sequence of observations and polls |
| `Fingerprint.TickGrowth` | behavior_fingerprint.go:436-459 | One poll after warm-up raises the latency baseline by at most half a percent |
| `Fingerprint.RaisedIsPower` | behavior_fingerprint.go:453-459 | The bound of the growth theorem is the power 1.005^n times the start value |
| `Fingerprint.StaysWarm` | behavior_fingerprint.go:241-247 | Warm-up ends for good |
| `Fingerprint.RunKeeps` | behavior_fingerprint.go:234-312 | A learned baseline is positive in every run |
| `Fingerprint.OneEvent` | behavior_fingerprint.go:276-312 | In the whole life of the watcher at most one event, exactly at the first poll that ends an unbroken run of breach verdicts spanning SustainFor, with the length of that run; none only if there is no such poll; also with CircuitStop, up to the poll that stops the watcher |
| `Subjects.ValidateSubject` | validate.go:146-202 | For every byte string: the single-pass scanner accepts exactly the subjects whose dot-separated tokens satisfy the grammar, within the byte limit |
| `Subjects.CheckToken` | validate.go:168-196 | The checks on one token accept exactly the tokens of the grammar, with `>` only in last place |
| `Subjects.HasWhitespace` | validate.go:204-212 | True exactly if some decoded rune is white space; invalid UTF-8 decodes to U+FFFD byte by byte |
| `Subjects.RuneDecodes` | validate.go:204-212 | Decoding finds every Unicode scalar value from its UTF-8 form, whatever follows |
| `Subjects.RuneEncodes` | validate.go:204-212 | Whatever is decoded is the UTF-8 form of the result, or one byte replaced by U+FFFD |
| `Subjects.SplitJoin` | validate.go:146-202 | Splitting at dots undoes joining |
| `Subjects.JoinSplit` | validate.go:146-202 | Joining undoes splitting |
| `Filters.CommonWildcardSubject` | consumer_filter.go:40-91 | The loops find the longest token prefix all filters share and build the subject from it |
| `Filters.WildcardCovers` | consumer_filter.go:38-91 | For any filters: the derived subject selects everything a filter selects if and only if that filter has more tokens than the shared prefix, or all token lists are as long as it, or some token of the filter cannot be matched as it stands |
| `Filters.ShortFilterNotCovered` | consumer_filter.go:38-91 | Any single-token filter beside a longer one that begins with it is not covered |
| `Filters.OrdersNotCovered` | consumer_filter.go:38-91 | `orders` beside `orders.x` gives `orders.>`, which misses `orders` |
| `Filters.ExactMeansEqual` | consumer_filter.go:78-90 | The latter case is the one where all filters are equal |
| `Filters.ConsumerFilterSubjects` | consumer_filter.go:22-36 | For any filters: the subscribe subject covers exactly those with more tokens than the shared prefix or a token that cannot be matched, all of them if they are equal or share nothing, and is a single one itself |
| `Shard.Fnv32a` | shard/shard.go:34-42 | The loop computes 32-bit FNV-1a |
| `Shard.KnownHashes` | shard/shard.go:7-42 | The published values of 32-bit FNV-1a for the empty string and for "a" |
| `Shard.OneByteApart` | shard/shard.go:34-42 | Keys that differ in exactly one byte have different hashes |
| `Shard.IndexIsResidue` | shard/shard.go:15-21 | For fewer than 2^32 shards the index is the remainder of the hash |
| `Shard.IndexOf` | shard/shard.go:15-21 | The index is below the number of shards and 0 without shards; the division by zero happens exactly at positive multiples of 2^32 |
| `Shard.Itoa` | shard/shard.go:44-60 | Digits written backwards into a 20-byte buffer are the decimal rendering |
| `Shard.Subject` | shard/shard.go:25-32 | The subject joins prefix, shard number and action |
| `Shard.ShardSubject` | shard/shard.go:25-60 | For valid literal parts within the length limit the subject is a valid literal subject whose tokens are those of the parts, and whose shard token parses back to the index |
| `Decimal.ParseRender` | shard/shard.go:44-60 | Parsing undoes rendering, for every number |
| `Redrive.ReplayToStream` | dlq/replay.go:47-119 | Considers the stored messages from StartSeq, each once, ascending, at most Limit and exactly the first Limit when every request is answered, and completes unless a request or publish fails or the context ends; on every exit Considered = Matched + Skipped and Published <= Matched; publishes exactly the matching messages in order, up to the publish that failed |
| `Redrive.SelectedExactly` | dlq/replay.go:121-134 | The messages that match are exactly those whose reason equals the reason filter up to case and whose original subject equals the subject filter, an empty filter matching everything |
| `Redrive.Pass` | dlq/replay.go:60-119 | One pass of the loop: why it ends, or that the tally and the position stay exact |
| `Redrive.Consider` | dlq/replay.go:83-116 | One message is counted, filtered and published or skipped, keeping the tally exact |
| `Redrive.FetchNext` | dlq/replay.go:68-82 | The next message is the first stored one not yet considered |
| `Outbox.Outbox.Enqueue` | outbox/outbox.go:39-62 | Succeeds exactly for a nonempty subject and a Put without error; keeps the no-loss invariant also when a failing Put took effect |
| `Outbox.Outbox.Flush` | outbox/outbox.go:65-100 | Keeps the no-loss invariant: every successfully enqueued record is still stored or was published; the count equals the successful publishes and never exceeds the limit; the published records are the first due ones in key order, exactly the first Limit when the flush completes; it stops at the first key at which the limit is reached, the context has ended or a publish fails, and says which; a key disappears exactly if its record was published and its Delete took effect |
| `Outbox.FlushDrains` | outbox/outbox.go:65-100 | When nothing goes wrong and the limit is not below the number of keys, a flush publishes every record under these keys, in key order, and leaves none of them |
| `Outbox.Outbox.constructor` | outbox/outbox.go:39-62 | A new outbox over any store satisfies the invariant |
| `Recorder.FlightRecorder.constructor` | flight_recorder.go:56-66 | The capacity is the argument, or 128 if that is not positive |
| `Recorder.FlightRecorder.Record` | flight_recorder.go:69-90 | Appends the stamped event to the history, overwriting the oldest slot in place |
| `Recorder.FlightRecorder.Snapshot` | flight_recorder.go:105-129 | Equals the last min(n, capacity) recorded events in chronological order |
| `Recorder.Unrolled` | flight_recorder.go:121-128 | A full ring read from the write position round is the last capacity events, for every wrap position |
| `Recorder.RecordAll` | flight_recorder.go:56-129 | From a new recorder, any sequence of Record calls followed by Snapshot gives the last min(n, capacity) events |

## Left out

- Connection, TLS, authentication, metrics, tracing, logging and HTTP monitoring: input and output, and foreign libraries.
- Codecs and compression: thin wrappers; in processMessage decompression is one success flag.
- Stream, consumer, key-value and object managers beyond the next-message walk, client setup, request and reply: request plumbing and field copying.
- Shadow graduation: it loads its phase and stores it later without a lock, so its natural claims hold only for serialised calls.
- Adaptive pressure, circuit, page, replay option setters and the reconnect delay: they would only add easy members.
- The push path in Nak mode, which can return nil with the message neither enqueued nor settled.
- A Supervisor run ended by Stop: a subscription created while Stop runs is not unsubscribed by the loop.
- Key-value expiry, requests that take effect after they were answered, and the plain store path of the idempotency handler, which does not intend mutual exclusion; messages with an empty id bypass the handler.
- Panicking pool handlers and the choice of the registered function in the pool: a handler call is one start and one return.
- The worker pool, claim and batch models are transition systems over values: update in place and aliasing between goroutines are not captured, interleaving is.
- Search.FindFirstSeqAtOrAfter: takes a number of rounds and answers OutOfRounds when they are used up, because the loop need not end; the lemmas on Rounds hold for every number.
- Search.FindLastSeqAtOrBefore: the same.
- Range.GetMsgRangeByTime: passes its number of rounds to the two searches.
- Supervisor.Supervised.Loop: runs over a finite sequence of checks, as do the watchers; every prefix of an endless run is such a sequence.
- SupervisorRuns.IntervalWraps: what a ticker does with such an interval is not modelled.
- Fingerprint.BehaviorFingerprint.Tick: does not model the periodic reports to the key-value store; floats are reals, so rounding of the exponential average is not modelled.
- Redrive.ReplayToStream: the two filtered headers and the case folding are function parameters; copying and stripping of headers is left out.
- Outbox: encoding and decoding of records is taken to be inverse; a store object that is nil is not modelled.
- Dlq.OneCopy: the duplicate window of the dead-letter stream does not expire within the deliveries considered.
- Dlq.NothingLostExactly: the same; two messages that share an id more than a duplicate window apart are both kept by the server.
- PoolBatch.BatchReturns: does not model how long a blocking publish on the pool takes, because the pool is a separate model.
- PoolBatch.NeverStuck: takes the pool's answer to a publish call as given.
- Recorder: the live event channel, which drops on overflow, is left out.
- Shard.Fnv32a: distribution quality of the hash.
