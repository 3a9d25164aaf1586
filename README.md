# Email dispatch core, modelled in Dafny

This project models the dispatch core of a TypeScript email-sending service:

- the per-provider **circuit breaker** (CLOSED / OPEN / HALF_OPEN, a failure
  counter, the time of the last failure, a threshold and a cooldown);
- the global sliding-window **rate limiter** over a list of admission
  timestamps;
- the single-consumer FIFO **email queue** with its `processing` flag;
- the **email service**: the attempt table keyed by message id, the
  idempotent `sendEmail`, and `processEmailFromQueue`, the retry/fallback
  algorithm. That algorithm runs rounds `0..maxRetries`. Each round rotates
  over the providers, starting at the sticky `currentProviderIndex`, and
  sends every call through its provider's breaker. A fully failed round is
  followed by a `baseDelay * 2^round` wait, and the message becomes FAILED
  once every round has failed.

Each source class is a Dafny `class` whose methods update its fields. Each
method is proved against specification functions, and lemmas state what the
source promises about those functions.

| file | module | models |
|---|---|---|
| `options.dfy` | `Options` | the optional value used for nullable fields |
| `circuit_breaker.dfy` | `CircuitBreakers` | `dist/service/CircuitBreaker.js` |
| `rate_limiter.dfy` | `RateLimiting` | `service/RateLimiter.ts` |
| `email_queue.dfy` | `Queueing` | `utils/Queue.ts` |
| `retry_schedule.dfy` | `RetrySchedule` | the rotation, attempt order and backoff arithmetic of `service/EmailService.ts` |
| `email_service.dfy` | `EmailDispatch` | `service/EmailService.ts` |

Time is an explicit integer clock in milliseconds. Every `Date.now()` /
`new Date()` reading is a parameter, and waiting `ms` milliseconds advances
the clock by `ms`.

A provider's `sendEmail` is an oracle `deliver(email, round, providerIndex)`.
It returns the call's outcome (success, or an error with its message) and
the call's latency; the latency advances the clock only when the breaker
actually runs the call.

The queue's injected processing function is an oracle `fails(item)` in the
generic `EmailQueue`. The service drains its own queue through the queue's
step methods (`TryStartDrain`, `Shift`, `FinishDrain`), calling
`ProcessEmailFromQueue` for each message, because a Dafny method cannot be
passed as a value.

One call of `processEmailFromQueue` is a ghost `Run`: the message, the
service state before and after (attempt table, sticky index, admission
list, breakers' fields by provider name, clock), the admission time, the
backoff and the tries. `Ran` says what one processing does to that state,
and `Drained` chains processings, each starting where the one before ended.
The drain methods return their runs so that their contracts state, message
by message, what the retry algorithm did.

The getters `GetState`, `ShouldAttemptReset` and `GetQueueSize` are
functions that read fields, so they cannot change anything. They carry no
contract of their own; `Execute` is specified through `CooledDown`, the
predicate `ShouldAttemptReset` returns.

## Model

| member | source | states |
|---|---|---|
| `CircuitBreakers.CircuitBreaker.constructor` | dist/service/CircuitBreaker.js:5-12 | a new breaker keeps the given threshold and cooldown, is CLOSED with a zero counter and no failure time, and satisfies the state invariant when the threshold is at least one |
| `CircuitBreakers.CircuitBreaker.Execute` | dist/service/CircuitBreaker.js:13-31 | the new fields, the result and whether the call ran are exactly the `ExecuteStep` transition of the old fields; the state invariant is preserved |
| `CircuitBreakers.CircuitBreaker.OnSuccess` | dist/service/CircuitBreaker.js:32-35 | the counter becomes 0 and the state CLOSED; the failure time is kept |
| `CircuitBreakers.CircuitBreaker.OnFailure` | dist/service/CircuitBreaker.js:36-42 | the counter goes up by one, the failure time becomes `now`, and the state becomes OPEN when the counter reaches the threshold and is otherwise kept |
| `CircuitBreakers.RejectsWhileOpen` | dist/service/CircuitBreaker.js:14-20 | an OPEN breaker still inside its cooldown raises "Circuit breaker is OPEN", does not run the call and changes nothing |
| `CircuitBreakers.SuccessCloses` | dist/service/CircuitBreaker.js:22-35 | a call that runs and succeeds returns its value and leaves the breaker CLOSED with a zero counter, whatever the prior state |
| `CircuitBreakers.FailureCounts` | dist/service/CircuitBreaker.js:27-42 | a call that runs and fails re-raises its own error, bumps the counter and stamps the failure time; the breaker is OPEN afterwards exactly when the counter reached the threshold |
| `CircuitBreakers.ExecuteKeepsConsistent` | dist/service/CircuitBreaker.js:13-42 | with a threshold of at least one, `execute` preserves the invariant: CLOSED means fewer failures than the threshold; OPEN or HALF_OPEN means at least that many and a recorded failure time |
| `CircuitBreakers.FailedProbeReopens` | dist/service/CircuitBreaker.js:14-16 | under the invariant, one failure in HALF_OPEN (or in an OPEN breaker whose cooldown has elapsed) re-opens the breaker |
| `CircuitBreakers.RunKeepsConsistent` | dist/service/CircuitBreaker.js:13-42 | any sequence of `execute` calls preserves the state invariant |
| `CircuitBreakers.ConsecutiveFailures` | dist/service/CircuitBreaker.js:36-42 | from CLOSED with counter `c`, consecutive failures keep the breaker CLOSED below the threshold and open it exactly when the counter reaches the threshold, stamped with the last failure's time |
| `RateLimiting.Prune` | service/RateLimiter.ts:13 | pruning keeps exactly the timestamps `t` with `now - t < windowMs`, and never lengthens the list |
| `RateLimiting.PruneKeepsSorted` | service/RateLimiter.ts:13 | pruning keeps a sorted list sorted |
| `RateLimiting.PruneAppend` | service/RateLimiter.ts:13 | pruning distributes over concatenation, so it keeps the original order |
| `RateLimiting.PruneKeepsFresh` | service/RateLimiter.ts:13 | a list wholly inside the window is kept unchanged |
| `RateLimiting.PruneAllStale` | service/RateLimiter.ts:13 | a list wholly outside the window is pruned to nothing |
| `RateLimiting.PruneLater` | service/RateLimiter.ts:9-21 | pruning again after a wait is the same as pruning once at the later time |
| `RateLimiting.PruneDropsStale` | service/RateLimiter.ts:13-21 | a timestamp that has left the window makes the pruned list strictly shorter, so the wait-and-recheck loop ends |
| `RateLimiting.WaitAfterPrune` | service/RateLimiter.ts:13-23 | after pruning, a wait is chosen exactly when the window is full and non-empty, and that wait is positive and ends when the oldest admission leaves the window; a full window never falls through to admission without a wait |
| `RateLimiting.RateLimiter.constructor` | service/RateLimiter.ts:1-7 | a new limiter keeps its limit and window and has no admissions |
| `RateLimiting.RateLimiter.Acquire` | service/RateLimiter.ts:9-26 | the caller is admitted at a clock reading no earlier than `now`, once the pruned window has room; the new list is the pruned list plus that reading; a window with room at `now` admits at once; on a sorted list, at every reading from `now` up to the admission the pruned window is non-empty and full, so the caller is admitted at the first reading with room; for a limit of at least one, the list never exceeds `maxRequests`; it stays sorted under a non-decreasing clock |
| `RateLimiting.FullUntilOldestLeaves` | service/RateLimiter.ts:15-22 | on a sorted list, a non-empty pruned window stays the same at every reading until its oldest admission leaves it, so the wait the limiter picks is not shorter than needed |
| `RateLimiting.RateLimiter.GetRequestCount` | service/RateLimiter.ts:32-36 | the list is pruned at `now` and the count is its length |
| `RateLimiting.CountAfterWindow` | service/RateLimiter.ts:32-36 | once a full window has passed since the latest admission, the count is zero |
| `Queueing.Failures` | utils/Queue.ts:22-29 | the caught errors are those of the handed items whose processing failed, and no others |
| `Queueing.EmailQueue.constructor` | utils/Queue.ts:4-8 | a new queue is empty and idle |
| `Queueing.EmailQueue.Push` | utils/Queue.ts:10-11 | the item is appended at the tail; nothing else changes |
| `Queueing.EmailQueue.TryStartDrain` | utils/Queue.ts:15-20 | a drain starts exactly when none is running and the queue is non-empty, and then marks the queue as processing |
| `Queueing.EmailQueue.Shift` | utils/Queue.ts:23 | the head is taken off the queue |
| `Queueing.EmailQueue.FinishDrain` | utils/Queue.ts:31 | the queue becomes idle |
| `Queueing.EmailQueue.ProcessQueue` | utils/Queue.ts:15-32 | a drain request while processing or with an empty queue changes nothing; otherwise every queued item goes to the processor once, in FIFO order, failures do not stop the loop, and the queue ends empty and idle |
| `Queueing.EmailQueue.Enqueue` | utils/Queue.ts:10-13 | the item is appended and a drain is triggered: an idle queue hands over everything queued plus the item; a busy one only keeps the item queued |
| `RetrySchedule.Pow2` | service/EmailService.ts:105 | `2^k` is at least one, so every backoff is at least the base delay |
| `RetrySchedule.TotalBackoffClosedForm` | service/EmailService.ts:103-108 | the backoff waits after rounds `0..k-1` add up to `baseDelay * (2^k - 1)` |
| `RetrySchedule.RotationVisitsEachOnce` | service/EmailService.ts:74-77 | a round started at a valid sticky index begins there and tries every provider index exactly once |
| `RetrySchedule.RoundSlotAt` | service/EmailService.ts:74-75 | the `i`-th attempt of a round goes to provider `(start + i) % n` |
| `RetrySchedule.ScheduleLength` | service/EmailService.ts:68-101 | `rounds` complete rounds make `rounds * n` attempts |
| `RetrySchedule.ScheduleGrows` | service/EmailService.ts:68-101 | the attempts of fewer rounds are a prefix of those of more rounds |
| `RetrySchedule.SchedulePrefix` | service/EmailService.ts:68-101 | completed rounds followed by part of the next round are the matching prefix of the full schedule |
| `EmailDispatch.ErrorText` | service/EmailService.ts:113 | the stored error is never empty: it is the last error's message when that is non-empty, and "Unknown error" otherwise |
| `EmailDispatch.TimedMeans` | service/EmailService.ts:68-108 | a trace is timed exactly when its `k`-th try consulted its breaker at the start clock plus the latency of the calls of the first `k` tries plus the backoff waited before its round |
| `EmailDispatch.TimedFirst` | service/EmailService.ts:68-77 | the first try of a timed trace was made at the start clock plus the backoff before its round |
| `EmailDispatch.TimedAppend` | service/EmailService.ts:74-84 | a try made at the start clock plus the latency so far plus its round's backoff extends a timed trace, and adds its call's latency only when the breaker ran the call |
| `EmailDispatch.TimedConcat` | service/EmailService.ts:68-108 | latency adds up over two runs of tries, and a run timed from the end of another continues its timing |
| `EmailDispatch.TryAppended` | service/EmailService.ts:74-84 | a pass through the next provider in the rotation extends the round's tries by that provider's slot |
| `EmailDispatch.FailedRoundAppends` | service/EmailService.ts:74-101 | a round in which every provider failed extends the failed trace by exactly that round, and its last error becomes the last error overall |
| `EmailDispatch.SucceededRoundEnds` | service/EmailService.ts:74-92 | a success after failed rounds leaves a trace that follows the schedule and fails everywhere but at its last try |
| `EmailDispatch.RoundExtends` | service/EmailService.ts:74-84 | the next try of a round, at the next rotation slot, made at the current clock through its breaker as the earlier tries left it, extends the round: the clock advances by that call's latency only when the call ran, and only that provider's breaker changes |
| `EmailDispatch.RoundJoins` | service/EmailService.ts:68-101 | a round run after failed rounds, begun when the earlier latency and backoff had passed, continues the trace, its timing and the breakers' history; a failed round extends the schedule by one round and its last error becomes the last overall; a success ends a trace that follows the schedule |
| `EmailDispatch.FailedRoundStep` | service/EmailService.ts:68-108 | a failed round, with its wait added unless it was the last, extends the failed rounds by one: the record has that round's attempt number, the status PENDING in round 0 and RETRYING later, and as `lastAttempt` the clock reading at which the round began; the clock is the start plus the latency of the calls that ran plus the backoff waited |
| `EmailDispatch.DeliveredStep` | service/EmailService.ts:68-92 | a round that ends in a delivery after failed rounds ends processing: the record is SENT through the provider that answered, with the round's attempt number and start time, the backoff is that of the rounds before, and the clock is the start plus the latency of the calls that ran plus that backoff |
| `EmailDispatch.GaveUp` | service/EmailService.ts:68-113 | once all `maxRetries + 1` rounds failed, the record is FAILED with the last error's text, `maxRetries + 1` attempts and the last round's start time, after `baseDelay * (2^maxRetries - 1)` of backoff, and the sticky index stays where it was |
| `EmailDispatch.AllRoundsFailed` | service/EmailService.ts:68-113 | a trace with the slots of all `maxRetries + 1` rounds, all failed, is the whole schedule of `(maxRetries + 1) * n` tries; together with the FAILED record and the backoff built by `RetryRounds` it is the given-up outcome |
| `EmailDispatch.GiveUpExample` | service/EmailService.ts:103-113 | with two retries and a 100 ms base delay, giving up takes 300 ms of backoff and three attempts |
| `EmailDispatch.SkippedOnlyWhenOpen` | service/EmailService.ts:77-84 | a try whose breaker step is `execute`'s skips its provider exactly when the breaker was OPEN and inside its cooldown; then it fails with the open-circuit error and leaves the breaker as it was; otherwise its result is the provider's own answer |
| `EmailDispatch.ChainedAppend` | service/EmailService.ts:74-84 | a try that finds its provider's breaker as the earlier tries left it extends the chain, and afterwards only that provider's breaker has new fields |
| `EmailDispatch.ReplayConcat` | service/EmailService.ts:68-101 | the breakers after two runs of tries are those after their concatenation, and two chains joined at the middle state form one chain |
| `EmailDispatch.ReplaysConcat` | service/EmailService.ts:68-101 | breakers that went from one state to a second through one run of tries and from the second to a third through another went from the first to the third through both |
| `EmailDispatch.ChainedFirst` | service/EmailService.ts:74-77 | the first try of a chain found its provider's breaker with the fields it had before processing |
| `EmailDispatch.ReplayKeepsConsistent` | service/EmailService.ts:74-84 | along any chain of tries through the breakers, every breaker keeps the breaker state invariant |
| `EmailDispatch.WorkingStickySends` | service/EmailService.ts:74-92 | when the sticky provider's breaker is not OPEN, or is OPEN with its cooldown passed at the start of processing, and that provider accepts the message, processing ends SENT through it at the first try, after one attempt and no backoff |
| `EmailDispatch.FirstAttemptIsSticky` | service/EmailService.ts:74-89 | the first attempt of the next message goes to the provider that succeeded last |
| `EmailDispatch.NewBreakers` | service/EmailService.ts:26-29 | one new CLOSED breaker with the default threshold and cooldown per provider name, distinct names getting distinct breakers |
| `EmailDispatch.EmailService.constructor` | service/EmailService.ts:16-33 | `maxRetries` 3 and `baseDelay` 1000 unless given; one new CLOSED breaker with the default threshold and cooldown per provider name, distinct names getting distinct breakers, an empty attempt table, sticky index 0, a limiter with the default limits, and an idle empty queue |
| `EmailDispatch.EmailService.SendEmail` | service/EmailService.ts:35-60 | a message whose record is SENT gets that record back, with no processing, and nothing changes: records, sticky index, limiter and breakers. Otherwise a new PENDING record with zero attempts is returned, the message is queued once and processed, and only its own record changes, to SENT or FAILED; the drain is exactly one processing of that message (`Ran`: admission at the first reading with room, the retry algorithm, the sticky index, the breakers' history), from the state with the new record filed to the final state; the clock reading when processing ended is returned, never before `now`; a sorted admission list with no entry after `now` stays sorted, with no entry after that reading |
| `EmailDispatch.EmailService.Submit` | service/EmailService.ts:45-59 | a fresh PENDING record is filed, the message is queued and the queue drained: exactly one processing of that message, from the state with the record filed to the final state; only its record changes, to SENT or FAILED; the admission list keeps its order |
| `EmailDispatch.EmailService.DrainQueue` | utils/Queue.ts:15-32 | with `processEmailFromQueue` as the processing function: single-flight, FIFO, exactly-once draining; every drained message's record is SENT or FAILED, and no other record changes; the drain is one processing per handed message, in order, each starting where the one before ended (records, sticky index, admission list, breakers and clock), from the state at the call to the final state |
| `EmailDispatch.EmailService.DrainAll` | utils/Queue.ts:22-29 | the drain loop: every queued message is handed over once, in order, and the queue ends empty; the processings chain from the starting state to the final state, one per handed message |
| `EmailDispatch.EmailService.ProcessNext` | utils/Queue.ts:22-25 | one pass of the drain loop: the head is shifted and processed, and only its record changes, to SENT or FAILED; the processing starts from the state at the call and ends in the state after it, and extends the drain so far by one run of `Ran`: admission at the first reading with room and its record in the limiter, the retry algorithm's outcome and sticky index, the breakers' history |
| `EmailDispatch.DrainedStep` | utils/Queue.ts:22-29 | a processing that starts where a drain ended extends the drain to where the processing ends |
| `EmailDispatch.DrainedOne` | utils/Queue.ts:22-25 | a drain of one message is exactly one processing (`Ran`) from the state before to the state after |
| `EmailDispatch.DrainedLast` | utils/Queue.ts:22-29 | the last processing of a drain starts where the rest of the drain ended, is a processing of its message, and ends where the drain ends |
| `EmailDispatch.DrainedLastSettles` | service/EmailService.ts:87-115 | the last processing of a drain leaves its own record SENT or FAILED for the same message and changes no other record |
| `EmailDispatch.DrainedProcessed` | utils/Queue.ts:22-29 | a drain settles the records of exactly the messages it processed, keeps every record's message, and leaves every other record as it was |
| `EmailDispatch.RanKeepsAdmissionsOrdered` | service/RateLimiter.ts:13-25 | if the admission list is sorted and no entry is after the clock, one processing keeps it so, at the clock reading where it ended |
| `EmailDispatch.DrainKeepsAdmissionsOrdered` | service/RateLimiter.ts:13-25 | the same holds across a whole drain |
| `EmailDispatch.StickyCarriesOver` | service/EmailService.ts:75-89 | when a processing ends SENT and the next one starts from the sticky index it left, the next message's first try goes to the provider that delivered the previous one |
| `EmailDispatch.EmailService.TryProvider` | service/EmailService.ts:75-84 | provider `index` is called through its own breaker: the try records that breaker's fields before and after, and its step, result and whether the call ran are exactly `execute`'s on those fields at the current clock; no other breaker changes; the clock advances by the call's latency only when the call ran |
| `EmailDispatch.EmailService.TryRound` | service/EmailService.ts:74-101 | one round tries providers in rotation order and stops at the first success; a round with no success tried every provider once; each try found its breaker as the earlier tries left it, and the breakers end as the tries left them; each try was made at the round's start plus the latency of the calls before it, and the round ends when the latency of its calls has passed |
| `EmailDispatch.EmailService.RunRound` | service/EmailService.ts:74-101 | one round appended to the failed rounds before: a failed round extends the schedule by one round and its last error becomes the last overall; a success ends a trace that follows the schedule; the breakers end as the whole trace left them; every try of the whole trace was made when due, and the round ends at the start plus all the latency and the backoff so far |
| `EmailDispatch.EmailService.RetryRound` | service/EmailService.ts:68-108 | one pass of the retry loop: the record gets the round's attempt number, the status PENDING in round 0 and RETRYING later, and as `lastAttempt` the clock reading at which the round began; a success yields the SENT record through the provider that answered; a failed round other than the last adds its `baseDelay * 2^round` wait to the clock and the backoff; the clock is always the start plus the latency of the calls that ran plus the backoff |
| `EmailDispatch.EmailService.RetryRounds` | service/EmailService.ts:68-113 | the tries follow the round-by-round rotation schedule, each made when due. Processing ends at the first success with a SENT record, or after `maxRetries + 1` failed rounds with a FAILED record, `attempts = maxRetries + 1`, the last error's text and `baseDelay * (2^maxRetries - 1)` of backoff; `lastAttempt` is the start of the last round run, and processing ends at the start plus the calls' latency plus the backoff; every try found its breaker as the earlier tries left it, and the breakers end as the tries left them |
| `EmailDispatch.EmailService.ProcessEmailFromQueue` | service/EmailService.ts:62-115 | a rate-limiter slot is taken first, at the first clock reading with room (at once when there is room at `now`); the message's record then ends SENT or FAILED as above, timed from the admission; on success the sticky index moves to the provider that delivered; on failure it is unchanged; no other record changes; the breakers went through the tries in order and keep the breaker state invariant |
| `EmailDispatch.EmailService.AcquireSlot` | service/EmailService.ts:63 | the rate limiter admits the caller at the first clock reading from `now` at which its window has room, at once when there is room at `now`, and records the admission; the records, the sticky index and the breakers are unchanged |
| `EmailDispatch.EmailService.Store` | service/EmailService.ts:87-89 | the record is filed under its id and, on success, the sticky index moves to the provider that delivered; the breakers are unchanged |
| `EmailDispatch.EmailService.GetEmailStatus` | service/EmailService.ts:117-119 | the record of a known id, nothing for an unknown id |
| `EmailDispatch.EmailService.GetProviderStats` | service/EmailService.ts:121-127 | one entry per provider, in provider order, with its name, health flag and breaker state |
| `EmailDispatch.EmailService.GetRateLimitStats` | service/EmailService.ts:129-134 | the limiter's list is pruned at `now`; the result is the pruned count and the number of queued messages |

## Left out

- The logger: it only writes to the console.
- The mock providers, with their random failures and random delays: they are replaced by the `deliver` oracle. `isHealthy` is the fixed `healthy` flag of each provider.
- The HTTP entry point and the example script: they are I/O glue.
- Real timers and the event loop. `delay` advances the explicit clock, and the model does not capture timer clamping. Processing is sequential: `SendEmail` runs the drain it triggers to completion before returning. The interleavings of concurrent `sendEmail` calls with an in-flight drain are not modelled. Between calls the queue is idle and empty.
- Dates: `lastAttempt`, `timestamp` and `lastFailureTime` are integer clock readings.
- EmailDispatch.EmailService.SendEmail: returns the record value created at submission. In the source the caller's object is the same one that processing later mutates; the model does not capture that aliasing. The record in the table is the processed one, and the contract states its outcome through the message's one processing (`Ran`).
- EmailDispatch.EmailService.RetryRounds: works on the record as a local value, and `ProcessEmailFromQueue` stores the final value once. The intermediate `attempts`, `lastAttempt` and PENDING/RETRYING values written at the start of each round are visible only inside the loop. The stored record keeps the last round's values.
- Negative `maxRetries` or `baseDelay`: both are natural numbers here.
- Breakers with settings other than the defaults: the service only ever builds default ones, so the breaker steps recorded in a trace use the default threshold and cooldown.
- Thrown values that are not `Error` objects: every failure carries a message string.
- The `catch` around the processing function in the service's own drain: `processEmailFromQueue` never raises in the model. The generic `Queueing.EmailQueue.ProcessQueue` models caught failures through its oracle.
- The breaker's `getState`, `shouldAttemptReset` and the queue's `getQueueSize` are field reads with no contract of their own. `Execute` is specified through `CooledDown`, which `shouldAttemptReset` returns.
