# Emito delivery engine: a verified model

This project models the parts of Emito that decide whether, when and to whom a notification goes out, and proves what
they promise over every input, every run and every interleaving:

| file | what it models |
|---|---|
| `RateLimiter.dfy`, `RateLimiterBounds.dfy` | the sliding-window rate limiter: one MULTI on a sorted set, then a separate ZREM; how long an interval it guards |
| `CircuitBreaker.dfy` | the three-state breaker in a Redis hash, as whole operations and as split reads and writes |
| `Retry.dfy`, `Dispatch.dfy` | the retry loop, and provider failover around it behind the breaker |
| `DigestKeys.dfy`, `DigestFlow.dfy`, `DigestEngine.dfy` | digest buffers: keys and their parsing, concurrent flushes, timing, restart |
| `MemberPages.dfy`, `Broadcast.dfy`, `BroadcastRuns.dfy`, `LateCrashes.dfy` | keyset paging over list members, the broadcast loops, crashes and resumes |
| `Scheduler.dfy` | pollers that claim scheduled broadcasts from one sorted set |
| `Membership.dfy`, `MemberStatus.dfy` | list membership and the cached member count |
| `Sse.dfy` | the client's event-stream reader against the server's format |
| `ActionQueue.dfy`, `ActionQueueRuns.dfy` | the client's persisted offline queue, with writes and reads in flight; what is lost and what is replayed twice |
| `Store.dfy` | the client's notification list, unread count and optimistic mark-as-read |
| `Sorting.dfy`, `Clock.dfy`, `Sets.dfy`, `Options.dfy` | stable sorting, rounding up to seconds, sizes of sets, optional values |

The code's classes are Dafny classes whose methods are proved against functions of the state (`Apply`, `After...`,
`Walk`, `Loop`, `Feed`, ...). What those functions mean is said by lemmas that do not name them (`...Says`, `...Exact`).
Concurrency is a step machine over the same functions: a Redis command or MULTI, a SQL statement, or the synchronous
stretch of JavaScript between two `await`s is one step, anyone may take the next, and a run is a sequence of enabled
steps. Undisturbed, the machines do what the operations do (`WalkIsRun`, `AloneIs...`, `Quiet...`). The clock, random
draws, provider outcomes, strategy choices, the tables a query sees and the moments at which processes die are
parameters over which the results quantify.

## Where the code and its documentation part

The model follows the code. Each of these is a lemma, with the exact condition under which the promise is kept:

* The breaker's comments promise a single half-open probe. The transition admits one request; of the checks after it,
  as long as the half-open hash lasts, none is admitted exactly when there is none or the last of them still finds the
  probe key of an earlier spell (`CircuitBreaker.SingleProbeExact`), which a spell leaves behind exactly when the
  time-out is not a whole number of seconds (`ProbeHeldExact`). Interleaved, every instance that finds the time-out
  over before the first of them writes is admitted (`EveryReaderTransitions`).
* Taken as whole operations, an open circuit is honoured for its time-out exactly when that is at most an hour
  (`CircuitBreaker.OpenWindowExact`). When reads and writes of several instances interleave, a circuit just stamped open
  stays open exactly when no instance still holds a write that closes or half-opens it (`OpenStaysExact`); every
  configuration has a run in which one does (`StaleSuccessCloses`).
* The rate limiter's MULTI uses the caller's clock reading. If up to `lag` milliseconds pass between reading and MULTI,
  the limit holds over exactly the intervals of at most `windowMs - lag` milliseconds (`RateLimiterBounds.LimitExact`;
  a limit of one call per millisecond guards its millisecond whatever the lag, as long as that stays below the TTL).
  Calls that reach Redis in the order of their readings keep the whole window exactly when none comes later than the
  TTL exceeds the window (`InOrderExact`).
* Cursors hold milliseconds and rows microseconds: two members confirmed within one millisecond can straddle a page
  break, and the older one is never sent to. Over an unchanging list everybody is reached exactly when no page break
  falls between two members of one millisecond (`Broadcast.EveryoneReachedExact`).
* After its last page a broadcast saves the empty offset, which reads as "start over": a crash before "completed" then
  repeats everything (`LateCrashes.LateCrashRepeatsAll`). With late crashes, each crash repeats at most one page exactly
  when the list fits on one page (`LateCrashes.OnePagePerCrashExact`); without them always
  (`BroadcastRuns.CrashesRepeatOnePageEach`). Both hold while the lock keeps a second runner out and what a resume has
  read still holds when it gets the lock. It reads before it asks: a resume that reads while the broadcast is running
  and gets the lock when it is done sends to everybody again without any crash (`StaleReadRepeatsAll`), so the lock
  alone keeps the bound only for lists without members (`LockAloneExact`).
* Removing a scheduled broadcast from its set is what claims it. It is lost exactly when the claim then ends, before the
  progress hash is complete, in a crash or in any error but a refusal (`Scheduler.LostExact`); the scheduler logs such
  an error and lives on (`Scheduler.ErrorLosesBroadcast`).
* A digest window above the one-minute default can outlive the buffer's TTL (`DigestEngine.NothingIsLostExact`), and
  a restart keeps the TTL it finds, which may fire before its first tick (`RestartIsInTimeExact`). A buffer whose
  subscriber id or event type contains `_checkpoint` or `flush_lock:` is not recovered after a restart
  (`DigestKeys.CheckpointEventIsSkipped`, `DigestEngine.RestartTracksEveryBuffer`).
* A flush that ends in an error after its MULTI drops its batch, and one by the poller or at shutdown gives it to nobody
  when the engine has no `onFlush` handler, as in `packages/core/src/emito.ts:166-172`. Everything added is buffered,
  expired or received exactly when neither happens to a batch with events (`DigestFlow.NothingIsDropped`,
  `TimedFlushTellsNobody`).
* The offline queue's writes take effect some time after they are called. An action is lost for good when a crash comes
  before its first write has landed (`ActionQueue.UnlandedIsLost`), when another action reaches the queue after a
  restart and before its restore (`EarlyEnqueueLoses`), and when it is taken off in place of one that was evicted while
  being replayed (`EvictionLosesForGood`); a restore undoes what reaches the queue while it is under way
  (`RestoreUndoes`). If nothing changes the queue while a restore is due or under way, a crash and the eviction are the
  only losses (`ActionQueueRuns.LostExact`), and without evictions in mid-replay only what has not landed is ever lost
  (`UnlandedExact`, `CalmRunsLoseNothing`).
* A failed optimistic update recomputes the unread count from the loaded page, which loses what the server counted
  beyond it (`Store.FailedRestoresExact`). Of two failing updates of one item both undo themselves exactly when the one
  begun later fails first (`Store.FailingTwiceLeavesRead`).
* `memberCount` agrees with the rows over whole operations and, over every interleaving of calls on different rows,
  exactly as long as no call ends between its status write and its change of the count
  (`Membership.SeparateCallsAgree`, `OneCutDisagrees`); but not when two confirmations overlap or a decrement overtakes
  its increment (`AgreementExact`, `TwoConfirmsCountTwice`, `EarlyDecrementIsHeld`).
* Jitter is applied after the cap, so a delay may exceed `maxDelay`: exactly when the policy jitters and 1.2 times the
  base delay rounds to more than the cap (`Retry.MayExceedExact`).

## Model

| member | source | states |
|---|---|---|
| RateLimiter.Limiter.CheckAndRecord | packages/core/src/rate-limiter.ts:82-132 | A call is allowed exactly when fewer than `max` earlier allowed calls lie in (now - window, now]; the key then holds exactly the allowed calls of that window, and `remaining` counts what is left |
| RateLimiter.Limiter.Multi | packages/core/src/rate-limiter.ts:96-107 | The atomic evict, add, count and expire: with the call's entry the key holds the live calls and the call, without it the live calls; the count is one more than the live calls |
| RateLimiter.BurstFills | packages/core/src/rate-limiter.ts:105-131 | Any burst of calls at one instant fills the window up to `max` and no further |
| RateLimiter.BurstExact | packages/core/src/rate-limiter.ts:121-131 | `remaining` is exact: of any further calls at the same instant precisely the first that many are allowed |
| RateLimiter.TtlMs | packages/core/src/rate-limiter.ts:90-90 | The key's TTL exceeds the window by at least 60 and less than 61 seconds |
| RateLimiter.RunKeepsInv | packages/core/src/rate-limiter.ts:87-119 | Over every interleaving, with clean-ups delayed and the TTL firing, an allowed call keeps its entry until its window has passed, every entry is a call's, and the TTL outlives each entry's window by a minute |
| RateLimiter.MultiExact | packages/core/src/rate-limiter.ts:95-119 | In every interleaving a MULTI is allowed exactly when fewer than `max` entries of other calls are left in its window; it leaves those and its own, and a refused call goes on to its ZREM |
| RateLimiter.AtMostMaxPerWindow | packages/core/src/rate-limiter.ts:95-119 | In every interleaving of any number of calls at most `max` are allowed in any interval of the window's length, less the time that may pass between clock reading and MULTI |
| RateLimiter.AtMostMaxInOrder | packages/core/src/rate-limiter.ts:88-119 | Calls that reach Redis in the order of their clock readings, none later than the TTL exceeds the window, keep the limit over the whole window |
| RateLimiterBounds.LagBoundIsTight | packages/core/src/rate-limiter.ts:88-119 | For every positive limit, every window and every lag some run breaks the limit in an interval one millisecond longer |
| RateLimiterBounds.LimitExact | packages/core/src/rate-limiter.ts:88-132 | Over all runs the limit holds over an interval of a given length exactly when that is at most the window less the lag, the one exception being a limit of one call per millisecond; a limit of zero or less admits nothing at all |
| RateLimiterBounds.InOrderExact | packages/core/src/rate-limiter.ts:88-132 | Over all runs in that order the limit holds over the whole window exactly when the window plus the possible delay is at most the TTL; a call that comes later can find the key expired |
| RateLimiter.TtlDropsOnlyStaleEntries | packages/core/src/rate-limiter.ts:90-102 | Whenever the TTL can fire, every entry it drops left the window at least a minute before |
| CircuitBreaker.Breaker.SetState | packages/core/src/circuit-breaker.ts:97-113 | Overwrites state, failures and stamp of one provider and sets the TTL that belongs to the state; other providers keep theirs |
| CircuitBreaker.Breaker.IsAllowed | packages/core/src/circuit-breaker.ts:116-154 | The answer and the new key in each state: absent, closed, half-open with and without a free probe key, open before and after the time-out |
| CircuitBreaker.Breaker.RecordSuccess | packages/core/src/circuit-breaker.ts:165-184 | Closes a half-open circuit; otherwise only resets the count and leaves state and stamp alone |
| CircuitBreaker.Breaker.RecordFailure | packages/core/src/circuit-breaker.ts:193-226 | Reopens a half-open circuit; otherwise counts, and opens at the threshold, whether or not the circuit was open before (`OpensAtThreshold`) |
| CircuitBreaker.WindowHolds | packages/core/src/circuit-breaker.ts:97-154 | For time-outs up to an hour: until the time-out after the last stamp of "open" has passed the hash says open with that stamp, its TTL outlives it, and nothing is admitted |
| CircuitBreaker.OpenWindowExact | packages/core/src/circuit-breaker.ts:139-184 | No request is ever admitted within the time-out of the last stamp of "open", over all runs, exactly when the time-out is at most 3,600,000 ms |
| CircuitBreaker.LongTimeoutAdmitsEarly | packages/core/src/circuit-breaker.ts:179-184 | Beyond an hour, a success recorded while open lets the hash expire early and the next check admits |
| CircuitBreaker.ProbesAreSpaced | packages/core/src/circuit-breaker.ts:126-137 | Admissions in an already half-open state are at least the time-out, rounded up to seconds, apart |
| CircuitBreaker.TwoProbes | packages/core/src/circuit-breaker.ts:126-154 | At the transition of an open circuit past its time-out the first of three requests in one instant is admitted, the third refused, and the second admitted exactly when nobody holds the probe key |
| CircuitBreaker.SingleProbeExact | packages/core/src/circuit-breaker.ts:116-154 | For every sequence of checks after the transition within the half-open hash's TTL: none is admitted besides the transition exactly when there is none or the last comes before the probe key of an earlier spell ends; the comment at lines 58-59 promises none |
| CircuitBreaker.ProbeHeldExact | packages/core/src/circuit-breaker.ts:126-154 | Over all runs, some transition finds the probe key of an earlier spell still held exactly when the time-out is not a whole number of seconds |
| CircuitBreaker.OpensAtThreshold | packages/core/src/circuit-breaker.ts:165-226 | From every key that is absent, expired, unopened or closed, whatever it counts, and for every sequence of successes and failures, however spaced, that has not opened the circuit before: the stored count is the number of failures in a row, where a success and an hour without a record end a row, and the circuit opens exactly when that number reaches the threshold |
| CircuitBreaker.OpensAgain | packages/core/src/circuit-breaker.ts:116-226 | So over whole runs, wherever a check finds no state or a closed one, after any number of openings and probes |
| CircuitBreaker.AloneIsWhole | packages/core/src/circuit-breaker.ts:116-226 | A read and a write that nobody interrupts leave the hash that the whole operation leaves |
| CircuitBreaker.SplitInv | packages/core/src/circuit-breaker.ts:165-226 | With reads and writes of any number of instances interleaved and the key lapsing at will, neither the hash nor any pending write pairs a count at the threshold with a state other than open |
| CircuitBreaker.CountMeansOpenExact | packages/core/src/circuit-breaker.ts:193-226 | Failures at or above the threshold imply open in every reachable hash exactly when the threshold is positive |
| CircuitBreaker.OpenStaysExact | packages/core/src/circuit-breaker.ts:97-226 | Interleaved, a circuit just stamped open is found open throughout its time-out, in every continuation in which the key does not lapse, exactly when no instance holds a write that would close or half-open it |
| CircuitBreaker.EveryReaderTransitions | packages/core/src/circuit-breaker.ts:118-147 | Any number of instances that read an open hash past its time-out before one of them writes all go on to write half-open and admit |
| CircuitBreaker.StaleSuccessCloses | packages/core/src/circuit-breaker.ts:165-207 | For every configuration some run from the start reaches a circuit stamped open beside a pending close: a success read half-open before another instance reopened; its write admits at once |
| Retry.BaseDelayMonotone | packages/core/src/dispatch/retry.ts:53-63 | Base delays never shrink with the attempt and never exceed `maxDelay`, for both schedules |
| Retry.BaseDelaySteps | packages/core/src/dispatch/retry.ts:53-63 | No delay before the first call, `initialDelay` before the second, and then twice the last or that much more, always cut off at `maxDelay` |
| Retry.LinearBelowExponential | packages/core/src/dispatch/retry.ts:59-63 | With the same figures the linear delay never exceeds the exponential one |
| Retry.JitterWithinTwentyPercent | packages/core/src/dispatch/retry.ts:65-76 | For every draw the delay lies within 20% of the base delay, up to rounding |
| Retry.JitterIsScaled | packages/core/src/dispatch/retry.ts:65-76 | The jittered delay is the base delay times 0.8 plus 0.4 times the draw, rounded; without jitter it is the base delay |
| Retry.MayExceedExact | packages/core/src/dispatch/retry.ts:61-76 | Some draw lifts a delay above `maxDelay` exactly when the policy jitters and 1.2 times the base delay rounds to more |
| Retry.ExecuteWithRetry | packages/core/src/dispatch/retry.ts:86-217 | For every sequence of provider outcomes: verdict, attempts and history are those of the first final outcome or of the last attempt, and the pauses taken are the back-offs and requested waits in order |
| Retry.React | packages/core/src/dispatch/retry.ts:102-204 | One attempt's branches: the loop ends only on success, permanent failure or the last attempt, with the verdict that outcome deserves |
| Retry.Calls | packages/core/src/dispatch/retry.ts:94-205 | The number of calls: up to the first success or permanent failure, or all attempts when there is none |
| Retry.HistoryFacts | packages/core/src/dispatch/retry.ts:94-216 | The history is numbered 1..n, n equals `attempts` and is at most `maxAttempts`; only the last entry can be final; exhausted exactly when none of the first `maxAttempts` outcomes is final |
| Retry.OutcomeSays | packages/core/src/dispatch/retry.ts:94-216 | By the calls alone: one entry for each, numbered, with its success or the thrown code and message; and the verdict that the last call deserves, with its message id, tokens, codes, messages and classification |
| Retry.FinalSays | packages/core/src/dispatch/retry.ts:110-170 | The loop stops after a success, a result classified as permanent, and an error that is not retryable |
| Retry.PausesGrow | packages/core/src/dispatch/retry.ts:94-205 | Each call is preceded by its back-off and, after a rate limit that leaves an attempt, followed by the pause the provider asks for |
| Retry.PausesAreBaseDelays | packages/core/src/dispatch/retry.ts:94-205 | Without jitter and rate limits the pauses are the base delays in order |
| Dispatch.PriorityChooses | packages/core/src/dispatch/dispatcher.ts:130-135 | Choosing the first provider not exhausted meets the contract the loop needs of a strategy |
| Dispatch.Dispatcher.RunProviders | packages/core/src/dispatch/dispatcher.ts:133-303 | The failover loop ends, and runs, records and collects exactly what the strategy, the breaker and the verdicts determine |
| Dispatch.Dispatcher.Dispatch | packages/core/src/dispatch/dispatcher.ts:111-304 | Ends in exactly one of suppressed, sent, rejected and exhausted, or in the error of a failing dead-letter or suppression write; a dead letter exactly when exhausted, holding all histories in order; one status write, legal from pending, with the number of attempts, and none after such an error; suppressions and token deactivations exactly by error code and channel |
| Dispatch.EveryProviderAtMostOnce | packages/core/src/dispatch/dispatcher.ts:133-303 | Every dispatch runs each provider name at most once, goes on only past exhausted providers, and ends as the last verdict says |
| Dispatch.DeliverCallsBounded | packages/core/src/dispatch/dispatcher.ts:188-199 | At most (number of names) x (maxAttempts) calls of `deliver`; the collected attempts are exactly the calls made |
| Dispatch.EveryCallIsCollected | packages/core/src/dispatch/dispatcher.ts:190-199 | One attempt for every call of every provider run, in order, with the provider's name and the thrown code and message, or SUCCESS, or UNKNOWN |
| Dispatch.EndConcludes | packages/core/src/dispatch/dispatcher.ts:136-303 | By the last call of the last provider run alone: the answer with its message id or code and message, the tokens deactivated and the address suppressed |
| Dispatch.NobodyIsForgotten | packages/core/src/dispatch/dispatcher.ts:133-181 | When a dispatch ends with nobody left, every provider name has run or was refused by its breaker |
| Dispatch.FollowsStrategy | packages/core/src/dispatch/dispatcher.ts:133-135 | Without a breaker each provider run is the one the strategy chooses when those before it are exhausted |
| Dispatch.OneRecordPerProviderRun | packages/core/src/dispatch/dispatcher.ts:168-181 | Every provider's key sees at most one check, exactly one record if the provider ran, however many retries, and none if it was skipped or not reached |
| Dispatch.OneMoreDispatch | packages/core/src/dispatch/dispatcher.ts:168-303 | A dispatch over a single provider records exactly one outcome on its key, closed before or never opened: a delivery ends the row of failures, anything else makes it one longer and opens the circuit when that reaches the threshold |
| Dispatch.OpensOnThresholdthDispatch | packages/core/src/dispatch/dispatcher.ts:168-303 | With one provider whose circuit is closed or was never opened, whatever it counts, over every sequence of dispatches that deliver or fail, the circuit opens exactly when the failures in a row since the last delivery, or since an hour without any, reach the threshold |
| DigestKeys.IndexOf | packages/core/src/digest/engine.ts:220-220 | The first position of a character, or -1 exactly when it does not occur |
| DigestKeys.ParseInvertsMapKey | packages/core/src/digest/engine.ts:219-223 | Splitting a checkpoint field at its first colon gives back the pair exactly when the subscriber id has no colon |
| DigestKeys.ParseKeepsKey | packages/core/src/digest/engine.ts:243-249 | Whatever pair is parsed names the same Redis key |
| DigestKeys.ParseInvertsDigestKey | packages/core/src/digest/flush.ts:24-26 | Recovery gives back the pair of a scanned buffer exactly when the subscriber id has no colon and the key contains neither "flush_lock:" nor "_checkpoint" |
| DigestKeys.OtherKeysAreSkipped | packages/core/src/digest/flush.ts:31-45 | Lock and checkpoint keys, for every pair and instance, are never taken for buffers |
| DigestKeys.CheckpointEventIsSkipped | packages/core/src/digest/engine.ts:239-240 | No buffer whose subscriber id or event type contains "_checkpoint" or "flush_lock:" is recovered |
| DigestKeys.SkippedExact | packages/core/src/digest/engine.ts:238-248 | A scanned buffer is passed over exactly when its key contains "flush_lock:" or "_checkpoint" |
| DigestFlow.BatchIsSortedBuffer | packages/core/src/digest/flush.ts:80-97 | A flushed batch is a permutation of the buffer it emptied, sorted by timestamp |
| DigestFlow.QuietFlushReturns | packages/core/src/digest/engine.ts:165-195 | A flush that nobody disturbs empties the buffer, and its caller or the handler receives all of it, sorted |
| DigestFlow.EventsAreConserved | packages/core/src/digest/engine.ts:126-204 | Over every interleaving of additions, flushes, lock expiries, crashes and TTLs, the events added are the disjoint union of those buffered, expired and taken by some flush |
| DigestFlow.BatchesArePlaced | packages/core/src/digest/engine.ts:165-203 | Each batch taken is in exactly one place: received by a caller or the handler, unheard because a timed flush has no handler or nothing to tell, dropped by a flush cut short, or in the hands of one instance |
| DigestFlow.AddedIsReturned | packages/core/src/digest/engine.ts:126-400 | At rest the events added are the disjoint union of those buffered, expired, received, and in batches unheard or dropped |
| DigestFlow.MissedExact | packages/core/src/digest/engine.ts:165-400 | A batch with events has reached nobody exactly when some flush was cut short while it held events, or one by the poller or at shutdown held events without a handler |
| DigestFlow.NothingIsDropped | packages/core/src/digest/engine.ts:126-400 | At rest, everything added is buffered, expired or received exactly when no flush of the run ended in one of these two ways |
| DigestFlow.TimedFlushTellsNobody | packages/core/src/digest/engine.ts:333-349 | Without a handler a timed flush takes its events from Redis and hands them to nobody, with no crash or error |
| DigestFlow.BatchesReturnedOnce | packages/core/src/digest/engine.ts:165-180 | No batch is ever held by two instances or received twice, even when the lock expired or another holder deleted it |
| DigestFlow.BatchesAreSorted | packages/core/src/digest/flush.ts:95-97 | Every batch of every run is sorted |
| DigestFlow.NoEventReturnedTwice | packages/core/src/digest/flush.ts:73-98 | An event added once occurs at most once in all returned batches together |
| DigestFlow.TwoHoldersTakeDisjointBatches | packages/core/src/digest/flush.ts:56-64 | The lock can expire under one holder and admit a second, which then finds the buffer empty |
| DigestEngine.Engine.AddEvent | packages/core/src/digest/engine.ts:126-154 | Adds to one slot only, renews its TTL, tracks it from its first event, and reports the threshold by the buffer's size |
| DigestEngine.Engine.FlushKey | packages/core/src/digest/engine.ts:165-195 | With a free lock it returns exactly the events that were buffered and not expired, sorted by timestamp, and leaves the slot empty and untracked; with a held one nothing at all happens |
| DigestEngine.Engine.WriteCheckpoint | packages/core/src/digest/engine.ts:274-293 | Afterwards the checkpoint is exactly the tracked entries: stale fields are gone |
| DigestEngine.Engine.PollAll | packages/core/src/digest/engine.ts:271-358 | One tick gives out the unexpired events of every due slot whose lock is free, sorted, leaves every other slot alone, untracks a due slot whose lock is held and whose buffer is gone, and checkpoints what was tracked before |
| DigestEngine.Engine.Stop | packages/core/src/digest/engine.ts:361-416 | Shutdown gives out the unexpired events of every tracked slot whose lock is free, sorted, leaves the others alone and deletes the checkpoint |
| DigestEngine.Engine.StartPolling | packages/core/src/digest/engine.ts:206-266 | A start restores the checkpoint, then tracks what the pages of the SCAN add; a second start does nothing |
| DigestEngine.RestartTracksEveryBuffer | packages/core/src/digest/engine.ts:213-260 | After a restart a buffer is tracked exactly when it was tracked before, checkpointed, or scanned with a key that is not mistaken for a lock or a checkpoint; a checkpointed pair keeps the instant of its first event |
| DigestEngine.RestartIsInTimeExact | packages/core/src/digest/engine.ts:206-358 | A recovered buffer is flushed at the first tick after the restart, and over all continuations nothing of it expires exactly when the TTL it had before lasts beyond that tick |
| DigestEngine.RunIsPunctual | packages/core/src/digest/engine.ts:298-357 | With a punctual poller: over every run a buffer is tracked exactly while it holds events, from the instant of its first one, and its next tick and TTL bound its life |
| DigestEngine.RunIsAccounted | packages/core/src/digest/engine.ts:126-416 | Over every run the events added are those buffered, those the TTL dropped and those that flushes and ticks gave out |
| DigestEngine.FlushedWithinTwoWindows | packages/core/src/emito.ts:171-171 | For windows up to a minute every non-empty buffer is tracked, younger than two windows and not yet at its TTL |
| DigestEngine.EverythingIsGiven | packages/core/src/digest/engine.ts:126-416 | For windows up to a minute the events added are those buffered and those given out |
| DigestEngine.NothingIsLostExact | packages/core/src/digest/engine.ts:139-143 | No buffered event ever expires unflushed, over all runs, exactly when the TTL is at least two windows |
| DigestEngine.LongWindowLoses | packages/core/src/digest/engine.ts:302-358 | Otherwise some run loses an event |
| MemberPages.NormalizeLimit | packages/db/src/repositories/pagination.ts:19-21 | Page sizes lie in 1..1000 |
| MemberPages.SelectedByMs | packages/db/src/repositories/drizzle-list-member-repository.ts:118-120 | A row passes the cursor exactly when its millisecond lies before the cursor's |
| MemberPages.OrderedIsWaiting | packages/db/src/repositories/drizzle-list-member-repository.ts:122-127 | The query returns exactly the confirmed rows of the list before the cursor |
| MemberPages.PageHolds | packages/db/src/helpers.ts:51-62 | A page holds at most `limit` different rows, all confirmed, in the list and before the cursor, none older than the next cursor |
| MemberPages.PageLeaves | packages/db/src/helpers.ts:56-59 | Of the rows it does not hold none is newer than the next cursor, and without a next cursor there is none |
| MemberPages.NextCursor | packages/db/src/repositories/pagination.ts:44-55 | The next cursor is the last row's millisecond and strictly before the cursor, so paging ends |
| Broadcast.BroadcastService.SendPages | packages/core/src/broadcast/service.ts:107-141 | The paging loop, over any table at each query: afterwards the hash holds the final status and the number of members sent to; after a failed query the saved offset lies behind everyone sent to and before every steady member not yet sent to |
| Broadcast.BroadcastService.ExecuteBroadcast | packages/core/src/broadcast/service.ts:43-167 | Unknown, archived or empty lists and a held lock send nothing and write nothing; otherwise the progress hash begins anew, the whole walk is sent, the hash ends as completed with the count of sends or as failed at an offset to go on from, and the lock is released |
| Broadcast.BroadcastService.ResumeBroadcast | packages/core/src/broadcast/service.ts:169-274 | Only running broadcasts resume; incomplete details or a missing list fail them; otherwise the walk goes on from the saved offset, and the count from the saved count |
| Broadcast.WalkRecords | packages/core/src/broadcast/service.ts:134-152 | A completed walk leaves no offset and the count of all sends; one whose query failed the count of the sends until then |
| Broadcast.FailedWalkCanGoOn | packages/core/src/broadcast/service.ts:134-152 | Of the members before its start, a failed walk has sent to every one confirmed throughout and alone in its millisecond, or it lies before the saved offset; nobody sent to lies before it |
| Broadcast.NoMemberTwice | packages/core/src/broadcast/service.ts:111-141 | Whatever happens to the table between pages, and even with equal creation times, no member is sent to twice |
| Broadcast.OnlyConfirmedMembers | packages/core/src/broadcast/service.ts:112-123 | Everyone sent to was a confirmed member of the list when some query ran |
| Broadcast.ReachedExact | packages/db/src/repositories/drizzle-list-member-repository.ts:120-126 | A completed run reaches a member confirmed throughout exactly when no page ends within the member's millisecond without holding the member |
| Broadcast.EveryoneReachedExact | packages/core/src/broadcast/service.ts:111-141 | Over any unchanging table every confirmed member of the list is sent to exactly when, newest first, no page break (every hundred members) falls between two of one millisecond |
| Broadcast.SendsInOrder | packages/core/src/broadcast/service.ts:111-141 | Where no page break is tied, a broadcast over an unchanging table sends to exactly the confirmed members, newest first |
| Broadcast.TiedMemberIsMissed | packages/core/src/broadcast/service.ts:111-141 | In particular, when the hundredth and the hundred-and-first newest share a millisecond the broadcast completes without the latter |
| Broadcast.ExactlyOnce | packages/core/src/broadcast/service.ts:107-147 | With members joining, leaving and changing status between pages, each member confirmed throughout and alone in its millisecond is sent to exactly once |
| Broadcast.SubMillisecondRowIsSkipped | packages/db/src/repositories/drizzle-list-member-repository.ts:120-133 | Distinct stored instants are not enough: a broadcast to 101 members, all created at different instants, completes and misses one |
| BroadcastRuns.WalkIsRun | packages/core/src/broadcast/service.ts:107-147 | The loop of the service, undisturbed, is a run of query, sends and offset write, page after page: the same sends, offset and status |
| BroadcastRuns.ExecuteIsRun | packages/core/src/broadcast/service.ts:83-147 | So is a whole broadcast, from its initial progress hash |
| BroadcastRuns.ResumeIsRun | packages/core/src/broadcast/service.ts:169-247 | And a resume: it goes on from the offset it reads, and what it read still holds when it gets the lock |
| BroadcastRuns.ResumeGivesUp | packages/core/src/broadcast/service.ts:183-204 | A resume without list or details writes "failed", and one without the lock nothing |
| BroadcastRuns.RunCovers | packages/core/src/broadcast/service.ts:169-247 | Over every run with crashes, resumes that read before they lock, table changes and any number of runners, no cursor passes a steady member that has not been sent to |
| BroadcastRuns.CompletedReachesEveryone | packages/core/src/broadcast/service.ts:83-147 | Once the status is "completed", every member confirmed throughout and alone in its millisecond has been sent to |
| BroadcastRuns.CrashesRepeatOnePageEach | packages/core/src/broadcast/service.ts:169-247 | While the lock excludes a second runner, what a resume read still holds when it gets the lock, and no crash comes after the last offset write, at most 100 sends per crash repeat an earlier one |
| BroadcastRuns.LateCrashStartsOver | packages/core/src/broadcast/service.ts:135-146 | A crash after the last offset write makes the next runner begin with the first page again |
| LateCrashes.LateCrashRepeatsAll | packages/core/src/broadcast/service.ts:135-146 | On any unchanging list some run with one crash sends to every member twice |
| LateCrashes.OnePagePerCrashExact | packages/core/src/broadcast/service.ts:107-247 | Late crashes included, each crash repeats at most 100 sends, over all such runs of an unchanging list whose members have different milliseconds, exactly when the list has at most 100 members |
| LateCrashes.StaleReadRepeatsAll | packages/core/src/broadcast/service.ts:169-211 | On any such list some run under a perfect lock and without a crash sends to every member twice: a resume read the progress hash before the first runner was done |
| LateCrashes.LockAloneExact | packages/core/src/broadcast/service.ts:169-247 | So with such reads, under a perfect lock, the bound holds over all runs exactly when the list has no members |
| Scheduler.BroadcastScheduler.Poll | packages/core/src/broadcast/scheduler.ts:41-74 | One poll executes, in score order, exactly the due broadcasts that no other poller removed first, and removes every due one |
| Scheduler.WonExact | packages/core/src/broadcast/scheduler.ts:48-63 | A poll executes exactly the due broadcasts that nobody else had removed by its own removal |
| Scheduler.WonInOrder | packages/core/src/broadcast/scheduler.ts:44-63 | Each once, and in the order of their times |
| Scheduler.RunKeepsAccount | packages/core/src/broadcast/scheduler.ts:44-70 | Over every interleaving, what was added and is no longer waiting, held, begun or refused is exactly what was abandoned: claims that ended in a crash or an error before their progress hash was complete; nothing is claimed early |
| Scheduler.BegunAtMostOnce | packages/core/src/broadcast/scheduler.ts:48-50 | With any number of pollers a broadcast is begun at most as often as it was scheduled, and never before its time |
| Scheduler.SevenWritesBegin | packages/core/src/broadcast/service.ts:86-92 | A claim is begun after the seven writes of its progress hash, and not before |
| Scheduler.LostExact | packages/core/src/broadcast/scheduler.ts:49-69 | A broadcast goes missing exactly when a claim of it ended in a crash, or in any error but a refusal, before its seven progress fields were written |
| Scheduler.ErrorLosesBroadcast | packages/core/src/broadcast/scheduler.ts:62-69 | One poller and one error suffice: the broadcast is gone and the poll goes on |
| Membership.FindBySlug | packages/db/src/repositories/drizzle-list-repository.ts:37-44 | A list found by slug exists and is not archived |
| Membership.MembershipService.Subscribe | packages/core/src/lists/membership.ts:39-86 | Unknown list, existing row, single opt-in, double opt-in and a failing mail: outcome and tables of each |
| Membership.MembershipService.Confirm | packages/core/src/lists/membership.ts:88-108 | Missing and already confirmed rows change nothing; any other row is confirmed and counted once |
| Membership.MembershipService.ConfirmMembership | packages/core/src/lists/confirm.ts:14-31 | The same through a confirmation link, where a missing row is no error |
| Membership.MembershipService.Unsubscribe | packages/core/src/lists/membership.ts:110-130 | The row is unsubscribed, and the count drops exactly when it was confirmed |
| Membership.MembershipService.CleanupExpired | packages/core/src/lists/membership.ts:139-142 | Deletes exactly the unconfirmed rows older than 72 hours and says how many |
| Membership.SubscribeSays | packages/core/src/lists/membership.ts:39-86 | Outcome, row and count of every case, and that nothing else changes |
| Membership.ConfirmSays | packages/core/src/lists/membership.ts:88-108 | The same for a confirmation, by the service and by the link |
| Membership.UnsubscribeSays | packages/core/src/lists/membership.ts:110-130 | The same for an unsubscription |
| Membership.CleanupSays | packages/core/src/lists/membership.ts:139-142 | Exactly the unconfirmed rows of more than 72 hours are deleted, and their number is returned |
| Membership.RunKeepsCounts | packages/core/src/lists/membership.ts:39-142 | Over every sequence of whole operations on any lists each memberCount stays the number of confirmed rows |
| Membership.ClampIsIdle | packages/db/src/repositories/drizzle-list-repository.ts:95-102 | Where counts agree, a decrement for a confirmed row never meets the clamp at zero |
| Membership.RunKeepsSettled | packages/db/src/repositories/drizzle-list-member-repository.ts:50-92 | No row returns to unconfirmed, and none that left it is ever deleted or recreated |
| Membership.AloneIsConfirm | packages/core/src/lists/membership.ts:88-108 | The repository calls of a confirmation that nobody interrupts do what the whole operation does |
| Membership.AloneIsUnsubscribe | packages/core/src/lists/membership.ts:110-130 | Those of an unsubscription |
| Membership.AloneIsSubscribe | packages/core/src/lists/membership.ts:39-86 | And those of a subscription |
| Membership.DriftIsSlips | packages/core/src/lists/membership.ts:88-130 | In every interleaving of repository calls the count, corrected for calls under way, drifts from the rows by exactly the stale writes, the held decrements and the changes of the count that a call did not live to make |
| Membership.AgreementExact | packages/core/src/lists/membership.ts:39-130 | Once all calls have ended, count and rows agree exactly when those slips cancel out |
| Membership.SeparateCallsAgree | packages/core/src/lists/membership.ts:39-142 | If no two calls on one row overlap, then under every interleaving, clean-ups included, no step slips exactly when no call ends between its status write and its change of the count; then count and rows agree once the calls have ended |
| Membership.OneCutDisagrees | packages/core/src/lists/membership.ts:105-106 | One confirmation that meets nobody and ends in between leaves the count one too low |
| Membership.TwoConfirmsCountTwice | packages/core/src/lists/confirm.ts:18-29 | Two overlapping confirmations of any unconfirmed row leave the count one too high |
| Membership.EarlyDecrementIsHeld | packages/db/src/repositories/drizzle-list-repository.ts:98-100 | So does a decrement that overtakes its increment on an empty list |
| Membership.InterleavingKeepsSettled | packages/db/src/repositories/drizzle-list-member-repository.ts:18-92 | No interleaving returns a row to unconfirmed |
| Sse.FramesUnique | packages/js/src/transport/sse.ts:164-167 | The split is the only reading of the input as closed events, each ended by a blank line, and a rest without one |
| Sse.FramesReadAll | packages/js/src/transport/sse.ts:164-167 | Putting the events and the rest together again gives the input |
| Sse.FramesAppend | packages/js/src/transport/sse.ts:161-167 | Splitting a prefix, keeping its rest and going on gives the events of the whole |
| Sse.ChunksDoNotMatter | packages/js/src/transport/sse.ts:151-174 | For every way of cutting a stream into chunks the deliveries, the last event id and the buffer depend only on the concatenation |
| Sse.SameCharactersSameMessages | packages/js/src/transport/sse.ts:151-174 | Two ways of cutting the same characters into chunks deliver the same messages and leave the same id and buffer |
| Sse.SseAdapter.ReadStream | packages/js/src/transport/sse.ts:151-189 | Reads any chunks, with disconnects anywhere between them, until the body ends or the read fails: every complete event handled in order, the incomplete one discarded, and state, errors and reconnection as each ending demands |
| Sse.SseAdapter.ParseEvent | packages/js/src/transport/sse.ts:191-222 | One event: the last event id follows a non-empty id, and only notifications with data that parses are delivered |
| Sse.LinesExact | packages/js/src/transport/sse.ts:196-197 | The lines of an event hold no newline, and joined by newlines they give the event |
| Sse.TrimExact | packages/js/src/transport/sse.ts:198-206 | Trimming takes the spaces at both ends and nothing else |
| Sse.ParseExact | packages/js/src/transport/sse.ts:191-206 | Type and id are those of the last such line, the data lines are joined, and any other line is ignored |
| Sse.OnEventExact | packages/js/src/transport/sse.ts:191-222 | So for every event: an id is remembered, and only a notification with data that parses is delivered, with its id |
| Sse.ParseText | packages/server/src/transport/sse.ts:13-26 | Parsing inverts the server's format: type, id and data come back unchanged |
| Sse.WireIsReceived | packages/server/src/transport/sse.ts:13-26 | After whole events and an open piece of what the server wrote, in any chunks, exactly their notifications were delivered in order with their stream ids, and the last id is remembered for the reconnect |
| Sse.PrefixOfWire | packages/server/src/transport/sse.ts:13-26 | Every prefix of what the server writes is a number of whole events and an open piece |
| Sse.AnyPrefixIsReceived | packages/js/src/transport/sse.ts:151-222 | So wherever the connection breaks, in any chunks, exactly the notifications of the completed events are received |
| ActionQueue.Queue.Enqueue | packages/js/src/queue/action-queue.ts:79-93 | Appends, evicting the oldest at capacity, and calls the write |
| ActionQueue.Queue.Flush | packages/js/src/queue/action-queue.ts:100-132 | Whatever else reaches the queue while a replay or a write is pending, the state afterwards is that of the event machine on what has happened; it returns early only while still waiting |
| ActionQueue.FlushReplaysEverything | packages/js/src/queue/action-queue.ts:100-132 | A flush that nothing disturbs replays every action in order, once or, if its first call fails, twice, tells the error handler of exactly those that fail twice, and ends with the queue empty in memory and storage |
| ActionQueue.ErrorsExact | packages/js/src/queue/action-queue.ts:113-123 | Over every run the error handler is called exactly for the actions whose second call fails, in that order |
| ActionQueue.Queue.EndRestore | packages/js/src/queue/action-queue.ts:144-156 | The end of a restore: missing and non-list data leave the queue, corrupt data empties it, a list replaces it |
| ActionQueue.Queue.BeginRestore | packages/js/src/queue/action-queue.ts:141-144 | The beginning of a restore: its read finds what the writes called before it leave |
| ActionQueue.QuietRestore | packages/js/src/queue/action-queue.ts:141-156 | A restore that nothing disturbs puts in the queue what the last write before it wrote, nothing if that is corrupt, and leaves it if there is no list |
| ActionQueue.EnqueuesKeepLongestSuffix | packages/js/src/queue/action-queue.ts:87-91 | Between flushes the queue is the longest suffix of old and new actions that fits |
| ActionQueue.RunKeepsInv | packages/js/src/queue/action-queue.ts:79-156 | Over every run, with writes in flight and crashes and restores at any moment: queue, storage, writes and reads hold enqueued actions in order and within capacity, only such are replayed, and a second call directly follows the first of its action |
| ActionQueue.GoneForGood | packages/js/src/queue/action-queue.ts:79-156 | An unreplayed action that is neither queued nor stored nor in a write or read under way is never replayed by any continuation |
| ActionQueue.UnlandedIsLost | packages/js/src/storage/indexeddb.ts:40-49 | From every state an enqueue and a crash before its write has landed lose the action in every continuation |
| ActionQueue.EarlyEnqueueLoses | packages/js/src/queue/action-queue.ts:79-93 | From every state a crash and an enqueue before the restore overwrite what was stored: each unreplayed stored action is lost in every continuation |
| ActionQueue.RestoreUndoes | packages/js/src/client.ts:142-146 | Whatever happens to a running queue during a restore is undone at its end, enqueues as well as removals of replayed actions |
| ActionQueueRuns.LostExact | packages/js/src/queue/action-queue.ts:79-156 | If nothing changes the queue while a restore is due or under way, an action ends up neither waiting, replayed, evicted nor cleared exactly when a replay's end took it off in place of another or a crash found it queued but not stored, and no later crash found it stored still |
| ActionQueueRuns.CalmRunsLoseNothing | packages/js/src/queue/action-queue.ts:79-156 | If moreover nothing is evicted or cleared while a replay is pending, every action of a write that ever landed is waiting, was evicted or cleared, or has been replayed, over all crashes and restarts |
| ActionQueueRuns.UnlandedExact | packages/js/src/queue/action-queue.ts:79-156 | In these runs an action is lost exactly when a crash found it queued before any write with it had landed |
| ActionQueueRuns.OrderlyRunsKeepOrder | packages/js/src/queue/action-queue.ts:100-156 | The last write called holds the queue, so that a restore of a running queue changes nothing and one after a crash brings back what has landed; between two crashes replays go up the enqueue order, ahead of everything that waits |
| ActionQueue.EvictionLosesForGood | packages/js/src/queue/action-queue.ts:87-127 | From every state with a full queue, a pending replay and no restore under way, one more action makes the end of the replay drop an action that, once the writes have landed, no continuation replays |
| ActionQueueRuns.CrashesRepeatOneActionEach | packages/js/src/queue/action-queue.ts:106-131 | Replays begun number at most the actions replayed plus the crashes, whatever is in flight at a crash |
| ActionQueue.ErrorsFollowSecondCalls | packages/js/src/queue/action-queue.ts:110-123 | The error handler hears of an action only after its second call |
| Store.NotificationStore.HandleRealtimeNotification | packages/js/src/state/store.ts:51-75 | Prepends an unread item, counts it and tells list and count |
| Store.NotificationStore.MarkAsRead | packages/js/src/state/store.ts:78-89 | Unknown and read items change and tell nothing; otherwise the item is stamped and the count drops by one, not below zero |
| Store.NotificationStore.Archive | packages/js/src/state/store.ts:92-102 | Removes the item; the count drops only if it was unread |
| Store.NotificationStore.MarkAsUnread | packages/js/src/state/store.ts:105-114 | The opposite of marking read, with the same no-ops |
| Store.NotificationStore.RevertMarkAsRead | packages/js/src/state/store.ts:117-131 | Restores the item's stamp and recounts the list |
| Store.NotificationStore.MarkAllAsRead | packages/js/src/state/store.ts:134-140 | Stamps every unread item and leaves no count |
| Store.ApplySays | packages/js/src/state/store.ts:51-140 | Every operation by its effect on each place of the list, on the count and on what listeners are told |
| Store.UnreadCounts | packages/js/src/state/store.ts:127-128 | The recount is the number of items whose `readAt` is missing or empty |
| Store.RunKeepsSurplus | packages/js/src/state/store.ts:51-140 | Over every run with fresh arrivals: ids stay unique, the count keeps its surplus over the unread items listed, so it agrees forever once it agrees, and the clamp never acts; a recount drops the surplus |
| Store.DuplicateBreaksCount | packages/js/src/state/store.ts:51-86 | Freshness is needed: a second arrival under an unread id makes the count one too high |
| Store.OptimisticUpdater.MarkAsRead | packages/js/src/state/optimistic.ts:19-34 | Marks at once, lets any operations run meanwhile, and on failure reverts and throws |
| Store.FailedRestoresList | packages/js/src/state/optimistic.ts:19-34 | After a failure the list is as if the update had never been made, whatever happened to other items meanwhile, other optimistic updates included |
| Store.FailedRestoresExact | packages/js/src/state/store.ts:127-128 | So is the count exactly when it had no surplus over the list or something recounted it meanwhile |
| Store.FailingTwiceLeavesRead | packages/js/src/state/optimistic.ts:22-33 | Two overlapping updates of one unread item that both fail leave the list as it was exactly when the one begun later fails first; otherwise the item stays read |
| Sorting.SortBySorts | packages/core/src/digest/flush.ts:95-95 | The sort returns a sorted permutation |
| Clock.CeilSeconds | packages/core/src/rate-limiter.ts:90-90 | Rounding up to whole seconds covers the milliseconds and exceeds them by less than a second |

## Left out

- RateLimiter.Limiter.CheckAndRecord: a window of zero or negative length is not modelled; one key at a time, so the key
  format is not either.
- RateLimiter.AtMostMaxPerWindow: the clock is one non-decreasing clock for all callers; skew between hosts appears only
  as lag.
- CircuitBreaker.OpenWindowExact: whole operations one at a time; `OpenStaysExact` is the form for interleaved ones,
  where the key does not lapse (`SplitInv` lets it). Threshold and time-out are integers, the time-out not negative.
- CircuitBreaker.TwoProbes: a time-out of zero, for which Redis refuses to set the probe key, is not covered.
- BroadcastRuns.CrashesRepeatOnePageEach: assumes that nobody gets the lock while a runner is alive; the lock is a
  300-second key that is never renewed, so a slow page can break that. `OnePagePerCrashExact` assumes the same.
- DigestEngine.RunIsPunctual: one instance, whole operations, an uncontended lock and a poller that runs on time.
- Sse.WireIsReceived: JSON texts and stream ids are single lines that trimming leaves alone, as `JSON.stringify` of an
  object and Redis stream ids are; JSON itself is a predicate saying which texts parse.
- Sse.SseAdapter.ReadStream: a new `connect()` during the read, which would clear the intent to close, is not modelled.
- Sse.ChunksDoNotMatter: chunks are already characters (UTF-8 decoding is not modelled), and only "\n\n" ends an event:
  the code does not treat the carriage returns that section 9.2.6 of the WHATWG HTML Standard also allows.
- ActionQueue.Queue.Flush: a queue without storage, or a write or read that fails, is not modelled; writes and reads of
  IndexedDB take effect in the order of their calls, also while the database is being opened. Ids are serial numbers.
- ActionQueueRuns.LostExact: one restore at a time.
- Scheduler.BroadcastScheduler.Poll: the poll timer, and the SCAN by which a start finds running broadcasts, are left
  out; what a resumed broadcast does is in `Broadcast` and `BroadcastRuns`.
- Membership.MembershipService.Subscribe: tokens, mail texts, sources and `subscribedAt` are left out.
- Dispatch.Dispatcher.Dispatch: status writes and token deactivations that throw are only logged by the code and do not
  change the outcome; the model counts them as attempted. A suppression check that throws, before anything is done, is
  left out. Round-robin and weighted selection appear through their contract.
- Row ids stand for subscriber ids, and creation instants are whole microseconds.
- Redis failures outside a flush and a scheduled broadcast, which the code answers by letting requests through or
  returning nothing.
- HTTP, authentication, providers, templates, preferences, metrics and logging, and the WebSocket and polling
  transports.
- Heartbeat and reconnect timers, and the server's catch-up of missed stream entries.
