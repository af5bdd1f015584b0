# Relay's delivery engine, verified

Relay accepts events over HTTP, writes them next to an outbox row, fans each one out to the
endpoints that subscribe to it, and delivers every resulting message at least once, with retries, a
circuit breaker per endpoint, a dead-letter queue and replay. Four kinds of worker do this over
three stores, and any of them can die between any two commands. This project models that engine
and proves what it promises, and exactly where a promise stops.

Check everything with `dafny verify dfyconfig.toml`.

## How the model is built

**One endpoint at a time, with time.** `Breakers`, `Deliveries`, `Backoff` and `Attempts` are the
pure decisions, `AttemptLogs` says what a row claims about its attempt log; `Services` holds the
in-place services over a unit of work, each proved equal to a function on the committed tables.
`EndpointHistory` runs those functions over arbitrary histories
of one endpoint: attempts in any order on rows in any state, redelivered messages included, and
replays. `RetryTimes` says what such a history leaves in each column and when a retry wakes up;
`OutageRate` and `BoundedWork` bound what it can do. Times are whole
microseconds; the random draw of the backoff, the clock and the receiver's answer are inputs.

**The crash-and-recover protocol.** `Protocol` is a step system: committed rows, open fan-out
transactions, the stream, the pending-entries list (PEL), the retry set, what each coroutine has
read, what a scheduler or a replay holds in memory, and one action for each atomic command and for
the death of each process. A run is any interleaving of actions. `Frames` and `Invariants` carry
the bookkeeping; `NoLostWork`, `Hazards`, `LostRetry`, `AckJustified`, `FanOut`, `Tenants`, `Orphans`,
`CleanRuns`, `CleanSpec`, `CleanLog`, `Correlation` and `SendConservation` are the theorems,
`ProtocolWork` carries the bound of `BoundedWork` over to runs, and `Scenarios` holds the concrete
runs that the examples (`LostRetry`, `RacingReplays` and others) are made of. A ghost ledger records identifiers
drawn, requests sent and the crash windows hit; no step reads it except to draw a fresh identifier.

**The workers.** `Clusters.Cluster` is one mutable object for the three stores. It keeps the run so
far and requires every command to be enabled, so whatever a worker does, every theorem about runs
holds of the state it leaves. `Coroutines` (dispatcher), `Reapers`, `Relays` and `Schedulers`
(scheduler and replay) are the worker loops as methods on it; `Others` lets everybody else take any
number of steps between two commands.

**Three self-contained pieces.** `TokenBucket`, `TokenWindows` and `TokenExpiry` (the rate limiter
script, its bucket if it never expired, and its bucket under two clocks), `Ingest` with
`IngestServices` (idempotent ingest under races) and `Paging` (keyset paging over a changing table).

## Assumptions

Redis and Postgres keep what they committed, and the protocol's clock does not run backwards; where
one of these two matters it is visible as the shape of the state or as a requirement. The rate
limiter assumes nothing about clocks: its requests carry the stamps of the replicas, the store
expires keys by its own clock, and neither is tied to the other. Settings are constants.

An attempt and a replay each read the rows they work on in one step and commit in a later one, with
anything in between, since the source takes no lock. Only the layer of `EndpointHistory` runs them
one after the other.

Two assumptions are named predicates, used only where stated (`Hazards.Assumed`): the reaper claims
a message only when no coroutine holds it any more, which is what `src/relay/infra/streams.py`
lines 94-97 intend and no code enforces, and a fan-out transaction is closed before a message it
published can be claimed, which `src/relay/workers/reaper.py` lines 53-58 argue from the 30 seconds
a message must be idle. `NoLostWork`, `AckJustified.EveryAckIsJustified`, `FanOut` and
`SendConservation` do without them.

The theorems of `CleanSpec`, `CleanLog` and `ProtocolWork` are about clean runs
(`CleanRuns.CleanRun`), and only they are. Each action of a clean run keeps three named conditions:
a reaper claims only messages that no coroutine holds (`Hazards.ClaimsFromTheDead`), none whose
attempt has already committed, and a replay commits its reset over the very row it read
(`CleanRuns.ResetsWhatItRead`). The source enforces none of the three. `ProtocolWork` also takes the
attempts of one endpoint to decide by the breaker that the one before committed
(`ProtocolWork.FollowBreaker`).

## What the proofs found

- At-least-once has two holes that need nothing but one death at the wrong moment: a scheduler
  between its pop and its XADD, and a replay between its commit and its XADD. `docs/guarantees.md`
  states the guarantee without the first; the second is conceded in
  `src/relay/services/deliveries/replay_service.py` lines 53-56. `Hazards.OnlyInHandWindowsRemain`
  shows there are no others under the two assumptions, `Hazards.SchedulerCrashLosesExactly` and its
  siblings say exactly when such a death loses a delivery, and `LostRetry.SchedulerDeathAbandons`
  and `LostRetry.ReplayDeathAbandons` are concrete runs at whose end a delivery with budget left is
  never attempted again.
- Without the assumptions there are two more: a coroutine that dies owing the retry set a member
  after somebody claimed and acknowledged its message (`LostRetry.RobbedDeathAbandons`), and a
  reaper that drops the message of a delivery whose transaction is still open
  (`LostRetry.EarlyDropAbandons`).
- `docs/adr/0004-phase-2-delivery-engine.md` lines 59-64 expect a duplicate delivery when a relay
  dies between XADD and commit. The next fan-out draws fresh delivery ids, so the earlier messages
  name rows that never exist (`Orphans.RolledBackStaysAbsent`): no duplicate, only orphan messages
  for the reaper to drop.
- An attempt never looks at the state of its delivery, so a redelivered message can reopen a
  finished one; `EndpointHistory.RedeliveryReopensExactly` says when,
  `EndpointHistory.RedeliveryReopensDelivered` shows it happen, and
  `CleanSpec.FinishedStaysFinished` says that it takes a redelivery or a racing replay.
- A replay does not look again before it commits. Two replays of one dead delivery can both reset and
  both publish it, without a redelivery or a crash window (`RacingReplays.RaceMakesTwoTokens`), and the
  second can reset a delivery that the first one's attempt has delivered meanwhile
  (`RacingReplays.RaceReopensDelivered`). The guarantees that survive are those that need no clean
  run: nothing is lost, every acknowledgement is justified, and sends are conserved.
- A replay publishes its message without the event's correlation id, so the id of an event that has
  one follows its delivery exactly until a reset is published
  (`Correlation.CorrelationFollowsExactly`, `Correlation.ReplayLosesCorrelation`).
- The rate limiter can admit more than the burst and the rate allow for two reasons. Stamps that step
  back can have the same time refilled twice (`TokenExpiry.ReturningClockBreaksBound`): without
  expiry the bound is kept exactly when, between any two requests, the forward steps add up to no
  more than the distance between the two stamps (`TokenWindows.BoundedExactly`); 5, 3, 4 keep it,
  3, 5, 4 and 5, 3, 5 do not. And the store's clock can expire the key before the stamps have
  refilled the burst: under the default limits a replica that runs a second and a half ahead is
  enough to admit 40 where 38 are allowed (`TokenExpiry.SkewBreaksBound`). Expiry is invisible for
  every rate and burst exactly when, between consecutive requests, the stamps advance by at least
  the store's advance rounded up, less two seconds (`TokenExpiry.InvisibleExactly`,
  `TokenExpiry.PaceForAll`); for stamps that never step back this is also exactly when the bound
  holds (`TokenExpiry.WindowBoundForAll`). The script's extra second buys a second of slack
  (`TokenExpiry.ASecondOfSlack`).
- The comment in `src/relay/domain/deliveries/backoff.py` line 16 gives the delay interval without
  its upper end; the code's draw includes it, and so does the model.

## Model

| member | source | states |
|---|---|---|
| EndpointHistory.BreakerClosedForm | src/relay/domain/endpoints/breaker.py:54-73 | Over every history the committed breaker columns are a function of the requests sent: the failure count is the trailing run of failures, the breaker is open exactly when that reached the threshold, opened_at is set exactly when open and is the start of the last failed attempt, and half-open is never committed. |
| EndpointHistory.RowsRefineLogs | src/relay/services/deliveries/service.py:133-156 | Over every history, redeliveries and replays included: next_retry_at is set exactly when retrying, pending means no attempts, delivered and dead rows end in a success and a failure of an exhausted budget, attempt_count is the last attempt number, and attempt numbers form chains 1..k of which only a last one may be unfinished. |
| EndpointHistory.LogsAreAppendOnly | src/relay/repositories/delivery_attempts/repository.py:35-60 | Whatever happens later, replays included, the attempt log of a delivery stays a prefix of what it becomes. |
| RetryTimes.RowToldByLastOp | src/relay/services/deliveries/service.py:69-156 | Over every history, each row and its log are untouched, or exactly what the last operation that worked on them says column by column: put off to opened_at plus the cooldown, delivered by a 2xx without an error, dead with the budget used up, retrying at the attempt's start plus the drawn delay whatever the failure was, or reset; with one log row, one breaker transition and one recorded send per request and none otherwise. |
| RetryTimes.RetryWakesInTime | src/relay/services/deliveries/service.py:151-156 | Over every history with valid draws, a retrying row wakes up at the end of the cooldown that put it off, or no earlier than the start of its last attempt and no later than that by the bound of the retry it is. |
| EndpointHistory.RedeliveryReopensExactly | src/relay/services/deliveries/service.py:54-82 | Processing a finished delivery again leaves it unfinished if and only if the breaker defers it, or the request fails while its count leaves budget. |
| EndpointHistory.RedeliveryReopensDelivered | src/relay/services/deliveries/service.py:54-82 | A history of one fresh delivery that its first request delivers and a redelivered message leaves retrying. |
| RetryTimes.ChainDelayBudget | src/relay/services/deliveries/service.py:145-156 | The waits that the attempts of one chain schedule, from each attempt's start to the wake-up it leaves, total at most base * (2^k - 1) + cap * (max_attempts - 1 - k), k being the number of uncapped retries. |
| Backoff.BoundIsMonotone | src/relay/domain/deliveries/backoff.py:25 | The bound of the first retry is the base, no later retry's is smaller than an earlier one's, and none exceeds the cap. |
| Backoff.BoundValues | src/relay/domain/deliveries/backoff.py:3-25 | The bounds are 1, 2, 4, 8, 16 and 32 seconds, and a minute from the seventh retry on. |
| Backoff.BoundSumClosedForm | src/relay/domain/deliveries/backoff.py:25 | The bounds of the first n retries sum to a geometric part plus the cap for each retry past it. |
| OutageRate.OutageRateBound | src/relay/services/deliveries/service.py:66-131 | Whatever happened to the endpoint before, from a moment its breaker is closed with zero failures, a history without a success sends at most threshold + floor(T / cooldown) requests in any window of length T. |
| OutageRate.OutageIsSpaced | src/relay/domain/endpoints/breaker.py:18-32 | From such a moment on, whatever rows and logs there are, consecutive requests past the threshold start at least one cooldown apart, and the breaker is a function of the requests sent since. |
| BoundedWork.StepDecreasesMeasure | src/relay/services/deliveries/service.py:69-82 | Every due processing step, send or deferral, decreases the pair (remaining budget, rows that would still be deferred). |
| BoundedWork.BoundedWork | src/relay/services/deliveries/service.py:145-156 | n deliveries of one endpoint cause at most n * max_attempts requests and at most n * max_attempts * (n + 1) processing steps, deferrals included. |
| BoundedWork.DeferredAtMostOnce | src/relay/services/deliveries/service.py:75-82 | Between two consecutive requests to the endpoint no delivery is deferred twice: processed again when due, it sends. |
| ProtocolWork.ProtocolWorkIsBounded | src/relay/services/deliveries/service.py:54-165 | In a clean run whose attempts for n deliveries follow one breaker: with r resets of them, at most (n + r) * max_attempts attempts are committed, and at most (n + r) * max_attempts * (n + 1) + r attempts and deferrals together. |
| Services.DeliveryAttemptService.Attempt | src/relay/services/deliveries/service.py:54-165 | One attempt commits exactly the tables that the attempt function gives, or nothing when, and only when, the delivery, its event or its endpoint is missing; the session never keeps uncommitted writes. |
| Services.ReplayService.Replay | src/relay/services/deliveries/replay_service.py:35-51 | Not found exactly when the row or its event is missing or the event's tenant is another; a delivery that is not dead gives its state; neither changes anything. Otherwise exactly that row becomes pending with no attempts and no wake-up. |
| Services.AttemptInColumns | src/relay/services/deliveries/service.py:69-165 | What an attempt commits, column by column: a deferral changes the delivery row alone; a request changes the row, the breaker of its endpoint and its log, by the answer, the budget and the draw. |
| Services.ReplayStaysInTenant | src/relay/services/deliveries/replay_service.py:40-47 | In any sequence of attempts and replays, a replay changes at most the row it names, that row was dead, and its event has belonged to the calling tenant from the start. |
| Services.AttemptIsHistoryStep | src/relay/services/deliveries/service.py:54-165 | What the service commits for a delivery of an endpoint is one step of that endpoint's history, so every theorem on histories speaks of committed rows. |
| Services.AttemptElsewhereIsInvisible | src/relay/services/deliveries/service.py:119-131 | An attempt against another endpoint changes nothing in this endpoint's history. |
| Services.ReplayIsHistoryStep | src/relay/repositories/deliveries/repository.py:86-100 | A committed replay is one replay step of the history; the attempt log is untouched. |
| Invariants.RunIsWf | src/relay/infra/streams.py:61-102 | In every reachable state the PEL and the coroutines name messages that were handed out, every message names a delivery id that was drawn, delivery ids are never shared between the store and open transactions, and a reaper about to drop a message knows the delivery is gone, or an early drop is on record. |
| NoLostWork.NoLostWork | src/relay/workers/dispatcher.py:45-54 | In every state of every run, each unfinished committed delivery is carried: an unread entry, a PEL entry nobody is about to acknowledge, a retry-set member, something in a scheduler's or a replay's hand, or a coroutine that still owes the retry set; or one of four crash windows was hit for it. |
| NoLostWork.LostOnlyByHit | src/relay/workers/dispatcher.py:45-54 | Whatever crashed before: a delivery with work to do and no carrier has been so without a break since a step that hit one of the four crash windows for that very delivery. |
| NoLostWork.WorkMovesPel | src/relay/workers/dispatcher.py:162-193 | A PEL entry stops carrying its delivery only when that delivery has nothing left to do, or its retry is in the retry set, or this very step hits a crash window for it. |
| Hazards.HazardOrigin | src/relay/workers/scheduler.py:25-28 | Every recorded hazard was caused by an earlier step of exactly its kind: a scheduler's or a replay's death with that delivery in hand, the death of a robbed coroutine, or a reaper's drop during an open fan-out. |
| Hazards.OnlyInHandWindowsRemain | src/relay/workers/reaper.py:52-62 | Under the two stated assumptions the only hazards of any run are the scheduler's and the replay's in-hand windows. |
| Hazards.AtLeastOnce | src/relay/infra/streams.py:94-97 | Under the assumptions, in a run where no scheduler and no replay dies with something in hand, every unfinished delivery is carried in every state, whatever else dies. |
| Hazards.SchedulerCrashLosesExactly | src/relay/workers/scheduler.py:25-27 | A scheduler's death leaves a delivery carried if and only if something outside that scheduler's hand carried it. |
| Hazards.ReplayCrashLosesExactly | src/relay/services/deliveries/replay_service.py:50-57 | A replay's death between commit and publish leaves the delivery carried if and only if something else carried it. |
| Hazards.AbortLosesExactly | src/relay/workers/dispatcher.py:194-201 | A coroutine's death leaves a delivery carried if and only if something else carried it, or its own message names it, is still pending and is not about to be acknowledged by anybody else. |
| Hazards.EarlyDropLosesExactly | src/relay/workers/reaper.py:52-62 | A reaper that finds no row leaves a delivery carried if and only if something other than the message it drops carried it. |
| Hazards.AbandonedForever | src/relay/workers/scheduler.py:25-27 | A delivery nothing refers to any more is never attempted again, and its row stays unfinished and unchanged for as long as it exists. |
| LostRetry.SchedulerDeathAbandons | src/relay/workers/scheduler.py:25-27 | A concrete reachable state, with the assumptions respected, in which a retrying delivery with budget left is abandoned. |
| LostRetry.ReplayDeathAbandons | src/relay/services/deliveries/replay_service.py:50-57 | For every retry budget, a reachable state, with the assumptions respected, in which a delivery that used the budget up and was reset is abandoned with the whole new budget. |
| LostRetry.EarlyDropAbandons | src/relay/workers/reaper.py:52-62 | A concrete run in which a reaper drops the message of a delivery whose fan-out commits afterwards, and no request is ever sent for it. |
| LostRetry.RobbedDeathAbandons | src/relay/workers/dispatcher.py:49-54 | A concrete run in which a coroutine whose message was claimed and acknowledged by a reaper commits a retry and dies before scheduling it, and the delivery is abandoned. |
| AckJustified.EveryAckIsJustified | src/relay/workers/reaper.py:43-62 | A message leaves the PEL only by an acknowledgement of a coroutine that had committed an attempt or a deferral of that very delivery, and scheduled the retry afterwards if one was left; or of a reaper that itself looked the delivery up at an earlier step and did not find it, and it is absent still unless a fan-out transaction had it inserted and uncommitted at that lookup. |
| AckJustified.DroppedIsGone | src/relay/workers/reaper.py:52-62 | Under the assumptions, the delivery of a message the reaper dropped is not in the store, and never will be again. |
| AckJustified.HandOutsAreSpaced | src/relay/infra/streams.py:61-102 | In every run, at least the idle threshold passes between two hand-outs of one message, to whichever coroutines. |
| FanOut.ExactlyOnceFanOut | src/relay/workers/relay.py:24-46 | In every reachable state a pending event has no delivery, and a processed one has exactly one for each endpoint of the set its transaction read that still exists, and none for any other. |
| FanOut.FanOutReadsTargets | src/relay/repositories/endpoints/repository.py:129-140 | The set a committed fan-out is held to is exactly the endpoints that had the event's tenant, were active and subscribed to its type at the moment the transaction that went on to commit it queried them. |
| Tenants.RowsStayInTheirTenant | src/relay/repositories/endpoints/repository.py:134-138 | In every reachable state, each delivery, committed or only inserted, is for an event that some tenant sent and for an endpoint that the very same tenant created. |
| Tenants.OnlyOwnersReset | src/relay/services/deliveries/replay_service.py:40-50 | In every run, whoever else is at work, a delivery is reset only by a replay that read it dead for the tenant its event belongs to, then and at the reset. |
| Tenants.LastSettingCounts | src/relay/repositories/endpoints/repository.py:134-138 | Until an endpoint is set again, a fan-out of its tenant's event reads it as a target exactly when it was last created or set active and subscribed to the event's type. |
| Tenants.StoredAsSent | src/relay/services/events/service.py:51-58 | Every stored event is one that was sent, tenant, type and correlation id included, and every endpoint is still the tenant's that created it. |
| FanOut.EndToEnd | src/relay/services/events/service.py:51-76 | For an accepted event and an endpoint: the fan-out is pending, or the endpoint was not in its set or is gone, or there is exactly one delivery and it is finished, carried, or stranded ever since a step that hit a crash window for it. |
| Orphans.RolledBackStaysAbsent | src/relay/workers/relay.py:17-29 | A delivery inserted by a transaction that rolled back never exists in any later state, committed or not. |
| Orphans.RollBackReleasesBatch | src/relay/repositories/outbox/repository.py:36-57 | Right after a rollback every claimed outbox row is pending and unlocked, and its event has no delivery. |
| Orphans.NoOrphanAttempts | src/relay/repositories/delivery_attempts/models.py:17-19 | In every reachable state each attempt row belongs to a delivery that exists: deleting an endpoint takes both. |
| CleanSpec.CleanRefinement | src/relay/infra/retry_schedule.py:29-50 | In a clean run (no redelivery after a commit, claims only from dead holders, resets that commit what they read): an unfinished delivery has exactly one unspent carrier, or has had none since a step that hit a crash window for it; a finished one has none; attempt_count stays within budget; a retry-set score equals the row's next_retry_at. |
| CleanSpec.FinishedStaysFinished | src/relay/services/deliveries/replay_service.py:47-50 | In a clean run (no redelivery after a commit, claims only from dead holders, resets that commit what they read), a finished delivery never changes, except that a replay resets a dead one. |
| CleanSpec.NothingFiresEarly | src/relay/workers/scheduler.py:25-27 | In a clean run (no redelivery after a commit, claims only from dead holders, resets that commit what they read), an attempt begins on a fresh row or not before the row's own next_retry_at, and no other coroutine is working on the delivery. |
| RacingReplays.RaceMakesTwoTokens | src/relay/services/deliveries/replay_service.py:35-57 | For every retry budget, a run in which no message is handed out twice and no crash window is hit, at whose end two replays have left one delivery with two carriers that each entitle to an attempt. |
| RacingReplays.RaceReopensDelivered | src/relay/services/deliveries/replay_service.py:47-50 | For every retry budget, a run of the same kind at whose end the next commit resets a delivery that is delivered by then. |
| CleanLog.CleanRowsRefineLogs | src/relay/services/deliveries/service.py:133-156 | In a clean run (no redelivery after a commit, claims only from dead holders, resets that commit what they read), with crashes anywhere in the protocol, every committed row agrees with its committed log: the count is the last attempt's number, a finished state is the last attempt's outcome, and attempt numbers run in full chains. |
| Correlation.CorrelationFollowsExactly | src/relay/workers/dispatcher.py:43-54 | Every message for a stored delivery, on the stream, in the retry set or in a scheduler's hand, carries the correlation id of its event if and only if the event has none or no reset of the delivery was published yet. |
| Correlation.ReplayLosesCorrelation | src/relay/services/deliveries/replay_service.py:57 | For every retry budget, a reachable state in which the message of a replayed delivery lacks the correlation id its event has. |
| SendConservation.SendsAreConserved | src/relay/services/deliveries/service.py:115-165 | For every delivery in every state: requests sent = rows of its attempt log + requests whose coroutine died before committing + requests in flight. |
| CleanLog.RequestsAreBounded | src/relay/services/deliveries/service.py:115-165 | In a clean run (no redelivery after a commit, claims only from dead holders, resets that commit what they read), the requests for a delivery are at most max_attempts for its first chain and for each reset, plus those whose coroutine died before committing and those in flight. |
| Schedulers.PopDueRetries | src/relay/infra/retry_schedule.py:15-22 | Pops members whose score is not past the clock and no others, at most the limit; such a member stays only when the limit is used up by members that score no higher; exactly the popped ones leave the set. |
| Schedulers.RunOnce | src/relay/workers/scheduler.py:19-28 | A tick that pops fewer than its limit pops exactly the members whose score is not past the clock. With anything happening in between, one that survives re-adds every member it popped; one that dies after k re-adds has added exactly the first k, and each of the rest is on record as hit by the crash window. |
| Schedulers.Replay | src/relay/services/deliveries/replay_service.py:35-58 | Not found exactly when the row or its event is missing or the event's tenant is another, and then nothing changed. Only a delivery read dead is reset, in a commit of its own with everybody else in between; its message is in the stream when the call returns, unless the row was deleted meanwhile, or the process died before the commit with nothing written, or after it, and then the crash window is on record. |
| Coroutines.ReadDeliveries | src/relay/infra/streams.py:61-76 | Hands out the next messages of the stream in order, as many as there are up to the count, each to a coroutine of its own and into the PEL with its idle time starting then. |
| Coroutines.Attempt | src/relay/services/deliveries/service.py:54-96 | Seen from the stores, with everybody else in between: an attempt that succeeds committed exactly the decided attempt or deferral, and leaves a retry to schedule unless the row it committed asks for none; one that finds nothing was looking at a moment the delivery was absent; one that fails without a fault was too. |
| Coroutines.ProcessDeliveryMessage | src/relay/workers/dispatcher.py:35-54 | A message is ready to be acknowledged only once its attempt or deferral is committed, and then either the retry set holds the delivery's member with the decided time as its score, or the committed row asks for no retry. |
| Coroutines.HandleAndAck | src/relay/workers/dispatcher.py:145-206 | The dispatcher acknowledges only after all of that, never a message whose delivery it did not find, and leaves a message unacknowledged only because of a fault or a missing delivery. |
| Coroutines.AckDelivery | src/relay/infra/streams.py:79-82 | Acknowledging removes exactly the coroutine's message from the PEL, whoever holds it, and leaves every other entry as it is. |
| Reapers.ClaimStaleDeliveries | src/relay/infra/streams.py:85-102 | Claims the messages idle for at least the threshold in stream order, one coroutine each, until there are as many as asked for, or ten times as many pending entries were looked at, or the list ends; their idle time starts again and no other entry changes. |
| Reapers.ReprocessAndAck | src/relay/workers/reaper.py:41-71 | A claimed message is acknowledged after the same processing the dispatcher does, dropped if its delivery is missing, and left in the PEL only because of a fault or a row that vanished mid-attempt. |
| Reapers.RunOnce | src/relay/workers/reaper.py:24-77 | A sweep gives each claimed message one of these fates, acknowledged and dropped ones are out of the PEL for good, and it ends holding nothing; it stops early only when the acknowledgement of a drop raised. |
| Relays.ClaimDue | src/relay/repositories/outbox/repository.py:36-57 | Claims only rows that are pending and in no open transaction, at most the limit, and fewer only if every other pending row is in an open transaction. |
| Relays.FanOutTo | src/relay/workers/relay.py:43-45 | One endpoint gets one fresh row and a message naming it, and those of the endpoints before it stay, or the whole transaction ends. |
| Relays.ProcessEntry | src/relay/workers/relay.py:32-46 | An entry is marked processed only after every endpoint that had the event's tenant, was active and subscribed to its type at one moment of the call has its row in the transaction and a message on the stream; otherwise the transaction is gone, because the process died or an endpoint was deleted under it. |
| Relays.RunOnce | src/relay/workers/relay.py:17-29 | A batch that commits leaves every claimed row processed and accounted for; it fails to commit only through a death before any of its commands, the commit included, or an endpoint deleted under it, and then leaves no transaction behind. |
| TokenBucket.BucketStore.Allow | src/relay/infra/rate_limit.py:19-54 | The script, at a time of the store that is not the stamp, decides on the bucket if the store has not expired it by then and on a full one if it has, and stores the remaining tokens under the stamp with a new expiry on the store's clock; remaining tokens are in [0, burst] and a retry-after is never negative. |
| TokenWindows.BoundedExactly | src/relay/infra/rate_limit.py:34-49 | As long as nothing expires: for given stamps, the cost admitted in a window of length T is at most burst + rate * T for every rate, burst, stored bucket, costs and window, if and only if between any two requests the forward steps of the stamps add up to no more than the distance between their stamps. |
| TokenExpiry.InvisibleExactly | src/relay/infra/rate_limit.py:49-51 | For given limits and two clocks: no decision of any requests differs from that of a store that never expires the bucket, if and only if whenever the key expires between two consecutive requests the stamps in between refill the whole burst. |
| TokenExpiry.PaceForAll | src/relay/infra/rate_limit.py:50-51 | That holds for every rate and every burst if and only if between consecutive requests the stamps advance by at least the store's advance rounded up, less two seconds. |
| TokenExpiry.ASecondOfSlack | src/relay/infra/rate_limit.py:50 | In particular when between consecutive requests the stamps fall behind the store's clock by at most one second. |
| TokenExpiry.WindowBound | src/relay/infra/rate_limit.py:34-51 | Over the store that expires keys, for given limits and stamps that never step back: the cost admitted in a window of length T is at most burst + rate * T for all costs and windows if and only if no expiry ever shows. |
| TokenExpiry.WindowBoundForAll | src/relay/infra/rate_limit.py:34-51 | For stamps that never step back, the bound holds for every rate and burst if and only if the stamps keep pace with the store's clock in the sense of PaceForAll. |
| TokenExpiry.BoundedExactlyInPace | src/relay/infra/rate_limit.py:34-51 | For stamps that keep pace but may step back, the bound holds for every rate and burst if and only if nothing is refilled twice. |
| TokenExpiry.MostIsExact | src/relay/infra/rate_limit.py:26-51 | For any limits and any two clocks whatever: the most that any costs can be admitted in a window is what requests taking everything they find inside it are admitted, so the bound holds exactly when no window's maximum exceeds it. |
| TokenExpiry.SkewBreaksBound | src/relay/infra/rate_limit.py:49-51 | Under the default limits, two requests with increasing stamps, the first stamped 1.5 seconds ahead, are admitted 40 tokens in a window that allows 38. |
| TokenExpiry.AnnouncedMomentIsExact | src/relay/infra/rate_limit.py:42-51 | Over the store that expires keys, as long as no expiry shows and stamps never step back: after a denial and any denied requests, a request of the same cost is allowed if and only if its stamp is at least the announced moment. |
| TokenExpiry.ReturningClockBreaksBound | src/relay/infra/rate_limit.py:34-49 | For every rate, every positive burst and every two instants, and whatever the store expires, stamps that step back from the later one to the earlier one and return admit more than the burst in no time. |
| TokenBucket.RetryAfterIsExact | src/relay/infra/rate_limit.py:42-47 | As long as the bucket does not expire: after a denial, and any denied probes, a request for the same cost is allowed if and only if it comes at or after the announced moment. |
| TokenBucket.EarlyProbesAreDenied | src/relay/infra/rate_limit.py:42-47 | As long as the bucket does not expire: probing for the same cost before the announced moment is denied every time, however often. |
| Ingest.IngestIsIdempotent | src/relay/services/events/service.py:46-88 | Over every interleaving, a finished call found exactly one committed event of its key, with exactly one outbox row, and returned it if the body agrees and a conflict if not; the branch for a conflict without a row is never taken. |
| Ingest.SuccessesAgree | src/relay/services/events/service.py:46-76 | Two successful calls on one key returned the same event and had sent the same type and payload. |
| Ingest.CommittedStays | src/relay/repositories/events/repository.py:43-69 | Committed events and outbox rows are never changed or removed, and a finished call keeps its result. |
| Ingest.CommittedWasSent | src/relay/services/events/service.py:51-61 | Every committed event is exactly one that some call arrived with: key, type, payload and correlation id. |
| Ingest.OnlyCreatorsWrite | src/relay/services/events/service.py:78-88 | No step of a call that did not end in success changed an event or an outbox row. |
| IngestServices.Database.CreateEvent | src/relay/repositories/events/repository.py:43-69 | The insert succeeds, or there is a committed event of the key, or it waits for another open transaction that holds a row of the key. |
| IngestServices.Database.Ingest | src/relay/services/events/service.py:28-76 | With every other call in between any two statements, a call that returns gives the one committed event of its key if its body agrees and a conflict if not; it fails to return only by dying or by waiting for another holder of its key. |
| Paging.NoDuplicates | src/relay/repositories/endpoints/repository.py:160-186 | However the table changes between pages, a client following next_cursor sees rows in strictly ascending (created_at, id): nothing twice, nothing out of order. |
| Paging.NothingSkipped | src/relay/repositories/deliveries/repository.py:127-157 | With rows ordered by created_at and, where that is the same, by id, a client that reached the end has seen every row that matched whenever a page was served. |
| Paging.PagingIsExact | src/relay/repositories/deliveries/repository.py:127-157 | Such a row is seen exactly once. |
| Paging.StaticPaging | src/relay/repositories/endpoints/repository.py:174-186 | A table that stands still, ordered by created_at and then id, is paged in full and in order, in max(1, ceil(n / limit)) pages, ties of created_at included. |

## Left out

- Liveness: that reapers, schedulers and relays keep running, and that a stale message behind the scan limit of XAUTOCLAIM is ever reached, is not stated; the proofs are of safety and of counts.
- Lost updates column by column: concurrent attempts on one endpoint or delivery row can overwrite each other's columns in the database. An attempt's commit writes the whole row it read, a replay's commit writes its three columns over whatever is committed by then, each in one step; `EndpointHistory` and `ProtocolWork` are about breaker columns written by attempts one after the other.
- NoLostWork.NoLostWork: does not follow the breaker inside the protocol, where deferral and outcome are free choices, so it covers every breaker; the exact breaker is in `EndpointHistory`.
- BoundedWork.BoundedWork: needs that a delivery is processed only while unfinished and not before its wake-up time, which is what clean runs do (`ProtocolWork.ProtocolWorkIsBounded`); redelivery can exceed the budget.
- Relays.ClaimDue: does not model the order of claimed rows, because the theorems hold for every order.
- Coroutines.HandleAndAck: does not model the two levels of semaphores and the in-flight set, which only delay coroutines; the claim that one slow endpoint cannot take the whole pool is not stated, since the outer permit is held while waiting for the inner one.
- The branch of the relay for an outbox row whose event is missing: unreachable, since events are never deleted and both rows commit together.
- HTTP sending, redirects, DNS pinning, the address deny list and request signing: a send is an input that succeeds or fails.
- Columns nothing here depends on: names, secrets, snippets, headers, latencies, created_at of rows other than paged ones.
- Text encodings: cursors, JSON members of the retry set, the fallback for bare members, base64, and the rejection of malformed cursors; a cursor is the key it encodes, a member is the pair it encodes.
- Float rounding in the limiter and in Redis scores: reals and whole microseconds instead; the limiter's cost is nonnegative.
- A key that the store removes as expired and whose clock then steps back: the store's time decides expiry at each request on its own.
- The live attempt feed, metrics, logging, web console, API keys, sandbox quotas, health checks, migrations and scripts: plumbing or one-branch facts.
