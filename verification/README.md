# Webhook delivery: a verified model

The program accepts webhook events, fans each out into deliveries, and sends
every delivery to its endpoint with retries. The database is the source of
truth: an outbox row orders one attempt of one delivery, a publisher copies due
rows into a job queue, workers take jobs, and one conditional update, the claim,
decides who sends. Maintenance recovers deliveries of crashed workers and rows
whose job disappeared. This project models that protocol and its parts, and
proves what holds in every run, and exactly when a guarantee fails.

## How it is organised

- `Domain`, `Transactions`: rows of the four tables, and each database
  transaction as a function on them.
- `Protocol`: the state machine. Any number of workers, publishers, maintenance
  loops and replay requests, each stopped between two database or queue calls;
  one action is one call.
- `Effects`, `Structure`, `Attempts`, `Guarantees`: what holds in the full
  interleaving.
- `Orderly`, `Agreement`: what holds with one live worker per delivery, and the
  exact steps that break it otherwise.
- `Lossless`, `Progress`: no lost deliveries and no dead ends.
- `Paths`, `Rescue`, `Loops`, `Survival`: what publication and stranded recovery bring
  back, and exactly which lost jobs and deleted rows lose their attempt.
- `Backoff`: exactly when an attempt can be claimed before the time chosen for it.
- `Losses`, `Spent`: exactly which deferrals lose a delivery, and which losses last
  until a replay.
- `Scenarios`, `EarlyRetry`: runs that show each assumption is needed.
- `Repositories`, `Processing`, `Publishing`, `Ingestion`: the program's classes
  and loops, proved against the functions above, and what they promise spelled out
  apart from these; `Rounds`: a publisher's calls over time; `Refinement`: what
  processing, publishing, both recoveries and ingest do is a run of the protocol.
- `Retention`, `Dates`: what the clean-ups delete and when, and what the dates in the
  tables say.
- `Retry`, `RateLimiter`, `Admission`, `JobIds`, `EventStatusPolicy`: the
  arithmetic of backoff, the token bucket and its use in front of the executor,
  job ids, and the status policy.

`dafny verify dfyconfig.toml` checks everything.

## Modelling assumptions

- Each database transaction or single query is one atomic step. A transaction
  on a missing row throws and changes nothing. Stale recovery reads the clock for
  its cutoff at some time before its query.
- The clock never goes back. Ids of new rows are fresh, as random uuids are;
  foreign keys and the unique index on tenant and key hold.
- Adding a job whose id the queue still retains does nothing. A waiting job may be
  handed to any number of workers, in any order (at least once). The queue may
  forget finished jobs at any time; losing unfinished ones is a step of its own.
- A crashed worker, publisher or loop disappears between two of its calls. A worker
  whose database call throws outside the executor's `try` is such a crash, and its
  job then fails in the queue: a lost job, of which Q below speaks. The reply of an
  endpoint, including none, is arbitrary; in `Protocol` a refusal with status 500
  also stands for an accepted send whose record could not be written.
- A worker's rate-limit check is an arbitrary choice in `Protocol`; `Admission`
  models the buckets themselves. Clock readings may reach the store in any order,
  with scripts that start within a second of the reading. A send is attributed to
  the time of the checks that admitted it. A stored bucket is gone when the store's
  clock is past its expiry time.
- Histories (orders created, ids added, claims, recoveries, retry times, replays)
  are part of the state but no step reads them.

Three assumptions separate what the code guarantees always from what it
guarantees in good order:

- X (`OneWorker`): at most one worker is between its first read of a delivery and
  its outcome; stale recovery and replay do not fire under that worker, and a
  replay finds the row as it read it. Crashed workers are allowed.
- Y (`NoStaleReject`): the rate limiter defers only the next attempt.
- Q (`NoJobLoss`): the queue neither fails nor drops a job no worker reported on.
  Most results need only a weaker form (`NoFatalLoss`): the last job of a delivery's
  current order may be lost while the delivery is PENDING and the order's row is left
  with a missing or failed job, provided the clean-up does not delete that row first.
  This is enough, not necessary: it does not count on other rows of the attempt, nor
  on processes that have it in hand. `NoDeadEnds` and the results on rescue also take
  it that no outbox id is another one with a dash and digits appended (`PlainIds`),
  as no uuid is; so do the exact results on backoff.

Where they fail:

- Without X, cached statuses and terminal rows are safe except for the steps named
  by `AgreementBreaksExactly` and `LeavesTerminalExactly`.
- Without Y a delivery can be lost, exactly as `RejectLosesExactly` says.
- A lost job loses its attempt exactly as `QueueLosesExactly` says. A worker, a
  publisher or a loop that has the attempt in hand keeps it in play, unless it
  crashes, or comes to a deleted row before it gets there: a publisher then gives up
  its batch, and a loop its list, if the deleted row has no live job
  (`ReachesExactly`). If nobody has, then for a FAILED delivery, whose rows stranded
  recovery does not list, the attempt is lost whenever its last job fails, or is
  dropped after the row was marked published (`LastJobLosesExactly`); with all its rows
  published the loss lasts until a replay (`LostJobSpendsExactly`, `SpentForGood`). The
  first three count on calls that do not fail: a failed publication moves its row to
  the next counter, which may bring an unpublished row back.
- A PENDING one is lost too if the clean-up comes first, exactly as
  `CleanupLosesExactly` says, and each round of maintenance runs the clean-up before
  the recoveries.
- After a replay or a stale recovery a retry can come before its time, exactly as
  `BackoffBreaksExactly` says: if an order of it with an earlier date is still alive
  when the time is chosen. It need not: an old order whose job is done and whose rows
  are all published does no harm.
- Stale recovery takes a delivery beyond maxAttempts, exactly as `OvershootsExactly`
  says.
- The rate limiter's bound over a time window needs clock readings in order
  (`WindowsHoldExactly`); the bound by the increases of the readings does not.

## Model

| member | source | states |
|---|---|---|
| Guarantees.ClaimsAreConsecutive | src/dispatcher/infrastructure/persistence/prisma-dispatch-deliveries.repository.ts:28-59 | In every run of the full interleaving, the attempt numbers claimed for a delivery between two replays are exactly 1, 2, ..., n in that order, and n is the row's `attempts` in the current epoch, whatever duplicate, late or stale jobs are processed |
| Guarantees.OneWorkerPerAttempt | src/dispatcher/infrastructure/persistence/prisma-dispatch-deliveries.repository.ts:28-43 | In every run no attempt number is claimed twice between two replays: each send belongs to one worker |
| Guarantees.RetriesFollowClaims | src/dispatcher/application/services/delivery-executor.service.ts:103-127 | In every run an outbox row for attempt k > 1 exists only if attempt k-1 of that delivery was claimed |
| Guarantees.AttemptBound | src/dispatcher/application/services/delivery-executor.service.ts:103-127 | In every run `attempts`, every outbox row's attempt number and the sends of every replay epoch are at most maxAttempts plus the delivery's stale recoveries |
| Guarantees.OvershootsExactly | src/events/infrastructure/queue/delivery-maintenance.service.ts:65-86 | In the full interleaving a step orders an attempt beyond maxAttempts if and only if it recovers a stale delivery whose attempts have reached the limit, or defers a job that was already beyond; failed attempts, replays and first orders never do |
| Guarantees.BackoffIsRespected | src/dispatcher/infrastructure/persistence/prisma-dispatch-deliveries.repository.ts:105-140 | In every run, for a delivery without replay and stale recovery, claim number k is for attempt k, and attempt k+1 is never claimed before the time chosen when attempt k failed, despite duplicate jobs, re-publication and rate-limit copies |
| Guarantees.ChosenTimeStands | src/dispatcher/infrastructure/persistence/prisma-dispatch-deliveries.repository.ts:105-124 | The retry time chosen for an attempt is never replaced while the delivery is undisturbed |
| Backoff.ComesEarlyExactly | src/dispatcher/infrastructure/persistence/prisma-dispatch-deliveries.repository.ts:28-59 | In the full interleaving, from any state: the next attempt of a FAILED delivery can be claimed before time `at`, by steps of any processes that Y allows and that neither replay the delivery nor order the attempt anew before `at`, if and only if a live early order exists: a waiting job, a checked worker that saw an active endpoint, a publisher's copy whose earlier rows all exist, an unpublished row due before `at`, or such a row in the list of a loop that gets past the entries before it, whose rows exist or which have a live job. Behind a deleted row without a live job the loop gives up its list; this case is open only while somebody still holds a job of the deleted row |
| Backoff.BackoffBreaksExactly | src/dispatcher/infrastructure/persistence/prisma-dispatch-deliveries.repository.ts:105-124 | Backoff over runs, in every replay epoch: when a step chooses time `at` for attempt k+1, that attempt can be claimed before `at`, by such steps, if and only if it is the row's next one and the step leaves a live early order of it, but for the same open case |
| Backoff.EarlyClaimsWereLive | src/deliveries/infrastructure/persistence/prisma-deliveries.repository.ts:115-137 | In every run, an attempt k+1 that is claimed before the time chosen for it, with only such steps in between, had a live early order, or the row of the open case, when the time was chosen; an order of an earlier epoch that is used up does not count |
| Backoff.CalmStep | src/dispatcher/infrastructure/persistence/prisma-dispatch-deliveries.repository.ts:28-140 | Every enabled step of every process that Y allows, other than the delivery's replay and a new order of the attempt before `at`, leaves a delivery without live early orders without them, as long as `at` is to come; a removed or overtaken one stays so |
| Guarantees.EarlyClaimNeedsOldOrder | src/dispatcher/infrastructure/persistence/prisma-dispatch-deliveries.repository.ts:105-124 | A necessary condition without Y: attempt k+1 is claimed before the time chosen for it, and not ordered anew since, only if some order of it for an earlier time was created before attempt k failed, whatever is deferred; no deferral makes such an order |
| Guarantees.EarlyClaimNeedsOldEpoch | src/deliveries/infrastructure/persistence/prisma-deliveries.repository.ts:115-137 | And, if nothing else ordered attempt k+1 since the replay that began the epoch, only if it was created before that replay |
| EarlyRetry.ReplayedRetryIsEarly | src/deliveries/infrastructure/persistence/prisma-deliveries.repository.ts:115-137 | A run that keeps X, Y and Q in which it does: a delivery is replayed while the job of its retry waits, attempt 1 fails again, and attempt 2 is claimed a second before the time chosen for it |
| Guarantees.StaleReadIsSafe | src/events/infrastructure/queue/delivery-maintenance.service.ts:57-87 | In every run, whenever stale recovery's guarded update succeeds, the `attempts` read in an earlier step still equals the row's, the new order is for exactly attempts + 1, and no recovery had yet ended this PROCESSING period |
| Guarantees.OneRecoveryPerPeriod | src/events/infrastructure/queue/delivery-maintenance.service.ts:65-86 | However many maintenance loops run, each PROCESSING period is ended by at most one stale recovery |
| Guarantees.NewCounterIsUnused | src/events/infrastructure/queue/delivery-outbox-publisher.service.ts:50-57 | In every run, a recorded publish failure or a stranded recovery moves the row to the next counter, whose job id is in no queue entry and differs from every id ever added for any row |
| Guarantees.FirstAddIsNotSwallowed | src/events/infrastructure/queue/delivery-outbox-publisher.service.ts:38-45 | In every run, with any number of publishers holding old copies of rows, an add under a counter not added before really creates a waiting job with the row's delivery and attempt number; no copy carries a counter above the row's |
| Attempts.CountStep | src/dispatcher/infrastructure/persistence/prisma-dispatch-deliveries.repository.ts:28-140 | Every enabled step of every process keeps the invariant behind these guarantees: claims are chained, every order and copy is for a claimed predecessor, waits and recoveries are recorded |
| Structure.StructureStep | src/events/infrastructure/queue/delivery-outbox-publisher.service.ts:36-57 | Every enabled step keeps queue jobs, fetched rows and workers' jobs true copies of rows that were created, and publish counters above every counter added |
| Effects.HasEffect | src/dispatcher/infrastructure/persistence/prisma-dispatch-deliveries.repository.ts:28-140 | Every step of every process changes the tables and the history in one of ten ways and in no other |
| Dates.DeliveriesAreDated | src/dispatcher/infrastructure/persistence/prisma-dispatch-deliveries.repository.ts:28-140 | In every run of the full interleaving, every delivery has a next-attempt date exactly as its status promises (none while PROCESSING or finished, one after a failure), its current order is due at that date, and its last-attempt date is that of its last claim, or none if it was not tried since its last replay |
| Dates.OrdersAreDated | src/events/infrastructure/queue/delivery-outbox-publisher.service.ts:36-57 | Every step creates outbox rows unpublished, with counter 0 and its own time as creation date, and changes existing ones at most by a publication date of its own time or none, and a counter one higher |
| Agreement.CachedStatusAgrees | src/dispatcher/infrastructure/persistence/prisma-dispatch-deliveries.repository.ts:51-153 | In every state reachable under X an event is NO_SUBSCRIBERS exactly when it has no deliveries, PENDING only while all of them are PENDING with 0 attempts, and otherwise has the computed status of its deliveries in whatever order they are listed, that is PROCESSING exactly while one is PENDING, PROCESSING or FAILED, DONE exactly if all are SUCCESS, FAILED exactly if all are finished and one is DLQ or CANCELLED, although retries, rate limiting and recovery never refresh it |
| Agreement.AgreementBreaksExactly | src/dispatcher/infrastructure/persistence/prisma-dispatch-deliveries.repository.ts:105-140 | In the full interleaving a step breaks this agreement if and only if it is a rate-limit deferral under a DONE or FAILED event, or a scheduled retry under an event that is not being processed |
| Agreement.OnlyFinishedRowsGo | src/events/infrastructure/queue/delivery-maintenance.service.ts:42-55 | Under X, whatever step removes a delivery, retention included, the delivery was terminal |
| Agreement.TerminalRowsStay | src/dispatcher/application/use-cases/process-delivery.use-case.ts:36-44 | Under X a terminal row is not written again, except by a replay of a delivery that did not succeed |
| Agreement.SuccessIsFinal | src/deliveries/application/use-cases/replay-delivery.use-case.ts:20-25 | Under X a SUCCESS row never changes again while it exists, over any number of steps |
| Agreement.LeavesTerminalExactly | src/dispatcher/infrastructure/persistence/prisma-dispatch-deliveries.repository.ts:105-140 | In the full interleaving a terminal row becomes unfinished if and only if a worker defers it for rate limiting, a sender schedules its retry, or a replay resets it |
| Orderly.OrderStep | src/dispatcher/application/use-cases/process-delivery.use-case.ts:26-76 | Every step allowed by X keeps live workers exclusive and up to date with their rows, and every event's cached status in agreement |
| Lossless.NoDeliveryIsLost | src/events/infrastructure/queue/delivery-maintenance.service.ts:57-125 | Under X and Y no delivery is lost. With Q, in every reachable state a PENDING or FAILED delivery with n attempts has an order for attempt n+1 that is unpublished under a job id no finished job holds, or a waiting job; with its weaker form, it has that or is PENDING with a row of that order whose job is missing or failed; a PROCESSING delivery has the date that makes it recoverable |
| Lossless.SafeStep | src/dispatcher/infrastructure/persistence/prisma-dispatch-deliveries.repository.ts:28-140 | Every step allowed by X, Y and either form of Q keeps the order created last for each waiting delivery alive |
| Lossless.StrictIsLossless | src/events/infrastructure/queue/delivery-maintenance.service.ts:34-40 | Every run that keeps Q also keeps its weaker form: a published row that a delivery waits for still has its job when the clean-up deletes it, however old it is |
| Rescue.RescueExactly | src/events/infrastructure/queue/delivery-maintenance.service.ts:89-125 | What stranded recovery is for, in the full interleaving: from any state, one publisher and one maintenance loop at rest bring an attempt back to a worker if and only if it is backed already, or its delivery is PENDING and one of the attempt's rows has a missing or failed job, however many other rows the loop's query returns |
| Rescue.NobodyIsBeyondRescue | src/events/infrastructure/queue/delivery-maintenance.service.ts:89-125 | Under X, Y and the weaker form of Q, in every reachable state every PENDING or FAILED delivery's next attempt reaches a worker by itself or after one publisher and one maintenance loop have run |
| Rescue.StrandedIsReopened | src/events/infrastructure/queue/delivery-maintenance.service.ts:89-125 | Any one loop at rest reopens a published row of a PENDING delivery whose job is missing or failed, as the first of the rows its query returns |
| Rescue.DueIsPublished | src/events/infrastructure/queue/delivery-outbox-publisher.service.ts:30-49 | A due row is published by any one publisher at rest after finitely many rounds, however large the backlog ahead of it is; the number of unpublished rows decreases |
| Survival.GoesOnExactly | src/events/infrastructure/queue/delivery-maintenance.service.ts:89-125 | In the full interleaving, by calls that do not fail, publishers and loops, any number of them and busy or not, keep an attempt in play or bring it back if and only if it is in play (a waiting job, a publishable row, or in the hands of a worker about to claim it, a publisher that gets to its copy, or a loop that lists its row with a dead job), or its delivery is PENDING and one of its rows has a missing or failed job |
| Survival.ReachesExactly | src/events/infrastructure/queue/delivery-maintenance.service.ts:89-125 | They bring it to a worker, as a waiting job, a publishable row or a checked job, if and only if it is there, a publisher or a loop that holds it gets to it, past rows that all exist or, in the loop's list, have a live job, or its delivery is PENDING and one of its rows has a missing or failed job. Past a deleted row a publisher or loop gives up its batch or list; a loop's row behind a deleted one is open only while somebody still holds a job of that one |
| Survival.QueueLosesExactly | src/events/infrastructure/queue/delivery-maintenance.service.ts:89-125 | When a lost job loses its attempt, in the full interleaving: after the queue fails, completes or drops a waiting job, processes at rest bring the attempt to a worker if and only if it has another waiting job, a row that stays publishable, or, for a PENDING delivery, a row left with a missing or failed job; and it stays or comes back into play at all if and only if that holds or a worker, a publisher that gets to its copy, or a loop has it in hand |
| Survival.LastJobLosesExactly | src/events/infrastructure/queue/delivery-maintenance.service.ts:89-125 | An attempt's last job is lost with the attempt unless the job's row exists and is unpublished with the job dropped, or belongs to a PENDING delivery with the job dropped or failed, or somebody has the attempt in hand |
| Survival.CleanupLosesExactly | src/events/infrastructure/queue/delivery-maintenance.service.ts:34-40 | When the clean-up loses an attempt, in the full interleaving: after it, processes at rest bring the attempt to a worker if and only if it is backed, or its delivery is PENDING and one of its rows with a missing or failed job was not published more than seven days ago; and it stays or comes back into play at all if and only if that holds, or a worker has it in hand, or a publisher whose earlier rows are not deleted, or a loop has such a row |
| Survival.HandClaims | src/dispatcher/application/use-cases/process-delivery.use-case.ts:46-75 | A worker that has the next attempt of a waiting delivery in hand wins its claim |
| Survival.CopyIsAdded | src/events/infrastructure/queue/delivery-outbox-publisher.service.ts:36-49 | A publisher that has still to add a copy gets there and adds the job, unless a row before it in the batch was deleted |
| Survival.ListedIsReopened | src/events/infrastructure/queue/delivery-maintenance.service.ts:105-122 | A loop that lists a row with a dead job gets there and makes it publishable again, even if its delivery is not PENDING any more, unless a row before it in the list was deleted and has no live job |
| Progress.NoDeadEnds | src/events/infrastructure/queue/delivery-maintenance.service.ts:57-125 | Under X, Y and the weaker form of Q, from every reachable state an unfinished delivery to an active endpoint has a finite schedule of ticks, both recoveries, publication, claims and one accepted send, with no crash, that ends with it in SUCCESS if and only if no worker holds it after reading its endpoint as inactive |
| Losses.RejectLosesExactly | src/dispatcher/infrastructure/persistence/prisma-dispatch-deliveries.repository.ts:126-140 | From every state reachable in good order, after a rate-limit deferral the delivery's next attempt has a live order if and only if the job was for that attempt or one was there before; a loss takes a PROCESSING row |
| Losses.RejectStrandsExactly | src/dispatcher/infrastructure/persistence/prisma-dispatch-deliveries.repository.ts:126-140 | In the full interleaving, a deferral of a delivery that nobody is sending leaves it unreachable if and only if the job was not for the next attempt, and no row, waiting job, fetched row or other worker orders that |
| Losses.UnreachableForever | src/dispatcher/infrastructure/persistence/prisma-dispatch-deliveries.repository.ts:28-43 | No step of any process other than its replay makes a delivery reachable again once nothing orders its next attempt |
| Losses.LostForGood | src/dispatcher/infrastructure/persistence/prisma-dispatch-deliveries.repository.ts:28-43 | In any run such a delivery stays unreachable until it is replayed or removed |
| Spent.SpentForGood | src/dispatcher/infrastructure/persistence/prisma-dispatch-deliveries.repository.ts:28-43 | In any run under Y a FAILED or CANCELLED delivery whose orders are spent (all rows published, and no waiting job, fetched copy, worker or loop has the attempt) stays so until it is replayed or removed, through failing calls, forgotten jobs and crashes; nothing backs it and nobody brings it back |
| Spent.LostJobSpendsExactly | src/events/infrastructure/queue/delivery-maintenance.service.ts:89-125 | A lost job spends the orders of a FAILED delivery that nobody is sending if and only if no other job waits for the attempt, none of its rows is unpublished, and no publisher, worker or loop holds it |
| Scenarios.StaleRejectLoses | src/dispatcher/application/use-cases/process-delivery.use-case.ts:59-72 | Y is needed: a run that keeps X and Q (a worker crashes after its claim, the redelivered job is rate limited) ends with an unreachable delivery |
| Scenarios.LostRetryStays | src/events/infrastructure/queue/delivery-maintenance.service.ts:89-125 | Q is needed: a run that keeps X and Y (the queue job of a retry fails) ends with a FAILED delivery that nothing backs, that neither recovery's query lists, that no publisher and loop can rescue, and whose orders are spent |
| Scenarios.CleanupLosesStranded | src/events/infrastructure/queue/delivery-maintenance.service.ts:19-40 | So is its part about the clean-up: a run that keeps X and Y loses a job of a PENDING delivery, and a week later the clean-up, which each round of maintenance runs before the recoveries, deletes the row; the delivery is unreachable |
| Scenarios.LateRejectRevives | src/dispatcher/infrastructure/persistence/prisma-dispatch-deliveries.repository.ts:126-140 | X is needed: a run that keeps Y and Q (two workers hold one job, one cancels, the other is rate limited afterwards) revives a CANCELLED delivery under a FAILED event |
| Scenarios.RecoveryGoesBeyond | src/events/infrastructure/queue/delivery-maintenance.service.ts:65-86 | A run that keeps X, Y and Q and goes beyond the limit: with maxAttempts 1 the worker crashes, and stale recovery orders attempt 2 |
| Repositories.DispatchDeliveriesRepository.ClaimForProcessing | src/dispatcher/infrastructure/persistence/prisma-dispatch-deliveries.repository.ts:28-59 | Exactly the row with the expected predecessor attempt and a claimable status becomes PROCESSING with one more attempt, and its event PROCESSING; otherwise nothing changes and nothing is returned |
| Repositories.DispatchDeliveriesRepository.RefreshEventStatus | src/dispatcher/infrastructure/persistence/prisma-dispatch-deliveries.repository.ts:142-153 | Sets the event to the status that its deliveries call for, spelled out as in `CachedStatusAgrees`, in whatever order they are listed, and dates it |
| Repositories.DispatchDeliveriesRepository.MarkSuccess | src/dispatcher/infrastructure/persistence/prisma-dispatch-deliveries.repository.ts:61-74 | The row becomes SUCCESS without next attempt and its event is recomputed; a missing row changes nothing and throws |
| Repositories.DispatchDeliveriesRepository.MarkDeadLetter | src/dispatcher/infrastructure/persistence/prisma-dispatch-deliveries.repository.ts:76-89 | The same with DLQ |
| Repositories.DispatchDeliveriesRepository.MarkCancelled | src/dispatcher/infrastructure/persistence/prisma-dispatch-deliveries.repository.ts:91-103 | The same with CANCELLED |
| Repositories.DispatchDeliveriesRepository.MarkFailedAndSchedule | src/dispatcher/infrastructure/persistence/prisma-dispatch-deliveries.repository.ts:105-124 | The row becomes FAILED with the retry time, and one order for the given attempt at that time is created; the event is not refreshed |
| Repositories.DispatchDeliveriesRepository.MarkRateLimitedAndSchedule | src/dispatcher/infrastructure/persistence/prisma-dispatch-deliveries.repository.ts:126-140 | The row becomes PENDING with the new time whatever its status was, and one order for the job's own attempt number is created |
| Repositories.DeliveriesRepository.ResetForReplay | src/deliveries/infrastructure/persistence/prisma-deliveries.repository.ts:115-137 | The row starts again with 0 attempts, its event is PROCESSING, and one order for attempt 1, due now, is created |
| Repositories.ReplayDelivery.Execute | src/deliveries/application/use-cases/replay-delivery.use-case.ts:13-30 | Not found exactly if the delivery is missing or its event's tenant is another; a SUCCESS row is returned as it is; otherwise the row starts again with one first order due now; events, deliveries and orders of other tenants never change |
| EventStatusPolicy.OrderIsIrrelevant | src/dispatcher/application/services/event-status.policy.ts:3-13 | Helper: the computed status depends only on which statuses occur |
| Transactions.PolicyFits | src/dispatcher/application/services/event-status.policy.ts:3-13 | The computed status is PROCESSING exactly while a delivery is PENDING, PROCESSING or FAILED, DONE exactly if all are SUCCESS, and FAILED exactly if all are finished and one is DLQ or CANCELLED |
| Processing.DeliveryExecutor.Execute | src/dispatcher/application/services/delivery-executor.service.ts:29-135 | Claims, and if the claim is won writes the outcome decided for that attempt number from the reply, or from a status 500 if an accepted reply cannot be recorded; otherwise changes nothing |
| Processing.ExecutionIsExact | src/dispatcher/application/services/delivery-executor.service.ts:30-127 | What the executor writes, column by column: nothing unless the job is for the next attempt of a PENDING or FAILED row; else the attempt is counted and dated, and the row is SUCCESS, DLQ, or FAILED with exactly the retry time above and one order for the next attempt due then; an accepted send that cannot be recorded counts as status 500 |
| Processing.ProcessDelivery.Execute | src/dispatcher/application/use-cases/process-delivery.use-case.ts:26-76 | Skips missing and terminal deliveries, cancels those of inactive endpoints, asks the tenant's bucket and only then the endpoint's, defers by the larger delay or executes; tables and buckets are exactly those of the passage taken |
| Processing.PassageIs | src/dispatcher/application/use-cases/process-delivery.use-case.ts:26-44 | A missing or finished delivery is skipped, one whose endpoint is inactive is cancelled, and the buckets are asked about any other |
| Processing.ChecksAreARun | src/dispatcher/application/use-cases/process-delivery.use-case.ts:46-58 | The worker's checks are a run of the admission model's steps: the tenant's bucket (limit 10 by default), then the endpoint's exactly if the tenant's admits and the endpoint has a limit other than 0; the stored entries are the same, the job is executed exactly if every bucket asked admits it, and deferred by the delay of the one that refuses; so every check of this code is a step of the runs that `SendsObeyBothLimits` bounds |
| Processing.DeferralIsDated | src/dispatcher/application/use-cases/process-delivery.use-case.ts:60-74 | A deferral makes the row PENDING and creates one order for the same attempt, both dated the refusing bucket's delay later, and changes nothing else |
| Refinement.PassageFits | src/dispatcher/application/use-cases/process-delivery.use-case.ts:26-76 | How far the program's worker gets is what the protocol's worker does on the same row and endpoint |
| Refinement.ProcessingIsARun | src/dispatcher/application/use-cases/process-delivery.use-case.ts:26-76 | Whatever that method does to the tables is a run of the protocol's own steps of one worker from any state, for every passage, reply, failed write and clock reading |
| Publishing.DeliveryOutboxPublisher.PublishPending | src/events/infrastructure/queue/delivery-outbox-publisher.service.ts:20-64 | A busy publisher does nothing. Otherwise, after maintenance if a minute has passed, the oldest due rows (at most 100) are added and marked in order; a failure at row k leaves exactly the rows before k published, row k unpublished with its counter one higher, later rows untouched; a failure inside maintenance leaves what was done before it, publishes nothing and does not move the time of the last maintenance; the guard flag is cleared either way |
| Publishing.DeliveryOutboxPublisher.FindDue | src/events/infrastructure/queue/delivery-outbox-publisher.service.ts:30-34 | The rows returned are due, at most 100, in creation order, none older is passed over, and all are returned when fewer than 100 are due |
| Publishing.CallIsARound | src/events/infrastructure/queue/delivery-outbox-publisher.service.ts:20-64 | Helper: a call that does not throw is a round: it marks the oldest due rows of the tables it starts from, which are the ones before the call unless maintenance was due |
| Rounds.MaintenanceIsTimed | src/events/infrastructure/queue/delivery-outbox-publisher.service.ts:25-28 | A call that reads the clock at least 60000 ms after the last maintenance does a round and, unless that fails, moves its date; an earlier call leaves tables and date alone |
| Rounds.StaleIsRecovered | src/events/infrastructure/queue/delivery-maintenance.service.ts:57-87 | Over any sequence of calls, with any changes by others in between: a call a minute after all earlier maintenance, whose own does not fail, turns every delivery PROCESSING for longer than the stale age to FAILED with an order for its next attempt due now, if fewer than 100 are, unless retention deletes its event |
| Rounds.CleanupComesFirst | src/events/infrastructure/queue/delivery-maintenance.service.ts:20-26 | In a round, rows published more than seven days ago are deleted before stranded recovery looks: none is reopened |
| Refinement.PublishingIsARun | src/events/infrastructure/queue/delivery-outbox-publisher.service.ts:36-60 | One call's publication, with or without a failure, before or after adding the failing row's job, and with its own clock reading for each row, is a run of the protocol's publisher steps |
| Refinement.RecoveryIsARun | src/events/infrastructure/queue/delivery-maintenance.service.ts:57-87 | Stale recovery of the rows found is a run of one maintenance loop's steps, up to any of its rows |
| Refinement.ReopeningIsARun | src/events/infrastructure/queue/delivery-maintenance.service.ts:89-125 | So is stranded recovery |
| Publishing.RoundDrains | src/events/infrastructure/queue/delivery-outbox-publisher.service.ts:30-49 | A round publishes 100 due rows, or all, and none newer than a row that stays |
| Publishing.DrainsExactly | src/events/infrastructure/queue/delivery-outbox-publisher.service.ts:30-49 | Without failures and new rows, and while the clock moves but no further row becomes due, N due rows are all published after ceil(N / 100) rounds and not before |
| Publishing.DeliveryMaintenance.CleanupPublishedOutboxRows | src/events/infrastructure/queue/delivery-maintenance.service.ts:34-40 | Exactly the rows published more than 7 days ago go |
| Publishing.DeliveryMaintenance.CleanupOldEvents | src/events/infrastructure/queue/delivery-maintenance.service.ts:42-55 | Exactly the DONE and FAILED events past retention go, with their deliveries and outbox rows; nothing goes when retention is off |
| Publishing.DeliveryMaintenance.RecoverStaleDeliveries | src/events/infrastructure/queue/delivery-maintenance.service.ts:57-87 | Recovers, one transaction each, at most 100 stale rows, all of them if fewer; a failure at one of its calls leaves exactly the rows before it recovered |
| Publishing.RecoverAllResult | src/events/infrastructure/queue/delivery-maintenance.service.ts:65-86 | The rows found, and no others, become FAILED and due now, and each gets exactly one order for its next attempt |
| Publishing.NoneLeftStale | src/events/infrastructure/queue/delivery-maintenance.service.ts:59-63 | With fewer than 100 stale rows nothing stale is left |
| Publishing.DeliveryMaintenance.RecoverStrandedPublishedOutbox | src/events/infrastructure/queue/delivery-maintenance.service.ts:89-125 | Goes through at most 100 published rows of PENDING deliveries, all of them if fewer, looks for the current job before the legacy one, and stops where a call fails |
| Publishing.ReopenAllResult | src/events/infrastructure/queue/delivery-maintenance.service.ts:105-122 | Exactly those whose job is missing or failed become publishable under the next counter |
| Publishing.NoneLeftStranded | src/events/infrastructure/queue/delivery-maintenance.service.ts:89-125 | With fewer than 100 published rows of PENDING deliveries, one round leaves none of them with a missing or failed job |
| Retention.CleanupDeletesExactly | src/events/infrastructure/queue/delivery-maintenance.service.ts:34-40 | In the full interleaving the clean-up deletes exactly the outbox rows published more than 604800000 ms ago |
| Retention.RetentionDeletesExactly | src/events/infrastructure/queue/delivery-maintenance.service.ts:42-55 | Retention deletes exactly the DONE and FAILED events last written more than retentionDays * 86400000 ms ago, with their deliveries and the orders of these, and nothing if it is switched off |
| Retention.RecentEventsStay | src/events/infrastructure/queue/delivery-maintenance.service.ts:42-55 | In every run, an event is deleted only by retention, while DONE or FAILED, and more than retentionDays days after the last time a delivery of it was claimed, ended or replayed |
| JobIds.JobIdInjective | src/events/infrastructure/queue/delivery-outbox-publisher.service.ts:66-68 | Two job ids are equal only for the same outbox id and counter, even if outbox ids contain dashes and digits |
| JobIds.LegacyIdIsDistinct | src/events/infrastructure/queue/delivery-maintenance.service.ts:106-108 | A current id is another row's legacy id only if that row's id is this one's with a dash and the counter appended, so never among ids of equal length |
| Ingestion.EventsRepository.FindSubscribers | src/events/infrastructure/persistence/prisma-events.repository.ts:19-31 | Lists exactly the active endpoints of the tenant whose subscriptions contain the type or '*', each once |
| Ingestion.EventsRepository.CreateForTenant | src/events/infrastructure/persistence/prisma-events.repository.ts:18-73 | Unknown tenant and used key are reported and change nothing; otherwise the event, one delivery and one first order per listed endpoint are added |
| Ingestion.IngestEvent.Execute | src/events/application/use-cases/ingest-event.use-case.ts:25-68 | The answer depends on tenant and key alone; the accepted rows exist before publication, whose failure is tolerated; a repeat publishes nothing |
| Ingestion.IngestIsIdempotent | src/events/application/use-cases/ingest-event.use-case.ts:25-60 | Over any sequence of requests while subscriptions change: a request is accepted exactly when its tenant exists and no earlier accepted one had its tenant and key; every other request leaves all tables unchanged; each accepted event keeps exactly its fan-out of deliveries and first orders |
| Ingestion.OnlySubscribers | src/events/infrastructure/persistence/prisma-events.repository.ts:48-61 | An endpoint has a delivery of an accepted event if and only if it was active and subscribed to the type or to everything |
| Ingestion.OncePerSubscriber | src/events/infrastructure/persistence/prisma-events.repository.ts:48-61 | No endpoint has two deliveries of the event even if subscribed twice, and each delivery has exactly one order |
| Refinement.IngestIsAStep | src/events/infrastructure/persistence/prisma-events.repository.ts:37-67 | Accepting a request is the protocol's ingest step |
| Retry.DecisionIsExact | src/dispatcher/application/services/delivery-executor.service.ts:103-164 | The decision in full, against a reference of its own: a failed attempt k is retried exactly below the attempt limit and for status >= 500, 408, 409, 425 or 429; the retry is due, in whole milliseconds, base * m^(k-1) * (0.75 + 0.5u) later, cut at maxDelay, or, at 429 with a usable Retry-After, after that many seconds or at that date, not in the past and at most maxDelay later; every other failure is final |
| Retry.BackoffBounds | src/dispatcher/application/services/delivery-executor.service.ts:148-155 | For every draw and attempt the delay is within [0, maxDelay], and within 25% of base * m^(k-1) unless capped |
| Retry.NeverDecreasesExactly | src/dispatcher/application/services/delivery-executor.service.ts:148-155 | Delays never decrease from attempt to attempt whatever the draws if and only if m >= 5/3 or the second delay already reaches the cap at its lowest draw |
| Retry.CapAbsorbs | src/dispatcher/application/services/delivery-executor.service.ts:148-155 | For m >= 1, once 0.75 * base * m^(k-1) reaches maxDelay every later delay is maxDelay |
| Retry.TotalDelayBound | src/dispatcher/application/services/delivery-executor.service.ts:148-155 | For m > 1 the delays of n attempts sum to at most n * maxDelay and at most 1.25 * base * (m^n - 1) / (m - 1) |
| Retry.RetryAfterRule | src/dispatcher/application/services/delivery-executor.service.ts:157-164 | Helper: retry-After seconds and dates (section 10.2.3 of RFC 9110) are honoured up to the cap and never in the past; other values leave the backoff delay |
| Retry.DecisionBounds | src/dispatcher/application/services/delivery-executor.service.ts:103-127 | Helper: a retry is scheduled exactly for a retryable status below the attempt bound, not in the past and at most maxDelay ahead; other failures are final |
| RateLimiter.RedisRateLimiter.CheckRateLimit | src/dispatcher/infrastructure/rate-limiting/redis-rate-limiter.adapter.ts:9-35 | The script's answer and the hash and expiry it stores are those of one check of the bucket the store still remembers; other keys are untouched |
| RateLimiter.CheckIsExact | src/dispatcher/infrastructure/rate-limiting/redis-rate-limiter.adapter.ts:12-27 | One run of the script in full, apart from the functions that compute it: what is refilled, when a call is admitted, the least sufficient delay, the count, the tokens stored and the two seconds they are kept |
| RateLimiter.FullBucketAdmits | src/dispatcher/infrastructure/rate-limiting/redis-rate-limiter.adapter.ts:13-22 | A bucket that is new, or was not asked for a second, admits exactly `limit` calls at one instant |
| RateLimiter.CheckBounds | src/dispatcher/infrastructure/rate-limiting/redis-rate-limiter.adapter.ts:16-27 | After any check the tokens are within [0, limit]; a refusal means less than one token was there, reports a delay of at least 1 ms and the whole limit in use |
| RateLimiter.AdmittedBound | src/dispatcher/infrastructure/rate-limiting/redis-rate-limiter.adapter.ts:12-27 | In any stretch of calls with one limit, after any history and in any timestamp order, at most limit + limit * (sum of positive timestamp increases) / 1000 are admitted, less the tokens left |
| RateLimiter.WindowBound | src/dispatcher/infrastructure/rate-limiting/redis-rate-limiter.adapter.ts:12-27 | With ordered timestamps the sum is the length of the window |
| RateLimiter.StoreBound | src/dispatcher/infrastructure/rate-limiting/redis-rate-limiter.adapter.ts:12-27 | The same bound holds for the expiring store, in whatever order calls with readings up to a second old reach it |
| RateLimiter.StoreWindowBound | src/dispatcher/infrastructure/rate-limiting/redis-rate-limiter.adapter.ts:12-27 | With readings in order, the store admits at most limit + limit * (length of the window) / 1000 of the calls of a window |
| RateLimiter.WindowsHoldExactly | src/dispatcher/infrastructure/rate-limiting/redis-rate-limiter.adapter.ts:16-25 | This window bound holds for all calls whose readings go back by at most `back` ms if and only if `back` is 0: a late reading sets the bucket's date back, and the same time refills it again |
| RateLimiter.ExpiryIsInvisible | src/dispatcher/infrastructure/rate-limiting/redis-rate-limiter.adapter.ts:13-27 | On calls in any order and with changing limits, keys that expire after `ttl` ms give the same answers as a bucket that never expires if and only if ttl + 1 >= lag + 1000, where `lag` bounds the script's start; in particular for the 2000 ms used and a lag up to a second |
| RateLimiter.DelayIsExact | src/dispatcher/infrastructure/rate-limiting/redis-rate-limiter.adapter.ts:16-25 | After a refusal at t with delay d, and with no other call, a later call is admitted exactly from t + d on |
| RateLimiter.WaitIsExact | src/dispatcher/infrastructure/rate-limiting/redis-rate-limiter.adapter.ts:16-25 | The same with any number of calls in between, all of which are refused |
| RateLimiter.RefusalsAreFree | src/dispatcher/infrastructure/rate-limiting/redis-rate-limiter.adapter.ts:16-25 | Any number of refused calls changes no later answer |
| Admission.SendsObeyBothLimits | src/dispatcher/application/use-cases/process-delivery.use-case.ts:46-75 | Over whole runs of any number of workers, in whatever order their scripts run, executor calls for a tenant admitted by any stretch of its bucket's calls stay within the bucket's bound, and those for a limited endpoint within the endpoint's; every executor call was admitted by a call of its tenant's bucket and, exactly if limited, of its endpoint's, and no call admits two |
| Admission.OrderedWindowBound | src/dispatcher/application/use-cases/process-delivery.use-case.ts:46-75 | If the calls of a tenant's bucket were read in order, its executor calls of a time window stay within limit + limit * (length of the window) / 1000, and likewise for a limited endpoint and its bucket |
| Admission.SwappedReadings | src/dispatcher/application/use-cases/process-delivery.use-case.ts:46-75 | Otherwise they need not: for every n a run at limit 1 with swapped readings makes n executor calls with readings in one second |

## Left out

- Controllers, request validation, guards, health checks, metrics, logging and the
  seed script.
- HTTP, DNS and URL checks: a send is an arbitrary reply. Signing, key rotation and
  the cleanup of expired endpoint secrets.
- Response codes, response snippets and their redaction: no step reads them back.
- List queries and pagination, and the create, update and delete operations of
  tenants and endpoints; endpoint flags, subscriptions and limits are environment
  state. Deleting an endpoint or tenant with its deliveries is not a step.
- Isolation below atomic transactions, the queue's internals, clock skew between
  machines beyond the script's lag, and the rounding of stored token counts.
- The interval timers that call the publisher: calls happen at any time.
- Calls that take effect and report a failure all the same, except the adding of a
  job.
- Publishing.DeliveryMaintenance.RecoverStaleDeliveries: one clock reading stands for
  those of a round of maintenance; `Protocol` lets the clock move between its steps.
- Publishing.DeliveryMaintenance.RecoverAndCleanup: stated for one loop alone, while
  the interleaved loops are the protocol's maintenance steps.
- Processing.ProcessDelivery.Execute: stated for a worker that nobody interrupts;
  interleaved workers are the protocol's worker steps.
- Progress.NoDeadEnds: shows that a schedule exists, not that a fair scheduler
  finds it; the recoveries' queries return any 100 rows, in no fixed order.
- Backoff.BackoffBreaksExactly: leaves open an early row that a loop has listed behind a
  deleted row without a live job, while somebody still holds a job of the deleted row:
  the loop gives up its list, unless that job is added or reported on before. It speaks
  of the row's next attempt: a result that arrives after a replay may choose a time for
  an attempt that is several claims away.
- Survival.ReachesExactly: leaves open the same case.
- Admission.SendsObeyBothLimits: limits are fixed; with changing limits
  `ExpiryIsInvisible` still holds for each bucket.
