# Verified model of the distributed task queue

This project models the life cycle of a task in the queue: the Redis structures (ready and delayed
sorted sets, one in-flight hash per worker, dead-letter lists, heartbeat keys), the Postgres tables
(`tasks`, `workers`, `dead_letters`) and the three kinds of process that change them (API server,
workers, coordinator). It proves what holds in every interleaving of their calls, with and without
crashes, and with and without live workers being declared dead.

Check everything with `dafny verify dfyconfig.toml`.

## Layers

* `Types`, `Score`, `Backoff`: envelopes and rows, the packed binary64 score, the retry delay.
* `Redis`, `Postgres`: one function per command or statement that the system sends. Every
  `queue:{type}` set is the part of one map whose members have that type, because each ZADD derives
  the key from the member; likewise for `delayed:{type}` and `dlq:{type}`.
* `Queue`, `Store`, `Workers`, `Coordinators`, `Api`: the objects, with the fields they update and
  the loops they run. Each method is proved against the functions above, and its effect is stated on
  the fields; those that send a single command or statement are not listed below. `Wire` logs the calls
  that change a store, so that contracts state their order. Each worker, coordinator and API method also
  extends a given run of the protocol, by steps that it names or by steps of its own loop only
  (`Prefixes`), to one whose final Redis and Postgres contents are its own, so that the theorems about
  runs apply to it.
* `Reclaim`, `Books`: what a sweep of the coordinator does to both stores, and what it conserves.
* `Protocol`: the transition system. Each Redis or SQL call is one step; HGETALL and DEL, the range
  read and its EXEC, EnqueueDelayed and MarkRetry are separate steps. `Run` is a finite sequence of
  steps, `Valid` says that each was possible.
* `Tokens`, `Envelopes`, `Budgets`, `Quiescence`, `Copies`, `Concurrency`, `Ordering`, `Losses`, `Leases`:
  what holds in every valid run. A token is one place that holds an envelope; `Sums` adds weights of tokens.
* `Locations`, `Guarantees`, `Promotion`, `Waits`, `Recovery`, `Progress`: runs in which a heartbeat key
  expires only after its process has crashed (`FailStop`). `Detection` shows that workers which beat in time
  make a run fail-stop. `Sweeps` says what a pass of the coordinator is when other steps interleave.
* `Agreement`: fail-stop runs in which a MarkRetry lands before its task is leased again (`Timely`).
* `Races`: runs that show these conditions to be needed. `Sharpness`, `Patience`, `Deadline`: runs that reach
  the bounds on handler starts, on waits and on recovery. The run for the starts parks its retries at once, so it
  belongs to a backoff base below a millisecond; the bound holds for every delay.

## Assumptions

One coordinator; Redis and SQL calls do not fail; a worker name is used by one process only; UUIDs
are fresh; UpsertWorker and the first Heartbeat are one step; all processes read one clock, in
milliseconds between 1 and 10^13; a stored envelope is decoded to what was encoded. Handler outcomes,
request contents, the choice among equal scores and the iteration order of Go maps are arbitrary.
Durations are exact reals before they are truncated to nanoseconds, since binary64 multiplication by
a power of two is exact and the jittered product never exceeds its ceiling.

## Where the code and its documentation differ

* "Zero data loss" (README.md:16) holds except for a crash between two calls: `LastCopyGoesIff`
  names the four windows, `CrashInWindowLosesTask` is such a run.
* A live worker taken for dead can lose a task outside these windows: it may lease between HGETALL
  and DEL. If it then crashes the task is gone, whether the DEL comes before the crash
  (`LiveReclaimLosesTask`) or after it (`DelLosesCrashedTask`). `LastCopiesGoIff` says for every run
  exactly which steps take the last copies of a task; the DEL takes every record that its HGETALL
  did not read. `CrashLosesRunningTaskIff` is the case of a crash during a handler.
* Once a live worker has been taken for dead, a retry can be promoted before its available_at:
  `PromotedEarlyIff` says exactly when, `PromotedBeforeDue` is such a run, `PromotedOnlyWhenDue`
  excludes it from fail-stop runs.
* A MarkRetry that comes late can overwrite a `succeeded` or `dead` row: `TerminalRowChangesIff`
  says exactly when, `LateRetryOverwritesSuccess` is such a run, `TerminalRowsAreFinal` excludes it.
* The jitter is not full (scheduler.go:192): every delay is at least the base (`DelayWindow`), and
  the cap holds only when the base does not exceed it (`CapHoldsIff`).
* Recovery takes less than the heartbeat TTL plus one sweep interval, 10 s by default, and no less
  will do (`RecoveryBoundIsExact`); so the 5 s of README.md:12 are missed (`FiveSecondsAreMissed`).

## Model

| member | source | states |
|---|---|---|
| Score.Binary64IsNearest | internal/queue/queue.go:89 | the modelled rounding is to nearest: no number with a 53-bit significand is nearer |
| Score.Binary64Fits | internal/queue/queue.go:89 | its result has a 53-bit significand, and a tie goes to the even one |
| Score.PriorityScoreExact | internal/queue/queue.go:82-90 | for stamps t below 10^13 every rounding is exact: the score of priority p is p*10^13 + t, where p below 0 counts as 0 and above 9 as 9 |
| Score.ScoreIsLexicographic | internal/queue/queue.go:80-90 | the lower of two scores is that of the lower priority (within 0 to 9), or of the earlier stamp |
| Score.ClockRangeIsExact | internal/queue/queue.go:89 | a stamp packs below every less urgent class if and only if it is below 10^13 |
| Backoff.BackoffDelay | internal/scheduler/scheduler.go:193-207 | computes the specified delay |
| Backoff.DelayWindow | internal/scheduler/scheduler.go:193-207 | base <= delay <= min(max, base*2^(k-1)), and the first delay is the base |
| Backoff.DelayDrawnIff | internal/scheduler/scheduler.go:193-207 | exactly which delays attempt k can draw: the base, and all that are below both the cap and base*2^(k-1) |
| Backoff.CapHoldsIff | internal/scheduler/scheduler.go:198-206 | a delay respects the cap if and only if the base does |
| Waits.BackoffBudget | internal/scheduler/scheduler.go:161-178 | fail-stop, every life of every task, reclaims included: with n = max_attempts the waits sum to at most (n-1)*max and at most base*(2^(n-1)-1); there are at most n-1 of them, each of at least base |
| Patience.AnyWaitsHappen | internal/scheduler/scheduler.go:161-178 | the budget is approached: every sequence of delays that can be drawn is what a task of some run waits |
| Waits.AlwaysTallied | internal/scheduler/scheduler.go:162-174 | fail-stop: the waits so far follow the attempts used up by handler errors and by reclaims |
| Workers.Worker.ExecuteBacksOff | internal/scheduler/scheduler.go:173-174 | whatever path execute takes, retries are parked for BackoffDelay of their attempt |
| Queue.Queue.Enqueue | internal/queue/queue.go:93-103 | stamps an unstamped envelope with the time and files it under its priority (clamped to 0..9) times 10^13 plus the stamp; nothing else changes |
| Queue.Queue.Lease | internal/queue/queue.go:120-151 | returns a member of least score and records it in the worker's hash in the same step, or finds the type empty |
| Queue.Queue.LeaseAny | internal/queue/queue.go:154-165 | leases from the first type that is not empty, and reports empty only when all are |
| Queue.Queue.ReclaimInflight | internal/queue/queue.go:207-225 | returns every record of the worker once and leaves its hash empty, others untouched |
| Queue.Queue.ReadDue | internal/queue/queue.go:231-235 | all due members, or 256 of them none of which is later than one left out |
| Queue.Queue.Pipeline | internal/queue/queue.go:242-255 | one ZREM and one ZADD, with the new stamp and its score, per member |
| Queue.Queue.PromoteDelayed | internal/queue/queue.go:229-260 | moves one batch and reports its size |
| Store.Store.CreateTask | internal/store/store.go:56-83 | inserts a queued row with attempts 0, default max_attempts 3, and rejects a known id |
| Store.Store.MarkDead | internal/store/store.go:167-193 | updates the row and inserts its dead_letters record, or neither if the row is missing |
| Store.Store.RequeueOrphans | internal/store/store.go:210-234 | resets exactly the rows that are running on that worker |
| Store.Store.Redrive | internal/store/store.go:368-382 | resets the row if and only if it is dead |
| Store.Store.ListWorkers | internal/store/store.go:267-282 | every registered worker once, with its status, in some order |
| Workers.Worker.Register | internal/scheduler/scheduler.go:53-59 | registration and first heartbeat as one protocol step |
| Workers.Worker.Beat | internal/scheduler/scheduler.go:120-124 | heartbeat, then the worker row |
| Workers.Worker.Poll | internal/scheduler/scheduler.go:76-101 | one turn of the main loop, as steps of that loop added to the run: it leases a task of least score of the first type that has one, with one more slot taken; it returns without one if and only if no slot is free or no type has work, and then nothing has changed |
| Workers.Worker.Execute | internal/scheduler/scheduler.go:129-180 | takes exactly one of the four paths of the protocol, with its counters; for each outcome the calls are stated in their order, and both stores afterwards: succeeded; retrying, with the counted envelope delayed until available_at; one dead letter in each store; dead-lettered for want of a handler |
| Workers.Worker.Refuse | internal/scheduler/scheduler.go:131-139 | no handler: Nack, DeadLetter, MarkDead, in this order and without counting an attempt; both stores exactly |
| Workers.Worker.Succeed | internal/scheduler/scheduler.go:153-159 | Ack, then MarkSucceeded, in this order; both stores exactly |
| Workers.Worker.Fail | internal/scheduler/scheduler.go:161-179 | counts the attempt, Nacks, then buries or retries; both stores exactly |
| Workers.Worker.BuryOrRetry | internal/scheduler/scheduler.go:165-179 | the last attempt buries the task, any other parks its retry |
| Workers.Worker.Bury | internal/scheduler/scheduler.go:165-171 | DeadLetter, then MarkDead: one dead letter with the reason in each store |
| Workers.Worker.Retry | internal/scheduler/scheduler.go:173-179 | EnqueueDelayed, then MarkRetry with the same time: available_at of the row is the due time of the envelope |
| Workers.Worker.Serve | internal/scheduler/scheduler.go:103-107 | the goroutine ends and its slot is free |
| Coordinators.Coordinator.PromoteDelayed | internal/scheduler/scheduler.go:242-264 | the whole loop is one promotion: for each discovered type one batch of its due tasks, nothing of another type |
| Coordinators.HarvestExactly | internal/scheduler/scheduler.go:242-264 | of the n due tasks of a discovered type min(256, n) become ready with the new stamp and its score; the others, and what is not due, stay |
| Coordinators.Coordinator.Return | internal/scheduler/scheduler.go:316-330 | a reclaimed envelope, with the attempt counted, is requeued under its own score, or gets one dead letter and its row is marked dead |
| Coordinators.Coordinator.ReturnAll | internal/scheduler/scheduler.go:316-330 | all of them, each once and in order, in both stores |
| Coordinators.Coordinator.ReclaimWorker | internal/scheduler/scheduler.go:302-336 | one expired worker, in the order of the calls: hash gone, each record handed on once, orphan rows reset, row closed |
| Coordinators.Coordinator.ReclaimDead | internal/scheduler/scheduler.go:292-338 | one sweep handles exactly the expired workers not marked dead, each with all of its records; both stores afterwards are stated exactly, and the run has gone through a sweep |
| Coordinators.Coordinator.Tick | internal/scheduler/scheduler.go:237-240 | promotes, then reclaims: every record of an expired worker, in particular of one that crashed a TTL ago, is gone from the hash and is ready or in the DLQ; every other record stays; the run goes on by steps of this loop and stays fail-stop |
| Reclaim.SweptExactly | internal/scheduler/scheduler.go:316-330 | Redis after a sweep: one ready member under its own score per retry, one dead letter per last attempt in order, the closed hashes gone, nothing else changed |
| Reclaim.SweptReturns | internal/scheduler/scheduler.go:316-325 | every record of a closed worker is ready again or dead-lettered |
| Reclaim.SweptDeadLetters | internal/scheduler/scheduler.go:318-320 | the dead_letters table after a sweep: one record per last attempt with a row, with its payload |
| Reclaim.SweptRow | internal/scheduler/scheduler.go:318-334 | a task row after a sweep: dead if its last attempt was reclaimed, else queued again if it ran on a closed worker, else unchanged |
| Reclaim.SweptWorkers | internal/scheduler/scheduler.go:333-336 | exactly the closed workers are marked dead |
| Reclaim.SweepConserves | internal/scheduler/scheduler.go:316-330 | a sweep keeps the number of occurrences of every id over ready, delayed, hashes and DLQ, up to ZADDs that meet an equal member, which are counted |
| Recovery.TickConserves | internal/scheduler/scheduler.go:237-240 | fail-stop: nothing merges, a whole tick conserves the multiset of ids |
| Prefixes.LoopStepsKeep | internal/scheduler/scheduler.go:237-240 | steps of the coordinator and of the main loops take no time, start no handler, redrive nothing, crash nobody and keep a run fail-stop |
| Coordinators.ReadHashPath | internal/queue/queue.go:207-225 | HGETALL followed by DEL unless the hash was empty is a path of the protocol |
| Api.Server.CreateTask | internal/api/api.go:94-130 | rejects an empty type; otherwise persists and then enqueues, in this order, with the defaults filled in; both stores exactly |
| Api.Server.RedriveDLQ | internal/api/api.go:196-216 | succeeds only on a dead row, pushes one envelope with attempts 0, and leaves the row not dead, so that a second redrive of the same death fails |
| Tokens.TokensStep | internal/scheduler/scheduler.go:129-338 | every step changes the set of envelope places by no more than its declared moves: nothing is duplicated silently |
| Envelopes.AlwaysSound | internal/queue/queue.go:93-103 | in every run each envelope anywhere describes its row, has its attempts and stamp in range, and each ready score is that of its member |
| Budgets.StartsAreBounded | internal/scheduler/scheduler.go:161-179 | even if live workers are reclaimed any number of times, handler starts are at most (1 + redrives) * (2^max_attempts - 1) |
| Sharpness.StartsBoundIsReached | internal/scheduler/scheduler.go:292-338 | the bound is exact: for every max_attempts and every number of redrives some run reaches it |
| Budgets.StartsStep | internal/scheduler/scheduler.go:316-330 | starts plus the potential of all copies never grow except at creation and redrive |
| Quiescence.WorkIsPaidFor | internal/scheduler/scheduler.go:161-179 | leases, execute calls, promotions and reclaims never exceed the price of the submissions, so without new ones every run comes to rest |
| Progress.CanFinishIff | internal/scheduler/scheduler.go:129-338 | fail-stop, some worker serves the type, retries parked for `BackoffDelay`: by any time that leaves room for one TTL, for the base delay and for its due time, the system can go on without crash, submission or redrive until the task is done or recorded dead, if and only if no crash in a window has lost it and none has left its dead letter unrecorded |
| Copies.AlwaysCovered | internal/queue/queue.go:120-127 | every record of a live worker belongs to a goroutine that has not yet acked or nacked |
| Copies.CopiesAreBounded | internal/queue/queue.go:207-225 | live copies of a task are at most 1 + redrives made while it had a copy + reclaims of it from a running worker |
| Concurrency.ConcurrencyBound | internal/scheduler/scheduler.go:65-108 | executions plus the main loop's slot, and the records in the hash, never exceed WORKER_CONCURRENCY |
| Ordering.AlwaysOrderly | internal/queue/queue.go:93-103 | every reachable ready set has the scores and stamps that the ordering laws need |
| Ordering.LeasingSorts | internal/queue/queue.go:120-151 | leasing a type until it is empty returns a permutation of it, sorted by priority (within 0 to 9) and then by stamp |
| Ordering.LeaseIsMostUrgent | internal/queue/queue.go:80-90 | every run: no task is leased while a more urgent one of its type, or an equally urgent and older one, is ready |
| Ordering.RankStep | internal/queue/queue.go:120-127 | each lease of the type returns the task or brings it one place forward |
| Ordering.BoundedOvertaking | internal/queue/queue.go:120-127 | leases while a task waits + its rank = its rank on entry + those that overtook it |
| Ordering.OvertakersAreUrgent | internal/queue/queue.go:248-254 | only arrivals that are more urgent, or equally urgent and not stamped later, overtake; a fresh one of the same class only on the very same stamp; only reclaimed tasks keep an old stamp |
| Ordering.AlwaysPast | internal/queue/queue.go:93-98 | every run: no envelope is stamped in the future |
| Promotion.PromotionKeepsAttempts | internal/queue/queue.go:242-258 | the set of (id, attempts) over ready and delayed is preserved, members outside the batch are untouched |
| Promotion.PromotionKeepsCount | internal/queue/queue.go:242-258 | with distinct ids the counts are preserved too |
| Promotion.SweepsDrainTheDueSet | internal/queue/queue.go:231-235 | every run, any other steps in between: with no new due retries, k EXECs of a type leave max(0, n - 256k) of the n tasks due by a given time, so ceil(n/256) drain it |
| Promotion.FailStopUndisturbed | internal/scheduler/scheduler.go:173-175 | fail-stop: only a retry parked with a due time up to then is a new due retry; no member is filed twice |
| Promotion.PromotedOnlyWhenDue | internal/queue/queue.go:229-260 | fail-stop, any steps between range read and EXEC: only tasks past their available_at move, others are untouched |
| Promotion.PromotedEarlyIff | internal/queue/queue.go:242-258 | every run: a task is promoted before its due time if and only if it was filed again with a later one between the range read and the EXEC |
| Promotion.DistinctInEveryRun | internal/queue/queue.go:229-260 | fail-stop: ids in the ready and delayed sets are distinct |
| Locations.AlwaysInv | internal/scheduler/scheduler.go:129-338 | fail-stop: places, rows, hashes, pending dead marks and the coordinator's loop agree in every reachable state |
| Guarantees.ExactlyOneCopy | internal/scheduler/scheduler.go:129-338 | fail-stop: every created task has exactly one copy, or is done, in the DLQ or lost and has none |
| Losses.LastCopiesGoIff | internal/scheduler/scheduler.go:129-338 | every run, also with live workers reclaimed: the last copies of a task go if and only if one step takes them all: delivery, a crash of the process that has it in hand, or a DEL of records that the HGETALL did not read; then only a creation or a redrive makes a copy |
| Losses.OrphanGoesIff | internal/queue/queue.go:207-225 | every run: the record of a dead worker leaves the hash if and only if the coordinator reads it, or deletes the hash after reading it without that record |
| Guarantees.LastCopyGoesIff | internal/scheduler/scheduler.go:154-178 | fail-stop: the last copy of a task goes if and only if it is delivered (MarkSucceeded, or a dead letter) or a process holding it crashes inside one of four named windows; then only a redrive makes a copy |
| Guarantees.LostIffCrashInWindow | internal/scheduler/scheduler.go:154-178 | fail-stop: the place of a task says lost in a window if and only if its process crashed inside that window; a lost task has no copy and stays lost |
| Guarantees.CrashKeepsRunningTask | internal/scheduler/scheduler.go:141-151 | a crash while the handler runs leaves the task in the worker's hash |
| Leases.CrashKeepsRecordIff | internal/scheduler/scheduler.go:141-154 | every run: a crash during a handler leaves the record in the hash if and only if, since the lease, neither a DEL of that hash nor an Ack, Nack or rejection by a twin goroutine has taken it |
| Leases.CrashLosesRunningTaskIff | internal/scheduler/scheduler.go:141-154 | every run: the crash itself leaves no copy of the running task if and only if the record was so taken and every other copy was in the same process; later losses are those of LastCopiesGoIff |
| Guarantees.NoDuplicateSources | internal/scheduler/scheduler.go:302-311 | fail-stop: no live worker is reclaimed and no redrive meets a live copy |
| Guarantees.AtMostOneCopy | internal/queue/queue.go:207-225 | fail-stop: at most one live copy of a task |
| Guarantees.RefinesOneCell | internal/scheduler/scheduler.go:129-180 | fail-stop: the whole machine is, per task, a stuttering refinement of Waiting(a), Running(a), Finished, InGrave, Gone |
| Guarantees.TerminalRowChangesIff | internal/store/store.go:154-164 | fail-stop: a succeeded or dead row changes if and only if a late MarkRetry hits it or a dead row is redriven |
| Guarantees.DoneNeverRestarts | internal/store/store.go:124-151 | fail-stop: no handler of a done task ever starts again |
| Guarantees.SucceededIsDone | internal/store/store.go:138-151 | fail-stop: a succeeded row has no live envelope |
| Guarantees.RowAttemptsCountStarts | internal/store/store.go:127-129 | every run: tasks.attempts counts the handler starts since creation or redrive |
| Guarantees.RowAttemptsBounded | internal/scheduler/scheduler.go:162-171 | fail-stop: it is at most the envelope's attempts at rest, one more while leased, and never above max_attempts |
| Guarantees.EnvelopeAttempts | internal/scheduler/scheduler.go:318-324 | every run: live envelopes have an attempt left; a dead letter has used all unless no handler was registered |
| Guarantees.OrphanResetNeverSteals | internal/store/store.go:214-219 | fail-stop: the orphan reset changes only rows running on the crashed worker and held by no goroutine past MarkRunning |
| Guarantees.DeadWorkerHasNoRecords | internal/scheduler/scheduler.go:299-301 | fail-stop: a worker row marked dead has an empty hash, so skipping it is safe |
| Guarantees.UnrecordedIff | internal/scheduler/scheduler.go:165-171 | fail-stop: the place of a task says that its death will never be recorded if and only if the DLQ has more entries of it than the dead_letters table and no goroutine or sweep is about to mark it dead |
| Guarantees.Ledger | internal/store/store.go:167-193 | fail-stop: dead_letters rows and DLQ entries of a task equal its redrives, plus one while it is recorded, or present, in the DLQ |
| Agreement.TerminalStatusIsTruth | internal/store/store.go:138-193 | timely fail-stop: status succeeded and dead mean exactly done and recorded in the DLQ |
| Agreement.RunningRowIsOwned | internal/store/store.go:124-135 | timely fail-stop: a goroutine past MarkRunning finds its own mark on the row until it reports |
| Agreement.TerminalRowsAreFinal | internal/store/store.go:368-382 | timely fail-stop: a succeeded row never changes again, a dead row only by Redrive |
| Agreement.RetryingRowIsDue | internal/scheduler/scheduler.go:173-178 | timely fail-stop: while its row says retrying, a delayed task is due exactly at the available_at of the row |
| Agreement.LedgerAtRest | internal/api/api.go:196-216 | timely fail-stop: DLQ entries = dead_letters rows = redrives + (1 if the row is dead), and the DLQ leads by at most one |
| Detection.CrashedStaysSilent | internal/queue/queue.go:193-204 | after a crash the heartbeat key expires within one TTL and is never renewed |
| Recovery.SweepRecovers | internal/scheduler/scheduler.go:292-338 | fail-stop, any interleaving: a sweep that begins a TTL after the crash returns every record that the worker held and leaves its hash empty |
| Recovery.RecoveredInTime | internal/scheduler/scheduler.go:222-240 | fail-stop, sweeps at most one interval apart: each task held by a crashed worker is ready or in the DLQ less than TTL + interval, plus the length of a sweep, after the crash |
| Deadline.RecoveryBoundIsExact | internal/scheduler/scheduler.go:222-240 | all crashes are recovered in less than B if and only if TTL + interval (plus the length of a sweep) is at most B |
| Deadline.WorstCase | internal/scheduler/scheduler.go:222-240 | for every configuration a run with regular sweeps that uses the whole bound |
| Deadline.FiveSecondsAreMissed | README.md:11-12 | with the default settings some crash is not recovered within 5 seconds |
| Detection.PunctualIsFailStop | internal/scheduler/scheduler.go:111-127 | if every worker beats less than one TTL apart, the run is fail-stop |
| Detection.LiveWorkerNeverReclaimed | internal/scheduler/scheduler.go:302-311 | a worker that beats less than one TTL apart is alive for the coordinator and never handled by it, however slow the others are |
| Races.LateRetryOverwritesSuccess | internal/scheduler/scheduler.go:175-178 | a fail-stop run in which a late MarkRetry turns succeeded into retrying |
| Races.PromotedBeforeDue | internal/queue/queue.go:229-258 | a run in which a live worker is taken for dead and a task is promoted half a second before its due time |
| Races.LiveReclaimLosesTask | internal/queue/queue.go:209-223 | a run in which a live worker leases between HGETALL and DEL and its crash then loses a running task |
| Races.DelLosesCrashedTask | internal/queue/queue.go:209-223 | a run in which the crash leaves the record of the running task in the hash and the DEL of an earlier snapshot wipes it |
| Races.CrashInWindowLosesTask | internal/scheduler/scheduler.go:163-178 | a fail-stop run in which a crash between Nack and EnqueueDelayed loses a task |

## Left out

- Graceful shutdown (internal/scheduler/scheduler.go:78-83): a process exit is a crash here.
- Cancellation (internal/store/store.go:196-206): it changes only the row; nothing is claimed about canceled tasks.
- Several coordinators, failing Redis or SQL calls, malformed members and reused worker names.
- JSON and cjson encoding, UUID generation, payloads and handler bodies.
- The byte order of members with equal scores: any of them may be popped or batched first.
- Start, finish and update timestamps, results, last_heartbeat, hostnames and the task_events log.
- The limits of 64-bit integers on attempts and priorities.
- HTTP routing, listing and statistics endpoints, pub/sub events, the WebSocket hub, the dashboard, the load tester and configuration parsing.
- Discovery of types by SCAN (internal/scheduler/scheduler.go:266-290): the discovered types are a parameter.
- Wall-clock waiting in the loops (tickers, the 200 ms pause): time passes in Tick steps only.
- Queue.Queue.ReclaimInflight: nothing happens between its HGETALL and its DEL; the interleaved form is the pair of steps HGetAll and Del of the protocol.
- Queue.Queue.PromoteDelayed: nothing happens between its range read and its EXEC; the interleaved form is the pair of steps PromoteRead and PromoteExec of the protocol.
- Store.Store.ListWorkers: last_heartbeat is not stored, so its ORDER BY is modelled as any order; no result depends on the order.
