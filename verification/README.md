# GFire job life cycle: a verified model

GFire runs background jobs for many peers that share one store. The peers
coordinate only through compare-and-set on a job's state, so what matters is
what holds over every interleaving. This project models that core and proves it.

`dafny verify dfyconfig.toml` verifies everything.

## How it is built

* **Vocabulary.** `Lifecycle` (states, legal moves, histories), `Protocol`
  (the requests and outcomes the backends share), `Queues`, `DueSelection`.
* **One abstract machine.** `AbstractJobs`: job id to append-only history. A
  dequeue may hand out any Enqueued job of the requested queues.
* **Three backends.** Each is a set of functions on values, the specification,
  and a class with the source's fields whose methods are proved against it:
  `MemorySpec`/`MemoryStorage` (maps and lists), `PostgresSpec`/`PostgresStorage`
  (tables; the queue is derived from the state column), and
  `RedisSpec`/`RedisStorage` (hashes, lists and state sets).
* **Runs of the memory store.** `MemoryWorld` records what the store forgets.
  `MemoryFound`, `MemoryCounters` (with `Totals`), `MemoryQueues` and
  `MemoryRuns` prove what every basic run keeps.
* **The log.** `Chronicle` tells from the log of granted requests alone what a job's
  record is; `MemoryChronicle`, `PostgresChronicle` and `RedisChronicle` prove that
  each backend holds exactly that, and what its sweep and its orphan scan find.
  `RedisQueues` proves that Redis loses no job and serves first in, first out.
* **Refinement.** `MemoryRefinement` and `PostgresRefinement`: in disciplined
  runs both backends refine the abstract machine, step by step. `Backends` lifts
  this to runs of workers.
* **Workers.** `Workers` is the step machine: any number of workers, each with a
  program counter, one store call or read per step, interleaved with each other,
  with crashes and with callers. Over it `Continuations` and `LostFirings` say what
  fires and what is lost; `Custody` says whose verdict counts for an episode;
  `RetryBudget`, `RetryBound`, `RetryTermination` and `Progress` say how often a job
  is attempted and that it ends; `Stranded` says when nobody ends it. `SingleJob`
  builds the runs that serve as examples. `Backoff` is the delay in 64-bit
  arithmetic. `Engine` is the same code as an object over the memory store, `Tickets`
  says what the run of a ticket comes to, and `EngineSteps` ties the two together.
  `PostgresTurns` is the order of the table queue, and `BackendProgress` carries
  progress over to both backends.
* **Time.** `TimedSafety` adds a clock, heartbeats and coordinators whose scan and
  requeues are separate steps; `TimedCustody` carries custody and the budget over to
  it; `Stealing` builds the runs that go wrong, and `ExactTiming` says exactly when
  they can. `MemoryOrphans` is recovery over the memory store.
* **Around it.** `RedisIndex`, `Locks`/`LockBackends`, `Batch`, `SchedulerDrain`,
  `Recurring`.

A **basic** run: new ids are new, a job is enqueued on its own queue, and
ApplyState is used as the engine uses it (Processing to Succeeded, Failed or
Cancelled; Failed to Dead). Nothing else is assumed. A **disciplined** run is a
basic run in which Requeue and DeleteJob meet only jobs that are Processing or
Failed, or that refuse them anyway. A **recovering** run is a disciplined run whose
only successful requeues are of Processing jobs that no worker runs. A **quiet** run
has no Requeue and no DeleteJob. Recovery is **in time** when no node
runs a coordinator, or one does and its stale age is at least the longest time a
running worker goes without a heartbeat.

## Where the code differs from what is said of it

The model follows the code.

* Continuations fire at most once, not at least once (SPECIFICATIONS.md:1197-1199). A
  worker that dies while firing loses the rest, and orphan recovery does not bring it
  back, since the parent is settled: `LostFirings.EntryIsLost` is a run that loses an
  entry, and by `LostFirings.FiredToTheEndIff` firing is complete exactly when its
  worker neither died while at it nor found the parent erased.
* Recovery takes no job from a running worker if and only if it is in time. Every node
  runs a coordinator, and two that scanned the same orphan can take it from a running
  worker (`ExactTiming.NoStealIff`, `Stealing.TwoCoordinatorsSteal`).
* The ticket's token, meant for optimistic concurrency (SPECIFICATIONS.md:556 and 669), is
  never looked at: after a requeue under its worker, the verdict of the old episode can
  be stored for the new one (`Custody.StaleFinishIsReachable`). Exactly the requeues
  that meet a running job make this possible (`Custody.StaleFinishIff`). With no such
  requeue by hand it is ruled out if and only if recovery is in time
  (`ExactTiming.StaleFinishIff`).
* A stolen job can fail more often than its budget, since each of its workers settles by
  the attempt it read itself. Without requeues by hand this is ruled out if and only if
  recovery is in time (`ExactTiming.BudgetIff`).
* A worker that dies between storing a failure and burying or rescheduling the job
  leaves it Failed with nobody to settle it, and there is no other way to get there
  (`Stranded.StrandedIff`). It stays so until requeued, deleted or erased from outside
  (`Stranded.StrandedForever`); the Postgres scan never sees it
  (`Stranded.ScanOverlooks`), the memory scan does (`MemoryFound.StepKeepsFound`).
* The memory store's orphan scan ignores the state, and heartbeats survive
  requeues, so a tick may put a waiting job into its queue twice
  (`MemoryOrphans.TickDoublesWaitingJob`).
* Memory `Dequeue` unlocks its mutex twice when the popped id has no job. That
  branch is reachable by deleting a queued job and letting it expire
  (`MemoryRuns.MissingIsReachable`), and unreachable in disciplined runs
  (`Backends.EveryJobInItsPlace`).
* The backoff product overflows at attempts 28 and 29: those retries are due at
  once (`Backoff.DelayIsDocumentedIff`).
* The Redis listing of Deleted is always empty (`RedisIndex.DeletedListingIff`),
  and its retention sweep trusts stale set members, so it can erase a job that
  failed, was requeued and still waits (`RedisIndex.SweepLosesRequeuedJob`).
* On Redis a job deleted while it was processed stays in the orphan scan for ever
  (`RedisChronicle.DeletedIsScannedForever`).
* A worker stores its result before it looks whether the job is still its own, so a late
  success overwrites the result of whoever came after (`Tickets.LateTicket`).
* Requeue does not reset the attempts and Dead jobs cannot be requeued, against
  SPECIFICATIONS.md:1430 (`RetryBudget.RequeueKeepsAttempts`, with the cases reached in
  `Stranded.RescueKeepsTheFailure` and `Stranded.DeadIsReachable`). A negative maximum
  means Dead on the first failure and zero means ten, against SPECIFICATIONS.md:1445
  (`RetryBudget.RetryMaxIsDocumentedIff`). `Lifecycle.Budget` is the code's meaning
  and all bounds are stated with it.

## Model

| member | source | states |
|---|---|---|
| `Lifecycle.AttemptCount` | internal/middleware/pipeline.go:41-49 | the number of Failed entries of a history, for every history: the retry accounting all later bounds rest on |
| `Lifecycle.LegalHistoryExtends` | internal/job/job.go:42-73 | a legal move appended to a legal history keeps every adjacent pair legal |
| `Lifecycle.IrreversibleIsLast` | internal/job/job.go:65-73 | in a legal history no irreversible state is ever followed by another entry |
| `AbstractJobs.AbsStepKeepsInv` | internal/storage/memory/memory.go:66-247 | every disciplined request keeps all histories legal, a due time exactly on Scheduled jobs, and ids unique for ever |
| `AbstractJobs.AbsHistoryGrows` | internal/storage/memory/memory.go:66-247 | a surviving history only grows at its end, and queue and retry maximum never change |
| `AbstractJobs.AbsIrreversibleStays` | internal/storage/memory/memory.go:149-224 | a settled job keeps its history unchanged until it is erased |
| `AbstractJobs.LegalIff` | internal/storage/memory/memory.go:66-247 | from a state the disciplined requests lead into exactly the states the life cycle permits: no legal move is idle and no other is made |
| `MemoryStorage.Storage.constructor` | internal/storage/memory/memory.go:43-64 | a new store is the empty state |
| `MemoryStorage.Storage.Enqueue` | internal/storage/memory/memory.go:66-100 | stores the job with defaults filled in, one Enqueued entry, one push at the tail of the named queue, one count; nothing else changes |
| `MemoryStorage.Storage.Dequeue` | internal/storage/memory/memory.go:102-147 | pops the head of the first non-empty requested queue and starts its job, whatever its state, or reports the missing job or the empty queues |
| `MemoryStorage.Storage.Requeue` | internal/storage/memory/memory.go:149-187 | not found, terminal, or one Enqueued entry, one push on the job's own queue and no processing mark; the heartbeat stays |
| `MemoryStorage.Storage.ApplyState` | internal/storage/memory/memory.go:189-224 | the compare-and-set: applied exactly when the current state is the expected one, with its counter; otherwise nothing changes |
| `MemoryStorage.Storage.ScheduleRetry` | internal/storage/memory/memory.go:226-247 | exactly from Failed: one Scheduled entry, the due time, one count |
| `MemoryStorage.Storage.SetJobResult` | internal/storage/memory/memory.go:249-261 | stores the result cut at 65536 bytes, for existing jobs only |
| `MemoryStorage.Storage.HeartbeatJob` | internal/storage/memory/memory.go:263-272 | renews the heartbeat of an existing job in any state |
| `MemoryStorage.Storage.GetOrphanedJobs` | internal/storage/memory/memory.go:274-286 | exactly the ids with a heartbeat older than the stale age; the state is not consulted |
| `MemoryStorage.Storage.AddScheduled` | internal/storage/memory/memory.go:402-420 | stores the job with a Scheduled entry and its due time; no queue is touched |
| `MemoryStorage.Storage.PickDue` | internal/storage/memory/memory.go:422-434 | for any iteration order: distinct due ids, at most a batch, all of them unless the batch is full |
| `MemoryStorage.Storage.GetDueScheduled` | internal/storage/memory/memory.go:422-459 | the picked jobs leave the schedule and join their queues in picking order, one entry and two counter moves each |
| `MemoryStorage.Storage.AddContinuation` | internal/storage/memory/memory.go:520-526 | appends the entry to the parent's list |
| `MemoryStorage.Storage.RemoveExpired` | internal/storage/memory/memory.go:622-650 | erases exactly the Succeeded, Failed and Deleted jobs older than the cutoff from every map but the queues and the keys, for any iteration order, and returns their number |
| `MemoryStorage.Storage.DeleteJob` | internal/storage/memory/memory.go:652-672 | not found, terminal, or one Deleted entry and no processing or heartbeat mark; queue and schedule entries stay behind |
| `MemoryStorage.Storage.EnqueueIdempotent` | internal/storage/memory/memory.go:677-724 | a bound key returns its job and changes nothing; otherwise an enqueue, with the key bound to the new job |
| `MemoryFound.StepKeepsFound` | internal/storage/memory/memory.go:66-247 | no request loses a job: an Enqueued one is in its queue, a Scheduled one on the schedule, a Processing one in both tracking maps, and a Failed one still where the orphan scan looks |
| `MemoryCounters.StepKeepsCounters` | internal/storage/memory/memory.go:189-247 | each counter stays the sum of its entries over all live and expired histories, up to requeues and promotions |
| `MemoryQueues.StepKeepsLedger` | internal/storage/memory/memory.go:102-116 | per queue, what was pushed is what was popped followed by what waits |
| `MemoryRuns.EveryBasicRun` | internal/storage/memory/memory.go:66-247 | all of these at once over every basic run from the empty store, with well-formed maps and keys naming distinct created jobs |
| `MemoryRuns.FirstInFirstOut` | internal/storage/memory/memory.go:102-116 | an entry at position k of a queue leaves it with exactly the (k+1)-st pop of that queue, whatever else happens meanwhile |
| `MemoryRuns.HistoriesGrow` | internal/storage/memory/memory.go:189-247 | over a run every history only grows at its end, and an erased job never comes back |
| `MemoryRuns.MissingMeansErased` | internal/storage/memory/memory.go:118-130 | a dequeue finds no job behind an id exactly when that id was erased while it waited |
| `MemoryRuns.MissingIsReachable` | internal/storage/memory/memory.go:118-130 | delete a queued job, let it expire, dequeue: the missing-job branch is reachable in basic runs |
| `MemoryRuns.CreatesIff` | internal/storage/memory/memory.go:677-724 | an idempotent enqueue reports a creation exactly for an unbound key or none, binding the key to the new job; else it changes nothing and names the bound job |
| `MemoryRuns.KeyIsBoundForever` | internal/storage/memory/memory.go:677-724 | an idempotency key stays bound to its one job through every run, even after the job expired |
| `Chronicle.LastResultIsKept` | internal/storage/memory/memory.go:249-261 | told from the log of requests alone: the bytes handed in, or the first 65536 of them, stay the result until one is stored again or the job is erased |
| `MemoryChronicle.MemoryTellsTheTale` | internal/storage/memory/memory.go:66-261 | over every basic run a job's record, dated history and result are exactly what the log of granted requests tells, whatever else was served |
| `MemoryChronicle.AnswersAreTold` | internal/storage/memory/memory.go:149-272 | every request that names one job is answered as the log says: not found, terminal after Succeeded, Dead, Cancelled or Deleted, a conflict unless the state is the expected one, and else done |
| `MemoryChronicle.ResultIsKept` | internal/storage/memory/memory.go:249-261 | the stored result is the last one handed in, or its first 65536 bytes, until the job is erased |
| `MemoryChronicle.SweepIsRetention` | internal/storage/memory/memory.go:622-650 | the sweep erases exactly the jobs that entered Succeeded, Failed or Deleted before the cutoff and nothing since |
| `MemoryChronicle.ScanIsSilence` | internal/storage/memory/memory.go:274-286 | the orphan scan lists exactly the jobs whose last granted dequeue or heartbeat is older than the cutoff and that were not deleted or erased since |
| `MemoryChronicle.HeardIsNoOrphan` | internal/storage/memory/memory.go:263-286 | a job heard of within the stale age is in no orphan scan |
| `MemoryChronicle.EntriesAreRegistered` | internal/storage/memory/memory.go:520-526 | the continuations stored for a parent are those registered on it, in order, unless it was erased since |
| `MemoryRefinement.HeadIsEnqueued` | internal/storage/memory/memory.go:102-130 | in a placed store the head of a queue is a live Enqueued job of that queue |
| `MemoryRefinement.MemoryRefines` | internal/storage/memory/memory.go:66-247 | every disciplined request is a step of the abstract machine with the same outcome and keeps each job in the one place its state names |
| `PostgresStorage.Storage.Enqueue` | internal/storage/postgres/jobs.go:16-65 | one job row with the next queue token and one history row |
| `PostgresStorage.Storage.TryDequeue` | internal/storage/postgres/jobs.go:100-156 | takes the candidate with the least queue token of all Enqueued rows of the requested queues, sets state and progress, adds one history row; empty only if there is no candidate |
| `PostgresStorage.Storage.Requeue` | internal/storage/postgres/jobs.go:158-202 | not found, terminal, or Enqueued with progress cleared and one history row |
| `PostgresStorage.Storage.ApplyState` | internal/storage/postgres/jobs.go:204-267 | the compare-and-set on the state column, with progress cleared on leaving Processing and one history row |
| `PostgresStorage.Storage.HeartbeatJob` | internal/storage/postgres/jobs.go:295-307 | sets progress and the update time of an existing row |
| `PostgresStorage.Storage.GetOrphanedJobs` | internal/storage/postgres/jobs.go:309-330 | exactly the Processing rows whose progress is older than the cutoff |
| `PostgresStorage.Storage.DeleteJob` | internal/storage/postgres/jobs.go:333-372 | not found, terminal, or Deleted with progress cleared and one history row |
| `PostgresStorage.Storage.ScheduleRetry` | internal/storage/postgres/retry.go:15-67 | exactly from Failed: Scheduled, one history row, one schedule row |
| `PostgresStorage.Storage.SetJobResult` | internal/storage/postgres/retry.go:69-84 | stores the result cut at 65536 bytes and touches the update time |
| `PostgresStorage.Storage.AddScheduled` | internal/storage/postgres/scheduled.go:14-72 | a Scheduled job row, one history row, one schedule row |
| `PostgresStorage.Storage.GetDueScheduled` | internal/storage/postgres/scheduled.go:74-146 | the earliest due rows, at most a batch, leave the schedule and become Enqueued with one history row each; nothing else changes |
| `PostgresStorage.Storage.AddContinuation` | internal/storage/postgres/scheduled.go:241-259 | refused for an unknown parent or condition by the table constraints, appended otherwise |
| `PostgresStorage.Storage.RemoveExpired` | internal/storage/postgres/misc.go:132-143 | deletes exactly the expired rows, cascading, and returns their number |
| `PostgresStorage.Storage.CoordinatorTick` | internal/engine/coordinator.go:37-46 | one tick moves exactly the stale Processing jobs to Enqueued with one history row each, changes nothing else, and leaves no orphan at that instant |
| `PostgresSpec.SecondSweepFindsNothing` | internal/engine/coordinator.go:37-46 | a second tick at the same instant finds no orphan and changes nothing |
| `DueSelection.SelectDue` | internal/storage/postgres/scheduled.go:74-110 | distinct due ids, earliest first, none skipped for a later one, all of them while there is room |
| `PostgresRefinement.PostgresRefines` | internal/storage/postgres/jobs.go:100-267 | every disciplined transaction is a step of the same abstract machine with the same outcome and keeps state column, history, schedule and progress consistent |
| `PostgresChronicle.TablesTellTheTale` | internal/storage/postgres/jobs.go:16-307 | over every basic run a job's row, history rows, result, progress and update time are exactly what the log of granted requests tells |
| `PostgresChronicle.AnswersAreTold` | internal/storage/postgres/jobs.go:158-307 | every request that names one job is answered as the log says, by the same rule as in memory |
| `PostgresChronicle.RegistrationIff` | internal/storage/postgres/scheduled.go:241-259 | a continuation is accepted exactly for an existing parent and one of the three conditions |
| `PostgresChronicle.ResultIsKept` | internal/storage/postgres/retry.go:69-84 | the stored result is the last one handed in, or its first 65536 bytes, until the job is erased |
| `PostgresChronicle.SweepIsRetention` | internal/storage/postgres/misc.go:132-143 | the sweep erases exactly the Succeeded, Failed and Deleted jobs whose row was last written before the cutoff; a result or a heartbeat counts as a write |
| `PostgresChronicle.ScanIsSilence` | internal/storage/postgres/jobs.go:309-330 | the orphan scan lists exactly the jobs whose last state is Processing and that were last heard of before the cutoff |
| `PostgresChronicle.EntriesAreRegistered` | internal/storage/postgres/scheduled.go:241-259 | the continuations stored for a parent are those registered on it, in order, unless it was erased since |
| `Backends.RunRefines` | internal/engine/worker.go:58-103 | every run of any number of workers over either backend is a run over the abstract machine, act by act, with the same workers and call log |
| `Backends.EveryJobInItsPlace` | internal/storage/memory/memory.go:102-247 | in every disciplined run each memory job is in exactly one place, histories are legal, and the missing-job branch of Dequeue is unreachable |
| `Backends.TablesStayConsistent` | internal/storage/postgres/jobs.go:100-267 | in every disciplined run the state column repeats the last history row, Processing has a heartbeat, and histories are legal |
| `Backends.BackendFiresOnce` | internal/engine/continuations.go:10-51 | on either backend: at most one firing per parent, never with a retry scheduled; a finished one read the entries stored at one instant of the run, and exactly those on OnAny, on OnSucceeded after Succeeded and on OnFailed after Dead have a child of their own, live children being the jobs the entries asked for |
| `Backends.BackendFailsWithinBudget` | internal/engine/engine.go:230-266 | on either backend, crashes, deletes and orphan recovery included: while only Processing jobs that nobody runs are requeued, no job fails more often than its budget, no two workers run it and no two settle it |
| `PostgresTurns.TurnComes` | internal/storage/postgres/jobs.go:100-156 | while a job waits, every dequeue of its queue over the tables finds work and hands out that job or one inserted before it, and no act of anybody adds a job to those |
| `Backends.BackendRetriesTerminate` | internal/engine/engine.go:230-266 | on either backend: at most 32 n + 13 further acts on a job with budget n when workers finish what they start |
| `Continuations.ActKeepsFires` | internal/engine/worker.go:58-103 | no act of any worker or caller breaks: one call per parent, parents of calls settled, children in step with the entries handled, each live child the job its entry asked for |
| `Continuations.OneEndingPerJob` | internal/engine/engine.go:216-266 | over every disciplined run at most one worker moves a job into Succeeded, Dead or Cancelled, however many race on it |
| `Continuations.ContinuationsFireOnce` | internal/engine/continuations.go:10-51 | each parent has at most one call, is settled while it lives, and has no retry scheduled; a finished call read the entries stored at one instant of the run and has, in order and under distinct ids, one child for each entry on OnAny, on OnSucceeded after Succeeded, on OnFailed after Dead, and no other; each live child has the name, queue, default maximum and Enqueued start the entry asks for |
| `Continuations.EntriesWereStored` | internal/engine/continuations.go:11-17 | the entries a call works on are exactly those stored for its parent at one instant of the run |
| `LostFirings.CrashLosesTheRest` | internal/engine/continuations.go:10-38 | a worker that dies while firing leaves its call as it is for ever, whatever runs from there on |
| `LostFirings.FiredToTheEndIff` | internal/engine/continuations.go:10-38 | over every disciplined run: a call nobody attends any more is fired to its end, with a child for every matching entry, exactly when its worker neither died while attending it nor found the parent erased |
| `LostFirings.EntryIsLost` | internal/engine/continuations.go:10-38 | a run from the empty store that ends with a succeeded parent, a matching entry and no child, and no continuation of it ever creates one |
| `LostFirings.DeadParentFires` | internal/engine/continuations.go:40-51 | a run from the empty store in which a job exhausts its retries and the continuation on its failure has its child, enqueued |
| `Custody.ActKeepsCustody` | internal/engine/worker.go:58-103 | while no running job is requeued, every act keeps: one runner per job, and each running worker's job gone or in the very episode, with the failures and maximum, that the worker read |
| `Custody.StaleFinishIff` | internal/engine/engine.go:216-246 | after any run in which no running job was requeued, a requeue can lead to a verdict stored for a newer episode exactly when it meets a job that some worker runs |
| `Custody.StaleFinishIsReachable` | internal/engine/engine.go:216-246 | a run from the empty store in which a success is stored for a newer episode than its worker took |
| `RetryBudget.RetryMaxIsDocumentedIff` | internal/engine/retry.go:31-36 | the retry maximum means what SPECIFICATIONS.md says exactly when it is positive |
| `RetryBudget.RequeueKeepsAttempts` | internal/storage/memory/memory.go:149-187 | a requeue keeps the number of failed attempts, and Dead is refused |
| `RetryBudget.ExhaustedIsLast` | internal/engine/engine.go:248-262 | the budget test buries a job exactly at the last failure its path has room for |
| `RetryBound.ActKeepsBudget` | internal/engine/engine.go:230-266 | every act of a recovering run, crashes and deletes included, keeps room for one more failure wherever a job may still be attempted, and one settler per job that knows its failure |
| `RetryBound.FailuresWithinBudget` | internal/engine/engine.go:230-266 | over every recovering run a job fails at most max(1, effective maximum) times, one worker at most runs it and one at most settles it |
| `RetryTermination.QuietHistoryIsBounded` | internal/engine/engine.go:230-266 | in quiet runs a history has at most four entries for each attempt of the budget, after an initial Scheduled one, and one worker at most holds the job |
| `RetryTermination.AllFailHistory` | internal/engine/engine.go:230-266 | a job created by Enqueue whose attempts all fail has exactly the history (Enqueued Processing Failed Scheduled)^(n-1) Enqueued Processing Failed Dead |
| `RetryTermination.RankFalls` | internal/engine/worker.go:58-103 | every act on a job lowers its rank by at least one and no other act raises it |
| `RetryTermination.SomethingIsEnabled` | internal/engine/worker.go:58-103 | a live job that is not settled always has an enabled act that concerns it, of its holder, the scheduler or any worker that comes to poll |
| `Progress.EveryJobCanBeSettled` | internal/engine/worker.go:13-103 | after every crash-free quiet run of a fixed non-empty pool, and for every job, the acts of that pool and scheduler ticks alone can go on to a state where the job is settled or gone |
| `BackendProgress.EveryJobCanBeSettledHere` | internal/engine/worker.go:13-103 | the same on the memory store and on the tables, where the queue serves others first: after every crash-free quiet run of a fixed non-empty pool, and for every job, requests the backend itself answers so, of that pool and the scheduler alone, lead to a state where the job is settled or gone |
| `RetryTermination.RetriesTerminate` | internal/engine/engine.go:230-266 | at most 32 n + 13 acts on a job remain, and until it is settled or erased one is enabled |
| `Stranded.StrandedIff` | internal/engine/engine.go:230-266 | over every disciplined run a job is Failed with nobody to settle it exactly when its last settler died and nobody requeued, deleted or erased it since |
| `Stranded.StrandedForever` | internal/engine/engine.go:230-266 | no act of any worker, of the scheduler or of a recovery of other jobs ever moves such a job |
| `Stranded.ScanOverlooks` | internal/storage/postgres/jobs.go:309-330 | the scan over the tables never lists such a job, whatever the cutoff |
| `Stranded.StrandedIsReachable` | internal/engine/engine.go:238-262 | a run from the empty store that leaves a job so |
| `Stranded.RescueKeepsTheFailure` | internal/storage/postgres/jobs.go:158-202 | requeued by hand it is Enqueued again with its budget already spent |
| `Stranded.DeadIsReachable` | internal/engine/engine.go:248-258 | a run from the empty store to a Dead job, and every requeue of it is refused |
| `Backoff.DelayIsDocumentedIff` | internal/engine/retry.go:15-29 | in 64-bit arithmetic the delay is min(1 minute * 2^attempt, 1 hour) exactly when the attempt is not 28 or 29 |
| `Backoff.FirstDelays` | internal/engine/retry.go:15-29 | one, two, four, eight, sixteen and thirty-two minutes, then an hour, up to attempt 27 |
| `Backoff.DelayOverflows` | internal/engine/retry.go:22-26 | at attempts 28 and 29 the product wraps below minus one hour and the clamp lets it through |
| `Backoff.ScheduledDelayBoundsIff` | internal/engine/engine.go:250-262 | every delay the engine schedules lies in [1 minute, 1 hour + 1 second) exactly when the maximum is at most 29 |
| `Backoff.TotalBackoff` | internal/engine/retry.go:15-29 | k retries wait (2^k - 1) minutes in all for k up to 6 and 63 + 60 (k - 6) up to 28, plus less than a second of jitter each |
| `TimedSafety.MoveKeepsSafe` | internal/engine/coordinator.go:32-47 | with one coordinator waiting at least the heartbeat gap, every move keeps running workers alone on jobs with recent heartbeats and pending orphans abandoned |
| `TimedSafety.TimedRunIsDisciplined` | internal/engine/coordinator.go:32-47 | under that condition every timed run, with its coordinator, is a disciplined run over the tables |
| `TimedCustody.NoStaleFinishInTime` | internal/engine/worker.go:58-103 | in time, no worker of any timed run finishes a newer episode than it took |
| `TimedCustody.BudgetHoldsInTime` | internal/engine/engine.go:230-266 | in time and without requeues by hand, no job of any timed run, crashes and recoveries included, fails more often than its budget |
| `ExactTiming.NoStealIff` | internal/storage/postgres/jobs.go:295-330 | no coordinator ever takes a job from a worker running it, if and only if recovery is in time: there is no coordinator, or a single one whose stale age is at least the heartbeat gap |
| `ExactTiming.OneRunnerIff` | internal/engine/worker.go:105-120 | a job never has two running workers, if and only if recovery is in time |
| `ExactTiming.StaleFinishIff` | internal/engine/engine.go:216-246 | no verdict is ever stored for a newer episode than its worker took, if and only if recovery is in time |
| `ExactTiming.BudgetIff` | internal/engine/engine.go:230-266 | in all timed runs without requeues by hand every job keeps to its budget, if and only if recovery is in time |
| `Stealing.TwoCoordinatorsSteal` | internal/engine/coordinator.go:37-46 | from any state at rest, two nodes that scanned one orphan: the second requeues it under the new worker, and a second worker takes it |
| `Stealing.SilentWorkerLoses` | internal/engine/worker.go:105-120 | from any state at rest, a single coordinator takes the job of a worker silent for longer than the stale age, and a second worker takes it |
| `Stealing.TwinsAreReachable` | internal/engine/coordinator.go:32-47 | whenever recovery is not in time: after any number of failures below the maximum, a timed run without requeues by hand to a steal and on to two workers running one job with the same attempt |
| `MemoryOrphans.CoordinatorTick` | internal/engine/coordinator.go:37-46 | over the memory store a tick adds one entry and one queue place for every stale heartbeat of an unsettled job, and nothing else |
| `MemoryOrphans.SecondTickRequeuesAgain` | internal/storage/memory/memory.go:280-284 | a second tick at the same instant requeues them again, unless all of them are settled |
| `MemoryOrphans.RecoveryIsDisciplinedIff` | internal/storage/memory/memory.go:149-187 | the recovery of an orphan is disciplined exactly when it is not waiting in a queue or on the schedule |
| `MemoryOrphans.TickDoublesWaitingJob` | internal/storage/memory/memory.go:274-286 | a disciplined run after which a tick puts a waiting job into its queue a second time |
| `RedisStorage.Storage.Enqueue` | internal/storage/redis/jobs.go:71-105 | hash, list entry, LPUSH and membership in the Enqueued set |
| `RedisStorage.Storage.FinalizeDequeue` | internal/storage/redis/jobs.go:16-36 | the dequeue script: no effect on a missing job, otherwise hash, list, processing hash and two sets move together, whatever the state was |
| `RedisStorage.Storage.Dequeue` | internal/storage/redis/jobs.go:107-165 | pops tails of the first non-empty list until an id has a job behind it, skipping the others, or all are empty |
| `RedisStorage.Storage.Requeue` | internal/storage/redis/jobs.go:171-220 | leaves the Processing set and joins the Enqueued one; any other set keeps its member |
| `RedisStorage.Storage.ApplyState` | internal/storage/redis/jobs.go:38-69 | the compare-and-set script with its move between the two sets |
| `RedisStorage.Storage.GetJobsByState` | internal/storage/redis/jobs.go:329-378 | the page of the set that offset and limit name, in whatever order the set comes, filtered by the last list entry; unpaged, all and only the members really in the state |
| `RedisStorage.Storage.DeleteJob` | internal/storage/redis/jobs.go:413-448 | hash and list become Deleted; no set is told |
| `RedisStorage.Storage.ScheduleRetry` | internal/storage/redis/retry.go:14-52 | exactly from Failed: hash, list, sorted set and the two sets |
| `RedisStorage.Storage.AddScheduled` | internal/storage/redis/scheduled.go:29-65 | hash, list, sorted set and the Scheduled set |
| `RedisStorage.Storage.GetDueScheduled` | internal/storage/redis/scheduled.go:67-116 | the earliest due ids leave the sorted set; those with a job are enqueued, pushed onto their queues and re-indexed, the others are dropped |
| `RedisStorage.Storage.SetJobResult` | internal/storage/redis/retry.go:54-69 | stores the result cut at 65536 bytes, for existing jobs only |
| `RedisStorage.Storage.HeartbeatJob` | internal/storage/redis/jobs.go:270-286 | renews the heartbeat field and the processing hash of an existing job in any state |
| `RedisStorage.Storage.GetOrphanedJobs` | internal/storage/redis/jobs.go:288-309 | exactly the members of the Processing set without a heartbeat since the cutoff, jobs or not |
| `RedisStorage.Storage.RemoveExpired` | internal/storage/redis/misc.go:183-230 | three passes over the Succeeded, Failed and Deleted sets erase what they name if it is old; the number returned is the number of jobs gone |
| `RedisIndex.StepKeepsIndexed` | internal/storage/redis/jobs.go:171-268 | every request, with any arguments, keeps hash and list in agreement and every job not Deleted in the set of its state |
| `RedisIndex.ListingIsScan` | internal/storage/redis/jobs.go:329-378 | in every run from the empty store an unpaged listing of a state other than Deleted equals a full scan, stale members notwithstanding |
| `RedisIndex.DeletedListingIff` | internal/storage/redis/jobs.go:413-448 | a listing of Deleted is always empty, so it equals a full scan exactly when no job is in state Deleted at that moment |
| `RedisIndex.SweepIsExactIff` | internal/storage/redis/misc.go:183-209 | the sweep erases exactly the expired jobs when and only when no old job is a stale member of a swept set and no old Deleted job lies outside them |
| `RedisIndex.SweepLosesRequeuedJob` | internal/storage/redis/misc.go:183-230 | a run in which a failed, requeued, still waiting job is swept away |
| `RedisQueues.StepKeepsFindable` | internal/storage/redis/jobs.go:71-220 | no request loses a job: an Enqueued one is in the list of its queue, a Scheduled one in the sorted set, a Processing one in the processing hash, and lists hold live jobs of their own queue alone |
| `RedisQueues.EveryJobIsFound` | internal/storage/redis/scheduled.go:67-116 | the same over every basic run from the empty keys |
| `RedisQueues.DequeueFindsWorkIff` | internal/storage/redis/jobs.go:107-165 | a dequeue hands out a job exactly if one of the requested lists is not empty, and never pops an id without a job |
| `RedisQueues.FirstInFirstOut` | internal/storage/redis/jobs.go:107-165 | a ticket is the first arrival at its queue that was neither passed nor erased, and what waits are the arrivals after those passed that were not erased, in order |
| `RedisChronicle.KeysTellTheTale` | internal/storage/redis/jobs.go:38-286 | over every basic run a job's hash, state list, state sets, processing mark and due time are exactly what the log of granted requests tells |
| `RedisChronicle.AnswersAreTold` | internal/storage/redis/jobs.go:171-286 | every request that names one job is answered as the log says, by the same rule as in memory |
| `RedisChronicle.ResultIsKept` | internal/storage/redis/retry.go:54-69 | the stored result is the last one handed in, or its first 65536 bytes, until the job is erased |
| `RedisChronicle.SweepIsMembership` | internal/storage/redis/misc.go:183-230 | the sweep erases exactly the jobs whose last state is older than the cutoff and that the log left in the Succeeded, Failed or Deleted set |
| `RedisChronicle.ScanIsSilence` | internal/storage/redis/jobs.go:288-309 | the orphan scan lists exactly the members of the Processing set that were not heard of since the cutoff, a deleted or erased job counting as silent |
| `RedisChronicle.DeletedIsScannedForever` | internal/storage/redis/jobs.go:413-448 | a job deleted while it was processed is in every orphan scan from then on, whatever the cutoff |
| `Locks.StepKeepsInv` | internal/storage/memory/memory.go:578-616 | every answer of a lock table keeps owners unique and whoever has an active handle the holder |
| `Locks.MutualExclusion` | internal/storage/memory/memory.go:578-616 | with a clock that does not run backwards, two unreleased, unexpired handles on a resource are the same handle |
| `Locks.StaleReleaseIsHarmless` | internal/storage/postgres/misc.go:87-99 | a stale owner's release is refused and never frees another holder's lock |
| `Locks.HeldForItsTime` | internal/storage/memory/memory.go:601-616 | a grant that was not released keeps every other request out until the instant it runs out |
| `Locks.FreeIsGranted` | internal/storage/memory/memory.go:601-616 | once every grant of a resource was released or has run out a request for it is granted |
| `Locks.HolderCanRelease` | internal/storage/memory/memory.go:586-599 | a holder that releases before its time is over is answered that it did |
| `LockBackends.MemoryLocks.AcquireLock` | internal/storage/memory/memory.go:601-616 | a step of the abstract lock; refused exactly while an unexpired lock is there, granted from the instant of expiry on |
| `LockBackends.MemoryLocks.Release` | internal/storage/memory/memory.go:586-599 | a step of the abstract lock; succeeds exactly once, for the lock in the table |
| `LockBackends.PostgresLocks.AcquireLock` | internal/storage/postgres/misc.go:101-130 | a step of the abstract lock; still refused at the instant of expiry, granted after it |
| `LockBackends.PostgresLocks.Release` | internal/storage/postgres/misc.go:87-99 | a step of the abstract lock; deletes the row of exactly this owner |
| `LockBackends.RedisLocks.AcquireLock` | internal/storage/redis/misc.go:171-181 | a step of the abstract lock; granted exactly when no live key is seen |
| `LockBackends.RedisLocks.Release` | internal/storage/redis/misc.go:15-21 | a step of the abstract lock; deletes the key only if it is seen and names this owner |
| `Batch.HandleBatchEnqueue` | internal/api/handlers_jobs.go:96-175 | every entry is accepted or rejected in order, the two lists add up to the total, and the status says whether any was accepted |
| `Batch.DerivedKeyIsInjective` | internal/api/handlers_jobs.go:147-150 | key and index can be read back from key:index, whatever the key contains |
| `Batch.DecimalDenotes` | internal/api/handlers_jobs.go:147-150 | the digits of a derived key denote the index they print |
| `Batch.FreshKeyCreatesAll` | internal/api/handlers_jobs.go:118-167 | under a key the store has not seen every entry not rejected gets a job of its own |
| `Batch.BatchStoresEachJob` | internal/api/handlers_jobs.go:118-167 | under a new key and new ids each entry with a name and a well-formed timeout has its job under its drawn id, with its name, queue, effective maximum and one Enqueued entry, in its queue; no other job is added or changed |
| `Batch.BatchAnswersEachEntry` | internal/api/handlers_jobs.go:118-174 | the reply lists, in order, each such entry with its id, name and queue, and each other entry with its index and the first reason that applies |
| `Batch.ReplayAfterAnyRun` | internal/api/handlers_jobs.go:118-174 | the same batch under the same key returns the same lists and leaves the store unchanged, after any run of requests in between |
| `Batch.BatchIsARun` | internal/api/handlers_jobs.go:118-167 | a batch with fresh ids is a run of basic requests, so the run theorems hold of it |
| `SchedulerDrain.TickTakesABatch` | internal/storage/memory/memory.go:422-459 | a tick takes exactly a batch of the due jobs, or all that are left |
| `SchedulerDrain.MemoryTick` | internal/storage/memory/memory.go:422-459 | the memory store's tick is such a tick for any iteration order |
| `SchedulerDrain.PostgresTick` | internal/storage/postgres/scheduled.go:74-146 | so is the Postgres tick |
| `SchedulerDrain.RedisTick` | internal/storage/redis/scheduled.go:15-27 | so is the Redis tick |
| `SchedulerDrain.PostgresTickIsFair` | internal/storage/postgres/scheduled.go:74-110 | no job is promoted while one due earlier is left, tickets come in the order of due times, and a batch that is not positive means a hundred |
| `SchedulerDrain.RedisTickIsFair` | internal/storage/redis/scheduled.go:15-27 | the same over the sorted set |
| `SchedulerDrain.DrainedExactly` | internal/engine/engine.go:200-207 | n due jobs are gone after ceil(n / batch) ticks and not a tick earlier |
| `SchedulerDrain.MemoryDrains` | internal/engine/engine.go:200-207 | the same inside any run of the memory store that adds nothing to the schedule |
| `Recurring.Manager.LoadAll` | internal/engine/recurring.go:84-96 | schedules, in order, every enabled definition whose expression parses |
| `Recurring.Manager.Reload` | internal/engine/recurring.go:98-122 | unschedules what is disabled or gone, schedules what is new, keeps the rest, for any iteration order of the closing loop |
| `Recurring.LoadSchedulesAll` | internal/engine/recurring.go:84-96 | after the first load exactly the enabled definitions that parse are scheduled, in bijection with the cron table |
| `Recurring.ReloadReconciles` | internal/engine/recurring.go:98-122 | after a reload exactly the enabled definitions already scheduled or parsing are scheduled, in bijection; an old one keeps its cron entry and its old expression |
| `Recurring.SecondReloadChangesNothing` | internal/engine/recurring.go:98-122 | reloading twice from the same definitions is reloading once |
| `Engine.Engine.IncActive` | internal/engine/engine.go:147-151 | raises one queue's count by one and no other |
| `Engine.Engine.DecActive` | internal/engine/engine.go:153-160 | lowers it by one unless it is zero |
| `Engine.Engine.QueuesUnderLimit` | internal/engine/engine.go:172-183 | the configured queues, in order, with no limit or below it, and only those |
| `Engine.LimitIsKeptIff` | internal/engine/engine.go:172-183 | a configured queue is listed exactly if taking one job more keeps it within its limit, where zero, a negative number and no entry are no limit |
| `Engine.OrderIsKept` | internal/engine/engine.go:172-183 | the listed queues stand in the configured order |
| `Engine.Engine.FinalizeSuccess` | internal/engine/engine.go:216-228 | result first, then the compare-and-set; a refused step ends it with an error and changes nothing further |
| `Engine.Engine.FinalizeFailure` | internal/engine/engine.go:230-266 | Cancelled, or Failed followed by Dead on the last attempt and by a scheduled retry before it; a refused step stops the sequence |
| `Engine.Engine.FireContinuations` | internal/engine/continuations.go:10-38 | for an existing parent, one enqueue per matching entry |
| `Engine.FiringCreatesEachChild` | internal/engine/continuations.go:20-37 | each matching entry has a child under its own id with its name and queue, freshly enqueued; the others have none |
| `Engine.FiringAddsOnlyChildren` | internal/engine/continuations.go:20-37 | no other job is added and no existing job or history is changed |
| `Engine.Engine.ProcessTicket` | internal/engine/worker.go:58-103 | the whole run of a ticket, with the queue counts back where they were |
| `Tickets.TicketOutcome` | internal/engine/worker.go:58-103 | the ticket of a processing job that failed k times ends it as Succeeded, Cancelled or, on a failure, as Dead exactly if k + 1 reaches the maximum, and else schedules the retry after the delay of attempt k and the jitter drawn; the result is the handler's; no other job changes |
| `Tickets.TicketFires` | internal/engine/continuations.go:10-51 | afterwards exactly the entries on OnAny, on OnSucceeded after Succeeded and on OnFailed after Dead have a child, with the entry's name and queue, ten retries and one Enqueued entry |
| `Tickets.LateTicket` | internal/engine/engine.go:216-246 | the ticket of a job that is no longer processing changes nothing, except that a success still overwrites the result |
| `EngineSteps.TicketIsTheMachine` | internal/engine/worker.go:58-103 | the run of a ticket alone is what a worker of the step machine does from the ticket on, with the attempt it loads, act by act to the same store |
| `EngineSteps.FiringIsTheMachine` | internal/engine/continuations.go:10-51 | firing run alone makes the reads and store calls of a worker of the step machine, in order, to the same store, and leaves the worker idle |
| `EngineSteps.FinalizeIsTheMachine` | internal/engine/engine.go:216-266 | finalisation run alone makes the store calls of a worker of the step machine, in order, to the same state, and fires exactly when it reports a terminal state |

## Left out

* HTTP routing, authentication, JSON, metrics, configuration, the command line, and
  subprocess handlers. A handler run ends in success, error or cancellation.
* Arguments of jobs and their merging with a parent's result, timeouts, reasons and
  data attached to state entries. They steer nothing that is modelled.
* Ids, queue names, lock resources and instants carry no structure the code looks at
  and are numbers; idempotency keys, conditions and cron expressions are strings.
* Store errors other than the modelled refusals, and a context that reaches the store
  already cancelled: Cancelled need not be recorded on SQL or Redis.
* The memory store's `queueTokens`, `dequeueCh`, server registry, listings and the
  recurring definitions' storage; Postgres and Redis counters; RemoveScheduled and
  IncrementCounter, which neither the engine nor the API calls.
* Counters do not wrap at 64 bits. Clocks of different nodes agree.
* The per-queue cap: workers look at the limits before they dequeue and count after,
  so they can overshoot. Only QueuesUnderLimit itself is specified.
* One enqueue per cron tick across the cluster: the lock is released right after the
  enqueue. What a cron entry does when it fires is not modelled.
* Redis crashes between BRPOP and the script, and between the commands of a pipeline:
  each method is one step. Redis sorted sets score by whole seconds; ties are in any order.
- MemoryStorage.Storage.Dequeue: one pass over the queues; polling until the deadline repeats it.
- PostgresStorage.Storage.TryDequeue: rows locked by other transactions are not skipped, because each transaction is one step; the dequeued counter is not modelled.
- PostgresStorage.Storage.Requeue: reads the state without a row lock in the source; that its transaction is atomic is an assumption here.
- PostgresStorage.Storage.DeleteJob: the same assumption.
- PostgresStorage.Storage.SetJobResult: a result that is not JSON, which the column type refuses, is not modelled.
- PostgresStorage.Storage.Enqueue: the enqueued counter, the idempotency key column and the Postgres form of idempotent enqueueing are not modelled; `Batch` is about the memory store.
- PostgresStorage.Storage.ApplyState: the counters of Succeeded, Failed and Dead are not modelled.
- PostgresStorage.Storage.ScheduleRetry: the scheduled counter is not modelled.
- PostgresStorage.Storage.AddScheduled: the scheduled counter is not modelled.
- PostgresStorage.Storage.GetDueScheduled: the two counter moves of each promoted job are not modelled.
- PostgresStorage.Storage.CoordinatorTick: scan and requeues with nothing in between; `TimedSafety` takes them apart.
- MemoryOrphans.CoordinatorTick: scan and requeues with nothing in between.
- RetryTermination.RetriesTerminate: counts acts; that an enabled act is eventually taken is left to the scheduler of the operating system.
- Backends.BackendRetriesTerminate: the bound alone; BackendProgress.EveryJobCanBeSettledHere says that the pool can go on.
- BackendProgress.EveryJobCanBeSettledHere: says what can be reached; that the pool's acts are eventually taken, and in a helpful order, is left to the operating system.
- Progress.EveryJobCanBeSettled: handlers return; a handler that never does holds its worker and its job until its timeout, which is not modelled.
- PostgresTurns.TurnComes: how often the older jobs come back is not counted; a retried job keeps its token and goes before younger ones again.
- RedisStorage.Storage.GetJobsByState: the union over all states for an empty state is not modelled.
- RedisStorage.Storage.Enqueue: the counter and the index of queue names are not modelled.
- RedisStorage.Storage.FinalizeDequeue: the counter is not modelled.
- RedisStorage.Storage.ApplyState: the counters are not modelled.
- RedisStorage.Storage.ScheduleRetry: the scheduled counter is not modelled.
- RedisStorage.Storage.AddScheduled: the scheduled counter is not modelled.
- RedisStorage.Storage.GetDueScheduled: the counter moves and the index of queue names are not modelled.
- RedisQueues.FirstInFirstOut: BRPOP over several lists is served in the requested order; a list is read and popped in one step.
- RedisStorage.Storage.RemoveExpired: the continuations key, which is deleted with its job, is not modelled.
- LockBackends.RedisLocks.AcquireLock: whether the server still sees a key at the very instant it runs out is a parameter.
- Batch.HandleBatchEnqueue: over the memory store, whose enqueue never fails, so the rejection for a failed enqueue cannot occur; the parser's verdict on a timeout is a parameter.
- Engine.Engine.FireContinuations: the merge of the parent's result into the child's arguments is not modelled.
- Engine.Engine.ProcessTicket: one ticket with nobody interfering; the interleavings are the worker machine's, and the registry of cancel functions is not modelled.
