# Job scheduler: a verified model

A Dafny model of a Postgres-backed job scheduler: many workers, a reaper and an HTTP API
share one `jobs` table, and nothing but SQL statements and lease times keeps them apart.
The project proves what that protocol keeps over every interleaving, and where it stops
keeping it.

## How the model is built

- `Domain`, `Statements`: the rows, and every SQL statement or transaction of the job,
  worker and reaper stores as a function on the tables. `Store` is the same stores as an
  object over mutable tables, each method proved to write what its statement says.
- `Protocol`: the state machine. A state holds the clock, the tables and each live worker's
  own memory (its copy of every claimed job, and where it stands with it). Each statement or
  transaction is one atomic step at the current time. A run is any sequence of enabled steps.
- `Invariant`, `Exclusion`, `Lifecycle`, `Recovery`, `Idempotency`: what every step keeps, and
  the theorems over whole runs. `Untimed`: what holds without any timing hypothesis.
  `Progress`: which jobs can still get done. `Witness`: runs written out that show the bounds
  are exact. `Retries`: backoff over runs.
- `Claiming`: the ordered claim under a budget. `Submission`, `BatchHandler`: validation and
  batch inserts. `Engine`, `Reaper`: the worker's and the reaper's code against the store.
- `Backoff`, `Keyset`, `WorkerTick`, `Throttle`, `Slug`: retry delays with 64-bit and float
  arithmetic, keyset pagination, the serverless worker tick and its throttle, slugs.

Decisions a reader should know:

- Worker writes name only the job's id (no owner or status in their WHERE clause), so safety
  rests on timing. The one timing hypothesis is `Protocol.Timely`: whenever the reaper sweeps,
  every live worker renewed its leases no longer ago than they last. Each worker may have its
  own lease length. A worker that falls behind counts as stopped, and so does one whose drain
  timed out.
- Writes may be lost. A worker may drop a job at any point without its write landing, and the
  `FailJob` write of a handled failure may land or not. `FailJob` and `RequeueForRetry` are
  two separate steps, as in the code.
- A statement issued under a cancelled context does not reach the database. The worker's
  claims, renewals and job writes all carry the context that the shutdown signal cancels;
  only the final release and the deregistration do not.
- `Retries.FollowsPolicy` is what the engine does in a run: each requeue carries the policy's
  delay from the clock of an earlier moment, and the worker has held the job since
  (`Retries.EngineFollowsPolicy`).
- A claim sees an arbitrary set of rows locked by others; ties in the claim order are free.
- The heartbeat row and the lease renewal are written at one instant, and so are a worker's
  row and its first heartbeat.
- UUIDs of new workers are fresh. A job id that is not fresh makes the insert fail, as the
  primary key does. Cron parsing, JSON validity, handler outcomes, durations, failing calls,
  random draws and lock sets come in as arguments.

## What the proofs show about the code

- Mutual exclusion, the concurrency cap, the attempt ledger, the agreement of the two tables
  and one completion per key hold in every timely run. A sweep is safe exactly when no held
  job's lease has run out; otherwise two steps put one job in two workers' hands.
- What was submitted, one row per key, the pool bound, the idle scheduled rows and a success
  behind every completion need no timing: they hold in every run.
- From every good state a job can still be completed, with two exceptions: it is scheduled, or
  its worker let go of it between `FailJob` and `RequeueForRetry`. The API accepts a limit of
  zero; then a queued job also waits until the limit is changed.
- The drain bound is exact: heartbeat gap, the poll loop's return and drain timeout together
  exceed the lease if and only if some run has a draining worker's job reaped and its handler
  running twice. The shipped defaults (lease 30 s, heartbeat 10 s, drain 30 s) exceed it even
  if the poll loop returns at once. The double run takes a handler that goes on after the
  cancellation; internal/worker/handler.go:16-17 asks handlers to respect it, and the shipped
  HTTP and sleep handlers do.
- A handled failure whose requeueing write does not happen leaves the job `failed` for ever,
  whether the worker crashed or only that write was lost and the worker lives on.
- A lost settling write of a claimed or running job wedges it until its worker stops (or, if it
  was never started, releases): the heartbeats renew the row, so no sweep returns it.
- Each of these can happen to every job that is still open, a loss only to one that may be
  tried at least twice.
- The drain saves no running job. The settling writes carry the cancelled context, so every
  job running when the signal comes is left to the reaper and run again. docs/DESIGN.md:207
  says the reaper never fires for a graceful shutdown; that holds exactly if no job was
  running.
- Jobs submitted with `run_at` or a cron expression are never executed: nothing moves a row
  out of `scheduled`.
- The idempotency gate looks at the key alone. It hits exactly if the job itself was completed
  while it waited for its goroutine, or a job of another queue with the same key was. The first
  is its protection against a second execution and takes a late renewal; in a timely run only
  the second occurs, so there the gate only ever skips work because of another queue.
- The insert does not write `retry_policy_id`, so every retry uses the default policy, and a
  job is dead-lettered no earlier than the sum of its backoffs.
- On amd64 the exponential delay is right exactly while the product fits 64 bits, for a base
  that is a double and positive. With the default policy every attempt from 32 on is retried
  without any delay. A base of zero leaves the range from attempt 1025 on. Jitter panics on a
  delay of one nanosecond.
- A `delay_seconds` above 9223372036 wraps around.
- A worker the reaper has marked offline stays offline for good, even if it goes on renewing
  its leases and working: a heartbeat does not touch the status.
- The serverless tick reads a queue's budget and claims in two statements, and an immediate tick
  may overlap a throttled one: two such ticks can take a queue past its limit.
- The leases the serverless tick takes for a queue hold out if and only if the claimed jobs
  together take at most 30 s. Five 5 s sleeps, the default limit, leave one second each besides.
- The code and `docs/DESIGN.md` differ in two more points: the reaper neither counts an attempt
  nor dead-letters (internal/store/reaper_store.go:25-35 against docs/DESIGN.md:203-204), and a
  manual retry sets the run time to now. The model follows the code.

## Model

| member | source | states |
|---|---|---|
| Invariant.StepKeepsInv | internal/store/worker_store.go:78-244 | every step of every actor keeps the protocol invariant: ownership columns, attempts, dead letters, lease bounds, and each worker's copy agreeing with the row that names it |
| Invariant.RunKeepsInv | internal/worker/engine.go:137-313 | the invariant holds in every state of every timely run |
| Exclusion.MutualExclusion | internal/store/job.go:121-136 | in every timely run at most one live worker handles a job, and the row's worker_id is that worker |
| Untimed.RunKeepsAlways | internal/worker/engine.go:121-133 | in every state of every run, however late the renewals, a worker's copy is of a row that exists, was not scheduled and has the same submitted columns, and the worker is registered with its last renewal |
| Exclusion.SweepSparesHeld | internal/store/reaper_store.go:24-35 | no sweep of a timely run changes a job its live worker still handles |
| Exclusion.SweepSafeExactly | internal/store/reaper_store.go:25-35 | from a good state a sweep keeps the invariant if and only if no held job's lease has run out |
| Exclusion.ReleaseSafeExactly | internal/worker/engine.go:311-316 | a release with goroutines still running keeps the invariant if and only if none of the worker's jobs is merely claimed |
| Exclusion.LateRenewalDoublesJob | internal/store/worker_store.go:228-244 | from any good state with a lapsed live lease and room in the queue, one sweep and one claim put the job in two live workers' hands |
| Exclusion.ExecutingMeansRunning | internal/worker/engine.go:158-187 | while a handler runs, the row is running and has the attempts and data the worker claimed |
| Untimed.PoolBounded | internal/worker/engine.go:95-133 | in every run, timely or not, a worker never handles more dispatched jobs than it has pool slots |
| Claiming.IndexWalkIsQuery | migrations/00005_create_jobs.sql:64-66 | walking the partial index (NULLS FIRST), skipping rows that are not due and stopping at the budget gives the same batch as filter, sort, limit |
| Claiming.QueryIsValid | internal/store/job.go:128-136 | the claim query returns distinct due unlocked rows in order, as many as the budget allows, leaving no due row behind that strictly precedes a claimed one |
| Claiming.ValidIsBestFirst | internal/store/job.go:133-133 | in columns: within a claim, and between it and every due row left behind, the earlier row has the higher priority, or the same one and no later run time |
| Claiming.ValidBatchRanks | internal/store/job.go:133-135 | any two answers the claim query may give have the same length and tie rank by rank |
| Claiming.ClaimKeepsLimit | internal/store/job.go:94-136 | after a claim the queue holds its old active rows plus the batch, at most max(previous, limit) |
| Claiming.LeftOnlyWhenFull | internal/store/job.go:94-136 | a due unlocked row is left behind only if the queue has reached its limit |
| Claiming.ScanIndex | internal/store/job.go:128-136 | the scan returns the first budget-many wanted entries in index order |
| Claiming.ClaimWalk | internal/store/job.go:121-162 | the index scan computes the claim query's answer: due rows of the queue only, higher priority first and then the earlier run time, and no due row left behind that is better than one taken |
| Lifecycle.StepFollowsEdges | internal/store/worker_store.go:78-190 | every step moves every row along a lifecycle arrow, never edits what was submitted, and only a claim takes a row out of the queue |
| Lifecycle.StepCreates | internal/store/job.go:33-43 | new rows arrive queued or scheduled, unowned, with no attempts |
| Protocol.StepRow | internal/store/worker_store.go:78-244 | column by column, what each step leaves of an existing row; no other column and no other row changes |
| Lifecycle.StuckForever | internal/store/worker_store.go:78-190 | completed rows, scheduled rows and failed rows their worker no longer handles are the same rows in every later state |
| Lifecycle.CompletedForever | internal/store/worker_store.go:86-92 | a completed row is the same row in every later state |
| Untimed.ScheduledNeverRuns | internal/api/job_handler.go:208-217 | in every run, timely or not, a scheduled row never changes and no worker ever holds it |
| Lifecycle.FailedMovesExactly | internal/store/worker_store.go:94-123 | from any good state some step changes a failed row if and only if the worker it names still handles it |
| Lifecycle.FailedExactlyUntilRequeued | internal/worker/engine.go:266-271 | a recorded failure stays in every state of any stretch of a run if and only if the worker's requeueing write is not in it |
| Lifecycle.LostBetweenFailAndRequeue | internal/worker/engine.go:266-271 | as soon as the worker lets go of the job between the two writes, at any distance and for any reason, the row is the same failed row in every later state |
| Progress.CompletableExactly | internal/worker/engine.go:137-273 | from every good state some continuation completes the job, unless it is scheduled or was dropped between the two writes, and then none does |
| Progress.RunCompletableExactly | internal/store/reaper_store.go:24-35 | the same in every state of every timely run |
| Progress.UnaidedExactly | internal/store/job.go:91-116 | with all limits left alone a queued job can be completed if and only if its queue's limit is at least one or unset |
| Progress.LosableExactly | internal/worker/engine.go:266-271 | from every good state some continuation leaves the job failed for ever if and only if its max_attempts is at least 2 and it is neither completed nor scheduled |
| Progress.AbandonableExactly | internal/worker/engine.go:159-194 | from every good state some continuation wedges the job in a living worker's name if and only if it is not stuck |
| Progress.HittableExactly | internal/worker/engine.go:144-156 | from every good state some continuation that does not run the job has the gate short-circuit it if and only if it has a key and is not stuck |
| Progress.EveryFailureHappens | internal/worker/engine.go:137-273 | whatever is submitted, timely runs from empty tables wedge it, lose it if it may be tried twice, and complete it without ever starting its handler if it has a key |
| Lifecycle.StepKeepsCap | internal/store/job.go:94-136 | no step takes a queue's claimed and running rows above max(previous count, limit), NULL meaning 2147483647 |
| Lifecycle.RunKeepsCap | internal/store/job.go:91-116 | a queue, whenever it was created, never exceeds a cap that its limit never exceeds while it exists |
| Lifecycle.AttemptLedger | internal/worker/engine.go:214-273 | attempts equals the handled failures recorded since creation or the last manual retry; reaping and releasing do not count |
| Lifecycle.DeadAfterExactlyMaxAttempts | internal/worker/engine.go:235-243 | a job is dead-lettered if and only if its recorded failures have reached max_attempts, and they never pass it |
| Lifecycle.DeadAfterRequestedAttempts | internal/worker/engine.go:235-243 | a submitted job is dead-lettered if and only if its recorded failures have reached the max_attempts asked for |
| Lifecycle.DeadLettersAgree | migrations/00007_create_scheduled_jobs_dlq.sql:39-48 | a dead letter exists exactly for dead_letter jobs and copies queue, payload, attempts, failure time and reason |
| Lifecycle.BuryNeverCollides | internal/store/worker_store.go:125-152 | in timely runs moving a job to the dead letters never violates the unique job_id |
| Lifecycle.OwnershipColumns | internal/store/job.go:121-127 | active rows have worker, claim time and lease set; queued rows have all three clear and a run time |
| Lifecycle.NeverClaimedEarly | internal/store/job.go:129-132 | a queued job is never claimed before its next_run_at |
| Lifecycle.BackoffWaitedOut | internal/store/worker_store.go:106-123 | after a requeue with backoff the next claim comes no earlier than the time it was given |
| Lifecycle.DueExactlyAfterRequeue | internal/store/worker_store.go:106-123 | from a requeue to the next claim the row is queued and unowned with the given run time, and it can be claimed if and only if that time has come |
| Lifecycle.DueExactlyAsRequested | internal/store/job.go:33-43 | until its first claim a submitted job can be claimed if and only if it was submitted as queued and the run time asked for has come |
| Lifecycle.ManualRetryRevives | internal/store/job.go:197-213 | a manual retry leaves the job queued, due, unowned, with no attempts, no error and no dead letter |
| Untimed.PolicyNeverSet | internal/store/job.go:33-36 | in no run does a job ever have a retry policy of its own |
| Untimed.SubmissionHonoured | internal/store/job.go:33-43 | in every later state of every run the row and every worker's copy of it carry the queue, priority, payload, key, max_attempts, cron expression and batch that were asked for; it was inserted with the status and run time asked for |
| Untimed.StepWorker | internal/store/worker_store.go:27-47 | what each step leaves of a worker's row; workers are added by registering only and never deleted |
| Untimed.OfflineForever | internal/store/worker_store.go:228-235 | a worker once marked offline stays offline in every later state, whatever heartbeats still come from it |
| Recovery.RecoveryBound | internal/reaper/reaper.go:31-51 | with sweeps at most gap apart and one by the lease's end, a job never renewed or settled again is queued, unowned and due within gap of that end |
| Recovery.CrashRecovery | internal/store/reaper_store.go:24-35 | the same for every active job whose owner is no longer live |
| Recovery.RecoveredWithinLeasePlusGap | docs/DESIGN.md:188-194 | measured from the last claim or renewal, recovery takes at most lease plus sweep gap |
| Recovery.GoneForGood | internal/store/worker_store.go:27-39 | a worker id that was used and is not live never becomes live again |
| Recovery.CleanDrain | internal/worker/engine.go:295-328 | a worker that drained with every write landing leaves no active row in its name, then or later |
| Recovery.ReleaseLeavesRunning | internal/store/worker_store.go:179-190 | after a drained worker's release the active rows in its name are exactly its running ones, each a job whose settling write was lost |
| Recovery.AbandonedExactlyUntil | internal/worker/engine.go:159-194 | over any stretch of a timely run a job whose settling write was lost stays claimed or running in its worker's name, sweeps or not, if and only if the worker neither stops nor, the job being merely claimed, releases |
| Recovery.GiveUpAbandons | internal/worker/engine.go:159-162 | dropping a claimed or running job puts it in exactly that position, dropping a failed one leaves it stuck |
| Recovery.LostRequeue | internal/worker/engine.go:269-271 | a requeueing write that was lost leaves the job failed in every later state, although its worker lives on |
| Recovery.ShutdownLeavesExactly | internal/worker/engine.go:297-328 | once the signal has cancelled the run context, the shutdown leaves an active row in the worker's name if and only if that job was running when the signal came |
| Progress.ShutdownLeavesSome | internal/worker/engine.go:297-328 | whatever is submitted, some timely run has a shutdown catch it running and leave it |
| Recovery.InFlightRunsAgain | internal/worker/engine.go:158-194 | such a job is back in the queue, due, within one sweep gap of its lease's end |
| Recovery.DrainFitsLease | internal/worker/engine.go:277-313 | heartbeat gap + poll delay + drain timeout within the lease keeps the whole run timely |
| Recovery.DrainNeverReaped | internal/worker/engine.go:277-313 | under that bound no sweep before the drain deadline touches a job the draining worker holds |
| Witness.DrainBoundExactly | cmd/worker/main.go:29-40 | for every lease, heartbeat gap, poll delay and drain timeout, some run from empty tables takes a job from a draining worker if and only if the three times together exceed the lease |
| Witness.OneJobTwoHandlersExactly | internal/store/worker_store.go:228-244 | some run has one job's handler running in two live workers if and only if they do |
| Witness.ShippedDefaultsDouble | cmd/worker/main.go:34-38 | they do for the shipped lease 30 s, heartbeat 10 s and drain 30 s, however quickly the poll loop returns |
| Witness.LateStateIsReachable | internal/store/reaper_store.go:24-35 | a timely run reaches the state from which one sweep and one claim double a job |
| Untimed.PunctualStaysOnline | internal/store/reaper_store.go:56-72 | in every run a worker that is on time is not marked offline by a threshold no shorter than its lease |
| Idempotency.OneRowPerKey | migrations/00005_create_jobs.sql:71-73 | in every run, over any mix of single and batch submissions, a queue has at most one row per key |
| Untimed.SpecForever | internal/store/job.go:202-213 | in every run a submitted row stays, with the queue, key, payload and limits it was submitted with |
| Idempotency.ResubmitChangesNothing | internal/store/job.go:60-79 | in every run submitting a known key changes nothing, and the known row is the only one it can return |
| Idempotency.KeyCompletesOnce | internal/worker/engine.go:144-156 | a queue's key makes at most one transition into completed in a whole timely run |
| Idempotency.NoPhantomCompletion | internal/worker/engine.go:142-194 | in every run, behind every completed job is an earlier handler success, its own or that of a job with the same key |
| Idempotency.NoPhantomHit | internal/worker/engine.go:144-156 | nor does the gate ever hit without one |
| Idempotency.GateFiresAcrossQueues | internal/store/worker_store.go:192-199 | in a timely run the completed job behind a hit is always one of another queue |
| Idempotency.GateExactly | internal/worker/engine.go:144-156 | in every run, timely or not, the gate completes a dispatched job without running it if and only if the job itself was completed in the meantime or a completed job of another queue carries its key |
| Witness.GateHitsItselfExactly | internal/worker/engine.go:142-156 | for every lease and every bound on how late a worker's renewals may be, some run from empty tables has the gate stop the second execution of a job its late worker has just finished if and only if the bound exceeds the lease |
| Submission.BuildJobInput | internal/api/job_handler.go:158-249 | validation reports exactly the wrong fields and what is wrong with each; what passes is a valid input with the requested payload, key, priority, attempts, cron expression, status and run time, or the documented defaults |
| Submission.Validate | internal/api/job_handler.go:159-202 | the error map has an entry for a field if and only if that field is wrong, and it says what is wrong |
| Submission.DelayKeptExactly | internal/api/job_handler.go:219-221 | a delay in seconds is kept if and only if it is at most 9223372036 |
| Submission.BatchAddsExactly | internal/api/job_handler.go:136-146 | a batch adds exactly one row per request without a key and one per distinct new key |
| Submission.KeysAfter | internal/store/job.go:37-38 | after a batch the taken keys are the old ones and the requested ones |
| Submission.SubmitAddsExactly | internal/store/job.go:33-79 | a submission adds its row if and only if the queue exists and id and key are free, and changes no other row |
| Submission.BatchStepAddsExactly | internal/api/job_handler.go:136-146 | a submitted batch changes nothing or adds exactly those rows, after which every requested key is taken |
| BatchHandler.BuildInputs | internal/api/job_handler.go:125-134 | every input is valid and honours its request (payload, key, priority, attempts, status, run time) with the batch id stamped on it, or the first request that is not acceptable is reported with exactly its wrong fields |
| BatchHandler.CreateBatch | internal/api/job_handler.go:94-154 | either nothing is written or the table grows by unkeyed requests and distinct new keys, each new row with the columns its request asked for, one answer per request in order; more than 1000 requests, none, or an unknown queue are refused |
| Store.JobStore.ClaimJobs | internal/store/job.go:84-171 | claims the best due rows up to the remaining budget, writes worker, claim time and lease and nothing else, and returns the updated rows; a due row is left behind only at the limit (2147483647 when unset); an unknown queue is an error and changes nothing |
| Store.JobStore.CreateJob | internal/store/job.go:30-79 | a taken key returns its row and changes nothing; otherwise a row with exactly the submitted columns is inserted, or an error leaves the table alone |
| Store.JobStore.CreateBatch | internal/store/db.go:24-35 | any error leaves the table as it was; otherwise every request is answered, every new row has the columns of a request, and the growth is counted |
| Store.JobStore.InsertAll | internal/api/job_handler.go:138-145 | the inserts of a batch in order, stopping at the first error, one answer per request; old rows stay and every new one has the columns of a request |
| Statements.RetryUndoesBury | internal/store/job.go:174-229 | a manual retry undoes the move to the dead letters: the letter is gone, the job starts over with what was submitted, no other row differs, and a second retry finds nothing |
| Store.JobStore.MoveToDlq | internal/store/worker_store.go:125-152 | dead-letters the row with time, reason and attempts and inserts its copy, or rolls both back, exactly if a letter exists |
| Store.JobStore.RequeueForRetry | internal/store/worker_store.go:106-123 | the row is queued for the given time with the given attempts, unowned and without an error |
| Store.JobStore.RetryDlqJob | internal/store/job.go:174-229 | succeeds if and only if the job is dead-lettered; then it is queued, due now, without attempts, owner or error, and its letter is gone |
| Store.JobStore.ReleaseJobs | internal/store/worker_store.go:179-190 | counts the rows that changed; each was claimed by the worker and is queued and unowned with its attempts and run time kept, and what stays active in its name is running |
| Store.JobStore.Heartbeat | internal/store/worker_store.go:228-244 | no row of the worker expires within one lease from now, even one that had expired; nothing but the leases of its active rows changes |
| Store.JobStore.RequeueOrphanedJobs | internal/store/reaper_store.go:24-52 | requeues exactly the expired rows, unowned and due now with all else kept, reports each once, and leaves none expired |
| Store.JobStore.MarkDeadWorkers | internal/store/reaper_store.go:56-72 | leaves a worker online if and only if it was online and has been seen within the threshold, and counts the changed ones |
| Store.SameKeySameAnswer | internal/store/job.go:65-78 | requests with the same queue and key get the same row |
| Engine.Engine.HandleFailure | internal/worker/engine.go:214-273 | dead-letters at max_attempts with the reason in both tables, otherwise leaves the row queued and unowned until exactly the delay after the failure, which is 5 s doubled per attempt up to 1 h plus less than half without a policy (up to attempt 31), whichever writes land and however long they take; it panics exactly when the delay computation does |
| Engine.Engine.ExecuteJob | internal/worker/engine.go:137-209 | the tables after a job for every combination of unreadable gate, lost or unacknowledged running mark, lost settling writes and durations, and in columns the row a gate hit, a success, a retried and a final failure leave; it crashes exactly when a retry's delay panics, leaving the job running |
| Engine.HandlingIsAPath | internal/worker/engine.go:137-273 | for all those faults and durations the engine's code is a path of the protocol leading to exactly those tables, and the worker is gone exactly when it panicked |
| Engine.NeverBlocked | internal/worker/engine.go:121-133 | in every run, timely or not, whatever other actors and the worker's other jobs do, the worker's place in handling a job stays and its next step stays enabled |
| Engine.RetriesBackOffByDefault | internal/worker/engine.go:245-261 | in every timely run a failure before attempt 32 backs off by 5 s doubled per attempt up to 1 h, plus less than half |
| Retries.RetryLedger | internal/worker/engine.go:264-272 | in every timely run the retries of a job since its creation or manual retry are its attempts, less the failed one not requeued |
| Retries.DeadNoEarlier | internal/worker/engine.go:235-271 | in every timely run whose requeues follow the policy, a job is dead-lettered after max_attempts - 1 retries and no earlier than its first run time plus their backoffs, of which the first 31 count |
| Retries.RetriesTotal | internal/worker/engine.go:245-271 | the delays of all retries of a job in such a run, up to 31, add up to at least S and less than 3S/2, S at most an hour each and at most 5 s * (2^n - 1) |
| Retries.EngineFollowsPolicy | internal/worker/engine.go:245-271 | whatever the faults and durations, the requeueing write of the engine's path carries the policy's delay from the moment the handler came back |
| Reaper.Reaper.Sweep | internal/reaper/reaper.go:58-77 | requeues orphans, marks stale workers, reports exactly the reclaimed ids and the number of workers marked |
| Reaper.Reaper.Run | internal/reaper/reaper.go:31-51 | left alone, the loop leaves exactly the rows whose lease ran out by its last sweep queued, unowned and due, and exactly the workers seen within the threshold online |
| Backoff.DelayBounds | pkg/retry/backoff.go:19-45 | whatever is drawn: a panic exactly on a jittered delay of 1 ns, no unjittered delay above the cap, and in range min(base * 2^(attempt-1), max) plus less than half |
| Backoff.ExponentialExact | pkg/retry/backoff.go:30-39 | inside the range the exponential delay is exactly min(base * 2^(attempt-1), max) |
| Backoff.ExponentialExactly | pkg/retry/backoff.go:30-39 | on amd64 that formula holds if and only if the converted product fits 64 bits, the base is positive or the attempt at most 1024, and the base is a double or the cap applies with and without rounding |
| Backoff.ZeroBaseExactly | pkg/retry/backoff.go:30-32 | a base of zero gives no delay if and only if the attempt is at most 1024 |
| Backoff.FloatKeepsExactly | pkg/retry/backoff.go:32-32 | the conversion to a double keeps a base if and only if it is a multiple of the spacing of doubles there, as every base below 2^53 is |
| Backoff.FirstLostDelay | pkg/retry/backoff.go:32-32 | 2^53 + 1 ns is converted to 2^53 ns |
| Backoff.FloatIsDouble | pkg/retry/backoff.go:32-32 | the conversion to a double gives a number of at most 53 bits times a power of two, at most half the spacing away and even in a tie, and is odd in its sign |
| Backoff.FloatIsNearest | pkg/retry/backoff.go:32-32 | no number of at most 53 bits times a power of two is nearer |
| Backoff.SaturationIsExact | pkg/retry/backoff.go:30-39 | with a saturating conversion it holds for every attempt unless the base is zero and the attempt past 1024 |
| Backoff.DefaultsOverflow | internal/worker/engine.go:246-261 | with the default policy on amd64 the delay is the out-of-range value if and only if the attempt is 32 or later |
| Backoff.ExponentialMonotone | pkg/retry/backoff.go:30-39 | delays never shrink with the attempt and stay at the cap once there |
| Backoff.LinearExactly | pkg/retry/backoff.go:28-39 | the linear delay is min(base * attempt, max) if and only if the product fits 64 bits or wraps to no less than the cap |
| Backoff.FixedIsBase | pkg/retry/backoff.go:26-39 | every other strategy, known or not, gives the base, cut to a positive cap |
| Backoff.PanicsExactly | pkg/retry/backoff.go:41-43 | jitter panics if and only if the delay is one nanosecond |
| Backoff.JitterBounds | pkg/retry/backoff.go:41-43 | jitter adds at least nothing and less than half the delay |
| Backoff.JitterKeepsDelayExactly | pkg/retry/backoff.go:41-43 | the jittered delay is at least the delay if and only if the sum does not wrap |
| Keyset.List | internal/store/queue.go:58-128 | a page is oldest first, past the cursor, complete up to its cursor, and has a cursor exactly when rows were left over |
| Keyset.ClampLimit | pkg/pagination/cursor.go:44-52 | a limit of 1 to 100 is kept, a larger one becomes 100, zero or less 20 |
| Keyset.NeverTwice | internal/store/project.go:73-106 | following next_cursor never returns a row twice, whatever is inserted, updated or deleted in between |
| Keyset.NeverMissed | internal/store/queue.go:90-125 | a row that is present and matches throughout a finished walk is returned |
| Keyset.FixedTableWalk | internal/store/queue.go:96-125 | on a fixed table a finished walk returns exactly the rows the filter lets through, by creation time and then id |
| Keyset.AscendingUnique | internal/store/queue.go:100-100 | which pins the list down: two ascending lists of the same rows are equal |
| Keyset.WalkTerminates | internal/store/queue.go:118-125 | a walk along a fixed table of n rows makes at most n + 1 requests |
| WorkerTick.Tick.ExecuteJob | dashboard/src/server/worker.ts:30-97 | the row column by column: completed, dead with its letter when the attempts are used up, otherwise queued for 5 s later; unowned, one attempt further, after the time the job sleeps plus overhead, and running under its lease until then |
| WorkerTick.Tick.ClaimQueue | dashboard/src/server/worker.ts:109-128 | claims due rows for 30 s, higher priority first, then rows without a run time, then the earlier run time, within the limit (5 when unset), leaves a due row behind only at that limit, and returns the rows in any order |
| WorkerTick.OverlapExactly | dashboard/src/server/worker.ts:109-128 | two ticks that both read the budget before either claims take the queue past its limit if and only if their batches together are larger than that budget |
| WorkerTick.OverlapHappens | dashboard/src/server/worker.ts:109-128 | two due jobs and a limit of one are enough for it |
| WorkerTick.Tick.ExecuteBatch | dashboard/src/server/worker.ts:130-133 | executes exactly the batch, one job after the other, in exactly the time its jobs take together |
| WorkerTick.Tick.ExecuteNext | dashboard/src/server/worker.ts:130-133 | one round of that loop: at every moment of it the batch is as claimed, started under the same lease, or settled |
| WorkerTick.Tick.RunQueue | dashboard/src/server/worker.ts:107-134 | at no moment of one queue's share is a cap exceeded; at no moment has a lease it took run out if and only if its jobs together take at most 30 s, and otherwise the last job's has while it runs |
| WorkerTick.FiveOutlastExactly | dashboard/src/server/worker.ts:109-133 | a default batch of five 5 s sleeps takes longer than the lease if and only if each job spends more than a second besides |
| WorkerTick.Tick.ServeNext | dashboard/src/server/worker.ts:107-134 | one round of the tick's loop: one more queue served to its limit or its last due job, every moment within the caps and, if the limits fit, within the leases |
| WorkerTick.Tick.RunWorkerTick | dashboard/src/server/worker.ts:99-137 | a tick run alone serves exactly the queues that are not paused: in each, what was due is executed best first until the queue is full. No job is executed twice, every executed one is settled, every expired row left over is queued and unowned with all else kept, every other row is untouched; at every moment each queue is within max(previous, limit), and if the limits fit the lease no job it claimed ever expires |
| WorkerTick.SleepMs | dashboard/src/server/worker.ts:51-53 | a sleep takes the duration asked for, cut to 5 s, and 100 ms if there is none |
| Throttle.Scheduler.ScheduleWorkerTick | dashboard/src/server/worker-scheduler.ts:8-20 | a started tick found none in flight and comes 2500 ms after every earlier start of either kind in the scheduler's history; a refusal changes nothing and has one of the two reasons |
| Throttle.Scheduler.RunWorkerTickNow | dashboard/src/server/worker-scheduler.ts:22-25 | afterwards a throttled tick is admitted exactly from 2500 ms later on, if none is in flight |
| Throttle.Scheduler.TickSettled | dashboard/src/server/worker-scheduler.ts:17-19 | afterwards a throttled tick is admitted exactly once the interval since the last start is over |
| Throttle.StartsApart | dashboard/src/server/worker-scheduler.ts:5-12 | a throttled tick starts at least 2500 ms after every earlier start of either kind |
| Throttle.NeverOverlaps | dashboard/src/server/worker-scheduler.ts:8-20 | between two throttled starts the first tick has settled |
| Throttle.StartsSpan | dashboard/src/server/worker-scheduler.ts:5-12 | k throttled starts span at least (k - 1) * 2500 ms |
| Throttle.ImmediateMayOverlap | dashboard/src/server/worker-scheduler.ts:22-25 | an immediate tick may start while a throttled one is in flight |
| Slug.SlugIsValid | dashboard/src/lib/format.ts:46-52 | a generated slug is empty or one the API accepts, whatever the name |
| Slug.SlugKeepsLetters | dashboard/src/lib/format.ts:46-52 | the slug has exactly the letters and digits of the lower-cased name, in order |
| Slug.WordsStayApart | dashboard/src/lib/format.ts:46-52 | whatever stands between two words becomes one hyphen |
| Slug.ValidSlugIsFixed | internal/api/auth_handler.go:37-37 | a slug the API accepts is generated from itself |
| Slug.PatternExactly | internal/api/auth_handler.go:37-37 | the pattern accepts exactly words joined by single hyphens |

## Left out

- Deleting queues, projects and organisations, whose cascades remove jobs.
- Postgres snapshots and lock waits: a transaction is one atomic step, and the claim's count is
  read under the queue's row lock.
- Moving rows out of `scheduled`: the code has no such step.
- The goroutine, channel and wait-group mechanics and the poll loop: the protocol's dispatch,
  drain and stop steps stand for them, and a drain that times out counts as a stop. A release
  with goroutines still running is no step; `Exclusion.ReleaseSafeExactly` says when it is safe.
- A worker claiming back a job it is still handling itself, after a late renewal: a worker has
  at most one flight per job in the model.
- The queue-paused filter of the poll: the protocol lets a worker claim from any queue.
- Organisation scoping of the API, authentication, HTTP status mapping and metrics.
- Execution records and job logs.
- The serverless tick next to other workers, and its heartbeat rows: the tick is modelled alone.
- The dashboard's own retry and submit routes, whose statements are not guarded by status.
- Cursor encoding, JSON and cron parsing, lower-casing and white space: taken as given functions.
- Project and queue name filters: the walk theorems hold for any filter on a row.
- Store.JobStore.ClaimJobs: promises no order of the returned rows, because `UPDATE ... RETURNING`
  does not either.
- created_at and updated_at of jobs, which no decision reads.
