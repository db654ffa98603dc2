/**
 Statuses, budgets, attempts and dead letters over whole runs.
 */
module Lifecycle {
  import opened Domain
  import opened Statements
  import opened Claiming
  import opened Protocol
  import opened Invariant
  import opened Untimed

  /** The arrows of the job lifecycle, staying put included. */
  predicate Edge(a: Status, b: Status) {
    || a == b
    || (a == Queued && b == Claimed)
    || (a == Claimed && (b == Running || b == Completed || b == Queued))
    || (a == Running && (b == Completed || b == Failed || b == DeadLetter || b == Queued))
    || (a == Failed && b == Queued)
    || (a == DeadLetter && b == Queued)
  }

  /** Every step moves every row along a lifecycle arrow and never edits what was submitted. */
  lemma StepFollowsEdges(s: State, step: Step, id: JobId)
    requires Inv(s) && Enabled(s, step) && id in s.db.jobs
    ensures var s' := Apply(s, step);
            && id in s'.db.jobs
            && s'.db.jobs[id].spec == s.db.jobs[id].spec
            && Edge(s.db.jobs[id].status, s'.db.jobs[id].status)
            && (s.db.jobs[id].status == Queued && s'.db.jobs[id].status == Claimed ==> step.Claim?)
  {
    StepRow(s, step, id);
    WriterKnowsRow(s, step, id);
  }

  /** New rows arrive waiting, with a clean record. */
  lemma StepCreates(s: State, step: Step, id: JobId)
    requires Enabled(s, step) && id !in s.db.jobs && id in Apply(s, step).db.jobs
    ensures var row := Apply(s, step).db.jobs[id];
            (row.status == Queued || row.status == Scheduled) && row.attempts == 0 && Unowned(row)
  {
    if step.SubmitBatch? {
      CreateAllExtends(s.db, step.ids, step.inputs);
    }
  }

  // ---- rows nobody can move ----

  /** Completed, scheduled, or failed and no longer in its worker's hands. */
  predicate Stuck(s: State, id: JobId) {
    && id in s.db.jobs
    && (var r := s.db.jobs[id];
        || r.status == Completed
        || r.status == Scheduled
        || (r.status == Failed && r.worker.Some? && !Holds(s, r.worker.value, id)))
  }

  /** Only a claim adds to a worker's holdings, and it takes queued rows only. */
  lemma NotTakenUp(s: State, step: Step, w: WorkerId, id: JobId)
    requires Inv(s) && Enabled(s, step) && !Holds(s, w, id)
    requires id in s.db.jobs && s.db.jobs[id].status != Queued
    ensures !Holds(Apply(s, step), w, id)
  {
    if step.Claim? {
      ClaimTakesFree(s, step.w, step.q, step.locked, step.batch);
    } else {
      OnlyClaimAdds(s, step, w, id);
    }
  }

  lemma OnlyClaimAdds(s: State, step: Step, w: WorkerId, id: JobId)
    requires Enabled(s, step) && !step.Claim? && !Holds(s, w, id)
    ensures !Holds(Apply(s, step), w, id)
  {
  }

  lemma StepKeepsStuck(s: State, step: Step, id: JobId)
    requires Inv(s) && Enabled(s, step) && Stuck(s, id)
    ensures Stuck(Apply(s, step), id)
    ensures Apply(s, step).db.jobs[id] == s.db.jobs[id]
  {
    StuckRowStays(s, step, id);
    StepRow(s, step, id);
    if s.db.jobs[id].status == Failed {
      NotTakenUp(s, step, s.db.jobs[id].worker.value, id);
    }
  }

  lemma StuckRowStays(s: State, step: Step, id: JobId)
    requires Inv(s) && Enabled(s, step) && Stuck(s, id)
    ensures RowAfter(s, step, id) == s.db.jobs[id]
  {
    WriterKnowsRow(s, step, id);
    assert RowOk(s.db, id);
  }

  /** A stuck row is the same row in every later state of the run. */
  lemma {:induction false} StuckForever(r: Run, i: nat, k: nat, id: JobId)
    requires IsRun(r) && Timely(r) && i <= k < |r.states|
    requires Stuck(r.states[i], id)
    ensures Stuck(r.states[k], id) && r.states[k].db.jobs[id] == r.states[i].db.jobs[id]
    decreases k
  {
    if i < k {
      StuckForever(r, i, k - 1, id);
      RunKeepsInv(r, k - 1);
      assert StepAt(r, k - 1);
      StepKeepsStuck(r.states[k - 1], r.steps[k - 1], id);
    }
  }

  /** Completed is absorbing. */
  lemma CompletedForever(r: Run, i: nat, k: nat, id: JobId)
    requires IsRun(r) && Timely(r) && i <= k < |r.states|
    requires id in r.states[i].db.jobs && r.states[i].db.jobs[id].status == Completed
    ensures id in r.states[k].db.jobs && r.states[k].db.jobs[id] == r.states[i].db.jobs[id]
  {
    StuckForever(r, i, k, id);
  }

  // ---- between the two writes of a handled failure ----

  ghost predicate Moves(s: State, step: Step, id: JobId) {
    && Enabled(s, step) && id in s.db.jobs
    && (id in Apply(s, step).db.jobs ==> Apply(s, step).db.jobs[id] != s.db.jobs[id])
  }

  /** A failed row can still move exactly while the worker it names holds it. */
  lemma FailedMovesExactly(s: State, id: JobId)
    requires Inv(s) && id in s.db.jobs && s.db.jobs[id].status == Failed
    ensures s.db.jobs[id].worker.Some?
    ensures (exists step :: Moves(s, step, id)) <==> Holds(s, s.db.jobs[id].worker.value, id)
  {
    assert RowOk(s.db, id);
    var w := s.db.jobs[id].worker.value;
    if Holds(s, w, id) {
      assert FlightOk(s, w, id);
      StepRow(s, Requeue(w, id, s.now), id);
      assert Moves(s, Requeue(w, id, s.now), id);
    } else {
      forall step ensures !Moves(s, step, id) {
        if Enabled(s, step) {
          StepKeepsStuck(s, step, id);
        }
      }
    }
  }

  /** The worker's second write of a handled failure. */
  predicate Requeues(step: Step, w: WorkerId, j: JobId) {
    step.Requeue? && step.w == w && step.j == j
  }

  predicate FailedBy(s: State, w: WorkerId, id: JobId) {
    id in s.db.jobs && s.db.jobs[id].status == Failed && s.db.jobs[id].worker == Some(w)
  }

  lemma FailedRowStays(s: State, step: Step, w: WorkerId, id: JobId)
    requires Inv(s) && Enabled(s, step) && FailedBy(s, w, id) && !Requeues(step, w, id)
    ensures RowAfter(s, step, id) == s.db.jobs[id]
  {
    WriterKnowsRow(s, step, id);
    assert RowOk(s.db, id);
  }

  /** A failure on record stays as it was written until the worker's second write. */
  lemma {:induction false} FailedUntilRequeued(r: Run, i: nat, k: nat, w: WorkerId, j: JobId)
    requires IsRun(r) && Timely(r) && i <= k < |r.states| && FailedBy(r.states[i], w, j)
    requires forall m | i <= m < k :: !Requeues(r.steps[m], w, j)
    ensures FailedBy(r.states[k], w, j) && r.states[k].db.jobs[j] == r.states[i].db.jobs[j]
    decreases k
  {
    if i < k {
      FailedUntilRequeued(r, i, k - 1, w, j);
      RunKeepsInv(r, k - 1);
      assert StepAt(r, k - 1);
      FailedRowStays(r.states[k - 1], r.steps[k - 1], w, j);
      StepRow(r.states[k - 1], r.steps[k - 1], j);
    }
  }

  /** And that write is the only thing that ends it, whatever else the run contains. */
  lemma FailedExactlyUntilRequeued(r: Run, i: nat, k: nat, w: WorkerId, j: JobId)
    requires IsRun(r) && Timely(r) && i <= k < |r.states| && FailedBy(r.states[i], w, j)
    ensures (forall m | i <= m <= k :: FailedBy(r.states[m], w, j))
       <==> (forall m | i <= m < k :: !Requeues(r.steps[m], w, j))
  {
    if forall m | i <= m < k :: !Requeues(r.steps[m], w, j) {
      forall m | i <= m <= k ensures FailedBy(r.states[m], w, j) {
        FailedUntilRequeued(r, i, m, w, j);
      }
    }
    if forall m | i <= m <= k :: FailedBy(r.states[m], w, j) {
      forall m | i <= m < k ensures !Requeues(r.steps[m], w, j) {
        assert FailedBy(r.states[m + 1], w, j);
        assert StepAt(r, m);
        StepRow(r.states[m], r.steps[m], j);
      }
    }
  }

  /**
   The job is lost for good as soon as its worker lets go of it between the two writes,
   by crashing or because the second write did not land, however much later that is.
   */
  lemma LostBetweenFailAndRequeue(r: Run, i: nat, m: nat, k: nat, w: WorkerId, j: JobId)
    requires IsRun(r) && Timely(r) && i < m <= k < |r.states|
    requires r.steps[i].FailWrite? && r.steps[i].w == w && r.steps[i].j == j && r.steps[i].landed
    requires forall n | i < n < m :: !Requeues(r.steps[n], w, j)
    requires !Holds(r.states[m], w, j)
    ensures FailedBy(r.states[i + 1], w, j) && FailedBy(r.states[k], w, j)
    ensures r.states[k].db.jobs[j] == r.states[i + 1].db.jobs[j]
  {
    RunKeepsInv(r, i);
    assert StepAt(r, i);
    assert FlightOk(r.states[i], w, j);
    StepRow(r.states[i], r.steps[i], j);
    FailedUntilRequeued(r, i + 1, m, w, j);
    StuckForever(r, m, k, j);
  }

  // ---- the concurrency cap ----

  lemma OnlyClaimActivates(s: State, step: Step, id: JobId)
    requires Inv(s) && Enabled(s, step) && !step.Claim?
    requires id in Apply(s, step).db.jobs && Active(Apply(s, step).db.jobs[id])
    ensures id in s.db.jobs && Active(s.db.jobs[id])
    ensures Apply(s, step).db.jobs[id].spec == s.db.jobs[id].spec
  {
    if id !in s.db.jobs {
      StepCreates(s, step, id);
    } else {
      StepFollowsEdges(s, step, id);
    }
  }

  /** No step takes a queue above the larger of its limit and where it already stood. */
  lemma StepKeepsCap(s: State, step: Step, q: QueueId)
    requires Inv(s) && Enabled(s, step)
    ensures |ActiveIn(Apply(s, step).db, q)|
         <= Max(|ActiveIn(s.db, q)|, LimitOr(s.db, q, UNLIMITED))
    ensures q !in s.db.queues ==> |ActiveIn(Apply(s, step).db, q)| <= |ActiveIn(s.db, q)|
  {
    var s' := Apply(s, step);
    if step.Claim? && step.q == q {
      ClaimKeepsLimit(s.db, step.w, q, s.now, step.locked, false, s.live[step.w].lease, UNLIMITED, step.batch);
    } else {
      forall id | id in ActiveIn(s'.db, q) ensures id in ActiveIn(s.db, q) {
        if step.Claim? {
          assert id !in step.batch;
        } else {
          OnlyClaimActivates(s, step, id);
        }
      }
      CardMonotone(ActiveIn(s'.db, q), ActiveIn(s.db, q));
    }
  }

  /** From the day it is created, a queue never exceeds a cap its limit is never raised above. */
  lemma {:induction false} RunKeepsCap(r: Run, q: QueueId, cap: nat, i: nat)
    requires IsRun(r) && Timely(r) && i < |r.states|
    requires forall k | 0 <= k < i && q in r.states[k].db.queues :: LimitOr(r.states[k].db, q, UNLIMITED) <= cap
    ensures |ActiveIn(r.states[i].db, q)| <= cap
  {
    if i == 0 {
      assert ActiveIn(r.states[0].db, q) == {};
    } else {
      RunKeepsCap(r, q, cap, i - 1);
      RunKeepsInv(r, i - 1);
      assert StepAt(r, i - 1);
      StepKeepsCap(r.states[i - 1], r.steps[i - 1], q);
    }
  }

  // ---- the attempt ledger ----

  /** The step records a handled failure of the job. */
  predicate RecordsFailure(s: State, step: Step, id: JobId) {
    match step
    case Bury(_, j, _) => j == id
    case FailWrite(_, j, _, landed) => j == id && landed
    case Requeue(_, j, _) => j == id && id in s.db.jobs && s.db.jobs[id].status == Running
    case _ => false
  }

  /** The step starts the job's count afresh: its creation, or a manual retry. */
  predicate ResetsCount(s: State, step: Step, id: JobId) {
    id !in s.db.jobs || (step == RetryDead(id) && s.db.jobs[id].status == DeadLetter)
  }

  /** Handled failures recorded since the job was created or last retried by hand. */
  ghost function Failures(r: Run, i: nat, id: JobId): nat
    requires |r.states| == |r.steps| + 1 && i < |r.states|
  {
    if i == 0 || ResetsCount(r.states[i - 1], r.steps[i - 1], id) then 0
    else Failures(r, i - 1, id) + (if RecordsFailure(r.states[i - 1], r.steps[i - 1], id) then 1 else 0)
  }

  lemma StepCountsAttempts(s: State, step: Step, id: JobId)
    requires Inv(s) && Enabled(s, step) && id in s.db.jobs
    ensures id in Apply(s, step).db.jobs
    ensures Apply(s, step).db.jobs[id].attempts
         == if ResetsCount(s, step, id) then 0
            else s.db.jobs[id].attempts + (if RecordsFailure(s, step, id) then 1 else 0)
  {
    StepRow(s, step, id);
    WriterKnowsRow(s, step, id);
  }

  /** The attempts column is exactly the number of handled failures on record. */
  lemma {:induction false} AttemptLedger(r: Run, i: nat, id: JobId)
    requires IsRun(r) && Timely(r) && i < |r.states| && id in r.states[i].db.jobs
    ensures r.states[i].db.jobs[id].attempts == Failures(r, i, id)
  {
    if i > 0 {
      var s, step := r.states[i - 1], r.steps[i - 1];
      assert StepAt(r, i - 1);
      if id in s.db.jobs {
        RunKeepsInv(r, i - 1);
        AttemptLedger(r, i - 1, id);
        StepCountsAttempts(s, step, id);
      } else {
        StepCreates(s, step, id);
      }
    }
  }

  /** A job is dead-lettered after exactly its allowed number of handled failures, never before. */
  lemma {:induction false} DeadAfterExactlyMaxAttempts(r: Run, i: nat, id: JobId)
    requires IsRun(r) && Timely(r) && i < |r.states| && id in r.states[i].db.jobs
    ensures var row := r.states[i].db.jobs[id];
            && Failures(r, i, id) <= row.spec.maxAttempts
            && (row.status == DeadLetter <==> Failures(r, i, id) == row.spec.maxAttempts)
  {
    RunKeepsInv(r, i);
    AttemptLedger(r, i, id);
    assert RowOk(r.states[i].db, id);
  }

  /** The two tables agree: a dead letter exists exactly for dead-lettered jobs, and copies them. */
  lemma DeadLettersAgree(r: Run, i: nat, id: JobId)
    requires IsRun(r) && Timely(r) && i < |r.states|
    ensures var db := r.states[i].db;
            && (id in db.dlq <==> id in db.jobs && db.jobs[id].status == DeadLetter)
            && (id in db.dlq ==> CopiesJob(db.dlq[id], db.jobs[id]))
  {
    RunKeepsInv(r, i);
    assert id in r.states[i].db.jobs ==> RowOk(r.states[i].db, id);
  }

  /** Moving an exhausted job to the dead letters never hits the unique index. */
  lemma BuryNeverCollides(r: Run, i: nat)
    requires IsRun(r) && Timely(r) && i < |r.steps| && r.steps[i].Bury?
    ensures var s, step := r.states[i], r.steps[i];
            && Holds(s, step.w, step.j)
            && MoveToDlq(s.db, step.j, s.now, step.reason, NextAttempt(s, step.w, step.j)).Ok?
  {
    RunKeepsInv(r, i);
    assert StepAt(r, i);
    BuryKeepsInv(r.states[i], r.steps[i].w, r.steps[i].j, r.steps[i].reason);
  }

  /** Ownership columns: set together while active, clear together while queued. */
  lemma OwnershipColumns(r: Run, i: nat, id: JobId)
    requires IsRun(r) && Timely(r) && i < |r.states| && id in r.states[i].db.jobs
    ensures var row := r.states[i].db.jobs[id];
            && (Active(row) ==> row.worker.Some? && row.claimedAt.Some? && row.lease.Some?)
            && (row.status == Queued ==> Unowned(row) && row.nextRunAt.Some?)
  {
    RunKeepsInv(r, i);
    assert RowOk(r.states[i].db, id);
  }

  // ---- nothing runs early ----

  predicate ClaimsJob(step: Step, id: JobId) {
    step.Claim? && id in step.batch
  }

  lemma QueuedRowStays(s: State, step: Step, id: JobId)
    requires Inv(s) && Enabled(s, step) && id in s.db.jobs
    requires s.db.jobs[id].status == Queued && !ClaimsJob(step, id)
    ensures RowAfter(s, step, id) == s.db.jobs[id]
  {
    WriterKnowsRow(s, step, id);
    assert RowOk(s.db, id);
  }

  lemma {:induction false} QueuedUntilClaimed(r: Run, i: nat, k: nat, id: JobId)
    requires IsRun(r) && Timely(r) && i <= k < |r.states|
    requires id in r.states[i].db.jobs && r.states[i].db.jobs[id].status == Queued
    requires forall m | i <= m < k :: !ClaimsJob(r.steps[m], id)
    ensures id in r.states[k].db.jobs && r.states[k].db.jobs[id] == r.states[i].db.jobs[id]
    decreases k
  {
    if i < k {
      QueuedUntilClaimed(r, i, k - 1, id);
      RunKeepsInv(r, k - 1);
      assert StepAt(r, k - 1);
      QueuedRowStays(r.states[k - 1], r.steps[k - 1], id);
      StepRow(r.states[k - 1], r.steps[k - 1], id);
    }
  }

  /** A queued job is not claimed before its run time: delays and backoffs are waited out. */
  lemma NeverClaimedEarly(r: Run, i: nat, k: nat, id: JobId)
    requires IsRun(r) && Timely(r) && i <= k < |r.steps| && ClaimsJob(r.steps[k], id)
    requires id in r.states[i].db.jobs && r.states[i].db.jobs[id].status == Queued
    requires forall m | i <= m < k :: !ClaimsJob(r.steps[m], id)
    ensures r.states[i].db.jobs[id].nextRunAt.Some?
    ensures r.states[i].db.jobs[id].nextRunAt.value <= r.states[k].now
  {
    QueuedUntilClaimed(r, i, k, id);
    RunKeepsInv(r, k);
    assert StepAt(r, k);
    ClaimTakesFree(r.states[k], r.steps[k].w, r.steps[k].q, r.steps[k].locked, r.steps[k].batch);
    assert FreeAndDue(r.states[k], id);
  }

  /** After a requeue with backoff the job's next claim comes no earlier than the time it was given. */
  lemma BackoffWaitedOut(r: Run, i: nat, k: nat, w: WorkerId, j: JobId, next: Time)
    requires IsRun(r) && Timely(r) && i < k < |r.steps|
    requires r.steps[i] == Requeue(w, j, next) && ClaimsJob(r.steps[k], j)
    requires forall m | i < m < k :: !ClaimsJob(r.steps[m], j)
    ensures next <= r.states[k].now
  {
    assert StepAt(r, i);
    RunKeepsInv(r, i);
    assert FlightOk(r.states[i], w, j);
    StepRow(r.states[i], r.steps[i], j);
    NeverClaimedEarly(r, i + 1, k, j);
  }

  /**
   From a requeue until its next claim the job waits for exactly the time it was given: it
   can be claimed from then on and not before.
   */
  lemma DueExactlyAfterRequeue(r: Run, i: nat, k: nat, w: WorkerId, j: JobId, next: Time)
    requires IsRun(r) && Timely(r) && i < k < |r.states| && r.steps[i] == Requeue(w, j, next)
    requires forall m | i < m < k :: !ClaimsJob(r.steps[m], j)
    ensures j in r.states[k].db.jobs
    ensures var row := r.states[k].db.jobs[j];
            row.status == Queued && row.nextRunAt == Some(next) && Unowned(row) && row.error.None? && row.failedAt.None?
    ensures FreeAndDue(r.states[k], j) <==> next <= r.states[k].now
  {
    assert StepAt(r, i);
    RunKeepsInv(r, i);
    assert FlightOk(r.states[i], w, j);
    StepRow(r.states[i], r.steps[i], j);
    QueuedUntilClaimed(r, i + 1, k, j);
  }

  /** A job is dead-lettered after exactly as many handled failures as were asked for. */
  lemma DeadAfterRequestedAttempts(r: Run, m: nat, k: nat, id: JobId) returns (input: JobInput)
    requires IsRun(r) && Timely(r) && m < k < |r.states|
    requires id !in r.states[m].db.jobs && id in r.states[m + 1].db.jobs
    ensures AskedFor(r.steps[m], input) && ValidInput(input)
    ensures id in r.states[k].db.jobs
    ensures r.states[k].db.jobs[id].status == DeadLetter <==> Failures(r, k, id) == input.maxAttempts
    ensures Failures(r, k, id) <= input.maxAttempts
  {
    input := SubmissionHonoured(r, m, k, id);
    DeadAfterExactlyMaxAttempts(r, k, id);
  }

  /**
   Until it is first claimed a submitted job can be claimed exactly from the time asked for,
   and a scheduled one never.
   */
  lemma DueExactlyAsRequested(r: Run, m: nat, k: nat, id: JobId) returns (input: JobInput)
    requires IsRun(r) && Timely(r) && m < k < |r.states|
    requires id !in r.states[m].db.jobs && id in r.states[m + 1].db.jobs
    requires forall n | m < n < k :: !ClaimsJob(r.steps[n], id)
    ensures AskedFor(r.steps[m], input) && ValidInput(input)
    ensures FreeAndDue(r.states[k], id) <==> input.status == Queued && input.nextRunAt.value <= r.states[k].now
  {
    input := SubmissionHonoured(r, m, k, id);
    if input.status == Queued {
      QueuedUntilClaimed(r, m + 1, k, id);
    } else {
      ScheduledNeverRuns(r, m + 1, k, id);
    }
  }

  /** A manual retry revives a dead-lettered job whole: queued, due, no attempts, no dead letter. */
  lemma ManualRetryRevives(r: Run, i: nat, id: JobId)
    requires IsRun(r) && Timely(r) && i < |r.steps| && r.steps[i] == RetryDead(id)
    requires id in r.states[i].db.dlq
    ensures FreeAndDue(r.states[i + 1], id) && id !in r.states[i + 1].db.dlq
    ensures r.states[i + 1].db.jobs[id].attempts == 0 && Unowned(r.states[i + 1].db.jobs[id])
    ensures id in r.states[i].db.jobs && r.states[i + 1].db.jobs[id].spec == r.states[i].db.jobs[id].spec
    ensures r.states[i + 1].db.jobs[id].failedAt.None? && r.states[i + 1].db.jobs[id].error.None?
  {
    assert StepAt(r, i);
    RunKeepsInv(r, i);
    assert id in r.states[i].db.jobs && RowOk(r.states[i].db, id);
  }
}
