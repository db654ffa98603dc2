/**
 Backoff over whole runs: how many times a job has been requeued, and how long that has
 kept it from its dead letter. Times are in nanoseconds here.
 */
module Retries {
  import opened Domain
  import opened Protocol
  import opened Invariant
  import opened Lifecycle
  import opened Recovery
  import opened Engine
  import B = Backoff

  predicate Retried(step: Step, id: JobId) {
    step.Requeue? && step.j == id
  }

  /** Requeues with backoff since the job was created or last retried by hand. */
  ghost function RetryCount(r: Run, i: nat, id: JobId): nat
    requires |r.states| == |r.steps| + 1 && i < |r.states|
  {
    if i == 0 || ResetsCount(r.states[i - 1], r.steps[i - 1], id) then 0
    else RetryCount(r, i - 1, id) + (if Retried(r.steps[i - 1], id) then 1 else 0)
  }

  /** The run time the job was given when it was created or last retried by hand. */
  ghost function FirstRunAt(r: Run, i: nat, id: JobId): Time
    requires |r.states| == |r.steps| + 1 && i < |r.states|
  {
    if i == 0 || ResetsCount(r.states[i - 1], r.steps[i - 1], id) then
      if id in r.states[i].db.jobs && r.states[i].db.jobs[id].nextRunAt.Some?
      then r.states[i].db.jobs[id].nextRunAt.value else r.states[i].now
    else FirstRunAt(r, i - 1, id)
  }

  /** Some draw makes the policy's delay come out as `ns`. */
  ghost predicate Computed(job: Job, policies: map<int, RetryPolicy>, outOfRange: int, ns: int) {
    exists draw: nat :: RetryDelay(job, policies, draw, outOfRange) == B.Delay(ns)
  }

  /** The requeueing write carries a time computed from the policy since the job was claimed. */
  ghost predicate CarriesDelay(
    s: State, step: Step, computed: Time, policies: map<int, RetryPolicy>, outOfRange: int)
  {
    step.Requeue? && Holds(s, step.w, step.j) && step.j in s.db.jobs && s.db.jobs[step.j].claimedAt.Some? ==>
      && s.db.jobs[step.j].claimedAt.value <= computed <= s.now
      && Computed(s.live[step.w].held[step.j].job, policies, outOfRange, step.next - computed)
  }

  /**
   The code's way of doing so: step `i` requeues at the policy's delay from the clock of an
   earlier state, and the worker has held the job ever since.
   */
  ghost predicate ComputedAt(r: Run, i: nat, m: nat, policies: map<int, RetryPolicy>, outOfRange: int)
    requires |r.states| == |r.steps| + 1 && i < |r.steps|
  {
    r.steps[i].Requeue? ==>
      var w, j := r.steps[i].w, r.steps[i].j;
      && m <= i && (forall x | m <= x <= i :: Holds(r.states[x], w, j))
      && Computed(r.states[i].live[w].held[j].job, policies, outOfRange, r.steps[i].next - r.states[m].now)
  }

  /** Every requeue of the run does; `at[i]` is the state in which the delay of step `i` was computed. */
  ghost predicate FollowsPolicy(r: Run, at: seq<nat>, policies: map<int, RetryPolicy>, outOfRange: int)
    requires |r.states| == |r.steps| + 1
  {
    |at| == |r.steps| && forall i | 0 <= i < |r.steps| :: ComputedAt(r, i, at[i], policies, outOfRange)
  }

  /** The clock when the delay of step `i` was computed. */
  function Clock(r: Run, at: seq<nat>, i: nat): Time
    requires i < |at|
  {
    if at[i] < |r.states| then r.states[at[i]].now else 0
  }

  lemma HeldStepKeepsClaim(s: State, step: Step, w: WorkerId, j: JobId)
    requires Inv(s) && Enabled(s, step) && (step.Sweep? ==> OnTime(s))
    requires Holds(s, w, j) && Holds(Apply(s, step), w, j) && j in s.db.jobs
    ensures RowAfter(s, step, j).claimedAt == s.db.jobs[j].claimedAt
  {
    assert FlightOk(s, w, j);
    WriterKnowsRow(s, step, j);
    if step.Claim? {
      ClaimTakesFree(s, step.w, step.q, step.locked, step.batch);
    } else if step.Sweep? {
      OnTimeNotExpired(s, w, j);
    }
  }

  /** While a worker holds a job its claim time stands. */
  lemma {:induction false} HeldKeepsClaim(r: Run, m: nat, i: nat, w: WorkerId, j: JobId)
    requires IsRun(r) && Timely(r) && m <= i < |r.states|
    requires forall x | m <= x <= i :: Holds(r.states[x], w, j)
    ensures j in r.states[m].db.jobs && j in r.states[i].db.jobs
    ensures r.states[i].db.jobs[j].claimedAt == r.states[m].db.jobs[j].claimedAt
    decreases i
  {
    RunKeepsInv(r, m);
    assert FlightOk(r.states[m], w, j);
    if m < i {
      HeldKeepsClaim(r, m, i - 1, w, j);
      RunKeepsInv(r, i - 1);
      assert StepAt(r, i - 1);
      HeldStepKeepsClaim(r.states[i - 1], r.steps[i - 1], w, j);
      StepRow(r.states[i - 1], r.steps[i - 1], j);
    }
  }

  lemma PolicyCarries(r: Run, at: seq<nat>, policies: map<int, RetryPolicy>, outOfRange: int, i: nat)
    requires IsRun(r) && Timely(r) && FollowsPolicy(r, at, policies, outOfRange) && i < |r.steps|
    ensures CarriesDelay(r.states[i], r.steps[i], Clock(r, at, i), policies, outOfRange)
  {
    assert ComputedAt(r, i, at[i], policies, outOfRange);
    if r.steps[i].Requeue? {
      var w, j, m := r.steps[i].w, r.steps[i].j, at[i];
      HeldKeepsClaim(r, m, i, w, j);
      ClockMonotone(r, m, i);
      RunKeepsInv(r, m);
      assert FlightOk(r.states[m], w, j) && RowOk(r.states[m].db, j) && OwnerOk(r.states[m], j);
    }
  }

  /** The requeues of a row on record: all its attempts but the one that has not been requeued. */
  function RetriesOf(row: Job): int {
    row.attempts - (if row.status == Failed || row.status == DeadLetter then 1 else 0)
  }

  lemma RowCountsRetries(s: State, step: Step, id: JobId)
    requires Inv(s) && Enabled(s, step) && id in s.db.jobs
    ensures RetriesOf(RowAfter(s, step, id))
         == if ResetsCount(s, step, id) then 0
            else RetriesOf(s.db.jobs[id]) + (if Retried(step, id) then 1 else 0)
  {
    WriterKnowsRow(s, step, id);
    assert RowOk(s.db, id);
  }

  lemma StepCountsRetries(s: State, step: Step, id: JobId)
    requires Inv(s) && Enabled(s, step) && id in s.db.jobs
    ensures id in Apply(s, step).db.jobs
    ensures RetriesOf(Apply(s, step).db.jobs[id])
         == if ResetsCount(s, step, id) then 0
            else RetriesOf(s.db.jobs[id]) + (if Retried(step, id) then 1 else 0)
  {
    StepRow(s, step, id);
    RowCountsRetries(s, step, id);
  }

  /** Every attempt but the last failed one has been followed by exactly one requeue. */
  lemma {:induction false} RetryLedger(r: Run, i: nat, id: JobId)
    requires IsRun(r) && Timely(r) && i < |r.states| && id in r.states[i].db.jobs
    ensures RetryCount(r, i, id) == RetriesOf(r.states[i].db.jobs[id])
  {
    if i > 0 {
      assert StepAt(r, i - 1);
      if id in r.states[i - 1].db.jobs {
        RunKeepsInv(r, i - 1);
        RetryLedger(r, i - 1, id);
        StepCountsRetries(r.states[i - 1], r.steps[i - 1], id);
      } else {
        StepCreates(r.states[i - 1], r.steps[i - 1], id);
      }
    }
  }

  // ---- the delay of one requeue ----

  function Doubling(attempt: nat): int
    requires attempt >= 1
  {
    Min(5 * B.SECOND * B.Pow2(attempt - 1), B.HOUR)
  }

  lemma ComputedDelay(job: Job, policies: map<int, RetryPolicy>, outOfRange: int, ns: int)
    requires job.spec.policy.None? && 0 <= job.attempts < 31 && Computed(job, policies, outOfRange, ns)
    ensures Doubling(job.attempts + 1) <= ns && 2 * ns < 3 * Doubling(job.attempts + 1)
  {
    var draw: nat :| RetryDelay(job, policies, draw, outOfRange) == B.Delay(ns);
    DefaultDelay(job, policies, draw, outOfRange);
  }

  lemma DelayGiven(s: State, step: Step, computed: Time, policies: map<int, RetryPolicy>, outOfRange: int)
    requires Inv(s) && Enabled(s, step) && step.Requeue?
    requires CarriesDelay(s, step, computed, policies, outOfRange)
    ensures step.j in s.db.jobs && 0 <= RetriesOf(s.db.jobs[step.j])
    ensures s.db.jobs[step.j].claimedAt.Some? && s.db.jobs[step.j].claimedAt.value <= computed <= s.now
    ensures var n := RetriesOf(s.db.jobs[step.j]) + 1;
            n <= 31 ==> Doubling(n) <= step.next - computed && 2 * (step.next - computed) < 3 * Doubling(n)
  {
    var job := s.live[step.w].held[step.j].job;
    assert FlightOk(s, step.w, step.j) && RowOk(s.db, step.j);
    assert RetriesOf(s.db.jobs[step.j]) == job.attempts;
    if job.attempts < 31 {
      ComputedDelay(job, policies, outOfRange, step.next - computed);
    }
  }

  // ---- how long the retries take ----

  /** The least the first `n` backoffs can take: 31 of them are counted, then the product overflows. */
  function LeastBackoff(n: nat): int {
    B.CappedSum(5 * B.SECOND, B.HOUR, Min(n, 31))
  }

  /** The row's run time lies past the backoffs so far; once they overflow, the clock does. */
  predicate PastBackoffs(s: State, id: JobId, first: Time)
    requires id in s.db.jobs
  {
    var row := s.db.jobs[id];
    row.nextRunAt.Some? && 0 <= RetriesOf(row) &&
    if RetriesOf(row) <= 31 then first + LeastBackoff(RetriesOf(row)) <= row.nextRunAt.value
    else first + LeastBackoff(31) <= s.now
  }

  /** A job someone works on is past its backoffs by the clock. */
  lemma WorkedOnLater(s: State, id: JobId, first: Time, at: Time)
    requires Inv(s) && id in s.db.jobs && PastBackoffs(s, id, first)
    requires Active(s.db.jobs[id]) || s.db.jobs[id].status == Failed
    requires s.db.jobs[id].claimedAt.Some? && s.db.jobs[id].claimedAt.value <= at <= s.now
    ensures first + LeastBackoff(RetriesOf(s.db.jobs[id])) <= s.now
    ensures RetriesOf(s.db.jobs[id]) <= 31 ==> first + LeastBackoff(RetriesOf(s.db.jobs[id])) <= at
  {
    assert RowOk(s.db, id);
  }

  lemma RequeuePastBackoffs(
    s: State, step: Step, id: JobId, first: Time, computed: Time, policies: map<int, RetryPolicy>, outOfRange: int)
    requires Inv(s) && Enabled(s, step) && id in s.db.jobs && PastBackoffs(s, id, first) && Retried(step, id)
    requires CarriesDelay(s, step, computed, policies, outOfRange)
    ensures id in Apply(s, step).db.jobs && PastBackoffs(Apply(s, step), id, first)
  {
    StepRow(s, step, id);
    StepCountsRetries(s, step, id);
    assert FlightOk(s, step.w, id);
    DelayGiven(s, step, computed, policies, outOfRange);
    WorkedOnLater(s, id, first, computed);
    assert Apply(s, step).now == s.now;
  }

  lemma OthersPastBackoffs(s: State, step: Step, id: JobId, first: Time)
    requires Inv(s) && Enabled(s, step) && id in s.db.jobs && PastBackoffs(s, id, first)
    requires !Retried(step, id) && !ResetsCount(s, step, id)
    ensures id in Apply(s, step).db.jobs && PastBackoffs(Apply(s, step), id, first)
  {
    StepRow(s, step, id);
    StepCountsRetries(s, step, id);
    RunTimeGrows(s, step, id);
    ClockGrows(s, step);
  }

  lemma ClockGrows(s: State, step: Step)
    requires Enabled(s, step)
    ensures s.now <= Apply(s, step).now
  {
  }

  /** No step but a requeue or a manual retry brings a row's run time forward. */
  lemma RunTimeGrows(s: State, step: Step, id: JobId)
    requires Inv(s) && Enabled(s, step) && id in s.db.jobs && !Retried(step, id) && !ResetsCount(s, step, id)
    ensures s.db.jobs[id].nextRunAt.Some? && RowAfter(s, step, id).nextRunAt.Some?
    ensures s.db.jobs[id].nextRunAt.value <= RowAfter(s, step, id).nextRunAt.value
  {
    assert RowOk(s.db, id) && OwnerOk(s, id);
  }

  lemma StepPastBackoffs(
    s: State, step: Step, id: JobId, first: Time, computed: Time, policies: map<int, RetryPolicy>, outOfRange: int)
    requires Inv(s) && Enabled(s, step) && id in s.db.jobs && PastBackoffs(s, id, first)
    requires CarriesDelay(s, step, computed, policies, outOfRange) && !ResetsCount(s, step, id)
    ensures id in Apply(s, step).db.jobs && PastBackoffs(Apply(s, step), id, first)
  {
    if Retried(step, id) {
      RequeuePastBackoffs(s, step, id, first, computed, policies, outOfRange);
    } else {
      OthersPastBackoffs(s, step, id, first);
    }
  }

  /** A job that has just been created or retried by hand has no backoff behind it. */
  lemma {:induction false} FreshPastBackoffs(r: Run, i: nat, id: JobId)
    requires IsRun(r) && Timely(r) && i < |r.states| && id in r.states[i].db.jobs
    requires i == 0 || ResetsCount(r.states[i - 1], r.steps[i - 1], id)
    ensures PastBackoffs(r.states[i], id, FirstRunAt(r, i, id))
  {
    RunKeepsInv(r, i);
    assert RowOk(r.states[i].db, id);
    RetryLedger(r, i, id);
  }

  lemma {:induction false} RunPastBackoffs(
    r: Run, i: nat, id: JobId, at: seq<nat>, policies: map<int, RetryPolicy>, outOfRange: int)
    requires IsRun(r) && Timely(r) && i < |r.states| && id in r.states[i].db.jobs
    requires FollowsPolicy(r, at, policies, outOfRange)
    ensures PastBackoffs(r.states[i], id, FirstRunAt(r, i, id))
  {
    if i == 0 || ResetsCount(r.states[i - 1], r.steps[i - 1], id) {
      FreshPastBackoffs(r, i, id);
    } else {
      RunPastBackoffs(r, i - 1, id, at, policies, outOfRange);
      NextPastBackoffs(r, i - 1, id, FirstRunAt(r, i - 1, id), at, policies, outOfRange);
    }
  }

  lemma NextPastBackoffs(
    r: Run, i: nat, id: JobId, first: Time, at: seq<nat>, policies: map<int, RetryPolicy>, outOfRange: int)
    requires IsRun(r) && Timely(r) && i < |r.steps| && id in r.states[i].db.jobs
    requires FollowsPolicy(r, at, policies, outOfRange)
    requires PastBackoffs(r.states[i], id, first) && !ResetsCount(r.states[i], r.steps[i], id)
    ensures id in r.states[i + 1].db.jobs && PastBackoffs(r.states[i + 1], id, first)
  {
    RunKeepsInv(r, i);
    assert StepAt(r, i);
    PolicyCarries(r, at, policies, outOfRange, i);
    StepPastBackoffs(r.states[i], r.steps[i], id, first, Clock(r, at, i), policies, outOfRange);
  }

  /** The step that dead-letters a job comes past its backoffs; until it is reset the row then stays. */
  lemma StepBuries(s: State, step: Step, id: JobId, first: Time)
    requires Inv(s) && Enabled(s, step) && id in s.db.jobs && PastBackoffs(s, id, first)
    requires id in Apply(s, step).db.jobs && Apply(s, step).db.jobs[id].status == DeadLetter
    ensures var before, after := s.db.jobs[id], Apply(s, step).db.jobs[id];
            && !ResetsCount(s, step, id)
            && (before.status == DeadLetter ==> after == before)
            && (before.status != DeadLetter ==>
                  after.failedAt == Some(s.now) && first + LeastBackoff(RetriesOf(before)) <= s.now)
  {
    StepRow(s, step, id);
    WriterKnowsRow(s, step, id);
    assert RowOk(s.db, id) && OwnerOk(s, id);
    if s.db.jobs[id].status != DeadLetter {
      WorkedOnLater(s, id, first, s.now);
    }
  }

  /** A dead-lettered job has used up its attempts, all but the last with a retry. */
  lemma {:induction false} DeadHasRetried(r: Run, i: nat, id: JobId)
    requires IsRun(r) && Timely(r) && i < |r.states| && id in r.states[i].db.jobs
    requires r.states[i].db.jobs[id].status == DeadLetter
    ensures RetryCount(r, i, id) == r.states[i].db.jobs[id].spec.maxAttempts - 1
  {
    RunKeepsInv(r, i);
    assert RowOk(r.states[i].db, id);
    RetryLedger(r, i, id);
  }

  /**
   A job is dead-lettered no earlier than its first run time plus all its backoffs, as many
   as its attempts allow and the arithmetic can count.
   */
  lemma {:induction false} DeadNoEarlier(
    r: Run, i: nat, id: JobId, at: seq<nat>, policies: map<int, RetryPolicy>, outOfRange: int)
    requires IsRun(r) && Timely(r) && i < |r.states| && id in r.states[i].db.jobs
    requires FollowsPolicy(r, at, policies, outOfRange)
    requires r.states[i].db.jobs[id].status == DeadLetter
    ensures var row := r.states[i].db.jobs[id];
            && RetryCount(r, i, id) == row.spec.maxAttempts - 1
            && row.failedAt.Some?
            && FirstRunAt(r, i, id) + LeastBackoff(RetryCount(r, i, id)) <= row.failedAt.value
  {
    DeadHasRetried(r, i, id);
    DeadWasThere(r, i, id);
    RunPastBackoffs(r, i - 1, id, at, policies, outOfRange);
    DeadComesFrom(r, i, id);
    if r.states[i - 1].db.jobs[id].status == DeadLetter {
      DeadNoEarlier(r, i - 1, id, at, policies, outOfRange);
    } else {
      RetryLedger(r, i - 1, id);
    }
  }

  lemma DeadComesFrom(r: Run, i: nat, id: JobId)
    requires IsRun(r) && Timely(r) && 0 < i < |r.states| && id in r.states[i - 1].db.jobs
    requires id in r.states[i].db.jobs && r.states[i].db.jobs[id].status == DeadLetter
    requires PastBackoffs(r.states[i - 1], id, FirstRunAt(r, i - 1, id))
    ensures var before, after := r.states[i - 1].db.jobs[id], r.states[i].db.jobs[id];
            && FirstRunAt(r, i, id) == FirstRunAt(r, i - 1, id)
            && (before.status == DeadLetter ==> after == before)
            && (before.status != DeadLetter ==>
                  && after.failedAt.Some?
                  && FirstRunAt(r, i, id) + LeastBackoff(RetriesOf(before)) <= after.failedAt.value)
  {
    RunKeepsInv(r, i - 1);
    assert StepAt(r, i - 1);
    StepBuries(r.states[i - 1], r.steps[i - 1], id, FirstRunAt(r, i - 1, id));
  }

  /** No job is dead from the start, and the step to a dead letter is not a requeue. */
  lemma DeadWasThere(r: Run, i: nat, id: JobId)
    requires IsRun(r) && Timely(r) && i < |r.states| && id in r.states[i].db.jobs
    requires r.states[i].db.jobs[id].status == DeadLetter
    ensures 0 < i && id in r.states[i - 1].db.jobs && !Retried(r.steps[i - 1], id)
  {
    assert StepAt(r, i - 1);
    if id !in r.states[i - 1].db.jobs {
      StepCreates(r.states[i - 1], r.steps[i - 1], id);
    } else {
      StepRow(r.states[i - 1], r.steps[i - 1], id);
    }
  }

  // ---- and how long they are meant to take ----

  /** The delays given to the job's retries so far, added up. */
  ghost function TotalBackoff(r: Run, i: nat, id: JobId, at: seq<nat>): int
    requires |r.states| == |r.steps| + 1 && i < |r.states| && |at| == |r.steps|
  {
    if i == 0 || ResetsCount(r.states[i - 1], r.steps[i - 1], id) then 0
    else TotalBackoff(r, i - 1, id, at)
         + (if Retried(r.steps[i - 1], id) then r.steps[i - 1].next - Clock(r, at, i - 1) else 0)
  }

  /** Between S and 3S/2 for S the least the backoffs can take. */
  predicate Proportionate(total: int, n: nat) {
    LeastBackoff(n) <= total && if n == 0 then total == 0 else 2 * total < 3 * LeastBackoff(n)
  }

  lemma OneMoreRetry(total: int, n: nat, ns: int)
    requires n < 31 && Proportionate(total, n) && Doubling(n + 1) <= ns && 2 * ns < 3 * Doubling(n + 1)
    ensures Proportionate(total + ns, n + 1)
  {
  }

  /** All retries of a job, up to 31 of them, together wait between S and 3S/2, S at most an hour each. */
  lemma {:induction false} RetriesTotal(
    r: Run, i: nat, id: JobId, at: seq<nat>, policies: map<int, RetryPolicy>, outOfRange: int)
    requires IsRun(r) && Timely(r) && i < |r.states|
    requires FollowsPolicy(r, at, policies, outOfRange)
    requires RetryCount(r, i, id) <= 31
    ensures Proportionate(TotalBackoff(r, i, id, at), RetryCount(r, i, id))
    ensures LeastBackoff(RetryCount(r, i, id)) <= RetryCount(r, i, id) * B.HOUR
    ensures LeastBackoff(RetryCount(r, i, id)) <= 5 * B.SECOND * (B.Pow2(RetryCount(r, i, id)) - 1)
  {
    B.CappedSumByCap(5 * B.SECOND, B.HOUR, RetryCount(r, i, id));
    B.CappedSumBound(5 * B.SECOND, B.HOUR, RetryCount(r, i, id));
    if i > 0 && !ResetsCount(r.states[i - 1], r.steps[i - 1], id) {
      RetriesTotal(r, i - 1, id, at, policies, outOfRange);
      if Retried(r.steps[i - 1], id) {
        RetryGiven(r, i - 1, id, at, policies, outOfRange);
        OneMoreRetry(TotalBackoff(r, i - 1, id, at), RetryCount(r, i - 1, id),
                     r.steps[i - 1].next - Clock(r, at, i - 1));
      }
    }
  }

  lemma EnabledAt(r: Run, i: nat)
    requires IsRun(r) && i < |r.steps|
    ensures Enabled(r.states[i], r.steps[i])
  {
    assert StepAt(r, i);
  }

  lemma {:induction false} RetryGiven(
    r: Run, i: nat, id: JobId, at: seq<nat>, policies: map<int, RetryPolicy>, outOfRange: int)
    requires IsRun(r) && Timely(r) && i < |r.steps| && Retried(r.steps[i], id) && RetryCount(r, i, id) < 31
    requires FollowsPolicy(r, at, policies, outOfRange)
    ensures var n, ns := RetryCount(r, i, id) + 1, r.steps[i].next - Clock(r, at, i);
            Doubling(n) <= ns && 2 * ns < 3 * Doubling(n)
  {
    EnabledAt(r, i);
    RunKeepsInv(r, i);
    PolicyCarries(r, at, policies, outOfRange, i);
    DelayGiven(r.states[i], r.steps[i], Clock(r, at, i), policies, outOfRange);
    RetryLedger(r, i, id);
  }

  // ---- the engine follows the policy ----

  /** The worker still holds the job as claimed, and the clock has moved by `dt`. */
  predicate HeldAfter(s: State, s': State, w: WorkerId, j: JobId, dt: nat) {
    Holds(s, w, j) && Holds(s', w, j) && s'.live[w].held[j].job == s.live[w].held[j].job && s'.now == s.now + dt
  }

  lemma EngineStepHolds(states: seq<State>, s: State, steps: seq<Step>, end: State, i: nat, w: WorkerId, j: JobId)
    requires Traces(states, s, steps, end) && i < |steps| && Holds(states[i], w, j)
    requires var step := steps[i];
             || step.Advance? || step == MarkRunning(w, j)
             || (step.CheckKey? && step.w == w && step.j == j) || (step.FailWrite? && step.w == w && step.j == j)
    ensures HeldAfter(states[i], states[i + 1], w, j, if steps[i].Advance? then steps[i].dt else 0)
  {
    assert Linked(states, steps, i);
  }

  /** The steps of a handler that failed with a retry left. */
  function RetryingSteps(w: WorkerId, j: JobId, reason: string, retryAt: Time, f: Faults, p: Pace): seq<Step> {
    [CheckKey(w, j, f.gateRead), Advance(p.gate), MarkRunning(w, j), Advance(p.handler),
     Advance(p.fail), FailWrite(w, j, reason, f.failed), Advance(p.requeue), Requeue(w, j, retryAt)]
  }

  lemma EngineRetries(
    s: State, w: WorkerId, j: JobId, reason: string, delay: B.Delay, f: Faults, p: Pace)
    requires Holds(s, w, j) && !GateHit(s.db, s.live[w].held[j].job, f) && f.running.Acknowledged? && f.requeued
    requires !Exhausted(s.live[w].held[j].job) && delay.Delay?
    ensures EngineSteps(s, w, j, FailedWith(reason), delay, f, p)
         == RetryingSteps(w, j, reason, s.now + p.gate + p.handler + delay.ns, f, p)
  {
  }

  /** Up to the handler's return. */
  lemma RunningHolds(
    states: seq<State>, s: State, end: State, w: WorkerId, j: JobId, reason: string, retryAt: Time, f: Faults, p: Pace)
    requires Holds(s, w, j) && Traces(states, s, RetryingSteps(w, j, reason, retryAt, f, p), end)
    ensures HeldAfter(s, states[4], w, j, p.gate + p.handler)
  {
    var steps := RetryingSteps(w, j, reason, retryAt, f, p);
    EngineStepHolds(states, s, steps, end, 0, w, j);
    EngineStepHolds(states, s, steps, end, 1, w, j);
    EngineStepHolds(states, s, steps, end, 2, w, j);
    EngineStepHolds(states, s, steps, end, 3, w, j);
  }

  /** And from there to the requeueing write. */
  lemma RetryingHolds(
    states: seq<State>, s: State, end: State, w: WorkerId, j: JobId, reason: string, retryAt: Time, f: Faults, p: Pace)
    requires Traces(states, s, RetryingSteps(w, j, reason, retryAt, f, p), end) && Holds(states[4], w, j)
    ensures forall x | 4 <= x <= 7 :: Holds(states[x], w, j)
    ensures Holds(states[7], w, j) && states[7].live[w].held[j].job == states[4].live[w].held[j].job
  {
    var steps := RetryingSteps(w, j, reason, retryAt, f, p);
    EngineStepHolds(states, s, steps, end, 4, w, j);
    EngineStepHolds(states, s, steps, end, 5, w, j);
    EngineStepHolds(states, s, steps, end, 6, w, j);
  }

  /**
   However the engine handles a failure with a retry left, its requeueing write carries the
   policy's delay from the moment the handler came back.
   */
  lemma EngineFollowsPolicy(
    states: seq<State>, s: State, end: State, w: WorkerId, j: JobId, reason: string,
    policies: map<int, RetryPolicy>, draw: nat, outOfRange: int, f: Faults, p: Pace)
    requires Holds(s, w, j) && !GateHit(s.db, s.live[w].held[j].job, f) && f.running.Acknowledged? && f.requeued
    requires !Exhausted(s.live[w].held[j].job)
    requires RetryDelay(s.live[w].held[j].job, policies, draw, outOfRange).Delay?
    requires Traces(states, s, EngineSteps(s, w, j, FailedWith(reason),
                      RetryDelay(s.live[w].held[j].job, policies, draw, outOfRange), f, p), end)
    ensures var steps := EngineSteps(s, w, j, FailedWith(reason),
                           RetryDelay(s.live[w].held[j].job, policies, draw, outOfRange), f, p);
            && |steps| == 8 && steps[7].Requeue? && steps[7].w == w && steps[7].j == j
            && ComputedAt(Run(states, steps), 7, 4, policies, outOfRange)
  {
    var delay := RetryDelay(s.live[w].held[j].job, policies, draw, outOfRange);
    EngineRetries(s, w, j, reason, delay, f, p);
    RunningHolds(states, s, end, w, j, reason, s.now + p.gate + p.handler + delay.ns, f, p);
    RetryingHolds(states, s, end, w, j, reason, s.now + p.gate + p.handler + delay.ns, f, p);
    assert Computed(s.live[w].held[j].job, policies, outOfRange, delay.ns);
  }
}
