/**
 The worker's handling of one claimed job, statement by statement against the store, and
 the proof that it is one of the protocol's paths.
 */
module Engine {
  import opened Domain
  import S = Statements
  import opened Protocol
  import opened Invariant
  import opened Untimed
  import B = Backoff
  import Store

  datatype RetryPolicy = RetryPolicy(strategy: string, base: int, maxDelay: int)

  const DEFAULT_POLICY := RetryPolicy("exponential", 5 * B.SECOND, B.HOUR)

  /** What the job's handler comes back with; an unknown job type fails too. */
  datatype Outcome = Succeeded | FailedWith(reason: string)

  /** A missing or unreadable policy falls back to the defaults. */
  function PolicyFor(job: Job, policies: map<int, RetryPolicy>): RetryPolicy {
    if job.spec.policy.Some? && job.spec.policy.value in policies then policies[job.spec.policy.value]
    else DEFAULT_POLICY
  }

  function RetryDelay(job: Job, policies: map<int, RetryPolicy>, draw: nat, outOfRange: int): B.Delay {
    var p := PolicyFor(job, policies);
    B.Jittered(
      B.Capped(p.strategy, p.base, p.maxDelay, Max(job.attempts + 1, 1), outOfRange),
      p.strategy == "exponential", draw)
  }

  /** When a failed job may run again, if computing the delay does not panic. */
  function RetryAt(now: Time, delay: B.Delay): Time {
    now + if delay.Delay? then delay.ns else 0
  }

  /** How a write that the code checks can turn out. */
  datatype Write = Acknowledged | Lost | Unacknowledged

  /**
   What goes wrong on the way: whether the gate could be read, how the running mark came
   back, and which of the writes whose errors are only logged landed.
   */
  datatype Faults = Faults(gateRead: bool, running: Write, settled: bool, failed: bool, requeued: bool)

  /** Time spent before the running mark, in the handler, and before each write of a failure. */
  datatype Pace = Pace(gate: nat, handler: nat, fail: nat, requeue: nat)

  predicate GateHit(t: Tables, job: Job, f: Faults) {
    job.spec.key.Some? && f.gateRead && S.KeyCompleted(t, job.spec.key.value)
  }

  predicate Exhausted(job: Job) {
    job.attempts + 1 >= job.spec.maxAttempts
  }

  /** The handler fails, a retry is left, and computing its delay panics. */
  predicate Panics(job: Job, outcome: Outcome, delay: B.Delay) {
    outcome.FailedWith? && !Exhausted(job) && delay.Panic?
  }

  predicate Crashes(t: Tables, job: Job, outcome: Outcome, delay: B.Delay, f: Faults) {
    !GateHit(t, job, f) && f.running.Acknowledged? && Panics(job, outcome, delay)
  }

  function Buried(t: Tables, id: JobId, now: Time, reason: string, attempts: int): Tables {
    var r := S.MoveToDlq(t, id, now, reason, attempts);
    if r.Ok? then r.value else t
  }

  /** The two writes of a retried failure, the second at the time computed before the first. */
  function FailedAndRequeued(
    t: Tables, id: JobId, job: Job, now: Time, reason: string, delay: B.Delay, f: Faults, p: Pace): Tables
  {
    var failed := if f.failed then S.FailJob(t, id, now + p.fail, reason, job.attempts + 1) else t;
    if f.requeued then S.RequeueForRetry(failed, id, RetryAt(now, delay), job.attempts + 1) else failed
  }

  /** The tables after a running job has been settled; the handler came back at `now`. */
  function Settled(
    t: Tables, id: JobId, job: Job, now: Time, outcome: Outcome, delay: B.Delay, f: Faults, p: Pace): Tables
  {
    match outcome
    case Succeeded => if f.settled then S.CompleteJob(t, id, now) else t
    case FailedWith(reason) =>
      if Exhausted(job) then (if f.settled then Buried(t, id, now, reason, job.attempts + 1) else t)
      else if delay.Panic? then t
      else FailedAndRequeued(t, id, job, now, reason, delay, f, p)
  }

  /** The tables after a job past the gate has been marked running, or not, and settled. */
  function Ran(
    t: Tables, id: JobId, job: Job, now: Time, outcome: Outcome, delay: B.Delay, f: Faults, p: Pace): Tables
  {
    match f.running
    case Lost => t
    case Unacknowledged => S.SetJobRunning(t, id)
    case Acknowledged => Settled(S.SetJobRunning(t, id), id, job, now + p.handler, outcome, delay, f, p)
  }

  /** The tables after a job has been handled from `now` on. */
  function Handled(
    t: Tables, id: JobId, job: Job, now: Time, outcome: Outcome, delay: B.Delay, f: Faults, p: Pace): Tables
  {
    if GateHit(t, job, f) then (if f.settled then S.CompleteJob(t, id, now + p.gate) else t)
    else Ran(t, id, job, now + p.gate, outcome, delay, f, p)
  }

  // ---- the row a handled job is left with ----

  type Rows = map<JobId, Job>

  /** The job is back in the queue, unowned and without an error, and waits until `next`. */
  predicate BackUntil(before: Rows, after: Rows, id: JobId, next: Time, attempts: int) {
    id in before ==>
      after == before[id := Job(before[id].spec, Queued, Some(next), attempts, None, None, None,
                                before[id].completedAt, None, None)]
  }

  /** The job is completed at `now`; its other columns are kept. */
  predicate DoneAt(before: Rows, after: Rows, id: JobId, now: Time) {
    id in before ==>
      var r := before[id];
      after == before[id := Job(r.spec, Completed, r.nextRunAt, r.attempts, r.worker, r.claimedAt, r.lease, Some(now),
                                r.failedAt, r.error)]
  }

  /** The job is dead at `now` for the reason, and a dead letter says so, unless it had one. */
  predicate DeadAt(t: Tables, after: Tables, id: JobId, now: Time, reason: string, attempts: int) {
    id in t.jobs && id !in t.dlq ==>
      var r := t.jobs[id];
      && after.jobs == t.jobs[id := Job(r.spec, DeadLetter, r.nextRunAt, attempts, r.worker, r.claimedAt, r.lease,
                                        r.completedAt, Some(now), Some(reason))]
      && after.dlq == t.dlq[id := DeadLetterRow(r.spec.queue, r.spec.payload, now, reason, attempts)]
  }

  /** The run time after a failure under the default policy: `d` and less than half of it later. */
  predicate DefaultWait(next: Time, now: Time, attempts: nat) {
    var d := Min(5000000000 * B.Pow2(attempts), 3600000000000);
    d <= next - now && 2 * (next - now - d) < d
  }

  /**
   What a failure at `now` leaves: a dead job and its letter when the attempts are used up,
   otherwise a job that waits out its delay, which is the default one without a policy.
   */
  predicate FailureRow(
    t: Tables, after: Tables, id: JobId, job: Job, now: Time, reason: string, delay: B.Delay, f: Faults)
  {
    var n := job.attempts + 1;
    && (n >= job.spec.maxAttempts && f.settled ==> DeadAt(t, after, id, now, reason, n))
    && (n < job.spec.maxAttempts && f.requeued && delay.Delay? ==>
          && BackUntil(t.jobs, after.jobs, id, now + delay.ns, n)
          && (job.spec.policy.None? && 1 <= n <= 31 ==> DefaultWait(now + delay.ns, now, n - 1)))
  }

  /** What handling a job leaves of its row: completed, dead, or back in the queue. */
  predicate HandledRow(
    t: Tables, after: Tables, id: JobId, job: Job, now: Time, outcome: Outcome, delay: B.Delay, f: Faults, p: Pace)
  {
    && (GateHit(t, job, f) && f.settled ==> DoneAt(t.jobs, after.jobs, id, now + p.gate))
    && (!GateHit(t, job, f) && f.running.Acknowledged? ==>
          match outcome
          case Succeeded => f.settled ==> DoneAt(t.jobs, after.jobs, id, now + p.gate + p.handler)
          case FailedWith(reason) => FailureRow(t, after, id, job, now + p.gate + p.handler, reason, delay, f))
  }

  lemma FailureColumns(
    t: Tables, id: JobId, job: Job, now: Time, reason: string, policies: map<int, RetryPolicy>, draw: nat,
    outOfRange: int, f: Faults, p: Pace)
    ensures var delay := RetryDelay(job, policies, draw, outOfRange);
            FailureRow(t, Settled(t, id, job, now, FailedWith(reason), delay, f, p), id, job, now, reason, delay, f)
  {
    if job.spec.policy.None? && 0 <= job.attempts < 31 {
      DefaultDelay(job, policies, draw, outOfRange);
    }
  }

  /** The running mark does not show in the row a failure leaves. */
  lemma MarkDoesNotShow(
    t: Tables, after: Tables, id: JobId, job: Job, now: Time, reason: string, delay: B.Delay, f: Faults)
    requires FailureRow(S.SetJobRunning(t, id), after, id, job, now, reason, delay, f)
    ensures FailureRow(t, after, id, job, now, reason, delay, f)
  {
  }

  lemma HandledColumns(
    t: Tables, id: JobId, job: Job, now: Time, outcome: Outcome, policies: map<int, RetryPolicy>, draw: nat,
    outOfRange: int, f: Faults, p: Pace)
    ensures var delay := RetryDelay(job, policies, draw, outOfRange);
            HandledRow(t, Handled(t, id, job, now, outcome, delay, f, p), id, job, now, outcome, delay, f, p)
  {
    if !GateHit(t, job, f) && f.running.Acknowledged? && outcome.FailedWith? {
      var begun := S.SetJobRunning(t, id);
      var back := now + p.gate + p.handler;
      var delay := RetryDelay(job, policies, draw, outOfRange);
      FailureColumns(begun, id, job, back, outcome.reason, policies, draw, outOfRange, f, p);
      MarkDoesNotShow(t, Settled(begun, id, job, back, outcome, delay, f, p), id, job, back, outcome.reason, delay, f);
    }
  }

  class Engine {
    const store: Store.JobStore
    const policies: map<int, RetryPolicy>
    const outOfRange: int

    constructor (store: Store.JobStore, policies: map<int, RetryPolicy>, outOfRange: int)
      ensures this.store == store && this.policies == policies && this.outOfRange == outOfRange
    {
      this.store, this.policies, this.outOfRange := store, policies, outOfRange;
    }

    /** The job's own policy if it can be read, otherwise the default one. */
    method ComputeDelay(job: Job, draw: nat) returns (delay: B.Delay)
      ensures delay == RetryDelay(job, policies, draw, outOfRange)
    {
      var policy := DEFAULT_POLICY;
      if job.spec.policy.Some? && job.spec.policy.value in policies {
        policy := policies[job.spec.policy.value];
      }
      delay := B.NextDelay(policy.strategy, policy.base, policy.maxDelay, job.attempts + 1,
                           policy.strategy == "exponential", draw, outOfRange);
    }

    /** Dead-letters an exhausted job, otherwise records the failure and requeues it after its backoff. */
    method HandleFailure(id: JobId, job: Job, reason: string, draw: nat, f: Faults, p: Pace)
      returns (crashed: bool)
      modifies store
      ensures store.now >= old(store.now)
      ensures crashed <==> !Exhausted(job) && RetryDelay(job, policies, draw, outOfRange).Panic?
      ensures store.View() == Settled(old(store.View()), id, job, old(store.now), FailedWith(reason),
                                      RetryDelay(job, policies, draw, outOfRange), f, p)
      ensures FailureRow(old(store.View()), store.View(), id, job, old(store.now), reason,
                         RetryDelay(job, policies, draw, outOfRange), f)
    {
      FailureColumns(store.View(), id, job, store.now, reason, policies, draw, outOfRange, f, p);
      var attempts := job.attempts + 1;
      if attempts >= job.spec.maxAttempts {
        if f.settled {
          var _ := store.MoveToDlq(id, reason, attempts);
        }
        return false;
      }
      var delay := ComputeDelay(job, draw);
      if delay.Panic? {
        return true;
      }
      var next := store.now + delay.ns;
      store.now := store.now + p.fail;
      if f.failed {
        store.FailJob(id, reason, attempts);
      }
      store.now := store.now + p.requeue;
      if f.requeued {
        store.RequeueForRetry(id, next, attempts);
      }
      return false;
    }

    /** The idempotency gate, the running mark, the handler, and the settling writes. */
    method ExecuteJob(id: JobId, job: Job, outcome: Outcome, draw: nat, f: Faults, p: Pace)
      returns (crashed: bool)
      modifies store
      ensures store.now >= old(store.now)
      ensures crashed <==>
                Crashes(old(store.View()), job, outcome, RetryDelay(job, policies, draw, outOfRange), f)
      ensures store.View() == Handled(old(store.View()), id, job, old(store.now), outcome,
                                      RetryDelay(job, policies, draw, outOfRange), f, p)
      ensures HandledRow(old(store.View()), store.View(), id, job, old(store.now), outcome,
                         RetryDelay(job, policies, draw, outOfRange), f, p)
    {
      HandledColumns(store.View(), id, job, store.now, outcome, policies, draw, outOfRange, f, p);
      var done := false;
      if job.spec.key.Some? && f.gateRead {
        done := store.IsIdempotencyKeyCompleted(job.spec.key.value);
      }
      store.now := store.now + p.gate;
      if done {
        if f.settled {
          store.CompleteJob(id);
        }
        return false;
      }
      crashed := RunJob(id, job, outcome, draw, f, p);
    }

    /** Past the gate: the running mark, the handler, and the settling writes. */
    method RunJob(id: JobId, job: Job, outcome: Outcome, draw: nat, f: Faults, p: Pace) returns (crashed: bool)
      modifies store
      ensures store.now >= old(store.now)
      ensures crashed <==> f.running.Acknowledged? && Panics(job, outcome, RetryDelay(job, policies, draw, outOfRange))
      ensures store.View() == Ran(old(store.View()), id, job, old(store.now), outcome,
                                  RetryDelay(job, policies, draw, outOfRange), f, p)
    {
      if f.running.Lost? {
        return false;
      }
      store.SetJobRunning(id);
      if f.running.Unacknowledged? {
        return false;
      }
      store.now := store.now + p.handler;
      if outcome.FailedWith? {
        crashed := HandleFailure(id, job, outcome.reason, draw, f, p);
        return;
      }
      if f.settled {
        store.CompleteJob(id);
      }
      return false;
    }
  }

  // ---- the engine's code is a path of the protocol ----

  /** The steps lead to a good state with these tables, the job out of the worker's hands. */
  ghost predicate Leaves(s: State, w: WorkerId, j: JobId, steps: seq<Step>, end: State, db: Tables) {
    Path(s, steps, end) && end.db == db && Inv(end) && !Holds(end, w, j)
  }

  lemma LeavesAfter(
    s: State, first: seq<Step>, mid: State, w: WorkerId, j: JobId, rest: seq<Step>, end: State, db: Tables)
    requires Path(s, first, mid) && Leaves(mid, w, j, rest, end, db)
    ensures Leaves(s, w, j, first + rest, end, db)
  {
    PathAppend(s, first, mid, rest, end);
  }

  function RetrySteps(w: WorkerId, j: JobId, reason: string, retryAt: Time, f: Faults, p: Pace): seq<Step> {
    ([Advance(p.fail)] + [FailWrite(w, j, reason, f.failed)])
    + ([Advance(p.requeue)] + [if f.requeued then Requeue(w, j, retryAt) else GiveUp(w, j)])
  }

  function SettleSteps(
    w: WorkerId, j: JobId, job: Job, now: Time, outcome: Outcome, delay: B.Delay, f: Faults, p: Pace): seq<Step>
  {
    match outcome
    case Succeeded => [if f.settled then Finish(w, j) else GiveUp(w, j)]
    case FailedWith(reason) =>
      if Exhausted(job) then [if f.settled then Bury(w, j, reason) else GiveUp(w, j)]
      else if delay.Panic? then [Stop(w)]
      else RetrySteps(w, j, reason, RetryAt(now, delay), f, p)
  }

  function RunSteps(
    w: WorkerId, j: JobId, job: Job, now: Time, outcome: Outcome, delay: B.Delay, f: Faults, p: Pace): seq<Step>
  {
    match f.running
    case Lost => [GiveUp(w, j)]
    case Unacknowledged => [MarkRunning(w, j)] + [GiveUp(w, j)]
    case Acknowledged =>
      ([MarkRunning(w, j)] + [Advance(p.handler)])
      + SettleSteps(w, j, job, now + p.handler, outcome, delay, f, p)
  }

  /** The steps the engine's code takes for a dispatched job. */
  function EngineSteps(
    s: State, w: WorkerId, j: JobId, outcome: Outcome, delay: B.Delay, f: Faults, p: Pace): seq<Step>
    requires Holds(s, w, j)
  {
    ([CheckKey(w, j, f.gateRead)] + [Advance(p.gate)])
    + (if GateHit(s.db, s.live[w].held[j].job, f) then [if f.settled then Finish(w, j) else GiveUp(w, j)]
       else RunSteps(w, j, s.live[w].held[j].job, s.now + p.gate, outcome, delay, f, p))
  }

  /** A step, and then some time. */
  lemma StepThenWait(s: State, step: Step, dt: nat) returns (end: State)
    requires Inv(s) && Enabled(s, step) && !step.Sweep?
    ensures Path(s, [step] + [Advance(dt)], end) && end == Apply(s, step).(now := Apply(s, step).now + dt)
    ensures Inv(end)
  {
    var mid := OneStep(s, step);
    end := OneStep(mid, Advance(dt));
    PathAppend(s, [step], mid, [Advance(dt)], end);
  }

  lemma WaitThenStep(s: State, dt: nat, step: Step) returns (end: State)
    requires Inv(s) && Enabled(s.(now := s.now + dt), step) && !step.Sweep?
    ensures Path(s, [Advance(dt)] + [step], end) && end == Apply(s.(now := s.now + dt), step)
    ensures Inv(end)
  {
    var mid := OneStep(s, Advance(dt));
    end := OneStep(mid, step);
    PathAppend(s, [Advance(dt)], mid, [step], end);
  }

  /**
   Handling a dispatched job leads, by protocol steps, to exactly the tables the engine
   leaves, however long each part takes and whichever of its calls fail.
   */
  lemma HandlingIsAPath(
    s: State, w: WorkerId, j: JobId, outcome: Outcome, delay: B.Delay, f: Faults, p: Pace) returns (end: State)
    requires Inv(s) && InPhase(s, w, j, Dispatched)
    ensures Leaves(s, w, j, EngineSteps(s, w, j, outcome, delay, f, p), end,
                   Handled(s.db, j, s.live[w].held[j].job, s.now, outcome, delay, f, p))
    ensures w !in end.live <==> Crashes(s.db, s.live[w].held[j].job, outcome, delay, f)
  {
    if GateHit(s.db, s.live[w].held[j].job, f) {
      end := HitIsAPath(s, w, j, outcome, delay, f, p);
    } else {
      end := ClearedIsAPath(s, w, j, outcome, delay, f, p);
    }
  }

  lemma HitIsAPath(s: State, w: WorkerId, j: JobId, outcome: Outcome, delay: B.Delay, f: Faults, p: Pace)
    returns (end: State)
    requires Inv(s) && InPhase(s, w, j, Dispatched) && GateHit(s.db, s.live[w].held[j].job, f)
    ensures Leaves(s, w, j, EngineSteps(s, w, j, outcome, delay, f, p), end,
                   Handled(s.db, j, s.live[w].held[j].job, s.now, outcome, delay, f, p))
    ensures w in end.live
  {
    var mid := GateIsAPath(s, w, j, f, p.gate);
    end := FinishIsAPath(mid, w, j, f);
    PathAppend(s, [CheckKey(w, j, f.gateRead)] + [Advance(p.gate)], mid,
               [if f.settled then Finish(w, j) else GiveUp(w, j)], end);
  }

  lemma ClearedIsAPath(s: State, w: WorkerId, j: JobId, outcome: Outcome, delay: B.Delay, f: Faults, p: Pace)
    returns (end: State)
    requires Inv(s) && InPhase(s, w, j, Dispatched) && !GateHit(s.db, s.live[w].held[j].job, f)
    ensures Leaves(s, w, j, EngineSteps(s, w, j, outcome, delay, f, p), end,
                   Handled(s.db, j, s.live[w].held[j].job, s.now, outcome, delay, f, p))
    ensures w !in end.live <==> f.running.Acknowledged? && Panics(s.live[w].held[j].job, outcome, delay)
  {
    var job := s.live[w].held[j].job;
    var mid := GateIsAPath(s, w, j, f, p.gate);
    end := RunIsAPath(mid, w, j, outcome, delay, f, p);
    LeavesAfter(s, [CheckKey(w, j, f.gateRead)] + [Advance(p.gate)], mid, w, j,
                RunSteps(w, j, job, mid.now, outcome, delay, f, p), end,
                Ran(mid.db, j, job, mid.now, outcome, delay, f, p));
    PastGate(s, w, j, outcome, delay, f, p);
  }

  lemma PastGate(s: State, w: WorkerId, j: JobId, outcome: Outcome, delay: B.Delay, f: Faults, p: Pace)
    requires Holds(s, w, j) && !GateHit(s.db, s.live[w].held[j].job, f)
    ensures var job := s.live[w].held[j].job;
            && EngineSteps(s, w, j, outcome, delay, f, p)
               == ([CheckKey(w, j, f.gateRead)] + [Advance(p.gate)])
                  + RunSteps(w, j, job, s.now + p.gate, outcome, delay, f, p)
            && Handled(s.db, j, job, s.now, outcome, delay, f, p)
               == Ran(s.db, j, job, s.now + p.gate, outcome, delay, f, p)
  {
  }

  lemma GateIsAPath(s: State, w: WorkerId, j: JobId, f: Faults, dt: nat) returns (end: State)
    requires Inv(s) && InPhase(s, w, j, Dispatched)
    ensures Path(s, [CheckKey(w, j, f.gateRead)] + [Advance(dt)], end)
    ensures Inv(end) && InPhase(end, w, j, if GateHit(s.db, s.live[w].held[j].job, f) then Hit else Cleared)
    ensures end.db == s.db && end.now == s.now + dt && end.live[w].held[j].job == s.live[w].held[j].job
  {
    end := StepThenWait(s, CheckKey(w, j, f.gateRead), dt);
  }

  lemma FinishIsAPath(s: State, w: WorkerId, j: JobId, f: Faults) returns (end: State)
    requires Inv(s) && (InPhase(s, w, j, Hit) || InPhase(s, w, j, Executing))
    ensures Path(s, [if f.settled then Finish(w, j) else GiveUp(w, j)], end)
    ensures end.db == (if f.settled then S.CompleteJob(s.db, j, s.now) else s.db)
    ensures Inv(end) && !Holds(end, w, j) && w in end.live
  {
    end := OneStep(s, if f.settled then Finish(w, j) else GiveUp(w, j));
  }

  lemma BuryIsAPath(s: State, w: WorkerId, j: JobId, reason: string, f: Faults) returns (end: State)
    requires Inv(s) && InPhase(s, w, j, Executing) && Exhausted(s.live[w].held[j].job)
    ensures Path(s, [if f.settled then Bury(w, j, reason) else GiveUp(w, j)], end)
    ensures end.db == if f.settled then Buried(s.db, j, s.now, reason, NextAttempt(s, w, j)) else s.db
    ensures Inv(end) && !Holds(end, w, j) && w in end.live
  {
    if f.settled {
      BuryKeepsInv(s, w, j, reason);
      end := OneStep(s, Bury(w, j, reason));
    } else {
      end := OneStep(s, GiveUp(w, j));
    }
  }

  lemma FailIsAPath(s: State, w: WorkerId, j: JobId, reason: string, f: Faults, dt: nat) returns (end: State)
    requires Inv(s) && InPhase(s, w, j, Executing) && !Exhausted(s.live[w].held[j].job)
    ensures Path(s, [Advance(dt)] + [FailWrite(w, j, reason, f.failed)], end)
    ensures Inv(end) && InPhase(end, w, j, Failing) && NextAttempt(end, w, j) == NextAttempt(s, w, j)
    ensures end.db == if f.failed then S.FailJob(s.db, j, s.now + dt, reason, NextAttempt(s, w, j)) else s.db
  {
    end := WaitThenStep(s, dt, FailWrite(w, j, reason, f.failed));
  }

  lemma RequeueIsAPath(s: State, w: WorkerId, j: JobId, retryAt: Time, f: Faults, dt: nat) returns (end: State)
    requires Inv(s) && InPhase(s, w, j, Failing)
    ensures Path(s, [Advance(dt)] + [if f.requeued then Requeue(w, j, retryAt) else GiveUp(w, j)], end)
    ensures end.db == if f.requeued then S.RequeueForRetry(s.db, j, retryAt, NextAttempt(s, w, j)) else s.db
    ensures Inv(end) && !Holds(end, w, j) && w in end.live
  {
    end := WaitThenStep(s, dt, if f.requeued then Requeue(w, j, retryAt) else GiveUp(w, j));
  }

  lemma RetryIsAPath(s: State, w: WorkerId, j: JobId, reason: string, delay: B.Delay, f: Faults, p: Pace)
    returns (end: State)
    requires Inv(s) && InPhase(s, w, j, Executing) && !Exhausted(s.live[w].held[j].job)
    ensures Path(s, RetrySteps(w, j, reason, RetryAt(s.now, delay), f, p), end)
    ensures end.db == FailedAndRequeued(s.db, j, s.live[w].held[j].job, s.now, reason, delay, f, p)
    ensures Inv(end) && !Holds(end, w, j) && w in end.live
  {
    var retryAt := RetryAt(s.now, delay);
    var mid := FailIsAPath(s, w, j, reason, f, p.fail);
    end := RequeueIsAPath(mid, w, j, retryAt, f, p.requeue);
    PathAppend(s, [Advance(p.fail)] + [FailWrite(w, j, reason, f.failed)], mid,
               [Advance(p.requeue)] + [if f.requeued then Requeue(w, j, retryAt) else GiveUp(w, j)], end);
  }

  lemma FailureIsAPath(s: State, w: WorkerId, j: JobId, reason: string, delay: B.Delay, f: Faults, p: Pace)
    returns (end: State)
    requires Inv(s) && InPhase(s, w, j, Executing)
    ensures Leaves(s, w, j, SettleSteps(w, j, s.live[w].held[j].job, s.now, FailedWith(reason), delay, f, p), end,
                   Settled(s.db, j, s.live[w].held[j].job, s.now, FailedWith(reason), delay, f, p))
    ensures w !in end.live <==> Panics(s.live[w].held[j].job, FailedWith(reason), delay)
  {
    if Exhausted(s.live[w].held[j].job) {
      end := BuryIsAPath(s, w, j, reason, f);
    } else if delay.Panic? {
      end := StopIsAPath(s, w);
    } else {
      end := RetryIsAPath(s, w, j, reason, delay, f, p);
    }
  }

  lemma StopIsAPath(s: State, w: WorkerId) returns (end: State)
    requires Inv(s) && w in s.live
    ensures Path(s, [Stop(w)], end) && end.db == s.db && Inv(end) && w !in end.live
  {
    end := OneStep(s, Stop(w));
  }

  lemma SettleIsAPath(s: State, w: WorkerId, j: JobId, outcome: Outcome, delay: B.Delay, f: Faults, p: Pace)
    returns (end: State)
    requires Inv(s) && InPhase(s, w, j, Executing)
    ensures Leaves(s, w, j, SettleSteps(w, j, s.live[w].held[j].job, s.now, outcome, delay, f, p), end,
                   Settled(s.db, j, s.live[w].held[j].job, s.now, outcome, delay, f, p))
    ensures w !in end.live <==> Panics(s.live[w].held[j].job, outcome, delay)
  {
    match outcome
    case Succeeded => end := FinishIsAPath(s, w, j, f);
    case FailedWith(reason) => end := FailureIsAPath(s, w, j, reason, delay, f, p);
  }

  lemma MarkIsAPath(s: State, w: WorkerId, j: JobId, dt: nat) returns (end: State)
    requires Inv(s) && InPhase(s, w, j, Cleared)
    ensures Path(s, [MarkRunning(w, j)] + [Advance(dt)], end)
    ensures Inv(end) && InPhase(end, w, j, Executing) && end.live[w].held[j].job == s.live[w].held[j].job
    ensures end.db == S.SetJobRunning(s.db, j) && end.now == s.now + dt
  {
    end := StepThenWait(s, MarkRunning(w, j), dt);
  }

  lemma UnmarkedIsAPath(s: State, w: WorkerId, j: JobId, outcome: Outcome, delay: B.Delay, f: Faults, p: Pace)
    returns (end: State)
    requires Inv(s) && InPhase(s, w, j, Cleared) && !f.running.Acknowledged?
    ensures Leaves(s, w, j, RunSteps(w, j, s.live[w].held[j].job, s.now, outcome, delay, f, p), end,
                   Ran(s.db, j, s.live[w].held[j].job, s.now, outcome, delay, f, p))
    ensures w in end.live
  {
    if f.running.Lost? {
      end := OneStep(s, GiveUp(w, j));
    } else {
      var mid := OneStep(s, MarkRunning(w, j));
      end := OneStep(mid, GiveUp(w, j));
      PathAppend(s, [MarkRunning(w, j)], mid, [GiveUp(w, j)], end);
    }
  }

  lemma MarkedIsAPath(s: State, w: WorkerId, j: JobId, outcome: Outcome, delay: B.Delay, f: Faults, p: Pace)
    returns (end: State)
    requires Inv(s) && InPhase(s, w, j, Cleared) && f.running.Acknowledged?
    ensures Leaves(s, w, j, RunSteps(w, j, s.live[w].held[j].job, s.now, outcome, delay, f, p), end,
                   Ran(s.db, j, s.live[w].held[j].job, s.now, outcome, delay, f, p))
    ensures w !in end.live <==> Panics(s.live[w].held[j].job, outcome, delay)
  {
    var job, now := s.live[w].held[j].job, s.now + p.handler;
    var mid := MarkIsAPath(s, w, j, p.handler);
    end := SettleIsAPath(mid, w, j, outcome, delay, f, p);
    LeavesAfter(s, [MarkRunning(w, j)] + [Advance(p.handler)], mid, w, j,
                SettleSteps(w, j, job, now, outcome, delay, f, p), end,
                Settled(mid.db, j, job, now, outcome, delay, f, p));
  }

  lemma RunIsAPath(s: State, w: WorkerId, j: JobId, outcome: Outcome, delay: B.Delay, f: Faults, p: Pace)
    returns (end: State)
    requires Inv(s) && InPhase(s, w, j, Cleared)
    ensures Leaves(s, w, j, RunSteps(w, j, s.live[w].held[j].job, s.now, outcome, delay, f, p), end,
                   Ran(s.db, j, s.live[w].held[j].job, s.now, outcome, delay, f, p))
    ensures w !in end.live <==> f.running.Acknowledged? && Panics(s.live[w].held[j].job, outcome, delay)
  {
    if f.running.Acknowledged? {
      end := MarkedIsAPath(s, w, j, outcome, delay, f, p);
    } else {
      end := UnmarkedIsAPath(s, w, j, outcome, delay, f, p);
    }
  }

  // ---- and no one else can block it ----

  /** A step of the worker on the job, or its end. */
  predicate Handles(step: Step, w: WorkerId, j: JobId) {
    || step == Stop(w) || step == Dispatch(w, j) || step == GiveUp(w, j)
    || (step.CheckKey? && step.w == w && step.j == j)
    || WritesHeld(step, w, j)
  }

  /** The step the code takes next, given how its next call turns out. */
  function NextStep(flight: Flight, w: WorkerId, j: JobId, outcome: Outcome, retryAt: Time, f: Faults): Step
    requires flight.phase != Waiting
  {
    match flight.phase
    case Dispatched => CheckKey(w, j, f.gateRead)
    case Hit => if f.settled then Finish(w, j) else GiveUp(w, j)
    case Cleared => if f.running.Lost? then GiveUp(w, j) else MarkRunning(w, j)
    case Executing =>
      if outcome.Succeeded? then (if f.settled then Finish(w, j) else GiveUp(w, j))
      else if Exhausted(flight.job) then (if f.settled then Bury(w, j, outcome.reason) else GiveUp(w, j))
      else FailWrite(w, j, outcome.reason, f.failed)
    case Failing => if f.requeued then Requeue(w, j, retryAt) else GiveUp(w, j)
  }

  lemma OthersKeepFlight(s: State, step: Step, w: WorkerId, j: JobId)
    requires Enabled(s, step) && Holds(s, w, j) && w in s.db.workers && !Handles(step, w, j)
    ensures Holds(Apply(s, step), w, j) && Apply(s, step).live[w].held[j] == s.live[w].held[j]
  {
    if step.Claim? {
      ClaimKeepsFlight(s, step, w, j);
    } else {
      OtherJobsAside(s, step, w, j);
    }
  }

  lemma ClaimKeepsFlight(s: State, step: Step, w: WorkerId, j: JobId)
    requires step.Claim? && Enabled(s, step) && Holds(s, w, j)
    ensures Holds(Apply(s, step), w, j) && Apply(s, step).live[w].held[j] == s.live[w].held[j]
  {
  }

  lemma OtherJobsAside(s: State, step: Step, w: WorkerId, j: JobId)
    requires Enabled(s, step) && !step.Claim? && Holds(s, w, j) && w in s.db.workers && !Handles(step, w, j)
    ensures Holds(Apply(s, step), w, j) && Apply(s, step).live[w].held[j] == s.live[w].held[j]
  {
    if step.CheckKey? || step.MarkRunning? || step.Finish? || step.Bury? || step.FailWrite? || step.Requeue? {
      OwnJobsAside(s, step, w, j);
    }
  }

  lemma OwnJobsAside(s: State, step: Step, w: WorkerId, j: JobId)
    requires Enabled(s, step) && Holds(s, w, j) && !Handles(step, w, j)
    requires step.CheckKey? || step.MarkRunning? || step.Finish? || step.Bury? || step.FailWrite? || step.Requeue?
    ensures Holds(Apply(s, step), w, j) && Apply(s, step).live[w].held[j] == s.live[w].held[j]
  {
  }

  /**
   Whatever other actors and the worker's other jobs do in between, the worker's place in
   handling a job is as it left it and its next step stays possible.
   */
  lemma {:induction false} NeverBlocked(
    r: Run, i: nat, k: nat, w: WorkerId, j: JobId, outcome: Outcome, retryAt: Time, f: Faults)
    requires IsRun(r) && i <= k < |r.states|
    requires Holds(r.states[i], w, j) && r.states[i].live[w].held[j].phase != Waiting
    requires forall m | i <= m < k :: !Handles(r.steps[m], w, j)
    ensures Holds(r.states[k], w, j) && r.states[k].live[w].held[j] == r.states[i].live[w].held[j]
    ensures Enabled(r.states[k], NextStep(r.states[i].live[w].held[j], w, j, outcome, retryAt, f))
    decreases k
  {
    if i < k {
      NeverBlocked(r, i, k - 1, w, j, outcome, retryAt, f);
      RunKeepsAlways(r, k - 1);
      assert WorkerOk(r.states[k - 1], w);
      assert StepAt(r, k - 1);
      OthersKeepFlight(r.states[k - 1], r.steps[k - 1], w, j);
    }
  }

  lemma DefaultDelay(job: Job, policies: map<int, RetryPolicy>, draw: nat, outOfRange: int)
    requires job.spec.policy.None? && 0 <= job.attempts < 31
    ensures var d := Min(5 * B.SECOND * B.Pow2(job.attempts), B.HOUR);
            var delay := RetryDelay(job, policies, draw, outOfRange);
            delay.Delay? && d <= delay.ns && 2 * (delay.ns - d) < d
  {
    var base := 5 * B.SECOND;
    B.ScaleMonotone(base, job.attempts, 30);
    B.Pow2Of30();
    B.FloatKeepsExactly(base);
    B.ExponentialExact(base, B.HOUR, job.attempts + 1, outOfRange);
    B.MulMonotone(base, 1, B.Pow2(job.attempts));
    B.JitterBounds(Min(base * B.Pow2(job.attempts), B.HOUR), draw);
  }

  /**
   In every timely run a handled failure backs off by the defaults: five seconds doubled
   per attempt up to an hour, plus less than half of that, whatever policies exist, until
   the product leaves 64 bits.
   */
  lemma RetriesBackOffByDefault(
    r: Run, i: nat, w: WorkerId, j: JobId, policies: map<int, RetryPolicy>, draw: nat, outOfRange: int)
    requires IsRun(r) && Timely(r) && i < |r.states| && InPhase(r.states[i], w, j, Executing)
    requires r.states[i].live[w].held[j].job.attempts < 31
    ensures var job := r.states[i].live[w].held[j].job;
            var d := Min(5 * B.SECOND * B.Pow2(Max(job.attempts, 0)), B.HOUR);
            var delay := RetryDelay(job, policies, draw, outOfRange);
            delay.Delay? && d <= delay.ns && 2 * (delay.ns - d) < d
  {
    RunKeepsInv(r, i);
    assert FlightOk(r.states[i], w, j) && RowOk(r.states[i].db, j);
    var job := r.states[i].live[w].held[j].job;
    DefaultDelay(job, policies, draw, outOfRange);
  }
}
