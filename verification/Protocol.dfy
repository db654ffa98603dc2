/**
 The job lifecycle as a state machine: any number of workers, the reaper and the API
 act on the shared tables in any order, one SQL statement or transaction at a time.
 All nondeterminism sits in the step's arguments, so a run is a list of steps.
 */
module Protocol {
  import opened Domain
  import opened Statements
  import opened Claiming

  /** Where a worker stands with one claimed job. */
  datatype Phase =
    | Waiting      // claimed, waiting for a pool slot
    | Dispatched   // its goroutine runs, the idempotency gate is next
    | Hit          // the gate said the key is done, the completing write is next
    | Cleared      // the gate let it through, the running write is next
    | Executing    // the handler runs
    | Failing      // a failed attempt was handled, the requeueing write is next

  /** The job as the claim returned it, and the worker's position in handling it. */
  datatype Flight = Flight(job: Job, phase: Phase)

  /** A live worker process. `lost` records jobs it dropped because a write did not land. */
  datatype Worker = Worker(
    lease: Time, slots: int, renewed: Time, held: map<JobId, Flight>, lost: set<JobId>)

  datatype State = State(now: Time, db: Tables, live: map<WorkerId, Worker>)

  datatype Step =
    | Advance(dt: nat)
    | PutQueue(q: QueueId, queue: Queue)
    | Submit(id: JobId, input: JobInput)
    | SubmitBatch(ids: seq<JobId>, inputs: seq<JobInput>)
    | RetryDead(id: JobId)
    | Register(w: WorkerId, lease: Time, slots: int)
    | Claim(w: WorkerId, q: QueueId, locked: set<JobId>, batch: seq<JobId>)
    | Dispatch(w: WorkerId, j: JobId)
    | CheckKey(w: WorkerId, j: JobId, readOk: bool)
    | MarkRunning(w: WorkerId, j: JobId)
    | Finish(w: WorkerId, j: JobId)
    | Bury(w: WorkerId, j: JobId, reason: string)
    | FailWrite(w: WorkerId, j: JobId, reason: string, landed: bool)
    | Requeue(w: WorkerId, j: JobId, next: Time)
    | GiveUp(w: WorkerId, j: JobId)
    | Beat(w: WorkerId)
    | Sweep
    | MarkDead(threshold: Time)
    | Release(w: WorkerId)
    | Deregister(w: WorkerId)
    | Stop(w: WorkerId)

  predicate Holds(s: State, w: WorkerId, j: JobId) {
    w in s.live && j in s.live[w].held
  }

  predicate InPhase(s: State, w: WorkerId, j: JobId, p: Phase) {
    Holds(s, w, j) && s.live[w].held[j].phase == p
  }

  /** The jobs occupying the worker's pool. */
  function Busy(k: Worker): set<JobId> {
    set j | j in k.held && k.held[j].phase != Waiting
  }

  /** The attempt number a handled failure writes. */
  function NextAttempt(s: State, w: WorkerId, j: JobId): int
    requires Holds(s, w, j)
  {
    s.live[w].held[j].job.attempts + 1
  }

  function AttemptLimit(s: State, w: WorkerId, j: JobId): int
    requires Holds(s, w, j)
  {
    s.live[w].held[j].job.spec.maxAttempts
  }

  /** What the API's validation guarantees of every insert. */
  predicate ValidInput(i: JobInput) {
    1 <= i.maxAttempts && i.nextRunAt.Some? && (i.status == Queued || i.status == Scheduled)
  }

  ghost predicate Enabled(s: State, step: Step) {
    match step
    case Advance(_) => true
    case PutQueue(_, _) => true
    case Submit(_, input) => ValidInput(input)
    case SubmitBatch(ids, inputs) =>
      |ids| == |inputs| && forall k | 0 <= k < |inputs| :: ValidInput(inputs[k])
    case RetryDead(_) => true
    case Register(w, _, _) => w !in s.db.workers
    case Claim(w, q, locked, batch) =>
      && w in s.live && q in s.db.queues
      && ValidBatch(s.db, q, s.now, locked, false, Budget(s.db, q, UNLIMITED), batch)
      && (forall j | j in s.live[w].held :: j !in batch)
    case Dispatch(w, j) => InPhase(s, w, j, Waiting) && |Busy(s.live[w])| < s.live[w].slots
    case CheckKey(w, j, _) => InPhase(s, w, j, Dispatched)
    case MarkRunning(w, j) => InPhase(s, w, j, Cleared)
    case Finish(w, j) => InPhase(s, w, j, Hit) || InPhase(s, w, j, Executing)
    case Bury(w, j, _) =>
      InPhase(s, w, j, Executing) && NextAttempt(s, w, j) >= AttemptLimit(s, w, j)
    case FailWrite(w, j, _, _) =>
      InPhase(s, w, j, Executing) && NextAttempt(s, w, j) < AttemptLimit(s, w, j)
    case Requeue(w, j, _) => InPhase(s, w, j, Failing)
    case GiveUp(w, j) => Holds(s, w, j)
    case Beat(w) => w in s.live
    case Sweep => true
    case MarkDead(_) => true
    case Release(w) => w in s.db.workers && (w in s.live ==> s.live[w].held == map[])
    case Deregister(w) => w in s.db.workers
    case Stop(w) => w in s.live
  }

  // ---- the worker's own bookkeeping ----

  function Enter(s: State, w: WorkerId, j: JobId, p: Phase): State
    requires Holds(s, w, j)
  {
    var k := s.live[w];
    s.(live := s.live[w := k.(held := k.held[j := k.held[j].(phase := p)])])
  }

  function Drop(s: State, w: WorkerId, j: JobId): State
    requires Holds(s, w, j)
  {
    var k := s.live[w];
    s.(live := s.live[w := k.(held := k.held - {j})])
  }

  function Lose(s: State, w: WorkerId, j: JobId): State
    requires Holds(s, w, j)
  {
    var k := s.live[w];
    s.(live := s.live[w := k.(held := k.held - {j}, lost := k.lost + {j})])
  }

  /** The gate: an unreadable answer counts as "not done". */
  function Gate(s: State, w: WorkerId, j: JobId, readOk: bool): Phase
    requires Holds(s, w, j)
  {
    var key := s.live[w].held[j].job.spec.key;
    if key.Some? && readOk && KeyCompleted(s.db, key.value) then Hit else Cleared
  }

  function Pick(s: State, w: WorkerId, batch: seq<JobId>): State
    requires w in s.live
  {
    var k := s.live[w];
    var db := ClaimRows(s.db, w, batch, s.now, k.lease);
    var taken := map j | j in batch && j in db.jobs :: Flight(db.jobs[j], Waiting);
    State(s.now, db, s.live[w := k.(held := k.held + taken)])
  }

  function Beaten(s: State, w: WorkerId): State
    requires w in s.live
  {
    var k := s.live[w];
    State(s.now, Heartbeat(s.db, w, s.now, k.lease), s.live[w := k.(renewed := s.now)])
  }

  ghost function Apply(s: State, step: Step): State
    requires Enabled(s, step)
  {
    match step
    case Advance(dt) => s.(now := s.now + dt)
    case PutQueue(q, queue) => s.(db := s.db.(queues := s.db.queues[q := queue]))
    case Submit(id, input) =>
      var r := CreateJob(s.db, id, input);
      if r.Ok? then s.(db := r.value) else s
    case SubmitBatch(ids, inputs) =>
      var r := CreateAll(s.db, ids, inputs);
      if r.Ok? then s.(db := r.value) else s
    case RetryDead(id) =>
      var r := RetryDlqJob(s.db, id, s.now);
      if r.Ok? then s.(db := r.value) else s
    case Register(w, lease, slots) =>
      State(s.now, RegisterWorker(s.db, w, s.now), s.live[w := Worker(lease, slots, s.now, map[], {})])
    case Claim(w, q, locked, batch) => Pick(s, w, batch)
    case Dispatch(w, j) => Enter(s, w, j, Dispatched)
    case CheckKey(w, j, readOk) => Enter(s, w, j, Gate(s, w, j, readOk))
    case MarkRunning(w, j) => Enter(s, w, j, Executing).(db := SetJobRunning(s.db, j))
    case Finish(w, j) => Drop(s, w, j).(db := CompleteJob(s.db, j, s.now))
    case Bury(w, j, reason) =>
      var r := MoveToDlq(s.db, j, s.now, reason, NextAttempt(s, w, j));
      if r.Ok? then Drop(s, w, j).(db := r.value) else Lose(s, w, j)
    case FailWrite(w, j, reason, landed) =>
      var next := Enter(s, w, j, Failing);
      if landed then next.(db := FailJob(s.db, j, s.now, reason, NextAttempt(s, w, j))) else next
    case Requeue(w, j, next) =>
      Drop(s, w, j).(db := RequeueForRetry(s.db, j, next, NextAttempt(s, w, j)))
    case GiveUp(w, j) => Lose(s, w, j)
    case Beat(w) => Beaten(s, w)
    case Sweep => s.(db := RequeueOrphanedJobs(s.db, s.now))
    case MarkDead(threshold) => s.(db := MarkDeadWorkers(s.db, s.now, threshold))
    case Release(w) => s.(db := ReleaseJobs(s.db, w))
    case Deregister(w) => s.(db := DeregisterWorker(s.db, w))
    case Stop(w) => s.(live := s.live - {w})
  }

  // ---- one row at a time ----

  /** What a step leaves of one existing row, column by column. */
  function RowAfter(s: State, step: Step, id: JobId): Job
    requires id in s.db.jobs
  {
    var r := s.db.jobs[id];
    match step
    case RetryDead(j) =>
      if j == id && r.status == DeadLetter
      then Job(r.spec, Queued, Some(s.now), 0, None, None, None, r.completedAt, None, None) else r
    case Claim(w, _, _, batch) =>
      if w in s.live && id in batch
      then Job(r.spec, Claimed, r.nextRunAt, r.attempts, Some(w), Some(s.now), Some(s.now + s.live[w].lease),
               r.completedAt, r.failedAt, r.error)
      else r
    case MarkRunning(_, j) =>
      if j == id
      then Job(r.spec, Running, r.nextRunAt, r.attempts, r.worker, r.claimedAt, r.lease,
               r.completedAt, r.failedAt, r.error)
      else r
    case Finish(_, j) =>
      if j == id
      then Job(r.spec, Completed, r.nextRunAt, r.attempts, r.worker, r.claimedAt, r.lease,
               Some(s.now), r.failedAt, r.error)
      else r
    case Bury(w, j, reason) =>
      if j == id && Holds(s, w, j) && id !in s.db.dlq
      then Job(r.spec, DeadLetter, r.nextRunAt, NextAttempt(s, w, j), r.worker, r.claimedAt, r.lease,
               r.completedAt, Some(s.now), Some(reason))
      else r
    case FailWrite(w, j, reason, landed) =>
      if j == id && Holds(s, w, j) && landed
      then Job(r.spec, Failed, r.nextRunAt, NextAttempt(s, w, j), r.worker, r.claimedAt, r.lease,
               r.completedAt, Some(s.now), Some(reason))
      else r
    case Requeue(w, j, next) =>
      if j == id && Holds(s, w, j)
      then Job(r.spec, Queued, Some(next), NextAttempt(s, w, j), None, None, None, r.completedAt, None, None) else r
    case Beat(w) =>
      if w in s.live && Active(r) && r.worker == Some(w)
      then Job(r.spec, r.status, r.nextRunAt, r.attempts, r.worker, r.claimedAt, Some(s.now + s.live[w].lease),
               r.completedAt, r.failedAt, r.error)
      else r
    case Sweep =>
      if Expired(r, s.now)
      then Job(r.spec, Queued, Some(s.now), r.attempts, None, None, None, r.completedAt, r.failedAt, r.error) else r
    case Release(w) =>
      if r.status == Claimed && r.worker == Some(w)
      then Job(r.spec, Queued, r.nextRunAt, r.attempts, None, None, None, r.completedAt, r.failedAt, r.error) else r
    case _ => r
  }

  /** Each statement writes the columns it should in the row it is about and leaves every other row alone. */
  lemma StepRow(s: State, step: Step, id: JobId)
    requires Enabled(s, step) && id in s.db.jobs
    ensures id in Apply(s, step).db.jobs && Apply(s, step).db.jobs[id] == RowAfter(s, step, id)
  {
    if step.MarkRunning? || step.Finish? || step.Bury? || step.FailWrite? || step.Requeue? {
      HeldRow(s, step, id);
    } else {
      OtherRow(s, step, id);
    }
  }

  lemma HeldRow(s: State, step: Step, id: JobId)
    requires Enabled(s, step) && id in s.db.jobs
    requires step.MarkRunning? || step.Finish? || step.Bury? || step.FailWrite? || step.Requeue?
    ensures id in Apply(s, step).db.jobs && Apply(s, step).db.jobs[id] == RowAfter(s, step, id)
  {
  }

  lemma OtherRow(s: State, step: Step, id: JobId)
    requires Enabled(s, step) && id in s.db.jobs
    requires !(step.MarkRunning? || step.Finish? || step.Bury? || step.FailWrite? || step.Requeue?)
    ensures id in Apply(s, step).db.jobs && Apply(s, step).db.jobs[id] == RowAfter(s, step, id)
  {
    if step.SubmitBatch? {
      CreateAllExtends(s.db, step.ids, step.inputs);
    }
  }

  /** A worker id that was used and is not live cannot come back by any step. */
  lemma StepKeepsGone(s: State, step: Step, w: WorkerId)
    requires Enabled(s, step) && w in s.db.workers
    ensures w in Apply(s, step).db.workers
    ensures w !in s.live ==> w !in Apply(s, step).live
  {
    if step.SubmitBatch? {
      CreateAllExtends(s.db, step.ids, step.inputs);
    }
  }

  /** The step by which a worker writes a job it holds, if it is one. */
  predicate WritesHeld(step: Step, w: WorkerId, j: JobId) {
    match step
    case MarkRunning(v, i) => v == w && i == j
    case Finish(v, i) => v == w && i == j
    case Bury(v, i, _) => v == w && i == j
    case FailWrite(v, i, _, _) => v == w && i == j
    case Requeue(v, i, _) => v == w && i == j
    case _ => false
  }

  // ---- runs ----

  /** `states[i]` is the state before `steps[i]`. */
  datatype Run = Run(states: seq<State>, steps: seq<Step>)

  ghost predicate Init(s: State) {
    s.db.jobs == map[] && s.db.dlq == map[] && s.db.workers == map[] && s.live == map[]
  }

  ghost predicate Next(s: State, step: Step, s': State) {
    Enabled(s, step) && s' == Apply(s, step)
  }

  ghost predicate StepAt(r: Run, i: nat)
    requires |r.states| == |r.steps| + 1 && i < |r.steps|
  {
    Next(r.states[i], r.steps[i], r.states[i + 1])
  }

  ghost predicate IsRun(r: Run) {
    && |r.states| == |r.steps| + 1
    && Init(r.states[0])
    && forall i | 0 <= i < |r.steps| :: StepAt(r, i)
  }

  /** Every live worker renewed its leases no longer ago than they last. */
  ghost predicate OnTime(s: State) {
    forall w | w in s.live :: s.now <= s.live[w].renewed + s.live[w].lease
  }

  /** The only timing hypothesis: whenever the reaper sweeps, live workers are on time. */
  ghost predicate Timely(r: Run) {
    |r.states| == |r.steps| + 1
    && forall i | 0 <= i < |r.steps| && r.steps[i].Sweep? :: OnTime(r.states[i])
  }

  // ---- from one state to another ----

  ghost predicate Linked(states: seq<State>, steps: seq<Step>, i: nat)
    requires |states| == |steps| + 1 && i < |steps|
  {
    Next(states[i], steps[i], states[i + 1]) && (steps[i].Sweep? ==> OnTime(states[i]))
  }

  ghost predicate Traces(states: seq<State>, s: State, steps: seq<Step>, end: State) {
    && |states| == |steps| + 1 && states[0] == s && states[|steps|] == end
    && forall i | 0 <= i < |steps| :: Linked(states, steps, i)
  }

  /** The steps lead from one state to the other, each enabled in its turn and each sweep timely. */
  ghost predicate Path(s: State, steps: seq<Step>, end: State) {
    exists states :: Traces(states, s, steps, end)
  }

  lemma PathAppend(s: State, first: seq<Step>, mid: State, second: seq<Step>, end: State)
    requires Path(s, first, mid) && Path(mid, second, end)
    ensures Path(s, first + second, end)
  {
    var a :| Traces(a, s, first, mid);
    var b :| Traces(b, mid, second, end);
    var c, steps := a + b[1..], first + second;
    forall i | 0 <= i < |steps| ensures Linked(c, steps, i) {
      if i < |first| {
        assert Linked(a, first, i);
      } else {
        assert Linked(b, second, i - |first|);
      }
    }
    assert Traces(c, s, steps, end);
  }
}
