/**
 What holds in every run, however late the renewals are: the submitted columns, the
 worker's registration and pool, and that a worker's copy is of the job it names.
 */
module Untimed {
  import opened Domain
  import opened Statements
  import opened Claiming
  import opened Protocol
  import opened Invariant

  /** The worker's copy has what was submitted, and the job was not a scheduled one. */
  predicate CopyOk(s: State, w: WorkerId, j: JobId)
    requires Holds(s, w, j)
  {
    && j in s.db.jobs && s.db.jobs[j].status != Scheduled
    && s.live[w].held[j].job.spec == s.db.jobs[j].spec
  }

  ghost predicate WorkersOk(s: State) {
    forall w | w in s.live :: WorkerOk(s, w)
  }

  ghost predicate CopiesOk(s: State) {
    forall w, j | Holds(s, w, j) :: CopyOk(s, w, j)
  }

  predicate NoPolicies(t: Tables) {
    forall id | id in t.jobs :: t.jobs[id].spec.policy.None?
  }

  ghost predicate Always(s: State) {
    NoPolicies(s.db) && WorkersOk(s) && CopiesOk(s)
  }

  // ---- rows ----

  /** No statement edits what was submitted. */
  lemma StepKeepsSpec(s: State, step: Step, id: JobId)
    requires Enabled(s, step) && id in s.db.jobs
    ensures id in Apply(s, step).db.jobs && Apply(s, step).db.jobs[id].spec == s.db.jobs[id].spec
  {
    StepRow(s, step, id);
  }

  /** No step promotes a scheduled row or schedules another one. */
  lemma ScheduledRow(s: State, step: Step, id: JobId)
    requires CopiesOk(s) && Enabled(s, step) && id in s.db.jobs
    ensures RowAfter(s, step, id).status == Scheduled <==> s.db.jobs[id].status == Scheduled
    ensures s.db.jobs[id].status == Scheduled ==> RowAfter(s, step, id) == s.db.jobs[id]
  {
    WriterHolds(s, step, id);
  }

  lemma WriterHolds(s: State, step: Step, id: JobId)
    requires CopiesOk(s) && Enabled(s, step)
    ensures forall w | WritesHeld(step, w, id) :: Holds(s, w, id) && CopyOk(s, w, id)
  {
  }

  lemma StepAddsNoPolicy(s: State, step: Step)
    requires NoPolicies(s.db) && Enabled(s, step)
    ensures NoPolicies(Apply(s, step).db)
  {
    var s' := Apply(s, step);
    forall id | id in s'.db.jobs ensures s'.db.jobs[id].spec.policy.None? {
      if id in s.db.jobs {
        StepKeepsSpec(s, step, id);
      } else if step.SubmitBatch? {
        CreateAllExtends(s.db, step.ids, step.inputs);
      }
    }
  }

  // ---- the worker's own bookkeeping ----

  lemma StepKeepsWorkers(s: State, step: Step)
    requires WorkersOk(s) && Enabled(s, step)
    ensures WorkersOk(Apply(s, step))
  {
    var s' := Apply(s, step);
    forall v | v in s'.live ensures WorkerOk(s', v) {
      if v in s.live {
        assert WorkerOk(s, v);
        StepKeepsWorker(s, step, v);
      } else {
        assert step.Register? && Busy(s'.live[v]) == {};
      }
    }
  }

  lemma StepKeepsWorker(s: State, step: Step, v: WorkerId)
    requires Enabled(s, step) && v in s.live && WorkerOk(s, v) && v in Apply(s, step).live
    ensures WorkerOk(Apply(s, step), v)
  {
    var k, k' := s.live[v], Apply(s, step).live[v];
    PoolKept(s, step, v);
    if step.SubmitBatch? {
      CreateAllExtends(s.db, step.ids, step.inputs);
    }
  }

  /** Only a dispatch takes a slot, and it finds one free. */
  lemma PoolKept(s: State, step: Step, v: WorkerId)
    requires Enabled(s, step) && v in s.live && v in s.db.workers && v in Apply(s, step).live
    requires |Busy(s.live[v])| <= Max(s.live[v].slots, 0)
    ensures |Busy(Apply(s, step).live[v])| <= Max(Apply(s, step).live[v].slots, 0)
  {
    var k, k' := s.live[v], Apply(s, step).live[v];
    match step
    case Dispatch(w, j) =>
      if w == v {
        assert Busy(k') == Busy(k) + {j};
      }
    case Claim(w, _, _, batch) => assert Busy(k') == Busy(k);
    case CheckKey(w, j, _) => SlotKept(s, step, w, j, v);
    case MarkRunning(w, j) => SlotKept(s, step, w, j, v);
    case FailWrite(w, j, _, _) => SlotKept(s, step, w, j, v);
    case Finish(w, j) => SlotFreed(s, step, w, j, v);
    case Bury(w, j, _) => SlotFreed(s, step, w, j, v);
    case Requeue(w, j, _) => SlotFreed(s, step, w, j, v);
    case GiveUp(w, j) => SlotFreed(s, step, w, j, v);
    case Beat(w) => assert Busy(k') == Busy(k);
    case _ =>
  }

  lemma SlotKept(s: State, step: Step, w: WorkerId, j: JobId, v: WorkerId)
    requires Enabled(s, step) && v in s.live && |Busy(s.live[v])| <= Max(s.live[v].slots, 0)
    requires step.CheckKey? || step.MarkRunning? || step.FailWrite?
    requires step.w == w && step.j == j
    ensures v in Apply(s, step).live
    ensures |Busy(Apply(s, step).live[v])| <= Max(Apply(s, step).live[v].slots, 0)
  {
    if w == v {
      BusyKept(s.live[v], Apply(s, step).live[v], j);
    }
  }

  lemma SlotFreed(s: State, step: Step, w: WorkerId, j: JobId, v: WorkerId)
    requires Enabled(s, step) && v in s.live && |Busy(s.live[v])| <= Max(s.live[v].slots, 0)
    requires step.Finish? || step.Bury? || step.Requeue? || step.GiveUp?
    requires step.w == w && step.j == j
    ensures v in Apply(s, step).live
    ensures |Busy(Apply(s, step).live[v])| <= Max(Apply(s, step).live[v].slots, 0)
  {
    if w == v {
      BusyShrinks(s.live[v], Apply(s, step).live[v], j);
    }
  }

  /** A flight that is not new carries the copy it always carried; a new one is a fresh claim. */
  lemma FlightOrigin(s: State, step: Step, w: WorkerId, j: JobId)
    requires Enabled(s, step) && Holds(Apply(s, step), w, j)
    ensures (Holds(s, w, j) && Apply(s, step).live[w].held[j].job == s.live[w].held[j].job)
         || (step.Claim? && step.w == w && j in step.batch && j in s.db.jobs && s.db.jobs[j].status == Queued
             && Apply(s, step).live[w].held[j].job.spec == s.db.jobs[j].spec)
  {
  }

  lemma StepKeepsCopies(s: State, step: Step)
    requires CopiesOk(s) && Enabled(s, step)
    ensures CopiesOk(Apply(s, step))
  {
    var s' := Apply(s, step);
    forall w, j | Holds(s', w, j) ensures CopyOk(s', w, j) {
      FlightOrigin(s, step, w, j);
      assert Holds(s, w, j) ==> CopyOk(s, w, j);
      StepRow(s, step, j);
      StepKeepsSpec(s, step, j);
      ScheduledRow(s, step, j);
    }
  }

  lemma StepKeepsAlways(s: State, step: Step)
    requires Always(s) && Enabled(s, step)
    ensures Always(Apply(s, step))
  {
    StepAddsNoPolicy(s, step);
    StepKeepsWorkers(s, step);
    StepKeepsCopies(s, step);
  }

  /** It holds in every state of every run, timely or not. */
  lemma {:induction false} RunKeepsAlways(r: Run, i: nat)
    requires IsRun(r) && i < |r.states|
    ensures Always(r.states[i])
  {
    if i > 0 {
      RunKeepsAlways(r, i - 1);
      assert StepAt(r, i - 1);
      StepKeepsAlways(r.states[i - 1], r.steps[i - 1]);
    }
  }

  /** A worker never has more jobs in its pool than slots. */
  lemma PoolBounded(r: Run, i: nat, w: WorkerId)
    requires IsRun(r) && i < |r.states| && w in r.states[i].live
    ensures |Busy(r.states[i].live[w])| <= Max(r.states[i].live[w].slots, 0)
  {
    RunKeepsAlways(r, i);
    assert WorkerOk(r.states[i], w);
  }

  /** Submitted rows stay, with what was submitted. */
  lemma {:induction false} SpecForever(r: Run, i: nat, k: nat, id: JobId)
    requires IsRun(r) && i <= k < |r.states| && id in r.states[i].db.jobs
    ensures id in r.states[k].db.jobs && r.states[k].db.jobs[id].spec == r.states[i].db.jobs[id].spec
    decreases k
  {
    if i < k {
      SpecForever(r, i, k - 1, id);
      assert StepAt(r, k - 1);
      StepKeepsSpec(r.states[k - 1], r.steps[k - 1], id);
    }
  }

  // ---- what was asked for ----

  /** The job was asked for by this step, alone or in a batch. */
  predicate AskedFor(step: Step, input: JobInput) {
    match step
    case Submit(_, one) => one == input
    case SubmitBatch(_, inputs) => input in inputs
    case _ => false
  }

  /** The columns no statement changes are those of the request, and there is no retry policy. */
  predicate Carries(job: Job, input: JobInput) {
    job.spec == JobSpec(input.queue, input.priority, input.payload, input.key, input.maxAttempts, None,
                        input.cron, input.batch)
  }

  /** A new row is that of a request of the step, with no attempt made and no owner. */
  lemma NewRowIsRequested(s: State, step: Step, id: JobId) returns (input: JobInput)
    requires Enabled(s, step) && id !in s.db.jobs && id in Apply(s, step).db.jobs
    ensures AskedFor(step, input) && ValidInput(input)
    ensures var row := Apply(s, step).db.jobs[id];
            && Carries(row, input) && row.status == input.status && row.nextRunAt == input.nextRunAt
            && row.attempts == 0 && Unowned(row) && row.completedAt.None? && row.failedAt.None? && row.error.None?
  {
    if step.SubmitBatch? {
      CreateAllExtends(s.db, step.ids, step.inputs);
      var k :| 0 <= k < |step.inputs| && Apply(s, step).db.jobs[id] == NewRow(step.inputs[k]);
      input := step.inputs[k];
    } else {
      input := step.input;
    }
  }

  /**
   Whatever happens later, the row carries what was asked for, and so does the copy every
   worker executes from.
   */
  lemma SubmissionHonoured(r: Run, m: nat, k: nat, id: JobId) returns (input: JobInput)
    requires IsRun(r) && m < k < |r.states|
    requires id !in r.states[m].db.jobs && id in r.states[m + 1].db.jobs
    ensures AskedFor(r.steps[m], input) && ValidInput(input)
    ensures r.states[m + 1].db.jobs[id].status == input.status
    ensures r.states[m + 1].db.jobs[id].nextRunAt == input.nextRunAt
    ensures id in r.states[k].db.jobs && Carries(r.states[k].db.jobs[id], input)
    ensures forall w | Holds(r.states[k], w, id) :: Carries(r.states[k].live[w].held[id].job, input)
  {
    assert StepAt(r, m);
    input := NewRowIsRequested(r.states[m], r.steps[m], id);
    SpecForever(r, m + 1, k, id);
    RunKeepsAlways(r, k);
    forall w | Holds(r.states[k], w, id) ensures Carries(r.states[k].live[w].held[id].job, input) {
      assert CopyOk(r.states[k], w, id);
    }
  }

  /** Nothing promotes a scheduled job: it is never claimed in any run. */
  lemma {:induction false} ScheduledNeverRuns(r: Run, i: nat, k: nat, id: JobId)
    requires IsRun(r) && i <= k < |r.states|
    requires id in r.states[i].db.jobs && r.states[i].db.jobs[id].status == Scheduled
    ensures id in r.states[k].db.jobs && r.states[k].db.jobs[id] == r.states[i].db.jobs[id]
    ensures forall w :: !Holds(r.states[k], w, id)
    decreases k
  {
    RunKeepsAlways(r, k);
    if i < k {
      ScheduledNeverRuns(r, i, k - 1, id);
      RunKeepsAlways(r, k - 1);
      assert StepAt(r, k - 1);
      StepRow(r.states[k - 1], r.steps[k - 1], id);
      ScheduledRow(r.states[k - 1], r.steps[k - 1], id);
    }
  }

  /** No insert writes a retry policy, so every job keeps none and retries on the defaults. */
  lemma PolicyNeverSet(r: Run, i: nat, id: JobId)
    requires IsRun(r) && i < |r.states| && id in r.states[i].db.jobs
    ensures r.states[i].db.jobs[id].spec.policy.None?
  {
    RunKeepsAlways(r, i);
  }

  // ---- the workers' table ----

  /** What a step leaves of one worker's row. */
  function WorkerAfter(s: State, step: Step, w: WorkerId): WorkerRow
    requires w in s.db.workers
  {
    var row := s.db.workers[w];
    match step
    case Beat(v) => if v == w then WorkerRow(row.online, s.now) else row
    case MarkDead(threshold) => WorkerRow(row.online && s.now - threshold <= row.lastSeen, row.lastSeen)
    case Deregister(v) => if v == w then WorkerRow(false, row.lastSeen) else row
    case _ => row
  }

  /** Workers are never deleted, and only a registration adds one. */
  lemma StepWorker(s: State, step: Step, w: WorkerId)
    requires Enabled(s, step)
    ensures w in s.db.workers ==>
              w in Apply(s, step).db.workers && Apply(s, step).db.workers[w] == WorkerAfter(s, step, w)
    ensures w !in s.db.workers && w in Apply(s, step).db.workers ==>
              step.Register? && step.w == w && Apply(s, step).db.workers[w] == WorkerRow(true, s.now)
  {
    if step.SubmitBatch? {
      CreateAllExtends(s.db, step.ids, step.inputs);
    }
  }

  /** A worker once marked offline stays so, whatever heartbeats still come from it. */
  lemma {:induction false} OfflineForever(r: Run, i: nat, k: nat, w: WorkerId)
    requires IsRun(r) && i <= k < |r.states|
    requires w in r.states[i].db.workers && !r.states[i].db.workers[w].online
    ensures w in r.states[k].db.workers && !r.states[k].db.workers[w].online
    decreases k
  {
    if i < k {
      OfflineForever(r, i, k - 1, w);
      assert StepAt(r, k - 1);
      StepWorker(r.states[k - 1], r.steps[k - 1], w);
    }
  }

  /** A punctual worker is not marked offline by a threshold no shorter than its lease. */
  lemma PunctualStaysOnline(r: Run, i: nat, w: WorkerId)
    requires IsRun(r) && i < |r.steps| && r.steps[i].MarkDead?
    requires w in r.states[i].live && r.states[i].now <= r.states[i].live[w].renewed + r.states[i].live[w].lease
    requires r.states[i].live[w].lease <= r.steps[i].threshold
    ensures w in r.states[i].db.workers && w in r.states[i + 1].db.workers
    ensures r.states[i + 1].db.workers[w] == r.states[i].db.workers[w]
  {
    RunKeepsAlways(r, i);
    assert WorkerOk(r.states[i], w);
    assert StepAt(r, i);
  }
}
