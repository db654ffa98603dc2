/**
 What every step keeps, and with it mutual exclusion. The stores' writes name only the
 job's id, so all of this rests on one fact: a live worker that renews in time is never
 reaped, hence it is the only one writing its jobs.
 */
module Invariant {
  import opened Domain
  import opened Statements
  import opened Claiming
  import opened Protocol

  /** What holds of a row on its own, with its dead letter and its owner's registration. */
  predicate RowOk(t: Tables, id: JobId)
    requires id in t.jobs
  {
    var r := t.jobs[id];
    && (Active(r) ==> r.worker.Some? && r.claimedAt.Some? && r.lease.Some?)
    && r.nextRunAt.Some?
    && (r.status == Queued ==> Unowned(r))
    && (r.status == Scheduled ==> Unowned(r) && r.attempts == 0)
    && (r.status == Failed ==> r.worker.Some? && r.claimedAt.Some? && 1 <= r.attempts)
    && (Active(r) || r.status == Failed ==> r.nextRunAt.value <= r.claimedAt.value)
    && (r.worker.Some? ==> r.worker.value in t.workers)
    && 0 <= r.attempts && 1 <= r.spec.maxAttempts
    && (if r.status == DeadLetter then r.attempts == r.spec.maxAttempts else r.attempts < r.spec.maxAttempts)
    && r.spec.policy.None?
    && (r.completedAt.Some? <==> r.status == Completed)
    && (r.failedAt.Some? <==> r.status == Failed || r.status == DeadLetter)
    && (r.error.Some? <==> r.failedAt.Some?)
    && (r.status == DeadLetter <==> id in t.dlq)
    && (id in t.dlq ==> CopiesJob(t.dlq[id], r))
  }

  /** The dead letter is a copy of the job it stands for. */
  predicate CopiesJob(d: DeadLetterRow, r: Job) {
    && d.queue == r.spec.queue && d.payload == r.spec.payload && d.attemptsMade == r.attempts
    && r.failedAt == Some(d.failedAt) && r.error == Some(d.reason)
  }

  /**
   An active row was due and claimed in the past; that of a live worker outlives its last
   renewal and is accounted for.
   */
  predicate OwnerOk(s: State, id: JobId)
    requires id in s.db.jobs
  {
    var r := s.db.jobs[id];
    && (Active(r) && r.nextRunAt.Some? ==> r.nextRunAt.value <= s.now)
    && ((Active(r) || r.status == Failed) && r.claimedAt.Some? ==> r.claimedAt.value <= s.now)
    && (Active(r) && r.worker.Some? && r.worker.value in s.live ==>
          var k := s.live[r.worker.value];
          && r.lease.Some? && k.renewed + k.lease <= r.lease.value
          && (id in k.held || id in k.lost))
  }

  predicate StatusFits(status: Status, p: Phase) {
    match p
    case Executing => status == Running
    case Failing => status == Running || status == Failed
    case _ => status == Claimed
  }

  /** The worker's copy agrees with the row, and the row names that worker. */
  predicate FlightOk(s: State, w: WorkerId, j: JobId)
    requires Holds(s, w, j)
  {
    var f := s.live[w].held[j];
    && j in s.db.jobs
    && s.db.jobs[j].worker == Some(w)
    && s.db.jobs[j].spec == f.job.spec
    && StatusFits(s.db.jobs[j].status, f.phase)
    && s.db.jobs[j].attempts == f.job.attempts + (if s.db.jobs[j].status == Failed then 1 else 0)
    && (f.phase == Failing ==> f.job.attempts + 1 < f.job.spec.maxAttempts)
  }

  predicate WorkerOk(s: State, w: WorkerId)
    requires w in s.live
  {
    && w in s.db.workers
    && s.db.workers[w].lastSeen == s.live[w].renewed <= s.now
    && |Busy(s.live[w])| <= Max(s.live[w].slots, 0)
  }

  ghost predicate Inv(s: State) {
    && s.db.dlq.Keys <= s.db.jobs.Keys
    && (forall id | id in s.db.jobs :: RowOk(s.db, id))
    && (forall id | id in s.db.jobs :: OwnerOk(s, id))
    && (forall w | w in s.live :: WorkerOk(s, w))
    && (forall w, j | Holds(s, w, j) :: FlightOk(s, w, j))
  }

  // ---- the two shapes almost every step has ----

  /** One job's holder writes its row and moves its own bookkeeping for that job. */
  lemma HolderWrites(s: State, w: WorkerId, j: JobId, s': State)
    requires Inv(s) && Holds(s, w, j)
    requires s'.now == s.now && s'.db.workers == s.db.workers
    requires j in s'.db.jobs && s'.db.jobs == s.db.jobs[j := s'.db.jobs[j]]
    requires s'.db.dlq.Keys <= s'.db.jobs.Keys
    requires s'.db.dlq - {j} == s.db.dlq - {j}
    requires w in s'.live && s'.live == s.live[w := s'.live[w]]
    requires s'.live[w].renewed == s.live[w].renewed && s'.live[w].lease == s.live[w].lease
    requires s.live[w].lost <= s'.live[w].lost
    requires s'.live[w].held - {j} == s.live[w].held - {j}
    requires |Busy(s'.live[w])| <= Max(s'.live[w].slots, 0)
    requires RowOk(s'.db, j) && OwnerOk(s', j)
    requires Holds(s', w, j) ==> FlightOk(s', w, j)
    ensures Inv(s')
  {
    assert FlightOk(s, w, j);
    forall id | id in s'.db.jobs ensures RowOk(s'.db, id) && OwnerOk(s', id) {
      if id != j {
        assert RowOk(s.db, id) && OwnerOk(s, id);
        assert id in s'.db.dlq <==> id in (s'.db.dlq - {j});
        assert id in s.db.dlq <==> id in (s.db.dlq - {j});
        assert id in s'.live[w].held <==> id in (s'.live[w].held - {j});
        assert id in s.live[w].held <==> id in (s.live[w].held - {j});
      }
    }
    forall v | v in s'.live ensures WorkerOk(s', v) {
      assert WorkerOk(s, v);
    }
    forall v, i | Holds(s', v, i) ensures FlightOk(s', v, i) {
      if v == w && i != j {
        assert i in s'.live[w].held - {j};
        assert s'.live[w].held[i] == (s'.live[w].held - {j})[i] == s.live[w].held[i];
      }
      if v != w || i != j {
        assert FlightOk(s, v, i);
      }
    }
  }

  /** Many rows go back to the queue, none of them held by a live worker. */
  lemma RowsReturned(s: State, s': State)
    requires Inv(s)
    requires s' == s.(db := s'.db) && s'.db == s.db.(jobs := s'.db.jobs)
    requires s'.db.jobs.Keys == s.db.jobs.Keys
    requires forall id | id in s.db.jobs ::
      s'.db.jobs[id] == s.db.jobs[id] || (RowOk(s'.db, id) && s'.db.jobs[id].status == Queued)
    requires forall w, j | Holds(s, w, j) && j in s.db.jobs :: s'.db.jobs[j] == s.db.jobs[j]
    ensures Inv(s')
  {
    forall id | id in s'.db.jobs ensures RowOk(s'.db, id) && OwnerOk(s', id) {
      assert RowOk(s.db, id) && OwnerOk(s, id);
    }
    forall w | w in s'.live ensures WorkerOk(s', w) {
      assert WorkerOk(s, w);
    }
    forall w, j | Holds(s', w, j) ensures FlightOk(s', w, j) {
      assert Holds(s, w, j) && FlightOk(s, w, j);
    }
  }

  // ---- pool slots ----

  lemma BusyShrinks(k: Worker, k': Worker, j: JobId)
    requires k'.held == k.held - {j} && k'.slots == k.slots
    requires |Busy(k)| <= Max(k.slots, 0)
    ensures |Busy(k')| <= Max(k'.slots, 0)
  {
    CardMonotone(Busy(k'), Busy(k));
  }

  lemma BusyKept(k: Worker, k': Worker, j: JobId)
    requires j in k.held && k.held[j].phase != Waiting && k'.slots == k.slots
    requires j in k'.held && k'.held == k.held[j := k'.held[j]] && k'.held[j].phase != Waiting
    requires |Busy(k)| <= Max(k.slots, 0)
    ensures |Busy(k')| <= Max(k'.slots, 0)
  {
    assert Busy(k') == Busy(k);
  }

  // ---- one lemma a step ----

  lemma EnterKeepsInv(s: State, w: WorkerId, j: JobId, p: Phase)
    requires Inv(s) && Holds(s, w, j)
    requires p != Failing && p != Waiting
    requires j in s.db.jobs && StatusFits(s.db.jobs[j].status, p)
    requires s.live[w].held[j].phase == Waiting ==> |Busy(s.live[w])| < s.live[w].slots
    ensures Inv(Enter(s, w, j, p))
  {
    var s' := Enter(s, w, j, p);
    var k, k' := s.live[w], s'.live[w];
    assert FlightOk(s, w, j) && RowOk(s.db, j) && OwnerOk(s, j) && WorkerOk(s, w);
    if k.held[j].phase == Waiting {
      assert Busy(k') == Busy(k) + {j};
    } else {
      BusyKept(k, k', j);
    }
    assert k'.held - {j} == k.held - {j};
    HolderWrites(s, w, j, s');
  }

  lemma MarkRunningKeepsInv(s: State, w: WorkerId, j: JobId)
    requires Inv(s) && Enabled(s, MarkRunning(w, j))
    ensures Inv(Apply(s, MarkRunning(w, j)))
  {
    var s' := Apply(s, MarkRunning(w, j));
    assert FlightOk(s, w, j) && RowOk(s.db, j) && OwnerOk(s, j) && WorkerOk(s, w);
    BusyKept(s.live[w], s'.live[w], j);
    assert s'.live[w].held - {j} == s.live[w].held - {j};
    HolderWrites(s, w, j, s');
  }

  lemma FinishKeepsInv(s: State, w: WorkerId, j: JobId)
    requires Inv(s) && Enabled(s, Finish(w, j))
    ensures Inv(Apply(s, Finish(w, j)))
  {
    var s' := Apply(s, Finish(w, j));
    assert FlightOk(s, w, j) && RowOk(s.db, j) && OwnerOk(s, j) && WorkerOk(s, w);
    BusyShrinks(s.live[w], s'.live[w], j);
    HolderWrites(s, w, j, s');
  }

  lemma BuryKeepsInv(s: State, w: WorkerId, j: JobId, reason: string)
    requires Inv(s) && Enabled(s, Bury(w, j, reason))
    ensures Inv(Apply(s, Bury(w, j, reason)))
    ensures MoveToDlq(s.db, j, s.now, reason, NextAttempt(s, w, j)).Ok?
  {
    var s' := Apply(s, Bury(w, j, reason));
    assert FlightOk(s, w, j) && RowOk(s.db, j) && OwnerOk(s, j) && WorkerOk(s, w);
    BusyShrinks(s.live[w], s'.live[w], j);
    assert s'.db.dlq - {j} == s.db.dlq - {j};
    HolderWrites(s, w, j, s');
  }

  lemma FailWriteKeepsInv(s: State, w: WorkerId, j: JobId, reason: string, landed: bool)
    requires Inv(s) && Enabled(s, FailWrite(w, j, reason, landed))
    ensures Inv(Apply(s, FailWrite(w, j, reason, landed)))
  {
    var s' := Apply(s, FailWrite(w, j, reason, landed));
    assert FlightOk(s, w, j) && RowOk(s.db, j) && OwnerOk(s, j) && WorkerOk(s, w);
    BusyKept(s.live[w], s'.live[w], j);
    assert s'.live[w].held - {j} == s.live[w].held - {j};
    HolderWrites(s, w, j, s');
  }

  lemma RequeueKeepsInv(s: State, w: WorkerId, j: JobId, next: Time)
    requires Inv(s) && Enabled(s, Requeue(w, j, next))
    ensures Inv(Apply(s, Requeue(w, j, next)))
  {
    var s' := Apply(s, Requeue(w, j, next));
    assert FlightOk(s, w, j) && RowOk(s.db, j) && OwnerOk(s, j) && WorkerOk(s, w);
    BusyShrinks(s.live[w], s'.live[w], j);
    HolderWrites(s, w, j, s');
  }

  lemma GiveUpKeepsInv(s: State, w: WorkerId, j: JobId)
    requires Inv(s) && Enabled(s, GiveUp(w, j))
    ensures Inv(Apply(s, GiveUp(w, j)))
  {
    var s' := Apply(s, GiveUp(w, j));
    assert FlightOk(s, w, j) && RowOk(s.db, j) && OwnerOk(s, j) && WorkerOk(s, w);
    BusyShrinks(s.live[w], s'.live[w], j);
    HolderWrites(s, w, j, s');
  }

  predicate FreeAndDue(s: State, id: JobId) {
    && id in s.db.jobs && s.db.jobs[id].status == Queued
    && s.db.jobs[id].nextRunAt.Some? && s.db.jobs[id].nextRunAt.value <= s.now
  }

  /** A claim takes queued rows only, and no live worker holds a queued row. */
  lemma ClaimTakesFree(s: State, w: WorkerId, q: QueueId, locked: set<JobId>, batch: seq<JobId>)
    requires Inv(s) && Enabled(s, Claim(w, q, locked, batch))
    ensures forall id | id in batch :: FreeAndDue(s, id)
    ensures forall v, j | Holds(s, v, j) :: j !in batch
  {
    forall v, j | Holds(s, v, j) ensures j !in batch {
      assert FlightOk(s, v, j);
    }
  }

  lemma ClaimKeepsRows(s: State, w: WorkerId, batch: seq<JobId>)
    requires Inv(s) && w in s.live
    requires forall id | id in batch :: FreeAndDue(s, id)
    ensures var s' := Pick(s, w, batch);
            forall id | id in s'.db.jobs :: RowOk(s'.db, id) && OwnerOk(s', id)
  {
    var s' := Pick(s, w, batch);
    assert WorkerOk(s, w);
    forall id | id in s'.db.jobs ensures RowOk(s'.db, id) && OwnerOk(s', id) {
      assert RowOk(s.db, id) && OwnerOk(s, id);
    }
  }

  lemma ClaimKeepsFlights(s: State, w: WorkerId, batch: seq<JobId>)
    requires Inv(s) && w in s.live
    requires forall id | id in batch :: FreeAndDue(s, id)
    requires forall v, j | Holds(s, v, j) :: j !in batch
    ensures var s' := Pick(s, w, batch);
            && (forall v | v in s'.live :: WorkerOk(s', v))
            && (forall v, j | Holds(s', v, j) :: FlightOk(s', v, j))
  {
    var s' := Pick(s, w, batch);
    assert Busy(s'.live[w]) == Busy(s.live[w]) by {
      forall j ensures j in Busy(s'.live[w]) <==> j in Busy(s.live[w]) {
        assert Holds(s, w, j) ==> j !in batch;
      }
    }
    forall v | v in s'.live ensures WorkerOk(s', v) {
      assert WorkerOk(s, v);
    }
    forall v, j | Holds(s', v, j) ensures FlightOk(s', v, j) {
      if j !in batch || v != w {
        assert Holds(s, v, j) && FlightOk(s, v, j);
      }
    }
  }

  lemma ClaimKeepsInv(s: State, w: WorkerId, q: QueueId, locked: set<JobId>, batch: seq<JobId>)
    requires Inv(s) && Enabled(s, Claim(w, q, locked, batch))
    ensures Inv(Apply(s, Claim(w, q, locked, batch)))
  {
    ClaimTakesFree(s, w, q, locked, batch);
    ClaimKeepsRows(s, w, batch);
    ClaimKeepsFlights(s, w, batch);
  }

  lemma BeatKeepsRows(s: State, w: WorkerId)
    requires Inv(s) && w in s.live
    ensures var s' := Beaten(s, w);
            forall id | id in s'.db.jobs :: RowOk(s'.db, id) && OwnerOk(s', id)
  {
    var s' := Beaten(s, w);
    assert WorkerOk(s, w);
    forall id | id in s'.db.jobs ensures RowOk(s'.db, id) && OwnerOk(s', id) {
      assert RowOk(s.db, id) && OwnerOk(s, id);
    }
  }

  lemma BeatKeepsInv(s: State, w: WorkerId)
    requires Inv(s) && w in s.live
    ensures Inv(Beaten(s, w))
  {
    var s' := Beaten(s, w);
    BeatKeepsRows(s, w);
    assert Busy(s'.live[w]) == Busy(s.live[w]);
    forall v | v in s'.live ensures WorkerOk(s', v) {
      assert WorkerOk(s, v) && WorkerOk(s, w);
    }
    forall v, j | Holds(s', v, j) ensures FlightOk(s', v, j) {
      assert Holds(s, v, j) && FlightOk(s, v, j);
    }
  }

  lemma RegisterKeepsInv(s: State, w: WorkerId, lease: Time, slots: int)
    requires Inv(s) && Enabled(s, Register(w, lease, slots))
    ensures Inv(Apply(s, Register(w, lease, slots)))
  {
    var s' := Apply(s, Register(w, lease, slots));
    assert Busy(s'.live[w]) == {};
    forall id | id in s'.db.jobs ensures RowOk(s'.db, id) && OwnerOk(s', id) {
      assert RowOk(s.db, id) && OwnerOk(s, id);
    }
    forall v | v in s'.live ensures WorkerOk(s', v) {
      assert v != w ==> WorkerOk(s, v);
    }
    forall v, j | Holds(s', v, j) ensures FlightOk(s', v, j) {
      assert Holds(s, v, j) && FlightOk(s, v, j);
    }
  }

  lemma CreateKeepsInv(s: State, id: JobId, input: JobInput)
    requires Inv(s) && ValidInput(input)
    ensures var r := CreateJob(s.db, id, input);
            r.Ok? ==> Inv(s.(db := r.value)) && s.db.jobs.Keys <= r.value.jobs.Keys && r.value.queues == s.db.queues
  {
    var r := CreateJob(s.db, id, input);
    if r.Ok? && r.value != s.db {
      var s' := s.(db := r.value);
      forall i | i in s'.db.jobs ensures RowOk(s'.db, i) && OwnerOk(s', i) {
        if i != id {
          assert RowOk(s.db, i) && OwnerOk(s, i);
        }
      }
      forall v | v in s'.live ensures WorkerOk(s', v) {
        assert WorkerOk(s, v);
      }
      forall v, j | Holds(s', v, j) ensures FlightOk(s', v, j) {
        assert Holds(s, v, j) && FlightOk(s, v, j);
      }
    }
  }

  lemma {:induction false} CreateAllKeepsInv(s: State, ids: seq<JobId>, inputs: seq<JobInput>)
    requires Inv(s) && |ids| == |inputs|
    requires forall k | 0 <= k < |inputs| :: ValidInput(inputs[k])
    ensures var r := CreateAll(s.db, ids, inputs); r.Ok? ==> Inv(s.(db := r.value))
    decreases |inputs|
  {
    if inputs != [] {
      var n := |inputs| - 1;
      CreateAllKeepsInv(s, ids[..n], inputs[..n]);
      var first := CreateAll(s.db, ids[..n], inputs[..n]);
      if first.Ok? {
        CreateKeepsInv(s.(db := first.value), ids[n], inputs[n]);
      }
    }
  }

  lemma RetryKeepsInv(s: State, id: JobId)
    requires Inv(s)
    ensures Inv(Apply(s, RetryDead(id)))
  {
    var s' := Apply(s, RetryDead(id));
    if s' != s {
      assert RowOk(s.db, id);
      forall i | i in s'.db.jobs ensures RowOk(s'.db, i) && OwnerOk(s', i) {
        assert RowOk(s.db, i) && OwnerOk(s, i);
      }
      forall v | v in s'.live ensures WorkerOk(s', v) {
        assert WorkerOk(s, v);
      }
      forall v, j | Holds(s', v, j) ensures FlightOk(s', v, j) {
        assert Holds(s, v, j) && FlightOk(s, v, j);
      }
    }
  }

  /** No lease of a live, punctual worker has run out. */
  lemma OnTimeNotExpired(s: State, w: WorkerId, j: JobId)
    requires Inv(s) && Holds(s, w, j)
    requires s.now <= s.live[w].renewed + s.live[w].lease
    ensures j in s.db.jobs && !Expired(s.db.jobs[j], s.now)
  {
    assert FlightOk(s, w, j) && OwnerOk(s, j);
  }

  lemma SweepKeepsInv(s: State)
    requires Inv(s) && OnTime(s)
    ensures Inv(Apply(s, Sweep))
  {
    var s' := Apply(s, Sweep);
    forall w, j | Holds(s, w, j) && j in s.db.jobs ensures s'.db.jobs[j] == s.db.jobs[j] {
      OnTimeNotExpired(s, w, j);
    }
    forall id | id in s.db.jobs
      ensures s'.db.jobs[id] == s.db.jobs[id] || (RowOk(s'.db, id) && s'.db.jobs[id].status == Queued)
    {
      assert RowOk(s.db, id);
    }
    RowsReturned(s, s');
  }

  lemma ReleaseKeepsInv(s: State, w: WorkerId)
    requires Inv(s) && Enabled(s, Release(w))
    ensures Inv(Apply(s, Release(w)))
  {
    var s' := Apply(s, Release(w));
    forall v, j | Holds(s, v, j) && j in s.db.jobs ensures s'.db.jobs[j] == s.db.jobs[j] {
      assert FlightOk(s, v, j);
    }
    forall id | id in s.db.jobs
      ensures s'.db.jobs[id] == s.db.jobs[id] || (RowOk(s'.db, id) && s'.db.jobs[id].status == Queued)
    {
      assert RowOk(s.db, id);
    }
    RowsReturned(s, s');
  }

  /** Steps that touch neither a job nor a live worker's holdings. */
  lemma QuietKeepsInv(s: State, step: Step)
    requires Inv(s) && Enabled(s, step)
    requires step.Advance? || step.PutQueue? || step.MarkDead? || step.Deregister? || step.Stop?
    ensures Inv(Apply(s, step))
  {
    var s' := Apply(s, step);
    forall id | id in s'.db.jobs ensures RowOk(s'.db, id) && OwnerOk(s', id) {
      assert RowOk(s.db, id) && OwnerOk(s, id);
    }
    forall v | v in s'.live ensures WorkerOk(s', v) {
      assert WorkerOk(s, v);
    }
    forall v, j | Holds(s', v, j) ensures FlightOk(s', v, j) {
      assert Holds(s, v, j) && FlightOk(s, v, j);
    }
  }

  lemma StepKeepsInv(s: State, step: Step)
    requires Inv(s) && Enabled(s, step)
    requires step.Sweep? ==> OnTime(s)
    ensures Inv(Apply(s, step))
  {
    match step
    case Submit(id, input) => CreateKeepsInv(s, id, input);
    case SubmitBatch(ids, inputs) => CreateAllKeepsInv(s, ids, inputs);
    case RetryDead(id) => RetryKeepsInv(s, id);
    case Register(w, lease, slots) => RegisterKeepsInv(s, w, lease, slots);
    case Claim(w, q, locked, batch) => ClaimKeepsInv(s, w, q, locked, batch);
    case Dispatch(w, j) =>
      assert FlightOk(s, w, j);
      EnterKeepsInv(s, w, j, Dispatched);
    case CheckKey(w, j, readOk) =>
      assert FlightOk(s, w, j);
      EnterKeepsInv(s, w, j, Gate(s, w, j, readOk));
    case MarkRunning(w, j) => MarkRunningKeepsInv(s, w, j);
    case Finish(w, j) => FinishKeepsInv(s, w, j);
    case Bury(w, j, reason) => BuryKeepsInv(s, w, j, reason);
    case FailWrite(w, j, reason, landed) => FailWriteKeepsInv(s, w, j, reason, landed);
    case Requeue(w, j, next) => RequeueKeepsInv(s, w, j, next);
    case GiveUp(w, j) => GiveUpKeepsInv(s, w, j);
    case Beat(w) => BeatKeepsInv(s, w);
    case Sweep => SweepKeepsInv(s);
    case Release(w) => ReleaseKeepsInv(s, w);
    case _ => QuietKeepsInv(s, step);
  }

  /** The invariant holds in every state of every timely run. */
  lemma {:induction false} RunKeepsInv(r: Run, i: nat)
    requires IsRun(r) && Timely(r) && i < |r.states|
    ensures Inv(r.states[i])
  {
    if i > 0 {
      RunKeepsInv(r, i - 1);
      assert StepAt(r, i - 1);
      StepKeepsInv(r.states[i - 1], r.steps[i - 1]);
    }
  }

  /** Whoever writes a job holds it, so the row agrees with what the writer knows. */
  lemma WriterKnowsRow(s: State, step: Step, id: JobId)
    requires Inv(s) && Enabled(s, step)
    ensures forall w | WritesHeld(step, w, id) :: Holds(s, w, id) && FlightOk(s, w, id)
  {
  }

  lemma OneStep(s: State, step: Step) returns (end: State)
    requires Inv(s) && Enabled(s, step) && (step.Sweep? ==> OnTime(s))
    ensures Path(s, [step], end) && end == Apply(s, step) && Inv(end)
  {
    end := Apply(s, step);
    StepKeepsInv(s, step);
    assert Linked([s, end], [step], 0);
    assert Traces([s, end], s, [step], end);
  }
}
