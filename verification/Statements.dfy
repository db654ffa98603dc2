/**
 Each SQL statement, or transaction, of the job, worker and reaper stores as a function
 on the tables. `UPDATE ... WHERE id = $1` changes nothing when the row is missing, and
 none of these updates looks at the row's owner or status unless its WHERE clause does.
 */
module Statements {
  import opened Domain

  // ---- the row each SET clause writes ----

  function RunningRow(r: Job): Job {
    r.(status := Running)
  }

  function CompletedRow(r: Job, now: Time): Job {
    r.(status := Completed, completedAt := Some(now))
  }

  function FailedRow(r: Job, now: Time, reason: string, attempts: int): Job {
    r.(status := Failed, failedAt := Some(now), error := Some(reason), attempts := attempts)
  }

  function RequeuedRow(r: Job, next: Time, attempts: int): Job {
    r.(status := Queued, nextRunAt := Some(next), attempts := attempts,
    worker := None, claimedAt := None, lease := None, failedAt := None, error := None)
  }

  function DeadRow(r: Job, now: Time, reason: string, attempts: int): Job {
    r.(status := DeadLetter, attempts := attempts, failedAt := Some(now), error := Some(reason))
  }

  function RetriedRow(r: Job, now: Time): Job {
    r.(status := Queued, attempts := 0, nextRunAt := Some(now), failedAt := None, error := None,
    worker := None, claimedAt := None, lease := None)
  }

  function ClaimedRow(r: Job, w: WorkerId, now: Time, lease: Time): Job {
    r.(status := Claimed, worker := Some(w), claimedAt := Some(now), lease := Some(now + lease))
  }

  function RenewedRow(r: Job, w: WorkerId, now: Time, lease: Time): Job {
    if r.worker == Some(w) && Active(r) then r.(lease := Some(now + lease)) else r
  }

  function ReleasedRow(r: Job, w: WorkerId): Job {
    if r.worker == Some(w) && r.status == Claimed
    then r.(status := Queued, worker := None, claimedAt := None, lease := None)
    else r
  }

  function ReapedRow(r: Job, now: Time): Job {
    if Expired(r, now)
    then r.(status := Queued, worker := None, claimedAt := None, lease := None, nextRunAt := Some(now))
    else r
  }

  function NewRow(i: JobInput): Job {
    Job(JobSpec(i.queue, i.priority, i.payload, i.key, i.maxAttempts, None, i.cron, i.batch),
        i.status, i.nextRunAt, 0, None, None, None, None, None, None)
  }

  // ---- single-row writes ----

  function SetJobRunning(t: Tables, id: JobId): Tables {
    if id in t.jobs then t.(jobs := t.jobs[id := RunningRow(t.jobs[id])]) else t
  }

  function CompleteJob(t: Tables, id: JobId, now: Time): Tables {
    if id in t.jobs then t.(jobs := t.jobs[id := CompletedRow(t.jobs[id], now)]) else t
  }

  function FailJob(t: Tables, id: JobId, now: Time, reason: string, attempts: int): Tables {
    if id in t.jobs then t.(jobs := t.jobs[id := FailedRow(t.jobs[id], now, reason, attempts)]) else t
  }

  function RequeueForRetry(t: Tables, id: JobId, next: Time, attempts: int): Tables {
    if id in t.jobs then t.(jobs := t.jobs[id := RequeuedRow(t.jobs[id], next, attempts)]) else t
  }

  function DeadLetterOf(r: Job, now: Time, reason: string, attempts: int): DeadLetterRow {
    DeadLetterRow(r.spec.queue, r.spec.payload, now, reason, attempts)
  }

  /** One transaction: a second dead letter for the job violates the unique index and rolls back. */
  function MoveToDlq(t: Tables, id: JobId, now: Time, reason: string, attempts: int): Result<Tables, DbError> {
    if id !in t.jobs then Ok(t)
    else if id in t.dlq then Err(UniqueViolation)
    else Ok(t.(jobs := t.jobs[id := DeadRow(t.jobs[id], now, reason, attempts)],
            dlq := t.dlq[id := DeadLetterOf(t.jobs[id], now, reason, attempts)]))
  }

  function RetryDlqJob(t: Tables, id: JobId, now: Time): Result<Tables, DbError> {
    if id in t.jobs && t.jobs[id].status == DeadLetter
    then Ok(t.(jobs := t.jobs[id := RetriedRow(t.jobs[id], now)], dlq := t.dlq - {id}))
    else Err(NotFound)
  }

  // ---- bulk updates ----

  function Renew(t: Tables, w: WorkerId, now: Time, lease: Time): Tables {
    t.(jobs := map id | id in t.jobs :: RenewedRow(t.jobs[id], w, now, lease))
  }

  function ReleaseJobs(t: Tables, w: WorkerId): Tables {
    t.(jobs := map id | id in t.jobs :: ReleasedRow(t.jobs[id], w))
  }

  function RequeueOrphanedJobs(t: Tables, now: Time): Tables {
    t.(jobs := map id | id in t.jobs :: ReapedRow(t.jobs[id], now))
  }

  function ClaimRows(t: Tables, w: WorkerId, batch: seq<JobId>, now: Time, lease: Time): Tables {
    t.(jobs := map id | id in t.jobs ::
      if id in batch then ClaimedRow(t.jobs[id], w, now, lease) else t.jobs[id])
  }

  // ---- workers ----

  function RegisterWorker(t: Tables, w: WorkerId, now: Time): Tables {
    t.(workers := t.workers[w := WorkerRow(true, now)])
  }

  function DeregisterWorker(t: Tables, w: WorkerId): Tables {
    if w in t.workers then t.(workers := t.workers[w := t.workers[w].(online := false)]) else t
  }

  /** The heartbeat row and the leases are written back to back at one instant. */
  function Heartbeat(t: Tables, w: WorkerId, now: Time, lease: Time): Tables {
    var seen :=
      if w in t.workers then t.(workers := t.workers[w := t.workers[w].(lastSeen := now)]) else t;
    Renew(seen, w, now, lease)
  }

  function MarkedRow(r: WorkerRow, now: Time, threshold: Time): WorkerRow {
    if r.online && r.lastSeen < now - threshold then r.(online := false) else r
  }

  function MarkDeadWorkers(t: Tables, now: Time, threshold: Time): Tables {
    t.(workers := map w | w in t.workers :: MarkedRow(t.workers[w], now, threshold))
  }

  // ---- the idempotent insert ----

  /** The row the partial unique index finds for a queue and key. */
  predicate HasKey(t: Tables, id: JobId, queue: QueueId, key: string) {
    id in t.jobs && t.jobs[id].spec.queue == queue && t.jobs[id].spec.key == Some(key)
  }

  predicate KeyTaken(t: Tables, queue: QueueId, key: Option<string>) {
    key.Some? && exists id | id in t.jobs :: HasKey(t, id, queue, key.value)
  }

  /** The partial unique index on (queue_id, idempotency_key). */
  predicate KeysUnique(t: Tables) {
    forall a, b | a in t.jobs && b in t.jobs && t.jobs[a].spec.key.Some?
      && t.jobs[a].spec.queue == t.jobs[b].spec.queue && t.jobs[a].spec.key == t.jobs[b].spec.key
      :: a == b
  }

  /** The tables after one insert; a taken key leaves them alone, and so does an error. */
  function CreateJob(t: Tables, id: JobId, i: JobInput): Result<Tables, DbError> {
    if KeyTaken(t, i.queue, i.key) then Ok(t)
    else if id in t.jobs then Err(UniqueViolation)
    else if i.queue !in t.queues then Err(ForeignKeyViolation)
    else Ok(t.(jobs := t.jobs[id := NewRow(i)]))
  }

  /** The inserts of one batch inside one transaction: the first error undoes them all. */
  function CreateAll(t: Tables, ids: seq<JobId>, inputs: seq<JobInput>): Result<Tables, DbError>
    requires |ids| == |inputs|
    decreases |inputs|
  {
    if inputs == [] then Ok(t)
    else
      var first := CreateAll(t, ids[..|ids| - 1], inputs[..|inputs| - 1]);
      if first.Err? then first
      else CreateJob(first.value, ids[|ids| - 1], inputs[|inputs| - 1])
  }

  /** The worker's gate: some completed job carries the key, in whatever queue. */
  predicate KeyCompleted(t: Tables, key: string) {
    exists id | id in t.jobs :: t.jobs[id].spec.key == Some(key) && t.jobs[id].status == Completed
  }

  /** The row is that of one of the requests. */
  predicate Among(row: Job, inputs: seq<JobInput>) {
    exists k | 0 <= k < |inputs| :: row == NewRow(inputs[k])
  }

  lemma AmongMore(row: Job, inputs: seq<JobInput>, n: nat)
    requires n < |inputs| && (Among(row, inputs[..n]) || row == NewRow(inputs[n]))
    ensures Among(row, inputs)
  {
    if row != NewRow(inputs[n]) {
      var k :| 0 <= k < n && row == NewRow(inputs[..n][k]);
      assert row == NewRow(inputs[k]);
    }
  }

  /** A batch only adds rows, each the row of one of its requests. */
  lemma {:induction false} CreateAllExtends(t: Tables, ids: seq<JobId>, inputs: seq<JobInput>)
    requires |ids| == |inputs|
    ensures var r := CreateAll(t, ids, inputs);
            r.Ok? ==>
              && r.value == t.(jobs := r.value.jobs)
              && (forall id | id in t.jobs :: id in r.value.jobs && r.value.jobs[id] == t.jobs[id])
              && (forall id | id in r.value.jobs && id !in t.jobs :: Among(r.value.jobs[id], inputs))
    decreases |inputs|
  {
    if inputs != [] {
      var n := |inputs| - 1;
      CreateAllExtends(t, ids[..n], inputs[..n]);
      var r := CreateAll(t, ids, inputs);
      if r.Ok? {
        forall id | id in r.value.jobs && id !in t.jobs ensures Among(r.value.jobs[id], inputs) {
          AmongMore(r.value.jobs[id], inputs, n);
        }
      }
    }
  }

  /**
   A manual retry undoes the move to the dead letters: the letter is gone, no other row has
   changed, and the job starts over. It can be undone only once.
   */
  lemma RetryUndoesBury(t: Tables, id: JobId, now: Time, reason: string, attempts: int, later: Time)
    requires id in t.jobs && id !in t.dlq
    ensures var buried := MoveToDlq(t, id, now, reason, attempts);
            && buried.Ok? && id in buried.value.dlq
            && (var revived := RetryDlqJob(buried.value, id, later);
                && revived.Ok?
                && revived.value == t.(jobs := t.jobs[id := revived.value.jobs[id]])
                && revived.value.jobs[id].spec == t.jobs[id].spec
                && revived.value.jobs[id].status == Queued && revived.value.jobs[id].nextRunAt == Some(later)
                && revived.value.jobs[id].attempts == 0 && Unowned(revived.value.jobs[id])
                && revived.value.jobs[id].failedAt.None? && revived.value.jobs[id].error.None?
                && RetryDlqJob(revived.value, id, later) == Err(NotFound))
  {
    var buried := MoveToDlq(t, id, now, reason, attempts).value;
    var revived := RetryDlqJob(buried, id, later).value;
    assert revived.dlq == t.dlq;
    assert revived.jobs == t.jobs[id := revived.jobs[id]];
  }
}
