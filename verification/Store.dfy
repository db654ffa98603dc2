/**
 The repositories as an object over mutable tables. Every method is one statement or
 transaction and is proved to write exactly what its statement says.
 */
module Store {
  import opened Domain
  import S = Statements
  import C = Claiming
  import Submission

  /** A job id with the row a RETURNING clause reports. */
  datatype Returned = Returned(id: JobId, row: Job)

  datatype CreateResult = CreateResult(id: JobId, created: bool)

  class JobStore {
    var now: Time
    var jobs: map<JobId, Job>
    var dlq: map<JobId, DeadLetterRow>
    var queues: map<QueueId, Queue>
    var workers: map<WorkerId, WorkerRow>

    ghost function View(): Tables
      reads this
    {
      Tables(jobs, dlq, queues, workers)
    }

    constructor (now: Time, queues: map<QueueId, Queue>)
      ensures this.now == now && View() == Tables(map[], map[], queues, map[])
    {
      this.now := now;
      this.jobs, this.dlq, this.queues, this.workers := map[], map[], queues, map[];
    }

    // ---- worker_store.go ----

    method RegisterWorker(w: WorkerId)
      modifies this`workers
      ensures View() == S.RegisterWorker(old(View()), w, now)
      ensures workers == old(workers)[w := WorkerRow(true, now)]
    {
      workers := workers[w := WorkerRow(true, now)];
    }

    method DeregisterWorker(w: WorkerId)
      modifies this`workers
      ensures View() == S.DeregisterWorker(old(View()), w)
      ensures w in workers ==> !workers[w].online && workers[w].lastSeen == old(workers)[w].lastSeen
      ensures workers.Keys == old(workers).Keys && forall v | v in workers && v != w :: workers[v] == old(workers)[v]
    {
      if w in workers {
        workers := workers[w := workers[w].(online := false)];
      }
    }

    method SetJobRunning(id: JobId)
      modifies this`jobs
      ensures View() == S.SetJobRunning(old(View()), id)
      ensures id in old(jobs) ==>
                var r := old(jobs)[id];
                jobs == old(jobs)[id := Job(r.spec, Running, r.nextRunAt, r.attempts, r.worker, r.claimedAt, r.lease,
                                          r.completedAt, r.failedAt, r.error)]
      ensures id !in old(jobs) ==> jobs == old(jobs)
    {
      if id in jobs {
        jobs := jobs[id := jobs[id].(status := Running)];
      }
    }

    method CompleteJob(id: JobId)
      modifies this`jobs
      ensures View() == S.CompleteJob(old(View()), id, now)
      ensures id in old(jobs) ==>
                var r := old(jobs)[id];
                jobs == old(jobs)[id := Job(r.spec, Completed, r.nextRunAt, r.attempts, r.worker, r.claimedAt, r.lease,
                                          Some(now), r.failedAt, r.error)]
      ensures id !in old(jobs) ==> jobs == old(jobs)
    {
      if id in jobs {
        jobs := jobs[id := jobs[id].(status := Completed, completedAt := Some(now))];
      }
    }

    method FailJob(id: JobId, reason: string, attempts: int)
      modifies this`jobs
      ensures View() == S.FailJob(old(View()), id, now, reason, attempts)
      ensures id in old(jobs) ==>
                var r := old(jobs)[id];
                jobs == old(jobs)[id := Job(r.spec, Failed, r.nextRunAt, attempts, r.worker, r.claimedAt, r.lease,
                                          r.completedAt, Some(now), Some(reason))]
      ensures id !in old(jobs) ==> jobs == old(jobs)
    {
      if id in jobs {
        jobs := jobs[id := S.FailedRow(jobs[id], now, reason, attempts)];
      }
    }

    method RequeueForRetry(id: JobId, next: Time, attempts: int)
      modifies this`jobs
      ensures View() == S.RequeueForRetry(old(View()), id, next, attempts)
      ensures id in old(jobs) ==>
                var r := old(jobs)[id];
                jobs == old(jobs)[id := Job(r.spec, Queued, Some(next), attempts, None, None, None,
                                          r.completedAt, None, None)]
      ensures id !in old(jobs) ==> jobs == old(jobs)
    {
      if id in jobs {
        jobs := jobs[id := S.RequeuedRow(jobs[id], next, attempts)];
      }
    }

    method MoveToDlq(id: JobId, reason: string, attempts: int) returns (r: Result<(), DbError>)
      modifies this`jobs, this`dlq
      ensures var spec := S.MoveToDlq(old(View()), id, now, reason, attempts);
              && (r.Ok? <==> spec.Ok?)
              && View() == if spec.Ok? then spec.value else old(View())
      ensures r.Err? <==> id in old(jobs) && id in old(dlq)
      ensures r.Ok? && id in old(jobs) ==>
                var job := old(jobs)[id];
                && jobs == old(jobs)[id := Job(job.spec, DeadLetter, job.nextRunAt, attempts, job.worker, job.claimedAt,
                                               job.lease, job.completedAt, Some(now), Some(reason))]
                && dlq == old(dlq)[id := DeadLetterRow(job.spec.queue, job.spec.payload, now, reason, attempts)]
      ensures r.Err? || id !in old(jobs) ==> jobs == old(jobs) && dlq == old(dlq)
    {
      var before := jobs;
      if id in jobs {
        jobs := jobs[id := S.DeadRow(jobs[id], now, reason, attempts)];
        if id in dlq {
          jobs := before; // the insert violates the unique index, the transaction rolls back
          return Err(UniqueViolation);
        }
        dlq := dlq[id := S.DeadLetterOf(jobs[id], now, reason, attempts)];
      }
      return Ok(());
    }

    /** Returns the worker's claimed jobs to the queue and counts them. */
    method ReleaseJobs(w: WorkerId) returns (count: nat)
      modifies this`jobs
      ensures View() == S.ReleaseJobs(old(View()), w)
      ensures count == |set id | id in jobs && jobs[id] != old(jobs)[id]|
      ensures forall id | id in jobs && jobs[id] != old(jobs)[id] ::
                && old(jobs)[id].worker == Some(w) && old(jobs)[id].status == Claimed
                && jobs[id].status == Queued && Unowned(jobs[id])
                && jobs[id].attempts == old(jobs)[id].attempts && jobs[id].nextRunAt == old(jobs)[id].nextRunAt
      ensures forall id | id in jobs && jobs[id].worker == Some(w) && Active(jobs[id]) :: jobs[id].status == Running
    {
      var hit := set id | id in jobs && jobs[id].worker == Some(w) && jobs[id].status == Claimed;
      ghost var before := jobs;
      jobs := map id | id in jobs :: S.ReleasedRow(jobs[id], w);
      assert hit == set id | id in jobs && jobs[id] != before[id];
      return |hit|;
    }

    /** Renews all of the worker's active jobs, a lease that has already run out included. */
    method Heartbeat(w: WorkerId, lease: Time)
      modifies this`jobs, this`workers
      ensures View() == S.Heartbeat(old(View()), w, now, lease)
      ensures forall id, t | id in jobs && jobs[id].worker == Some(w) && t <= now + lease :: !Expired(jobs[id], t)
      ensures forall id | id in jobs && jobs[id] != old(jobs)[id] ::
                jobs[id] == old(jobs)[id].(lease := Some(now + lease)) && Active(jobs[id]) && jobs[id].worker == Some(w)
      ensures w in workers ==> workers == old(workers)[w := WorkerRow(old(workers)[w].online, now)]
      ensures w !in workers ==> workers == old(workers)
    {
      if w in workers {
        workers := workers[w := workers[w].(lastSeen := now)];
      }
      jobs := map id | id in jobs :: S.RenewedRow(jobs[id], w, now, lease);
    }

    method IsIdempotencyKeyCompleted(key: string) returns (done: bool)
      ensures done == S.KeyCompleted(View(), key)
    {
      done := exists id | id in jobs :: jobs[id].spec.key == Some(key) && jobs[id].status == Completed;
    }

    // ---- reaper_store.go ----

    /** Requeues every expired row and reports each of them once. */
    method RequeueOrphanedJobs() returns (ids: seq<JobId>)
      modifies this`jobs
      ensures View() == S.RequeueOrphanedJobs(old(View()), now)
      ensures C.Distinct(ids)
      ensures forall id :: id in ids <==> id in old(jobs) && Expired(old(jobs)[id], now)
      ensures forall id | id in jobs :: !Expired(jobs[id], now)
      ensures jobs.Keys == old(jobs).Keys
      ensures forall id | id in jobs ::
                var r := old(jobs)[id];
                jobs[id] == if id in ids then Job(r.spec, Queued, Some(now), r.attempts, None, None, None,
                                                  r.completedAt, r.failedAt, r.error) else r
    {
      var orphans := set id | id in jobs && Expired(jobs[id], now);
      jobs := map id | id in jobs :: S.ReapedRow(jobs[id], now);
      ids := Scan(orphans);
    }

    method MarkDeadWorkers(threshold: Time) returns (count: nat)
      modifies this`workers
      ensures View() == S.MarkDeadWorkers(old(View()), now, threshold)
      ensures count == |set w | w in old(workers) && old(workers)[w] != workers[w]|
      ensures workers.Keys == old(workers).Keys
      ensures forall w | w in workers ::
                && workers[w].lastSeen == old(workers)[w].lastSeen
                && (workers[w].online <==> old(workers)[w].online && now - threshold <= workers[w].lastSeen)
    {
      var hit := set w | w in workers && workers[w].online && workers[w].lastSeen < now - threshold;
      ghost var before := workers;
      workers := map w | w in workers :: S.MarkedRow(workers[w], now, threshold);
      assert hit == set w | w in before && before[w] != workers[w];
      return |hit|;
    }

    // ---- job.go ----

    /**
     Claims due jobs of a queue up to its remaining budget, best first, in one transaction.
     `index` is the queue's part of the partial index over some reading `rows` of the table;
     `locked` are the rows other transactions hold.
     */
    method ClaimJobs(
      w: WorkerId, q: QueueId, lease: Time, locked: set<JobId>, index: seq<JobId>, ghost rows: seq<JobId>)
      returns (r: Result<seq<Returned>, DbError>, ghost batch: seq<JobId>)
      requires C.Listing(View(), rows) && index == C.ClaimIndex(View(), q, rows)
      modifies this`jobs
      ensures r.Err? <==> q !in queues
      ensures r.Err? ==> View() == old(View())
      ensures r.Ok? ==>
                && C.ValidBatch(old(View()), q, now, locked, false, C.Budget(old(View()), q, C.UNLIMITED), batch)
                && View() == S.ClaimRows(old(View()), w, batch, now, lease)
                && Reports(jobs, batch, r.value)
                && C.Known(old(View()), batch) && C.BestFirst(old(View()), q, now, locked, false, batch)
      ensures r.Ok? ==> Took(old(jobs), jobs, batch, w, now, lease)
      ensures r.Ok? ==> C.FullIfLeft(old(View()), View(), q, now, locked, false, batch, 2147483647)
    {
      batch := [];
      if q !in queues {
        return Err(NotFound), batch;
      }
      var t := Tables(jobs, dlq, queues, workers);
      var budget := C.Budget(t, q, C.UNLIMITED);
      var taken := C.ClaimWalk(t, q, now, locked, false, budget, index, rows);
      batch := taken;
      ClaimColumns(t, w, q, now, locked, lease, taken);
      MarkClaimed(w, lease, taken);
      var found := Report(jobs, taken);
      return Ok(found), batch;
    }

    /** The claim's UPDATE. */
    method MarkClaimed(w: WorkerId, lease: Time, batch: seq<JobId>)
      modifies this`jobs
      ensures View() == S.ClaimRows(old(View()), w, batch, now, lease) && jobs.Keys == old(jobs).Keys
    {
      jobs := map id | id in jobs :: if id in batch then S.ClaimedRow(jobs[id], w, now, lease) else jobs[id];
    }

    method RetryDlqJob(id: JobId) returns (r: Result<Job, DbError>)
      modifies this`jobs, this`dlq
      ensures var spec := S.RetryDlqJob(old(View()), id, now);
              && (r.Ok? <==> spec.Ok?)
              && View() == (if spec.Ok? then spec.value else old(View()))
              && (r.Ok? ==> id in jobs && r.value == jobs[id])
      ensures r.Ok? <==> id in old(jobs) && old(jobs)[id].status == DeadLetter
      ensures r.Ok? ==>
                var job := old(jobs)[id];
                && jobs == old(jobs)[id := Job(job.spec, Queued, Some(now), 0, None, None, None,
                                               job.completedAt, None, None)]
                && dlq == old(dlq) - {id}
      ensures r.Err? ==> jobs == old(jobs) && dlq == old(dlq)
    {
      if id !in jobs || jobs[id].status != DeadLetter {
        return Err(NotFound);
      }
      dlq := dlq - {id};
      jobs := jobs[id := S.RetriedRow(jobs[id], now)];
      return Ok(jobs[id]);
    }

    /** The idempotent insert: a taken key returns the row that holds it. */
    method CreateJob(id: JobId, input: JobInput) returns (r: Result<CreateResult, DbError>)
      modifies this`jobs
      ensures var spec := S.CreateJob(old(View()), id, input);
              && (r.Ok? <==> spec.Ok?)
              && View() == (if spec.Ok? then spec.value else old(View()))
      ensures r.Ok? ==> r.value.id in jobs && (r.value.created <==> View() != old(View()))
      ensures r.Ok? && input.key.Some? ==> S.HasKey(View(), r.value.id, input.queue, input.key.value)
      ensures r.Ok? && r.value.created ==>
                r.value.id == id && id !in old(jobs) && StoredAs(jobs[id], input) && jobs == old(jobs)[id := jobs[id]]
      ensures r.Ok? && input.key.None? ==> r.value.created
    {
      var t := Tables(jobs, dlq, queues, workers);
      if S.KeyTaken(t, input.queue, input.key) {
        var existing :| existing in jobs && S.HasKey(t, existing, input.queue, input.key.value);
        return Ok(CreateResult(existing, false));
      }
      if id in jobs {
        return Err(UniqueViolation);
      }
      if input.queue !in queues {
        return Err(ForeignKeyViolation);
      }
      jobs := jobs[id := S.NewRow(input)];
      assert id !in old(jobs);
      return Ok(CreateResult(id, true));
    }

    /** The inserts of a batch, one by one. `outage` is the insert, if any, at which the database fails. */
    method InsertAll(ids: seq<JobId>, inputs: seq<JobInput>, outage: Option<nat>)
      returns (r: Result<seq<JobId>, DbError>)
      requires |ids| == |inputs|
      modifies this`jobs
      ensures r.Err? <==> S.CreateAll(old(View()), ids, inputs).Err? || (outage.Some? && outage.value < |inputs|)
      ensures r.Ok? ==> S.CreateAll(old(View()), ids, inputs) == Ok(View())
      ensures r.Ok? ==> |r.value| == |inputs|
      ensures r.Ok? ==> forall k | 0 <= k < |inputs| :: Answers(View(), ids[k], inputs[k], r.value[k])
      ensures r.Ok? ==> Grown(old(jobs), jobs, inputs)
    {
      ghost var t0 := View();
      var results: seq<JobId> := [];
      var k := 0;
      while k < |inputs|
        invariant 0 <= k <= |inputs| && |results| == k
        invariant outage.Some? ==> k <= outage.value || |inputs| <= outage.value
        invariant S.CreateAll(t0, ids[..k], inputs[..k]) == Ok(View())
        invariant AllAnswered(View(), ids, inputs, results)
      {
        ghost var t := View();
        BatchSnoc(t0, ids, inputs, k);
        if outage == Some(k) {
          return Err(Unavailable);
        }
        var one := CreateJob(ids[k], inputs[k]);
        if one.Err? {
          ErrorSticks(t0, ids, inputs, k + 1);
          return Err(one.error);
        }
        OneMoreAnswer(t, View(), ids, inputs, results, one.value.id);
        results := results + [one.value.id];
        k := k + 1;
      }
      assert ids[..k] == ids && inputs[..k] == inputs;
      BatchGrows(t0, ids, inputs);
      return Ok(results);
    }

    /**
     The batch transaction. Any error leaves the table as it was; otherwise there is one
     result per request, in order, and the table grows by the unkeyed requests and the
     distinct new keys.
     */
    method CreateBatch(ids: seq<JobId>, inputs: seq<JobInput>, outage: Option<nat>)
      returns (r: Result<seq<JobId>, DbError>)
      requires |ids| == |inputs|
      modifies this`jobs
      ensures r.Err? ==> View() == old(View())
      ensures r.Err? <==> S.CreateAll(old(View()), ids, inputs).Err? || (outage.Some? && outage.value < |inputs|)
      ensures r.Ok? ==> S.CreateAll(old(View()), ids, inputs) == Ok(View())
      ensures r.Ok? ==> |r.value| == |inputs|
      ensures r.Ok? ==> forall k | 0 <= k < |inputs| :: Answers(View(), ids[k], inputs[k], r.value[k])
      ensures r.Ok? ==> Grown(old(jobs), jobs, inputs)
      ensures r.Ok? ==> |jobs| == |old(jobs)| + |Submission.Unkeyed(inputs)|
                                  + |Submission.NewKeys(old(View()), inputs)|
    {
      var before := jobs;
      r := InsertAll(ids, inputs, outage);
      if r.Err? {
        jobs := before;
      } else {
        Submission.BatchAddsExactly(old(View()), ids, inputs);
      }
    }
  }

  method AnyRow(rows: set<JobId>) returns (id: JobId)
    requires rows != {}
    ensures id in rows
  {
    if forall x :: x !in rows {
      assert false;
    }
    id :| id in rows;
  }

  /** Reads out a result set row by row. */
  method Scan(rows: set<JobId>) returns (ids: seq<JobId>)
    ensures C.Distinct(ids)
    ensures forall id :: id in ids <==> id in rows
  {
    var left := rows;
    ids := [];
    while left != {}
      invariant left <= rows
      invariant forall i | 0 <= i < |ids| :: ids[i] in rows && ids[i] !in left
      invariant forall id | id in rows && id !in left :: id in ids
      invariant C.Distinct(ids)
      decreases |left|
    {
      var id := AnyRow(left);
      ids := ids + [id];
      left := left - {id};
    }
  }

  /** The batch is claimed for the worker under a fresh lease; no other column and no other row changes. */
  predicate Took(
    before: map<JobId, Job>, after: map<JobId, Job>, batch: seq<JobId>, w: WorkerId, now: Time, lease: Time)
  {
    && after.Keys == before.Keys
    && (forall id | id in before ::
          var r := before[id];
          after[id] == if id in batch then Job(r.spec, Claimed, r.nextRunAt, r.attempts, Some(w), Some(now),
                                               Some(now + lease), r.completedAt, r.failedAt, r.error)
                       else r)
  }

  lemma ClaimColumns(
    t: Tables, w: WorkerId, q: QueueId, now: Time, locked: set<JobId>, lease: Time, batch: seq<JobId>)
    requires q in t.queues
    requires C.ValidBatch(t, q, now, locked, false, C.Budget(t, q, C.UNLIMITED), batch)
    ensures Took(t.jobs, S.ClaimRows(t, w, batch, now, lease).jobs, batch, w, now, lease)
    ensures C.FullIfLeft(t, S.ClaimRows(t, w, batch, now, lease), q, now, locked, false, batch, 2147483647)
    ensures forall id | id in batch :: id in t.jobs
  {
    C.LeftOnlyWhenFull(t, w, q, now, locked, false, lease, C.UNLIMITED, batch);
  }

  /** The rows of the batch, each once and in no particular order, as RETURNING reports them. */
  ghost predicate Reports(rows: map<JobId, Job>, batch: seq<JobId>, found: seq<Returned>) {
    && (forall k | 0 <= k < |found| :: found[k].id in batch && found[k].id in rows && found[k].row == rows[found[k].id])
    && (forall id | id in batch :: Reported(found, id))
    && (forall i, k | 0 <= i < k < |found| :: found[i].id != found[k].id)
  }

  ghost predicate Reported(found: seq<Returned>, id: JobId) {
    exists k | 0 <= k < |found| :: found[k].id == id
  }

  method Report(rows: map<JobId, Job>, batch: seq<JobId>) returns (found: seq<Returned>)
    requires forall id | id in batch :: id in rows
    ensures Reports(rows, batch, found)
  {
    var wanted := set id | id in batch;
    var ids := Scan(wanted);
    forall i | 0 <= i < |ids| ensures ids[i] in batch && ids[i] in rows {
      assert ids[i] in ids;
      assert ids[i] in batch;
    }
    found := [];
    var k := 0;
    while k < |ids|
      invariant 0 <= k <= |ids| && |found| == k
      invariant forall i | 0 <= i < k :: ids[i] in rows && found[i] == Returned(ids[i], rows[ids[i]])
    {
      found := found + [Returned(ids[k], rows[ids[k]])];
      k := k + 1;
    }
    forall id | id in batch ensures Reported(found, id) {
      assert id in ids;
      var i :| 0 <= i < |ids| && ids[i] == id;
      assert found[i].id == id;
    }
  }

  /** The row returned for a request: the key's row, or the new row of an unkeyed request. */
  predicate Answers(t: Tables, id: JobId, input: JobInput, answer: JobId) {
    && answer in t.jobs
    && (match input.key
        case Some(key) => S.HasKey(t, answer, input.queue, key)
        case None => answer == id && StoredAs(t.jobs[id], input))
  }

  /** The row is a new one with the submitted columns. */
  predicate StoredAs(row: Job, input: JobInput) {
    row == Job(JobSpec(input.queue, input.priority, input.payload, input.key, input.maxAttempts, None,
                       input.cron, input.batch),
               input.status, input.nextRunAt, 0, None, None, None, None, None, None)
  }

  predicate StoredFrom(row: Job, inputs: seq<JobInput>) {
    exists k | 0 <= k < |inputs| :: StoredAs(row, inputs[k])
  }

  /** The old rows are as they were and every new one holds one of the requests. */
  predicate Grown(before: map<JobId, Job>, after: map<JobId, Job>, inputs: seq<JobInput>) {
    && (forall id | id in before :: id in after && after[id] == before[id])
    && (forall id | id in after && id !in before :: StoredFrom(after[id], inputs))
  }

  lemma {:induction false} BatchGrows(t: Tables, ids: seq<JobId>, inputs: seq<JobInput>)
    requires |ids| == |inputs| && S.CreateAll(t, ids, inputs).Ok?
    ensures Grown(t.jobs, S.CreateAll(t, ids, inputs).value.jobs, inputs)
  {
    S.CreateAllExtends(t, ids, inputs);
    var after := S.CreateAll(t, ids, inputs).value.jobs;
    forall id | id in after && id !in t.jobs ensures StoredFrom(after[id], inputs) {
      assert S.Among(after[id], inputs);
      var k :| 0 <= k < |inputs| && after[id] == S.NewRow(inputs[k]);
      assert StoredAs(after[id], inputs[k]);
    }
  }

  /** The first requests have been answered, each with its row. */
  predicate AllAnswered(t: Tables, ids: seq<JobId>, inputs: seq<JobInput>, answers: seq<JobId>)
    requires |answers| <= |inputs| == |ids|
  {
    forall k | 0 <= k < |answers| :: Answers(t, ids[k], inputs[k], answers[k])
  }

  /** An insert keeps the answers given and adds its own. */
  lemma OneMoreAnswer(
    t: Tables, t': Tables, ids: seq<JobId>, inputs: seq<JobInput>, answers: seq<JobId>, answer: JobId)
    requires |answers| < |inputs| == |ids| && AllAnswered(t, ids, inputs, answers)
    requires forall j | j in t.jobs :: j in t'.jobs && t'.jobs[j] == t.jobs[j]
    requires Answers(t', ids[|answers|], inputs[|answers|], answer)
    ensures AllAnswered(t', ids, inputs, answers + [answer])
  {
    forall k | 0 <= k <= |answers| ensures Answers(t', ids[k], inputs[k], (answers + [answer])[k]) {
      assert k < |answers| ==> Answers(t, ids[k], inputs[k], answers[k]);
    }
  }

  lemma {:induction false} BatchSnoc(t: Tables, ids: seq<JobId>, inputs: seq<JobInput>, k: nat)
    requires |ids| == |inputs| && k < |inputs|
    ensures var first := S.CreateAll(t, ids[..k], inputs[..k]);
            S.CreateAll(t, ids[..k + 1], inputs[..k + 1])
              == if first.Err? then first else S.CreateJob(first.value, ids[k], inputs[k])
  {
    assert ids[..k + 1][..k] == ids[..k] && inputs[..k + 1][..k] == inputs[..k];
  }

  /** Once an insert of the batch fails, the batch has failed. */
  lemma {:induction false} ErrorSticks(t: Tables, ids: seq<JobId>, inputs: seq<JobInput>, k: nat)
    requires |ids| == |inputs| && k <= |inputs|
    requires S.CreateAll(t, ids[..k], inputs[..k]).Err?
    ensures S.CreateAll(t, ids, inputs).Err?
    decreases |inputs| - k
  {
    if k < |inputs| {
      BatchSnoc(t, ids, inputs, k);
      ErrorSticks(t, ids, inputs, k + 1);
    } else {
      assert ids[..k] == ids && inputs[..k] == inputs;
    }
  }

  /** Repeated keys in one batch, and keys already known, share one answer. */
  lemma SameKeySameAnswer(t: Tables, a: JobInput, b: JobInput, ida: JobId, idb: JobId, x: JobId, y: JobId)
    requires S.KeysUnique(t) && Answers(t, ida, a, x) && Answers(t, idb, b, y)
    requires a.key.Some? && a.key == b.key && a.queue == b.queue
    ensures x == y
  {
    assert S.HasKey(t, x, a.queue, a.key.value) && S.HasKey(t, y, b.queue, b.key.value);
  }
}
