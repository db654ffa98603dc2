/**
 The serverless worker: one tick reaps, claims queue by queue and executes what it
 claimed, in a single thread. Times are in milliseconds.
 */
module WorkerTick {
  import opened Domain
  import S = Statements
  import C = Claiming
  import Store

  const LEASE_MS := 30000
  const RETRY_MS := 5000
  const MAX_SLEEP_MS := 5000
  const DEFAULT_CONCURRENCY := 5

  /** What the payload asks for, once decoded. */
  datatype Kind = Sleep(duration: Option<int>) | AlwaysFail(message: string) | Other

  /** A missing, unreadable or zero duration sleeps 100 ms, a long one is cut to 5 s. */
  function SleepMs(duration: Option<int>): (ms: nat)
    ensures ms <= 5000
    ensures duration.Some? && 0 < duration.value <= 5000 ==> ms == duration.value
    ensures duration.Some? && duration.value > 5000 ==> ms == 5000
    ensures duration.Some? && duration.value < 0 ==> ms == 0
    ensures duration.None? || duration.value == 0 ==> ms == 100
  {
    var wanted := if duration.Some? && duration.value != 0 then duration.value else 100;
    Max(Min(wanted, MAX_SLEEP_MS), 0)
  }

  function BusyMs(kind: Kind): (ms: nat)
    ensures ms <= 5000
    ensures kind.Sleep? && kind.duration.Some? && 0 < kind.duration.value <= 5000 ==> ms == kind.duration.value
    ensures !kind.Sleep? ==> ms == 0
  {
    if kind.Sleep? then SleepMs(kind.duration) else 0
  }

  // ---- the rows its statements write ----

  function ReapedRow(r: Job, now: Time): Job {
    if Expired(r, now) then r.(status := Queued, worker := None, claimedAt := None, lease := None) else r
  }

  function Reaped(t: Tables, now: Time): Tables {
    t.(jobs := map id | id in t.jobs :: ReapedRow(t.jobs[id], now))
  }

  function StartedRow(r: Job): Job {
    r.(status := Running, attempts := r.attempts + 1)
  }

  function DoneRow(r: Job, now: Time): Job {
    r.(status := Completed, completedAt := Some(now), worker := None, lease := None, error := None)
  }

  function DeadRow(r: Job, now: Time, reason: string): Job {
    r.(status := DeadLetter, failedAt := Some(now), error := Some(reason), worker := None, lease := None)
  }

  function RetryRow(r: Job, now: Time, reason: string): Job {
    r.(status := Queued, failedAt := Some(now), error := Some(reason), worker := None, claimedAt := None,
    lease := None, nextRunAt := Some(now + RETRY_MS))
  }

  /** Where an execution may leave a job: settled, unowned, one attempt further on. */
  predicate SettledAs(before: Job, after: Job, kind: Kind) {
    && after.spec == before.spec
    && after.worker.None? && after.lease.None?
    && after.attempts == before.attempts + 1
    && (after.status == Completed <==> !kind.AlwaysFail?)
    && (after.status == DeadLetter <==> kind.AlwaysFail? && after.attempts >= before.spec.maxAttempts)
    && (after.status == Queued <==> kind.AlwaysFail? && after.attempts < before.spec.maxAttempts)
    && (after.status == Completed || after.status == DeadLetter || after.status == Queued)
    && (if kind.AlwaysFail? then after.failedAt.Some? && after.error == Some(kind.message)
        else after.completedAt.Some? && after.error.None?)
    && (after.status == Queued ==> after.nextRunAt == Some(after.failedAt.value + 5000) && after.claimedAt.None?)
  }

  /** The row a settled job leaves, column by column. */
  predicate SettlesTo(before: Job, after: Job, kind: Kind, now: Time) {
    && (!kind.AlwaysFail? ==>
          after == Job(before.spec, Completed, before.nextRunAt, before.attempts + 1, None, before.claimedAt, None,
                       Some(now), before.failedAt, None))
    && (kind.AlwaysFail? && before.attempts + 1 >= before.spec.maxAttempts ==>
          after == Job(before.spec, DeadLetter, before.nextRunAt, before.attempts + 1, None, before.claimedAt, None,
                       before.completedAt, Some(now), Some(kind.message)))
    && (kind.AlwaysFail? && before.attempts + 1 < before.spec.maxAttempts ==>
          after == Job(before.spec, Queued, Some(now + 5000), before.attempts + 1, None, None, None,
                       before.completedAt, Some(now), Some(kind.message)))
  }

  /** A dead letter for a dead-lettered job and for no other, with the job's own data. */
  predicate LetterOk(t: Tables, id: JobId)
    requires id in t.jobs
  {
    && (id in t.dlq <==> t.jobs[id].status == DeadLetter)
    && (id in t.dlq ==>
          && t.dlq[id].queue == t.jobs[id].spec.queue && t.dlq[id].payload == t.jobs[id].spec.payload
          && t.dlq[id].attemptsMade == t.jobs[id].attempts && t.jobs[id].error == Some(t.dlq[id].reason))
  }

  ghost predicate LettersOk(t: Tables) {
    t.dlq.Keys <= t.jobs.Keys && forall id | id in t.jobs :: LetterOk(t, id)
  }

  /** Exactly the listed jobs were executed; all other rows are as they were. */
  ghost predicate Did(before: Tables, after: Tables, executed: seq<JobId>, decode: string -> Kind) {
    && after.jobs.Keys == before.jobs.Keys && after.queues == before.queues
    && (forall id | id in before.jobs ::
          if id in executed
          then SettledAs(before.jobs[id], after.jobs[id], decode(before.jobs[id].spec.payload))
          else after.jobs[id] == before.jobs[id])
  }

  lemma Untouched(before: Tables, after: Tables, executed: seq<JobId>, decode: string -> Kind, id: JobId)
    requires Did(before, after, executed, decode) && id in before.jobs && id !in executed
    ensures after.jobs[id] == before.jobs[id]
  {
  }

  lemma DidSettle(before: Tables, after: Tables, executed: seq<JobId>, decode: string -> Kind, id: JobId)
    requires Did(before, after, executed, decode) && id in before.jobs && id in executed
    ensures id in after.jobs && SettledAs(before.jobs[id], after.jobs[id], decode(before.jobs[id].spec.payload))
  {
  }

  // ---- the active count never rises past the limit, and falls back ----

  lemma ExecutionFreesSlots(before: Tables, after: Tables, executed: seq<JobId>, decode: string -> Kind, q: QueueId)
    requires Did(before, after, executed, decode)
    requires forall id | id in executed && id in before.jobs :: before.jobs[id].status == Queued
    ensures C.ActiveIn(after, q) == C.ActiveIn(before, q)
  {
    forall id ensures id in C.ActiveIn(after, q) <==> id in C.ActiveIn(before, q) {
      assert id in before.jobs && id in executed ==>
          SettledAs(before.jobs[id], after.jobs[id], decode(before.jobs[id].spec.payload));
    }
  }

  // ---- what can be seen while the tick is at work ----

  /** The tables at one point of time. */
  datatype Moment = Moment(time: Time, db: Tables)

  /** The longest `k` jobs can take, one after the other. */
  function Span(k: nat, most: nat): nat {
    if k == 0 then 0 else Span(k - 1, most) + MAX_SLEEP_MS + most
  }

  lemma {:induction false} SpanIsProduct(k: nat, most: nat)
    ensures Span(k, most) == k * (MAX_SLEEP_MS + most)
  {
    if k > 0 {
      SpanIsProduct(k - 1, most);
    }
  }

  lemma {:induction false} SpanGrows(k: nat, n: nat, most: nat)
    requires k <= n
    ensures Span(k, most) <= Span(n, most)
    decreases n
  {
    if k < n {
      SpanGrows(k, n - 1, most);
    }
  }

  ghost predicate AtMost(overhead: JobId -> nat, most: nat) {
    forall id :: overhead(id) <= most
  }

  /** How long one job takes. */
  function Cost(job: Job, id: JobId, decode: string -> Kind, overhead: JobId -> nat): nat {
    BusyMs(decode(job.spec.payload)) + overhead(id)
  }

  /** How long the first `k` jobs of a batch take, one after the other. */
  function TotalOf(t: Tables, batch: seq<JobId>, k: nat, decode: string -> Kind, overhead: JobId -> nat): nat
    requires C.Known(t, batch) && k <= |batch|
  {
    if k == 0 then 0
    else TotalOf(t, batch, k - 1, decode, overhead) + Cost(t.jobs[batch[k - 1]], batch[k - 1], decode, overhead)
  }

  /** How long the whole batch takes. */
  function Total(t: Tables, batch: seq<JobId>, decode: string -> Kind, overhead: JobId -> nat): nat
    requires C.Known(t, batch)
  {
    TotalOf(t, batch, |batch|, decode, overhead)
  }

  /** The claim does not change what a batch costs. */
  lemma {:induction false} TotalThroughClaim(
    t: Tables, w: WorkerId, now: Time, batch: seq<JobId>, k: nat, decode: string -> Kind, overhead: JobId -> nat)
    requires C.Known(t, batch) && k <= |batch|
    ensures C.Known(S.ClaimRows(t, w, batch, now, LEASE_MS), batch)
    ensures TotalOf(S.ClaimRows(t, w, batch, now, LEASE_MS), batch, k, decode, overhead)
         == TotalOf(t, batch, k, decode, overhead)
  {
    if k > 0 {
      TotalThroughClaim(t, w, now, batch, k - 1, decode, overhead);
    }
  }

  lemma {:induction false} TotalWithinSpan(
    t: Tables, batch: seq<JobId>, k: nat, decode: string -> Kind, overhead: JobId -> nat, most: nat)
    requires C.Known(t, batch) && k <= |batch| && AtMost(overhead, most)
    ensures TotalOf(t, batch, k, decode, overhead) <= Span(k, most)
  {
    if k > 0 {
      TotalWithinSpan(t, batch, k - 1, decode, overhead, most);
    }
  }

  /** Every job of the batch sleeps its full five seconds and spends `each` besides. */
  ghost predicate FullLength(t: Tables, batch: seq<JobId>, decode: string -> Kind, overhead: JobId -> nat, each: nat)
    requires C.Known(t, batch)
  {
    forall i | 0 <= i < |batch| :: Cost(t.jobs[batch[i]], batch[i], decode, overhead) == MAX_SLEEP_MS + each
  }

  lemma {:induction false} FullLengthTotal(
    t: Tables, batch: seq<JobId>, k: nat, decode: string -> Kind, overhead: JobId -> nat, each: nat)
    requires C.Known(t, batch) && k <= |batch| && FullLength(t, batch, decode, overhead, each)
    ensures TotalOf(t, batch, k, decode, overhead) == Span(k, each)
  {
    if k > 0 {
      FullLengthTotal(t, batch, k - 1, decode, overhead, each);
    }
  }

  /** Five full-length jobs outlast the lease exactly if each spends more than a second besides its sleep. */
  lemma FiveOutlastExactly(t: Tables, batch: seq<JobId>, decode: string -> Kind, overhead: JobId -> nat, each: nat)
    requires C.Known(t, batch) && FullLength(t, batch, decode, overhead, each) && |batch| == DEFAULT_CONCURRENCY
    ensures Total(t, batch, decode, overhead) > LEASE_MS <==> each > 1000
  {
    FullLengthTotal(t, batch, |batch|, decode, overhead, each);
    SpanIsProduct(|batch|, each);
  }

  /** A batch under way: its jobs are as claimed, started under the same lease, or settled. */
  ghost predicate MidBatch(claimed: Tables, m: Moment, batch: seq<JobId>) {
    && m.db.jobs.Keys == claimed.jobs.Keys && m.db.queues == claimed.queues
    && (forall id | id in claimed.jobs ::
          if id in batch then
            && m.db.jobs[id].spec == claimed.jobs[id].spec
            && (Active(m.db.jobs[id]) ==> Active(claimed.jobs[id]) && m.db.jobs[id].lease == claimed.jobs[id].lease)
          else m.db.jobs[id] == claimed.jobs[id])
  }

  /** No queue has more active jobs than it had at the start or its limit allows. */
  ghost predicate WithinCaps(start: Tables, m: Moment) {
    forall q :: |C.ActiveIn(m.db, q)| <= Max(|C.ActiveIn(start, q)|, C.LimitOr(start, q, DEFAULT_CONCURRENCY))
  }

  /** Only a lease that was there from the start has run out. */
  ghost predicate NoneOutlived(start: Tables, m: Moment) {
    forall id | id in m.db.jobs && Expired(m.db.jobs[id], m.time) ::
      id in start.jobs && m.db.jobs[id] == start.jobs[id]
  }

  method ChooseBatch(db: Tables, q: QueueId, now: Time) returns (batch: seq<JobId>)
    ensures C.ValidBatch(db, q, now, {}, true, C.Budget(db, q, DEFAULT_CONCURRENCY), batch)
  {
    var rows := Store.Scan(db.jobs.Keys);
    var index := C.Sort(db, C.Filter(C.InIndex(db, q), rows), true);
    batch := C.ClaimWalk(db, q, now, {}, true, C.Budget(db, q, DEFAULT_CONCURRENCY), index, rows);
  }

  /** The jobs the claim query chooses, in the order in which RETURNING happens to report them. */
  ghost predicate Takes(t: Tables, q: QueueId, now: Time, batch: seq<JobId>) {
    C.Known(t, batch) && exists chosen ::
      C.ValidBatch(t, q, now, {}, true, C.Budget(t, q, DEFAULT_CONCURRENCY), chosen) && C.SameJobs(batch, chosen)
  }

  lemma SameKnown(t: Tables, batch: seq<JobId>, chosen: seq<JobId>)
    requires C.Known(t, chosen) && C.SameJobs(batch, chosen)
    ensures C.Known(t, batch)
  {
    forall i | 0 <= i < |batch| ensures batch[i] in t.jobs {
      assert batch[i] in batch;
      assert batch[i] in chosen;
    }
  }

  method AnyOrder(chosen: seq<JobId>) returns (batch: seq<JobId>)
    requires C.Distinct(chosen)
    ensures C.SameJobs(batch, chosen)
  {
    var rows := set id | id in chosen;
    batch := Store.Scan(rows);
    forall id ensures id in batch <==> id in chosen {
      assert id in rows <==> id in chosen;
    }
    C.SameSize(batch, chosen);
  }

  lemma TakesMeans(t: Tables, q: QueueId, now: Time, batch: seq<JobId>)
    requires Takes(t, q, now, batch)
    ensures C.Distinct(batch) && C.Known(t, batch) && |batch| <= C.Budget(t, q, DEFAULT_CONCURRENCY)
    ensures forall i | 0 <= i < |batch| :: C.Claimable(t, q, now, {}, true, batch[i])
  {
    var chosen :| C.ValidBatch(t, q, now, {}, true, C.Budget(t, q, DEFAULT_CONCURRENCY), chosen)
                  && C.SameJobs(batch, chosen);
    forall i | 0 <= i < |batch| ensures C.Claimable(t, q, now, {}, true, batch[i]) && batch[i] in t.jobs {
      assert batch[i] in batch;
      assert batch[i] in chosen;
      var k :| 0 <= k < |chosen| && chosen[k] == batch[i];
      assert C.Claimable(t, q, now, {}, true, chosen[k]);
    }
  }

  /** Whatever the reported order, the batch is best first, and the queue is full if a due row is left. */
  lemma TakesBest(t: Tables, w: WorkerId, q: QueueId, now: Time, batch: seq<JobId>)
    requires Takes(t, q, now, batch)
    ensures C.NoneBetterLeft(t, q, now, {}, true, batch)
    ensures C.FullIfLeft(t, S.ClaimRows(t, w, batch, now, LEASE_MS), q, now, {}, true, batch, 5)
    ensures |C.ActiveIn(S.ClaimRows(t, w, batch, now, LEASE_MS), q)| == |C.ActiveIn(t, q)| + |batch|
  {
    var chosen :| C.ValidBatch(t, q, now, {}, true, C.Budget(t, q, DEFAULT_CONCURRENCY), chosen)
                  && C.SameJobs(batch, chosen);
    C.ValidIsBestFirst(t, q, now, {}, true, C.Budget(t, q, DEFAULT_CONCURRENCY), chosen);
    C.LeftOnlyWhenFull(t, w, q, now, {}, true, LEASE_MS, DEFAULT_CONCURRENCY, chosen);
    C.ClaimCounts(t, w, q, now, {}, true, LEASE_MS, C.Budget(t, q, DEFAULT_CONCURRENCY), chosen);
    SameClaim(t, w, batch, chosen, now);
    forall id, k | C.LeftBehind(t, q, now, {}, true, batch, id) && 0 <= k < |batch|
      ensures C.NoWorse(t.jobs[batch[k]], t.jobs[id], true)
    {
      assert C.LeftBehind(t, q, now, {}, true, chosen, id);
      assert batch[k] in batch;
      var m :| 0 <= m < |chosen| && chosen[m] == batch[k];
      assert C.NoWorse(t.jobs[chosen[m]], t.jobs[id], true);
    }
    forall id | C.LeftBehind(t, q, now, {}, true, batch, id)
      ensures C.LeftBehind(t, q, now, {}, true, chosen, id)
    {
    }
  }

  lemma SameClaim(t: Tables, w: WorkerId, a: seq<JobId>, b: seq<JobId>, now: Time)
    requires C.SameJobs(a, b)
    ensures S.ClaimRows(t, w, a, now, LEASE_MS) == S.ClaimRows(t, w, b, now, LEASE_MS)
  {
    var x, y := S.ClaimRows(t, w, a, now, LEASE_MS), S.ClaimRows(t, w, b, now, LEASE_MS);
    forall id | id in t.jobs ensures x.jobs[id] == y.jobs[id] {
      assert id in a <==> id in b;
    }
    assert x.jobs == y.jobs;
  }

  // ---- two ticks at once ----

  /**
   The tick reads the budget in one statement and claims in another. If two ticks both read
   it before either claims, the queue passes its limit exactly if their batches together
   are larger than the budget.
   */
  lemma OverlapExactly(t: Tables, q: QueueId, now: Time, w: WorkerId, a: seq<JobId>, v: WorkerId, b: seq<JobId>)
    requires C.ValidBatch(t, q, now, {}, true, C.Budget(t, q, DEFAULT_CONCURRENCY), a)
    requires C.ValidBatch(S.ClaimRows(t, w, a, now, LEASE_MS), q, now, {}, true, C.Budget(t, q, DEFAULT_CONCURRENCY), b)
    ensures var after := S.ClaimRows(S.ClaimRows(t, w, a, now, LEASE_MS), v, b, now, LEASE_MS);
            |C.ActiveIn(after, q)| > Max(|C.ActiveIn(t, q)|, C.LimitOr(t, q, DEFAULT_CONCURRENCY)) <==>
            |a| + |b| > C.Budget(t, q, DEFAULT_CONCURRENCY)
  {
    var stale := C.Budget(t, q, DEFAULT_CONCURRENCY);
    C.ClaimCounts(t, w, q, now, {}, true, LEASE_MS, stale, a);
    C.ClaimCounts(S.ClaimRows(t, w, a, now, LEASE_MS), v, q, now, {}, true, LEASE_MS, stale, b);
  }

  function DueJob(): Job {
    Job(JobSpec(0, 0, [], None, 1, None, None, None), Queued, None, 0, None, None, None, None, None, None)
  }

  /** Two due jobs and a limit of one are enough. */
  lemma OverlapHappens(now: Time, w: WorkerId, v: WorkerId)
    ensures exists t, a, b ::
      && C.ValidBatch(t, 0, now, {}, true, C.Budget(t, 0, DEFAULT_CONCURRENCY), a)
      && C.ValidBatch(S.ClaimRows(t, w, a, now, LEASE_MS), 0, now, {}, true, C.Budget(t, 0, DEFAULT_CONCURRENCY), b)
      && C.LimitOr(t, 0, DEFAULT_CONCURRENCY) == 1
      && |C.ActiveIn(S.ClaimRows(S.ClaimRows(t, w, a, now, LEASE_MS), v, b, now, LEASE_MS), 0)| == 2
  {
    var t := Tables(map[0 := DueJob(), 1 := DueJob()], map[], map[0 := Queue(Some(1), false, 0)], map[]);
    var t1 := S.ClaimRows(t, w, [0], now, LEASE_MS);
    assert C.ActiveIn(t, 0) == {};
    assert C.Claimable(t, 0, now, {}, true, 0) && C.Claimable(t1, 0, now, {}, true, 1);
    assert C.ValidBatch(t, 0, now, {}, true, C.Budget(t, 0, DEFAULT_CONCURRENCY), [0]);
    assert C.ValidBatch(t1, 0, now, {}, true, C.Budget(t, 0, DEFAULT_CONCURRENCY), [1]);
    C.ClaimCounts(t, w, 0, now, {}, true, LEASE_MS, 1, [0]);
    C.ClaimCounts(t1, v, 0, now, {}, true, LEASE_MS, 1, [1]);
  }

  class Tick {
    var now: Time
    var db: Tables
    /** The tables after every write, and before it if time has passed since the last one. */
    ghost var seen: seq<Moment>

    constructor (now: Time, db: Tables)
      ensures this.now == now && this.db == db && this.seen == []
    {
      this.now, this.db, this.seen := now, db, [];
    }

    /** Runs one claimed job to its settling write. `overhead` is time spent outside the sleep. */
    method ExecuteJob(id: JobId, job: Job, kind: Kind, overhead: nat)
      requires id in db.jobs && db.jobs[id] == job
      modifies this
      ensures now == old(now) + BusyMs(kind) + overhead
      ensures var started := old(db).(jobs := old(db).jobs[id := StartedRow(job)]);
              seen == old(seen) + [Moment(old(now), started), Moment(now, started), Moment(now, db)]
      ensures db == old(db).(jobs := db.jobs, dlq := db.dlq)
      ensures id in db.jobs && db.jobs == old(db.jobs)[id := db.jobs[id]]
      ensures SettledAs(job, db.jobs[id], kind) && SettlesTo(job, db.jobs[id], kind, now)
      ensures db.jobs[id].status != DeadLetter || id in old(db.dlq) ==> db.dlq == old(db.dlq)
      ensures kind.AlwaysFail? && db.jobs[id].status == DeadLetter && id !in old(db.dlq) ==>
                db.dlq == old(db.dlq)[id := DeadLetterRow(job.spec.queue, job.spec.payload, now, kind.message,
                                                          job.attempts + 1)]
      ensures |seen| > |old(seen)| && id in seen[|old(seen)|].db.jobs
              && seen[|old(seen)|].db.jobs[id]
                 == Job(job.spec, Running, job.nextRunAt, job.attempts + 1, job.worker, job.claimedAt, job.lease,
                        job.completedAt, job.failedAt, job.error)
    {
      var attempt := job.attempts + 1;
      db := db.(jobs := db.jobs[id := StartedRow(db.jobs[id])]);
      seen := seen + [Moment(now, db)];

      var success, reason := true, "";
      now := now + BusyMs(kind) + overhead;
      if kind.AlwaysFail? {
        success, reason := false, kind.message;
      }

      seen := seen + [Moment(now, db)];

      if success {
        db := db.(jobs := db.jobs[id := DoneRow(db.jobs[id], now)]);
      } else if attempt >= job.spec.maxAttempts {
        db := db.(jobs := db.jobs[id := DeadRow(db.jobs[id], now, reason)]);
        if id !in db.dlq {
          db := db.(dlq := db.dlq[id := DeadLetterRow(job.spec.queue, job.spec.payload, now, reason, attempt)]);
        }
      } else {
        db := db.(jobs := db.jobs[id := RetryRow(db.jobs[id], now, reason)]);
      }
      seen := seen + [Moment(now, db)];
    }

    /** Claims up to the queue's remaining budget, best first, under a fresh lease. */
    method ClaimQueue(w: WorkerId, q: QueueId) returns (batch: seq<JobId>)
      modifies this`db
      ensures Takes(old(db), q, now, batch)
      ensures db == S.ClaimRows(old(db), w, batch, now, LEASE_MS)
      ensures |C.ActiveIn(db, q)| <= Max(|C.ActiveIn(old(db), q)|, C.LimitOr(old(db), q, DEFAULT_CONCURRENCY))
      ensures C.NoneBetterLeft(old(db), q, now, {}, true, batch)
      ensures C.FullIfLeft(old(db), db, q, now, {}, true, batch, 5)
      ensures Store.Took(old(db).jobs, db.jobs, batch, w, now, 30000)
    {
      var chosen := ChooseBatch(db, q, now);
      C.ClaimKeepsLimit(db, w, q, now, {}, true, LEASE_MS, DEFAULT_CONCURRENCY, chosen);
      batch := AnyOrder(chosen);
      SameKnown(db, batch, chosen);
      SameClaim(db, w, batch, chosen, now);
      TakesBest(db, w, q, now, batch);
      db := S.ClaimRows(db, w, batch, now, LEASE_MS);
    }

    /** The claim, and the moment it shows. */
    method BeginQueue(w: WorkerId, q: QueueId) returns (batch: seq<JobId>)
      modifies this`db, this`seen
      ensures Takes(old(db), q, now, batch) && C.Distinct(batch)
      ensures db == S.ClaimRows(old(db), w, batch, now, LEASE_MS) && C.Known(db, batch)
      ensures seen == old(seen) + [Moment(now, db)]
      ensures LettersOk(old(db)) ==> LettersOk(db)
      ensures forall i | 0 <= i < |batch| :: db.jobs[batch[i]].status == Claimed
    {
      ghost var start := db;
      batch := ClaimQueue(w, q);
      seen := seen + [Moment(now, db)];
      TakesMeans(start, q, now, batch);
      BatchIsClaimed(start, w, q, now, batch);
    }

    /** One round of the batch's loop, with what it adds to the history. */
    method ExecuteNext(
      batch: seq<JobId>, k: nat, decode: string -> Kind, overhead: JobId -> nat, ghost start: Tables, ghost from: nat)
      requires k < |batch| && C.Distinct(batch) && C.Known(start, batch)
      requires start.jobs[batch[k]].status == Claimed && Did(start, db, batch[..k], decode)
      requires from <= |seen| && AllMid(start, seen, from, now, batch)
      modifies this
      ensures now == old(now) + Cost(start.jobs[batch[k]], batch[k], decode, overhead)
      ensures LettersOk(old(db)) ==> LettersOk(db)
      ensures Did(start, db, batch[..k + 1], decode)
      ensures old(seen) <= seen && |seen| == |old(seen)| + 3 && AllMid(start, seen, from, now, batch)
      ensures LastStillRuns(start, seen, now, batch[k])
    {
      var id := batch[k];
      assert id !in batch[..k];
      assert id in start.jobs && db.jobs[id] == start.jobs[id];
      ghost var before, history, was := db, seen, now;
      ExecuteJob(id, db.jobs[id], decode(db.jobs[id].spec.payload), overhead(id));
      if LettersOk(before) {
        LettersKept(before, db, id);
      }
      BatchGoesOn(start, before, db, batch, k, decode, history, from, was, now);
    }

    /** Executes the claimed jobs one after the other. */
    method ExecuteBatch(batch: seq<JobId>, decode: string -> Kind, overhead: JobId -> nat)
      requires C.Distinct(batch) && C.Known(db, batch)
      requires forall i | 0 <= i < |batch| :: db.jobs[batch[i]].status == Claimed
      modifies this
      ensures LettersOk(old(db)) ==> LettersOk(db)
      ensures Did(old(db), db, batch, decode)
      ensures now == old(now) + Total(old(db), batch, decode, overhead)
      ensures old(seen) <= seen && |seen| == |old(seen)| + 3 * |batch|
      ensures AllMid(old(db), seen, |old(seen)|, now, batch)
      ensures |batch| > 0 ==> LastStillRuns(old(db), seen, now, batch[|batch| - 1])
    {
      ghost var start, past := db, seen;
      var k := 0;
      while k < |batch|
        invariant 0 <= k <= |batch|
        invariant LettersOk(start) ==> LettersOk(db)
        invariant Did(start, db, batch[..k], decode)
        invariant now == old(now) + TotalOf(start, batch, k, decode, overhead)
        invariant past <= seen && |seen| == |past| + 3 * k
        invariant AllMid(start, seen, |past|, now, batch)
        invariant k > 0 ==> LastStillRuns(start, seen, now, batch[k - 1])
      {
        ExecuteNext(batch, k, decode, overhead, start, |past|);
        k := k + 1;
      }
      assert batch[..k] == batch;
    }

    /**
     One queue's share of a tick. It takes as long as its jobs together, and no moment of it
     exceeds a cap. Whether a lease runs out under a running job depends on that time alone:
     none does if it fits the lease, and otherwise the last job's has.
     */
    method RunQueue(w: WorkerId, q: QueueId, decode: string -> Kind, overhead: JobId -> nat)
      returns (batch: seq<JobId>)
      modifies this
      ensures LettersOk(old(db)) ==> LettersOk(db)
      ensures Did(old(db), db, batch, decode)
      ensures Takes(old(db), q, old(now), batch)
      ensures now == old(now) + Total(old(db), batch, decode, overhead)
      ensures old(seen) <= seen && |seen| == |old(seen)| + 1 + 3 * |batch|
      ensures seen[|old(seen)|] == Moment(old(now), S.ClaimRows(old(db), w, batch, old(now), LEASE_MS))
      ensures forall i | |old(seen)| <= i < |seen| :: WithinCaps(old(db), seen[i])
      ensures AllNoneOutlived(old(db), seen, |old(seen)|) <==> Total(old(db), batch, decode, overhead) <= LEASE_MS
      ensures |batch| > 0 ==>
                (LastOutlived(seen, batch[|batch| - 1]) <==> Total(old(db), batch, decode, overhead) > LEASE_MS)
      ensures forall each: nat | |batch| == DEFAULT_CONCURRENCY && FullLength(old(db), batch, decode, overhead, each) ::
                LastOutlived(seen, batch[|batch| - 1]) <==> each > 1000
    {
      ghost var start, begun, past := db, now, seen;
      batch := BeginQueue(w, q);
      ghost var claimed := db;
      ExecuteBatch(batch, decode, overhead);
      TotalThroughClaim(start, w, begun, batch, |batch|, decode, overhead);
      DidThroughClaim(start, db, w, begun, batch, decode);
      ShareExactly(start, claimed, w, q, begun, seen, |past|, now, batch, decode, overhead);
    }

    /**
     A whole tick, run alone and without error: no job is executed twice, every executed
     job is settled one attempt further on, every expired row left over is queued and
     unowned, every other row is as it was, and no queue ends with more active jobs than it
     had. Every queue that is not paused is served: what was due is executed best first
     until the queue is full. No moment of the tick exceeds a cap, and no job it claims
     outlives its lease if every queue's limit fits the lease. `order` is the answer of the
     query for the queues, in whatever order it came.
     */
    method RunWorkerTick(w: WorkerId, decode: string -> Kind, overhead: JobId -> nat, ghost most: nat)
      returns (executed: seq<JobId>, order: seq<QueueId>)
      modifies this
      ensures C.Distinct(order) && forall q :: q in order <==> q in old(db).queues && !old(db).queues[q].paused
      ensures LettersOk(old(db)) ==> LettersOk(db)
      ensures C.Distinct(executed)
      ensures Did(Reaped(old(db), old(now)), db, executed, decode)
      ensures db.jobs.Keys == old(db).jobs.Keys
      ensures forall id | id in db.jobs :: Ticked(old(db).jobs[id], db.jobs[id], old(now), id in executed, decode)
      ensures forall q | q in order :: QueueDone(Reaped(old(db), old(now)), executed, q, old(now))
      ensures forall i | 0 <= i < |executed| :: executed[i] in db.jobs && db.jobs[executed[i]].spec.queue in order
      ensures forall q :: C.ActiveIn(db, q) == C.ActiveIn(Reaped(old(db), old(now)), q)
      ensures old(seen) <= seen && |seen| == |old(seen)| + 1 + |order| + 3 * |executed|
      ensures seen[|old(seen)|] == Moment(old(now), Reaped(old(db), old(now)))
      ensures forall id | id in old(db).jobs :: Swept(old(db).jobs[id], Reaped(old(db), old(now)).jobs[id], old(now))
      ensures forall i | |old(seen)| <= i < |seen| :: WithinCaps(Reaped(old(db), old(now)), seen[i])
      ensures LimitsFitLease(old(db), order, overhead, most) ==>
                AllNoneOutlived(Reaped(old(db), old(now)), seen, |old(seen)|)
    {
      db := Reaped(db, now);
      ghost var start, past := db, seen;
      seen := seen + [Moment(now, db)];
      if LettersOk(old(db)) {
        ReapedLettersOk(old(db), now);
      }
      order := OpenQueues(db);
      executed := ServeAll(w, order, decode, overhead, most, |past|);
      assert order[..|order|] == order;
      ServedIsTicked(old(db), db, old(now), executed, order, decode);
    }

    /** The tick's loop over the queues. */
    method ServeAll(
      w: WorkerId, order: seq<QueueId>, decode: string -> Kind, overhead: JobId -> nat, ghost most: nat, ghost from: nat)
      returns (executed: seq<JobId>)
      requires C.Distinct(order)
      requires from <= |seen| && SeenFine(db, seen, from, order, overhead, most)
      modifies this
      ensures LettersOk(old(db)) ==> LettersOk(db)
      ensures Served(old(db), db, executed, order, |order|, decode)
      ensures AllDone(old(db), executed, order, |order|, old(now))
      ensures old(seen) <= seen && |seen| == |old(seen)| + |order| + 3 * |executed|
      ensures SeenFine(old(db), seen, from, order, overhead, most)
    {
      ghost var start, past := db, seen;
      executed := [];
      var k := 0;
      while k < |order|
        invariant 0 <= k <= |order|
        invariant LettersOk(start) ==> LettersOk(db)
        invariant Served(start, db, executed, order, k, decode)
        invariant old(now) <= now && AllDone(start, executed, order, k, old(now))
        invariant past <= seen && |seen| == |past| + k + 3 * |executed|
        invariant SeenFine(start, seen, from, order, overhead, most)
      {
        executed := ServeNext(w, order, k, executed, decode, overhead, most, start, from, old(now));
        k := k + 1;
      }
    }

    /** One round of the tick's loop: one more queue is served. */
    method ServeNext(
      w: WorkerId, order: seq<QueueId>, k: nat, executed: seq<JobId>, decode: string -> Kind, overhead: JobId -> nat,
      ghost most: nat, ghost start: Tables, ghost from: nat, ghost at: Time)
      returns (more: seq<JobId>)
      requires k < |order| && C.Distinct(order) && Served(start, db, executed, order, k, decode)
      requires from <= |seen| && SeenFine(start, seen, from, order, overhead, most)
      requires at <= now && AllDone(start, executed, order, k, at)
      modifies this
      ensures LettersOk(old(db)) ==> LettersOk(db)
      ensures Served(start, db, more, order, k + 1, decode)
      ensures at <= now && AllDone(start, more, order, k + 1, at)
      ensures executed <= more && old(seen) <= seen
      ensures |seen| == |old(seen)| + 1 + 3 * (|more| - |executed|)
      ensures SeenFine(start, seen, from, order, overhead, most)
    {
      ghost var before, history := db, seen;
      ghost var begun := now;
      var batch := RunQueue(w, order[k], decode, overhead);
      TakesMeans(before, order[k], begun, batch);
      if LimitsFitLease(start, order, overhead, most) {
        BatchFitsLease(start, before, order, k, decode, overhead, most, batch);
      }
      MoreSeenFine(start, before, executed, decode, history, seen, from, order, overhead, most);
      TickGoesOn(start, before, db, executed, batch, order, k, decode);
      more := executed + batch;
      MoreDone(start, before, w, executed, batch, order, k, decode, begun, at);
    }
  }

  // ---- the moments of a tick ----

  /** Just before the last write of a batch its last job is running under the lease it was claimed with. */
  ghost predicate LastStillRuns(claimed: Tables, seen: seq<Moment>, now: Time, id: JobId) {
    && |seen| >= 2 && seen[|seen| - 2].time == now && id in claimed.jobs && id in seen[|seen| - 2].db.jobs
    && seen[|seen| - 2].db.jobs[id].status == Running
    && seen[|seen| - 2].db.jobs[id].lease == claimed.jobs[id].lease
  }

  /** Just before the last write the job's lease has run out. */
  ghost predicate LastOutlived(seen: seq<Moment>, id: JobId) {
    && |seen| >= 2 && id in seen[|seen| - 2].db.jobs
    && Expired(seen[|seen| - 2].db.jobs[id], seen[|seen| - 2].time)
  }

  /** No moment from position `from` on shows an outlived lease. */
  ghost predicate AllNoneOutlived(start: Tables, seen: seq<Moment>, from: nat) {
    forall i | from <= i < |seen| :: NoneOutlived(start, seen[i])
  }

  /** Every queue's limit, in jobs of full length, fits the lease. */
  ghost predicate LimitsFitLease(t: Tables, order: seq<QueueId>, overhead: JobId -> nat, most: nat) {
    && AtMost(overhead, most)
    && (forall k | 0 <= k < |order| :: Span(Max(C.LimitOr(t, order[k], DEFAULT_CONCURRENCY), 0), most) <= LEASE_MS)
  }

  /** Every moment from position `from` on shows the batch under way. */
  ghost predicate AllMid(claimed: Tables, seen: seq<Moment>, from: nat, now: Time, batch: seq<JobId>) {
    forall i | from <= i < |seen| :: seen[i].time <= now && MidBatch(claimed, seen[i], batch)
  }

  lemma MidClaimed(claimed: Tables, now: Time, batch: seq<JobId>)
    ensures MidBatch(claimed, Moment(now, claimed), batch)
  {
  }

  lemma MidStarted(start: Tables, before: Tables, batch: seq<JobId>, k: nat, decode: string -> Kind)
    requires k < |batch| && C.Distinct(batch) && Did(start, before, batch[..k], decode)
    requires batch[k] in before.jobs && before.jobs[batch[k]].status == Claimed
    ensures var started := before.(jobs := before.jobs[batch[k] := StartedRow(before.jobs[batch[k]])]);
            forall time :: MidBatch(start, Moment(time, started), batch)
  {
    var started := before.(jobs := before.jobs[batch[k] := StartedRow(before.jobs[batch[k]])]);
    assert batch[k] !in batch[..k];
    forall id | id in start.jobs
      ensures if id in batch then
                && started.jobs[id].spec == start.jobs[id].spec
                && (Active(started.jobs[id]) ==> Active(start.jobs[id]) && started.jobs[id].lease == start.jobs[id].lease)
              else started.jobs[id] == start.jobs[id]
    {
      assert id in batch[..k] ==> id in batch;
      assert id in before.jobs;
    }
  }

  lemma MidDone(start: Tables, after: Tables, batch: seq<JobId>, k: nat, decode: string -> Kind)
    requires k <= |batch| && Did(start, after, batch[..k], decode)
    ensures forall time :: MidBatch(start, Moment(time, after), batch)
  {
    forall id | id in start.jobs
      ensures if id in batch then
                && after.jobs[id].spec == start.jobs[id].spec
                && (Active(after.jobs[id]) ==> Active(start.jobs[id]) && after.jobs[id].lease == start.jobs[id].lease)
              else after.jobs[id] == start.jobs[id]
    {
      assert id in batch[..k] ==> id in batch;
    }
  }

  /** The claim takes its own queue to its limit at most and leaves the others alone. */
  lemma ClaimWithinCaps(start: Tables, w: WorkerId, q: QueueId, now: Time, batch: seq<JobId>)
    requires Takes(start, q, now, batch)
    ensures WithinCaps(start, Moment(now, S.ClaimRows(start, w, batch, now, LEASE_MS)))
  {
    var claimed := S.ClaimRows(start, w, batch, now, LEASE_MS);
    TakesMeans(start, q, now, batch);
    var chosen :| C.ValidBatch(start, q, now, {}, true, C.Budget(start, q, DEFAULT_CONCURRENCY), chosen)
                  && C.SameJobs(batch, chosen);
    SameClaim(start, w, batch, chosen, now);
    C.ClaimKeepsLimit(start, w, q, now, {}, true, LEASE_MS, DEFAULT_CONCURRENCY, chosen);
    forall p | p != q ensures C.ActiveIn(claimed, p) == C.ActiveIn(start, p) {
    }
  }

  lemma MidWithinCaps(start: Tables, claimed: Tables, begun: Time, m: Moment, batch: seq<JobId>)
    requires WithinCaps(start, Moment(begun, claimed)) && MidBatch(claimed, m, batch)
    ensures WithinCaps(start, m)
  {
    forall q ensures |C.ActiveIn(m.db, q)| <= Max(|C.ActiveIn(start, q)|, C.LimitOr(start, q, DEFAULT_CONCURRENCY)) {
      forall id | id in C.ActiveIn(m.db, q) ensures id in C.ActiveIn(claimed, q) {
        assert id in claimed.jobs;
      }
      C.CardMonotone(C.ActiveIn(m.db, q), C.ActiveIn(claimed, q));
      assert |C.ActiveIn(Moment(begun, claimed).db, q)|
          <= Max(|C.ActiveIn(start, q)|, C.LimitOr(start, q, DEFAULT_CONCURRENCY));
    }
  }

  lemma MidOutlivesNone(start: Tables, w: WorkerId, begun: Time, m: Moment, batch: seq<JobId>)
    requires MidBatch(S.ClaimRows(start, w, batch, begun, LEASE_MS), m, batch) && m.time <= begun + LEASE_MS
    ensures NoneOutlived(start, m)
  {
    var claimed := S.ClaimRows(start, w, batch, begun, LEASE_MS);
    forall id | id in m.db.jobs && Expired(m.db.jobs[id], m.time)
      ensures id in start.jobs && m.db.jobs[id] == start.jobs[id]
    {
      assert id in claimed.jobs;
    }
  }

  /** Three more moments of the same batch. */
  lemma MidGoesOn(
    claimed: Tables, history: seq<Moment>, more: seq<Moment>, from: nat, was: Time, now: Time, batch: seq<JobId>)
    requires AllMid(claimed, history, from, was, batch) && was <= now
    requires AllMid(claimed, more, 0, now, batch)
    ensures AllMid(claimed, history + more, from, now, batch)
  {
    var seen := history + more;
    forall i | from <= i < |seen| ensures seen[i].time <= now && MidBatch(claimed, seen[i], batch) {
      if i < |history| {
        assert seen[i] == history[i];
      } else {
        assert seen[i] == more[i - |history|];
      }
    }
  }

  /** One more job of the batch has been executed. */
  lemma BatchGoesOn(
    start: Tables, before: Tables, after: Tables, batch: seq<JobId>, k: nat, decode: string -> Kind,
    history: seq<Moment>, from: nat, was: Time, now: Time)
    requires k < |batch| && C.Distinct(batch) && Did(start, before, batch[..k], decode)
    requires batch[k] in before.jobs && before.jobs[batch[k]].status == Claimed && after.queues == before.queues
    requires batch[k] in after.jobs && after.jobs == before.jobs[batch[k] := after.jobs[batch[k]]]
    requires SettledAs(before.jobs[batch[k]], after.jobs[batch[k]], decode(before.jobs[batch[k]].spec.payload))
    requires was <= now && from <= |history| && AllMid(start, history, from, was, batch)
    ensures Did(start, after, batch[..k + 1], decode)
    ensures var started := before.(jobs := before.jobs[batch[k] := StartedRow(before.jobs[batch[k]])]);
            var seen := history + [Moment(was, started), Moment(now, started), Moment(now, after)];
            AllMid(start, seen, from, now, batch) && LastStillRuns(start, seen, now, batch[k])
  {
    var started := before.(jobs := before.jobs[batch[k] := StartedRow(before.jobs[batch[k]])]);
    DidOneMore(start, before, after, batch, k, decode);
    MidStarted(start, before, batch, k, decode);
    MidDone(start, after, batch, k + 1, decode);
    MidGoesOn(start, history, [Moment(was, started), Moment(now, started), Moment(now, after)], from, was, now, batch);
    assert batch[k] !in batch[..k] && batch[k] in start.jobs;
  }

  /** One queue's share, all moments together. */
  lemma ShareSeen(start: Tables, w: WorkerId, begun: Time, seen: seq<Moment>, from: nat, now: Time, batch: seq<JobId>)
    requires WithinCaps(start, Moment(begun, S.ClaimRows(start, w, batch, begun, LEASE_MS)))
    requires AllMid(S.ClaimRows(start, w, batch, begun, LEASE_MS), seen, from, now, batch)
    ensures forall i | from <= i < |seen| :: WithinCaps(start, seen[i])
    ensures now <= begun + LEASE_MS ==> AllNoneOutlived(start, seen, from)
  {
    var claimed := S.ClaimRows(start, w, batch, begun, LEASE_MS);
    forall i | from <= i < |seen| ensures WithinCaps(start, seen[i]) {
      MidWithinCaps(start, claimed, begun, seen[i], batch);
    }
    if now <= begun + LEASE_MS {
      forall i | from <= i < |seen| ensures NoneOutlived(start, seen[i]) {
        MidOutlivesNone(start, w, begun, seen[i], batch);
      }
    }
  }

  /** The outlived lease is one the share itself took: the job was queued before. */
  lemma LastOutlivedShows(
    start: Tables, q: QueueId, begun: Time, seen: seq<Moment>, from: nat, batch: seq<JobId>)
    requires |batch| > 0 && from + 2 <= |seen| && LastOutlived(seen, batch[|batch| - 1])
    requires Takes(start, q, begun, batch)
    ensures !AllNoneOutlived(start, seen, from)
  {
    var id := batch[|batch| - 1];
    TakesMeans(start, q, begun, batch);
    assert C.Claimable(start, q, begun, {}, true, batch[|batch| - 1]);
    assert !NoneOutlived(start, seen[|seen| - 2]) by {
      assert Expired(seen[|seen| - 2].db.jobs[id], seen[|seen| - 2].time);
    }
  }

  /** What one queue's share shows depends on its total time alone. */
  lemma ShareExactly(
    start: Tables, claimed: Tables, w: WorkerId, q: QueueId, begun: Time, seen: seq<Moment>, from: nat, now: Time,
    batch: seq<JobId>, decode: string -> Kind, overhead: JobId -> nat)
    requires Takes(start, q, begun, batch)
    requires claimed == S.ClaimRows(start, w, batch, begun, LEASE_MS)
    requires now == begun + Total(start, batch, decode, overhead)
    requires |seen| == from + 1 + 3 * |batch| && seen[from] == Moment(begun, claimed)
    requires AllMid(claimed, seen, from + 1, now, batch)
    requires |batch| > 0 ==> LastStillRuns(claimed, seen, now, batch[|batch| - 1])
    ensures forall i | from <= i < |seen| :: WithinCaps(start, seen[i])
    ensures AllNoneOutlived(start, seen, from) <==> Total(start, batch, decode, overhead) <= LEASE_MS
    ensures |batch| > 0 ==>
              (LastOutlived(seen, batch[|batch| - 1]) <==> Total(start, batch, decode, overhead) > LEASE_MS)
    ensures forall each: nat | |batch| == DEFAULT_CONCURRENCY && FullLength(start, batch, decode, overhead, each) ::
              LastOutlived(seen, batch[|batch| - 1]) <==> each > 1000
  {
    ClaimWithinCaps(start, w, q, begun, batch);
    MidClaimed(claimed, begun, batch);
    assert AllMid(claimed, seen, from, now, batch);
    ShareSeen(start, w, begun, seen, from, now, batch);
    if |batch| > 0 {
      LastOutlivesExactly(start, w, begun, seen, now, batch);
      if LastOutlived(seen, batch[|batch| - 1]) {
        LastOutlivedShows(start, q, begun, seen, from, batch);
      }
    }
    forall each: nat | |batch| == DEFAULT_CONCURRENCY && FullLength(start, batch, decode, overhead, each)
      ensures LastOutlived(seen, batch[|batch| - 1]) <==> each > 1000
    {
      FiveOutlastExactly(start, batch, decode, overhead, each);
    }
  }

  lemma LastOutlivesExactly(start: Tables, w: WorkerId, begun: Time, seen: seq<Moment>, now: Time, batch: seq<JobId>)
    requires |batch| > 0
    requires LastStillRuns(S.ClaimRows(start, w, batch, begun, LEASE_MS), seen, now, batch[|batch| - 1])
    ensures LastOutlived(seen, batch[|batch| - 1]) <==> now > begun + LEASE_MS
  {
  }

  lemma BatchFitsLease(
    start: Tables, before: Tables, order: seq<QueueId>, k: nat, decode: string -> Kind, overhead: JobId -> nat,
    most: nat, batch: seq<JobId>)
    requires k < |order| && LimitsFitLease(start, order, overhead, most) && before.queues == start.queues
    requires |batch| <= C.Budget(before, order[k], DEFAULT_CONCURRENCY) && C.Known(before, batch)
    ensures Total(before, batch, decode, overhead) <= LEASE_MS
  {
    TotalWithinSpan(before, batch, |batch|, decode, overhead, most);
    SpanGrows(|batch|, Max(C.LimitOr(start, order[k], DEFAULT_CONCURRENCY), 0), most);
  }

  /** Jobs of the first `k` queues were executed, each once, and nothing else happened. */
  ghost predicate Served(
    start: Tables, db: Tables, executed: seq<JobId>, order: seq<QueueId>, k: nat, decode: string -> Kind)
    requires k <= |order|
  {
    && C.Distinct(executed) && Did(start, db, executed, decode)
    && (forall i | 0 <= i < |executed| ::
          executed[i] in start.jobs && start.jobs[executed[i]].status == Queued
          && start.jobs[executed[i]].spec.queue in order[..k])
  }

  /** What the reaping leaves of a row: an expired one is queued and unowned and keeps all else. */
  predicate Swept(before: Job, after: Job, now: Time) {
    after == if Expired(before, now)
             then Job(before.spec, Queued, before.nextRunAt, before.attempts, None, None, None,
                      before.completedAt, before.failedAt, before.error)
             else before
  }

  /** What a tick leaves of a row: settled if it was executed, otherwise as the reaping left it. */
  predicate Ticked(before: Job, after: Job, now: Time, executed: bool, decode: string -> Kind) {
    if executed
    then (before.status == Queued || Expired(before, now)) && SettledAs(before, after, decode(before.spec.payload))
    else Swept(before, after, now)
  }

  lemma ServedIsTicked(
    t: Tables, after: Tables, now: Time, executed: seq<JobId>, order: seq<QueueId>, decode: string -> Kind)
    requires Served(Reaped(t, now), after, executed, order, |order|, decode)
    ensures after.jobs.Keys == t.jobs.Keys
    ensures forall id | id in t.jobs :: Swept(t.jobs[id], Reaped(t, now).jobs[id], now)
    ensures forall id | id in after.jobs :: Ticked(t.jobs[id], after.jobs[id], now, id in executed, decode)
    ensures forall i | 0 <= i < |executed| :: executed[i] in after.jobs && after.jobs[executed[i]].spec.queue in order
    ensures forall q :: C.ActiveIn(after, q) == C.ActiveIn(Reaped(t, now), q)
  {
    var start := Reaped(t, now);
    assert start.jobs.Keys == t.jobs.Keys && order[..|order|] == order;
    forall id | id in after.jobs ensures Ticked(t.jobs[id], after.jobs[id], now, id in executed, decode) {
      assert id in start.jobs;
    }
    forall i | 0 <= i < |executed|
      ensures executed[i] in after.jobs && after.jobs[executed[i]].spec.queue in order
    {
      DidSettle(start, after, executed, decode, executed[i]);
    }
    forall q ensures C.ActiveIn(after, q) == C.ActiveIn(start, q) {
      ExecutionFreesSlots(start, after, executed, decode, q);
    }
  }

  /** The executed jobs of one queue. */
  function ServedOf(start: Tables, executed: seq<JobId>, q: QueueId): set<JobId> {
    set id | id in executed && id in start.jobs && start.jobs[id].spec.queue == q
  }

  function LimitColumn(t: Tables, q: QueueId): int {
    if q in t.queues && t.queues[q].limit.Some? then t.queues[q].limit.value else 5
  }

  /**
   One queue has been served: no more jobs than it had room for, none of them worse than a
   job that was due and has not been executed, and no such job unless the room is used up.
   */
  ghost predicate QueueDone(start: Tables, executed: seq<JobId>, q: QueueId, at: Time) {
    var served := ServedOf(start, executed, q);
    && (served == {} || |C.ActiveIn(start, q)| + |served| <= LimitColumn(start, q))
    && (forall id, e | C.LeftBehind(start, q, at, {}, true, executed, id) && e in served ::
          C.NoWorse(start.jobs[e], start.jobs[id], true))
    && (forall id | C.LeftBehind(start, q, at, {}, true, executed, id) ::
          |C.ActiveIn(start, q)| + |served| >= LimitColumn(start, q))
  }

  ghost predicate AllDone(start: Tables, executed: seq<JobId>, order: seq<QueueId>, k: nat, at: Time)
    requires k <= |order|
  {
    forall i | 0 <= i < k :: QueueDone(start, executed, order[i], at)
  }

  /** Serving another queue changes nothing for this one. */
  lemma StillDone(
    start: Tables, executed: seq<JobId>, batch: seq<JobId>, q: QueueId, at: Time)
    requires QueueDone(start, executed, q, at)
    requires forall i | 0 <= i < |batch| :: batch[i] in start.jobs && start.jobs[batch[i]].spec.queue != q
    ensures QueueDone(start, executed + batch, q, at)
  {
    assert ServedOf(start, executed + batch, q) == ServedOf(start, executed, q);
    forall id | C.LeftBehind(start, q, at, {}, true, executed + batch, id)
      ensures C.LeftBehind(start, q, at, {}, true, executed, id)
    {
    }
  }

  /** The queue's share is what its claim took. */
  lemma ShareIsBatch(start: Tables, executed: seq<JobId>, batch: seq<JobId>, q: QueueId)
    requires C.Distinct(batch)
    requires forall i | 0 <= i < |batch| :: batch[i] in start.jobs && start.jobs[batch[i]].spec.queue == q
    requires forall i | 0 <= i < |executed| :: executed[i] in start.jobs && start.jobs[executed[i]].spec.queue != q
    ensures |ServedOf(start, executed + batch, q)| == |batch|
    ensures forall id :: id in ServedOf(start, executed + batch, q) <==> id in batch
  {
    var taken := C.BatchSet(batch);
    forall id ensures id in ServedOf(start, executed + batch, q) <==> id in taken {
      assert id in executed + batch <==> id in executed || id in batch;
    }
    assert ServedOf(start, executed + batch, q) == taken;
  }

  lemma QueueNowDone(
    start: Tables, before: Tables, w: WorkerId, executed: seq<JobId>, batch: seq<JobId>, q: QueueId,
    decode: string -> Kind, begun: Time, at: Time)
    requires Did(start, before, executed, decode) && Takes(before, q, begun, batch) && at <= begun
    requires forall i | 0 <= i < |executed| ::
      executed[i] in start.jobs && start.jobs[executed[i]].status == Queued && start.jobs[executed[i]].spec.queue != q
    requires forall i | 0 <= i < |batch| :: batch[i] in start.jobs && start.jobs[batch[i]] == before.jobs[batch[i]]
    ensures QueueDone(start, executed + batch, q, at)
  {
    var all := executed + batch;
    TakesMeans(before, q, begun, batch);
    TakesBest(before, w, q, begun, batch);
    ShareIsBatch(start, executed, batch, q);
    ExecutionFreesSlots(start, before, executed, decode, q);
    forall id | C.LeftBehind(start, q, at, {}, true, all, id)
      ensures C.LeftBehind(before, q, begun, {}, true, batch, id) && before.jobs[id] == start.jobs[id]
    {
      assert id in all <==> id in executed || id in batch;
      Untouched(start, before, executed, decode, id);
    }
    forall id, e | C.LeftBehind(start, q, at, {}, true, all, id) && e in ServedOf(start, all, q)
      ensures C.NoWorse(start.jobs[e], start.jobs[id], true)
    {
      assert C.LeftBehind(before, q, begun, {}, true, batch, id);
      var k :| 0 <= k < |batch| && batch[k] == e;
      assert C.NoWorse(before.jobs[batch[k]], before.jobs[id], true);
    }
  }

  lemma MoreDone(
    start: Tables, before: Tables, w: WorkerId, executed: seq<JobId>, batch: seq<JobId>, order: seq<QueueId>, k: nat,
    decode: string -> Kind, begun: Time, at: Time)
    requires k < |order| && C.Distinct(order) && Did(start, before, executed, decode)
    requires Takes(before, order[k], begun, batch) && at <= begun && AllDone(start, executed, order, k, at)
    requires forall i | 0 <= i < |executed| ::
      executed[i] in start.jobs && start.jobs[executed[i]].status == Queued
      && start.jobs[executed[i]].spec.queue in order[..k]
    ensures AllDone(start, executed + batch, order, k + 1, at)
  {
    TakesMeans(before, order[k], begun, batch);
    forall m | 0 <= m < |batch|
      ensures batch[m] in start.jobs && before.jobs[batch[m]] == start.jobs[batch[m]]
           && start.jobs[batch[m]].spec.queue == order[k]
    {
      assert C.Claimable(before, order[k], begun, {}, true, batch[m]);
      assert before.jobs.Keys == start.jobs.Keys;
      assert batch[m] !in executed by {
        if batch[m] in executed {
          DidSettle(start, before, executed, decode, batch[m]);
        }
      }
      Untouched(start, before, executed, decode, batch[m]);
    }
    QueueNowDone(start, before, w, executed, batch, order[k], decode, begun, at);
    forall i | 0 <= i < k + 1 ensures QueueDone(start, executed + batch, order[i], at) {
      if i < k {
        StillDone(start, executed, batch, order[i], at);
      }
    }
  }

  method OpenQueues(db: Tables) returns (order: seq<QueueId>)
    ensures C.Distinct(order) && forall q :: q in order <==> q in db.queues && !db.queues[q].paused
  {
    var open := set q | q in db.queues && !db.queues[q].paused;
    order := Store.Scan(open);
  }

  /** All moments are within the caps, and none shows an outlived lease if the limits fit. */
  ghost predicate SeenFine(
    start: Tables, seen: seq<Moment>, from: nat, order: seq<QueueId>, overhead: JobId -> nat, most: nat)
  {
    && (forall i | from <= i < |seen| :: WithinCaps(start, seen[i]))
    && (LimitsFitLease(start, order, overhead, most) ==> AllNoneOutlived(start, seen, from))
  }

  lemma MoreSeenFine(
    start: Tables, before: Tables, executed: seq<JobId>, decode: string -> Kind, history: seq<Moment>,
    seen: seq<Moment>, from: nat, order: seq<QueueId>, overhead: JobId -> nat, most: nat)
    requires Did(start, before, executed, decode) && history <= seen && from <= |history|
    requires forall i | 0 <= i < |executed| :: executed[i] in start.jobs && start.jobs[executed[i]].status == Queued
    requires SeenFine(start, history, from, order, overhead, most)
    requires forall i | |history| <= i < |seen| :: WithinCaps(before, seen[i])
    requires LimitsFitLease(start, order, overhead, most) ==> AllNoneOutlived(before, seen, |history|)
    ensures SeenFine(start, seen, from, order, overhead, most)
  {
    forall i | from <= i < |seen|
      ensures WithinCaps(start, seen[i])
      ensures LimitsFitLease(start, order, overhead, most) ==> NoneOutlived(start, seen[i])
    {
      if i < |history| {
        assert seen[i] == history[i];
      } else {
        SeenSinceStart(start, before, executed, decode, seen[i]);
      }
    }
  }

  /** What one queue's share shows, seen from the start of the tick. */
  lemma SeenSinceStart(start: Tables, before: Tables, executed: seq<JobId>, decode: string -> Kind, m: Moment)
    requires Did(start, before, executed, decode) && WithinCaps(before, m)
    requires forall i | 0 <= i < |executed| :: executed[i] in start.jobs && start.jobs[executed[i]].status == Queued
    ensures WithinCaps(start, m)
    ensures NoneOutlived(before, m) ==> NoneOutlived(start, m)
  {
    forall q ensures |C.ActiveIn(m.db, q)| <= Max(|C.ActiveIn(start, q)|, C.LimitOr(start, q, DEFAULT_CONCURRENCY)) {
      ExecutionFreesSlots(start, before, executed, decode, q);
    }
    if NoneOutlived(before, m) {
      forall id | id in m.db.jobs && Expired(m.db.jobs[id], m.time)
        ensures id in start.jobs && m.db.jobs[id] == start.jobs[id]
      {
        assert id in before.jobs && before.jobs[id] == m.db.jobs[id];
      }
    }
  }

  // ---- the steps of the loops ----

  lemma LettersKept(before: Tables, after: Tables, id: JobId)
    requires LettersOk(before) && id in before.jobs && before.jobs[id].status == Claimed
    requires id in after.jobs && after.jobs == before.jobs[id := after.jobs[id]]
    requires after.jobs[id].spec == before.jobs[id].spec && after.jobs[id].attempts == before.jobs[id].attempts + 1
    requires after.jobs[id].status != DeadLetter || id in before.dlq ==> after.dlq == before.dlq
    requires after.jobs[id].status == DeadLetter && id !in before.dlq ==>
               id in after.dlq && after.dlq == before.dlq[id := after.dlq[id]]
               && after.dlq[id].queue == before.jobs[id].spec.queue
               && after.dlq[id].payload == before.jobs[id].spec.payload
               && after.dlq[id].attemptsMade == before.jobs[id].attempts + 1
               && after.jobs[id].error == Some(after.dlq[id].reason)
    ensures LettersOk(after)
  {
    assert LetterOk(before, id);
    forall j | j in after.jobs ensures LetterOk(after, j) {
      assert LetterOk(before, j);
    }
  }

  lemma DidOneMore(
    start: Tables, before: Tables, after: Tables, batch: seq<JobId>, k: nat, decode: string -> Kind)
    requires k < |batch| && C.Distinct(batch) && Did(start, before, batch[..k], decode)
    requires batch[k] in before.jobs && after.queues == before.queues
    requires batch[k] in after.jobs && after.jobs == before.jobs[batch[k] := after.jobs[batch[k]]]
    requires SettledAs(before.jobs[batch[k]], after.jobs[batch[k]], decode(before.jobs[batch[k]].spec.payload))
    ensures Did(start, after, batch[..k + 1], decode)
  {
    assert batch[..k + 1] == batch[..k] + [batch[k]];
    assert batch[k] !in batch[..k];
  }

  lemma BatchIsClaimed(start: Tables, w: WorkerId, q: QueueId, now: Time, batch: seq<JobId>)
    requires Takes(start, q, now, batch)
    ensures var claimed := S.ClaimRows(start, w, batch, now, LEASE_MS);
            && C.Known(claimed, batch) && (LettersOk(start) ==> LettersOk(claimed))
            && forall i | 0 <= i < |batch| :: claimed.jobs[batch[i]].status == Claimed
  {
    TakesMeans(start, q, now, batch);
    var claimed := S.ClaimRows(start, w, batch, now, LEASE_MS);
    forall i | 0 <= i < |batch| ensures batch[i] in claimed.jobs && claimed.jobs[batch[i]].status == Claimed {
      assert C.Claimable(start, q, now, {}, true, batch[i]);
    }
    if LettersOk(start) {
      forall id | id in claimed.jobs ensures LetterOk(claimed, id) {
        assert LetterOk(start, id);
        if id in batch {
          var i :| 0 <= i < |batch| && batch[i] == id;
          assert C.Claimable(start, q, now, {}, true, batch[i]);
        }
      }
    }
  }

  lemma DidThroughClaim(
    start: Tables, after: Tables, w: WorkerId, now: Time, batch: seq<JobId>, decode: string -> Kind)
    requires Did(S.ClaimRows(start, w, batch, now, LEASE_MS), after, batch, decode)
    ensures Did(start, after, batch, decode)
  {
    var claimed := S.ClaimRows(start, w, batch, now, LEASE_MS);
    forall id | id in start.jobs
      ensures if id in batch
              then SettledAs(start.jobs[id], after.jobs[id], decode(start.jobs[id].spec.payload))
              else after.jobs[id] == start.jobs[id]
    {
      assert id in claimed.jobs;
    }
  }

  lemma ReapedLettersOk(t: Tables, now: Time)
    requires LettersOk(t)
    ensures LettersOk(Reaped(t, now))
  {
    forall id | id in t.jobs ensures LetterOk(Reaped(t, now), id) {
      assert LetterOk(t, id);
    }
  }

  /** A queue not served yet still has its rows as the reaping left them. */
  lemma TickGoesOn(
    start: Tables, before: Tables, after: Tables, executed: seq<JobId>, batch: seq<JobId>,
    order: seq<QueueId>, k: nat, decode: string -> Kind)
    requires k < |order| && C.Distinct(order) && C.Distinct(executed) && C.Distinct(batch)
    requires Did(start, before, executed, decode) && Did(before, after, batch, decode)
    requires C.Known(before, batch)
    requires forall i | 0 <= i < |batch| ::
      before.jobs[batch[i]].spec.queue == order[k] && before.jobs[batch[i]].status == Queued
    requires forall i | 0 <= i < |executed| ::
      executed[i] in start.jobs && start.jobs[executed[i]].status == Queued
      && start.jobs[executed[i]].spec.queue in order[..k]
    ensures C.Distinct(executed + batch) && Did(start, after, executed + batch, decode)
    ensures forall i | 0 <= i < |executed + batch| ::
      var id := (executed + batch)[i];
      id in start.jobs && start.jobs[id].status == Queued && start.jobs[id].spec.queue in order[..k + 1]
  {
    assert order[..k + 1] == order[..k] + [order[k]];
    assert order[k] !in order[..k];
    forall i, m | 0 <= i < |executed| && 0 <= m < |batch| ensures executed[i] != batch[m] {
      assert executed[i] in executed && executed[i] in start.jobs;
    }
    forall m | 0 <= m < |batch| ensures batch[m] in start.jobs && before.jobs[batch[m]] == start.jobs[batch[m]] {
      assert batch[m] !in executed;
      assert before.jobs.Keys == start.jobs.Keys;
      Untouched(start, before, executed, decode, batch[m]);
    }
    forall id | id in start.jobs
      ensures if id in executed + batch
              then SettledAs(start.jobs[id], after.jobs[id], decode(start.jobs[id].spec.payload))
              else after.jobs[id] == start.jobs[id]
    {
      assert id in executed + batch <==> id in executed || id in batch;
      assert id in before.jobs;
    }
  }
}
