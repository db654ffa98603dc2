/**
 The records of the scheduler's database: jobs, dead letters, queues and workers.
 Identifiers stand for UUIDs and times for any common unit.
 */
module Domain {
  type Time = int
  type JobId = int
  type QueueId = int
  type WorkerId = int

  datatype Option<+T> = None | Some(value: T)

  datatype Result<+T, +E> = Ok(value: T) | Err(error: E)

  datatype Status = Queued | Scheduled | Claimed | Running | Completed | Failed | DeadLetter

  /** The columns of a job that no statement changes after the insert. */
  datatype JobSpec = JobSpec(
    queue: QueueId, priority: int, payload: string, key: Option<string>,
    maxAttempts: int, policy: Option<int>, cron: Option<string>, batch: Option<int>)

  datatype Job = Job(
    spec: JobSpec, status: Status, nextRunAt: Option<Time>, attempts: int,
    worker: Option<WorkerId>, claimedAt: Option<Time>, lease: Option<Time>,
    completedAt: Option<Time>, failedAt: Option<Time>, error: Option<string>)

  datatype DeadLetterRow = DeadLetterRow(
    queue: QueueId, payload: string, failedAt: Time, reason: string, attemptsMade: int)

  datatype Queue = Queue(limit: Option<int>, paused: bool, priorityDefault: int)

  datatype WorkerRow = WorkerRow(online: bool, lastSeen: Time)

  /** What the API hands to the repository's insert. There is no retry policy in it. */
  datatype JobInput = JobInput(
    queue: QueueId, priority: int, payload: string, key: Option<string>,
    nextRunAt: Option<Time>, status: Status, maxAttempts: int,
    cron: Option<string>, batch: Option<int>)

  /** Dead letters are keyed by job: the table declares job_id UNIQUE. */
  datatype Tables = Tables(
    jobs: map<JobId, Job>, dlq: map<JobId, DeadLetterRow>,
    queues: map<QueueId, Queue>, workers: map<WorkerId, WorkerRow>)

  datatype DbError = UniqueViolation | ForeignKeyViolation | NotFound | Unavailable

  /** Holding a slot of the queue's concurrency budget. */
  predicate Active(r: Job) {
    r.status == Claimed || r.status == Running
  }

  predicate Unowned(r: Job) {
    r.worker.None? && r.claimedAt.None? && r.lease.None?
  }

  /** An active row whose lease lies strictly in the past. A NULL lease compares as unknown. */
  predicate Expired(r: Job, now: Time) {
    Active(r) && r.lease.Some? && r.lease.value < now
  }

  function Max(a: int, b: int): int {
    if a < b then b else a
  }

  function Min(a: int, b: int): int {
    if a < b then a else b
  }
}
