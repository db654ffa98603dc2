/**
 What can still become of a job. From every good state all jobs can be completed but the
 scheduled ones and those dropped between the two writes of a failure; and each of the ways
 to lose a job, or to complete it without running it, can really be taken.
 */
module Progress {
  import opened Domain
  import opened Statements
  import opened Claiming
  import opened Protocol
  import opened Invariant
  import opened Lifecycle
  import opened Idempotency
  import opened Recovery

  /** What a continuation may contain: changes to a queue's limit, and runs of one job. */
  datatype Rule = Rule(limits: bool, unrun: Option<JobId>)

  const ANY := Rule(true, None)

  predicate Allowed(rule: Rule, step: Step) {
    && (rule.limits || !step.PutQueue?)
    && (rule.unrun.Some? && step.MarkRunning? ==> step.j != rule.unrun.value)
  }

  /** A path all of whose steps are allowed. */
  ghost predicate Via(rule: Rule, s: State, steps: seq<Step>, end: State) {
    Path(s, steps, end) && forall k | 0 <= k < |steps| :: Allowed(rule, steps[k])
  }

  ghost predicate Reaches(rule: Rule, s: State, end: State) {
    exists steps :: Via(rule, s, steps, end)
  }

  /** The queued rows other than `id` are still as they were. */
  ghost predicate KeepsQueued(s: State, end: State, id: JobId) {
    forall x | x in s.db.jobs && s.db.jobs[x].status == Queued && x != id ::
      x in end.db.jobs && end.db.jobs[x] == s.db.jobs[x]
  }

  /** A continuation that is about `id` and leaves the other queued jobs alone. */
  ghost predicate Goes(rule: Rule, s: State, end: State, id: JobId) {
    Reaches(rule, s, end) && KeepsQueued(s, end, id) && Inv(end)
  }

  lemma Stays(rule: Rule, s: State, id: JobId)
    requires Inv(s)
    ensures Goes(rule, s, s, id)
  {
    assert Traces([s], s, [], s);
    assert Via(rule, s, [], s);
  }

  lemma ReachesOn(rule: Rule, s: State, mid: State, end: State)
    requires Reaches(rule, s, mid) && Reaches(rule, mid, end)
    ensures Reaches(rule, s, end)
  {
    var first :| Via(rule, s, first, mid);
    var second :| Via(rule, mid, second, end);
    PathAppend(s, first, mid, second, end);
    assert Via(rule, s, first + second, end);
  }

  /** A step that claims nothing but `id` leaves the other queued jobs alone. */
  lemma StepKeepsQueued(s: State, step: Step, id: JobId)
    requires Inv(s) && Enabled(s, step) && (step.Claim? ==> step.batch == [id])
    ensures KeepsQueued(s, Apply(s, step), id)
  {
    forall x | x in s.db.jobs && s.db.jobs[x].status == Queued && x != id
      ensures x in Apply(s, step).db.jobs && Apply(s, step).db.jobs[x] == s.db.jobs[x]
    {
      QueuedRowStays(s, step, x);
      StepRow(s, step, x);
    }
  }

  /** One step further on the way. */
  lemma GoOn(rule: Rule, s: State, mid: State, step: Step, id: JobId) returns (end: State)
    requires Goes(rule, s, mid, id) && Enabled(mid, step) && (step.Sweep? ==> OnTime(mid)) && Allowed(rule, step)
    requires step.Claim? ==> step.batch == [id]
    ensures Goes(rule, s, end, id) && end == Apply(mid, step)
  {
    end := OneStep(mid, step);
    assert Via(rule, mid, [step], end);
    StepKeepsQueued(mid, step, id);
    ReachesOn(rule, s, mid, end);
  }

  // ---- back to the queue ----

  /** Every worker may stop. */
  lemma {:induction false} AllStop(rule: Rule, s: State, mid: State, id: JobId) returns (end: State)
    requires Goes(rule, s, mid, id)
    ensures Goes(rule, s, end, id) && end == mid.(live := map[])
    decreases |mid.live|
  {
    if forall w :: w !in mid.live {
      assert mid.live == map[];
      end := mid;
    } else {
      var w :| w in mid.live;
      var less := GoOn(rule, s, mid, Stop(w), id);
      assert less.live.Keys == mid.live.Keys - {w};
      end := AllStop(rule, s, less, id);
    }
  }

  lemma ActiveToQueue(rule: Rule, s: State, id: JobId) returns (end: State)
    requires Inv(s) && id in s.db.jobs && Active(s.db.jobs[id])
    ensures Goes(rule, s, end, id) && InQueue(s, end, id)
  {
    Stays(rule, s, id);
    var s1 := AllStop(rule, s, s, id);
    assert RowOk(s1.db, id);
    var s2 := GoOn(rule, s, s1, Advance(Max(s1.db.jobs[id].lease.value - s1.now, 0) + 1), id);
    end := GoOn(rule, s, s2, Sweep, id);
  }

  /** The job waits in the queue, with what was submitted. */
  predicate InQueue(s: State, end: State, id: JobId) {
    && id in s.db.jobs && id in end.db.jobs && end.db.jobs[id].status == Queued
    && end.db.jobs[id].spec == s.db.jobs[id].spec
  }

  /** A job that is not stuck can be brought back to the queue. */
  lemma BackToQueue(rule: Rule, s: State, id: JobId) returns (end: State)
    requires Inv(s) && id in s.db.jobs && !Stuck(s, id)
    ensures Goes(rule, s, end, id) && InQueue(s, end, id)
  {
    assert RowOk(s.db, id);
    Stays(rule, s, id);
    match s.db.jobs[id].status
    case Queued => end := s;
    case DeadLetter => end := GoOn(rule, s, s, RetryDead(id), id);
    case Failed =>
      var w := s.db.jobs[id].worker.value;
      assert FlightOk(s, w, id);
      end := GoOn(rule, s, s, Requeue(w, id, s.now), id);
    case _ => end := ActiveToQueue(rule, s, id);
  }

  // ---- from the queue into a worker's hands ----

  lemma {:induction false} UnusedId(used: set<int>) returns (w: int)
    ensures forall v | v in used :: v < w
  {
    if v :| v in used {
      w := UnusedId(used - {v});
      w := Max(w, v + 1);
      assert used == (used - {v}) + {v};
    } else {
      w := 0;
    }
  }

  /** Due, in a queue with room. */
  ghost predicate Ready(s: State, id: JobId) {
    && FreeAndDue(s, id) && s.db.jobs[id].spec.queue in s.db.queues
    && Budget(s.db, s.db.jobs[id].spec.queue, UNLIMITED) >= 1
  }

  /** The queue exists and its limit is not zero. */
  predicate HasRoom(t: Tables, q: QueueId) {
    q in t.queues && LimitOr(t, q, UNLIMITED) >= 1
  }

  /** Waits until the job is due, in a queue with room. */
  lemma Await(rule: Rule, s: State, mid: State, id: JobId) returns (end: State)
    requires Goes(rule, s, mid, id) && id in mid.db.jobs && mid.db.jobs[id].status == Queued
    requires mid.db.jobs[id].spec.queue in mid.db.queues
    requires Budget(mid.db, mid.db.jobs[id].spec.queue, UNLIMITED) >= 1
    ensures Goes(rule, s, end, id) && Ready(end, id) && end.db.jobs[id] == mid.db.jobs[id]
  {
    assert RowOk(mid.db, id);
    end := GoOn(rule, s, mid, Advance(Max(mid.db.jobs[id].nextRunAt.value - mid.now, 0)), id);
  }

  /** With the API's help: raise the limit. */
  lemma RaiseLimit(rule: Rule, s: State, id: JobId) returns (end: State)
    requires Inv(s) && id in s.db.jobs && s.db.jobs[id].status == Queued && rule.limits
    ensures Goes(rule, s, end, id) && Ready(end, id) && end.db.jobs[id] == s.db.jobs[id]
  {
    Stays(rule, s, id);
    var q := s.db.jobs[id].spec.queue;
    var s1 := GoOn(rule, s, s, PutQueue(q, Queue(Some(|ActiveIn(s.db, q)| + 1), false, 0)), id);
    assert ActiveIn(s1.db, q) == ActiveIn(s.db, q);
    end := Await(rule, s, s1, id);
  }

  /** A time by which every lease has run out. */
  lemma AllLeasesEnd(s: State) returns (at: Time)
    requires Inv(s)
    ensures forall id | id in s.db.jobs && Active(s.db.jobs[id]) ::
      s.db.jobs[id].lease.Some? && s.db.jobs[id].lease.value < at
  {
    var ends := set id | id in s.db.jobs && s.db.jobs[id].lease.Some? :: s.db.jobs[id].lease.value;
    at := UnusedId(ends);
    forall id | id in s.db.jobs && Active(s.db.jobs[id])
      ensures s.db.jobs[id].lease.Some? && s.db.jobs[id].lease.value < at
    {
      assert RowOk(s.db, id);
      assert s.db.jobs[id].lease.value in ends;
    }
  }

  /** A sweep after the last lease leaves nothing active. */
  lemma SweepClears(s: State, q: QueueId)
    requires forall id | id in s.db.jobs && Active(s.db.jobs[id]) ::
      s.db.jobs[id].lease.Some? && s.db.jobs[id].lease.value < s.now
    ensures ActiveIn(Apply(s, Sweep).db, q) == {}
  {
    forall id | id in s.db.jobs ensures !Active(ReapedRow(s.db.jobs[id], s.now)) {
    }
  }

  /** Without it: let everything claimed lapse. */
  lemma ClearQueue(rule: Rule, s: State, id: JobId) returns (end: State)
    requires Inv(s) && id in s.db.jobs && s.db.jobs[id].status == Queued && HasRoom(s.db, s.db.jobs[id].spec.queue)
    ensures Goes(rule, s, end, id) && Ready(end, id) && end.db.jobs[id] == s.db.jobs[id]
  {
    Stays(rule, s, id);
    var s1 := AllStop(rule, s, s, id);
    var at := AllLeasesEnd(s1);
    var s2 := GoOn(rule, s, s1, Advance(Max(at - s1.now, 0)), id);
    var s3 := GoOn(rule, s, s2, Sweep, id);
    SweepClears(s2, s.db.jobs[id].spec.queue);
    end := Await(rule, s, s3, id);
  }

  lemma MakeReady(rule: Rule, s: State, id: JobId) returns (end: State)
    requires Inv(s) && id in s.db.jobs && s.db.jobs[id].status == Queued
    requires rule.limits || HasRoom(s.db, s.db.jobs[id].spec.queue)
    ensures Goes(rule, s, end, id) && Ready(end, id) && end.db.jobs[id] == s.db.jobs[id]
  {
    if rule.limits {
      end := RaiseLimit(rule, s, id);
    } else {
      end := ClearQueue(rule, s, id);
    }
  }

  /** A worker holds the job and nothing else, as it was queued. */
  predicate InHands(s: State, w: WorkerId, id: JobId, p: Phase, row: Job) {
    && w in s.live && s.live[w].slots == 1 && id in s.live[w].held && s.live[w].held.Keys == {id}
    && s.live[w].held[id].phase == p
    && s.live[w].held[id].job.attempts == row.attempts && s.live[w].held[id].job.spec == row.spec
  }

  lemma ClaimAlone(rule: Rule, s: State, mid: State, w: WorkerId, id: JobId) returns (end: State)
    requires Goes(rule, s, mid, id) && Ready(mid, id)
    requires w in mid.live && mid.live[w].held == map[] && mid.live[w].slots == 1
    ensures Goes(rule, s, end, id) && InHands(end, w, id, Waiting, mid.db.jobs[id])
  {
    var q, locked := mid.db.jobs[id].spec.queue, mid.db.jobs.Keys - {id};
    assert Claimable(mid.db, q, mid.now, locked, false, id);
    assert ValidBatch(mid.db, q, mid.now, locked, false, Budget(mid.db, q, UNLIMITED), [id]);
    end := GoOn(rule, s, mid, Claim(w, q, locked, [id]), id);
  }

  lemma TakeUp(rule: Rule, s: State, mid: State, id: JobId) returns (end: State, w: WorkerId)
    requires Goes(rule, s, mid, id) && Ready(mid, id)
    ensures Goes(rule, s, end, id) && InHands(end, w, id, Waiting, mid.db.jobs[id])
  {
    w := UnusedId(mid.db.workers.Keys);
    var q := mid.db.jobs[id].spec.queue;
    var s1 := GoOn(rule, s, mid, Register(w, 0, 1), id);
    assert ActiveIn(s1.db, q) == ActiveIn(mid.db, q);
    end := ClaimAlone(rule, s, s1, w, id);
  }

  /** From the queue to a goroutine of a new worker. */
  lemma Start(rule: Rule, s: State, id: JobId) returns (end: State, w: WorkerId)
    requires Inv(s) && id in s.db.jobs && s.db.jobs[id].status == Queued
    requires rule.limits || HasRoom(s.db, s.db.jobs[id].spec.queue)
    ensures Goes(rule, s, end, id) && InHands(end, w, id, Dispatched, s.db.jobs[id])
  {
    var s1 := MakeReady(rule, s, id);
    var s2;
    s2, w := TakeUp(rule, s, s1, id);
    assert Busy(s2.live[w]) == {};
    end := GoOn(rule, s, s2, Dispatch(w, id), id);
  }

  lemma Execute(rule: Rule, s: State, mid: State, w: WorkerId, id: JobId, row: Job) returns (end: State)
    requires Goes(rule, s, mid, id) && InHands(mid, w, id, Dispatched, row) && rule.unrun != Some(id)
    ensures Goes(rule, s, end, id) && InHands(end, w, id, Executing, row)
  {
    var s1 := GoOn(rule, s, mid, CheckKey(w, id, false), id);
    end := GoOn(rule, s, s1, MarkRunning(w, id), id);
  }

  lemma StartAndExecute(rule: Rule, s: State, id: JobId) returns (end: State, w: WorkerId)
    requires Inv(s) && id in s.db.jobs && s.db.jobs[id].status == Queued
    requires rule.limits || HasRoom(s.db, s.db.jobs[id].spec.queue)
    requires rule.unrun != Some(id)
    ensures Goes(rule, s, end, id) && InHands(end, w, id, Executing, s.db.jobs[id])
  {
    var s1;
    s1, w := Start(rule, s, id);
    end := Execute(rule, s, s1, w, id, s.db.jobs[id]);
  }

  // ---- along a path ----

  lemma {:induction false} KeptAlong(states: seq<State>, s: State, steps: seq<Step>, end: State, id: JobId, k: nat)
    requires Traces(states, s, steps, end) && k < |states| && Inv(s) && id in s.db.jobs
    ensures Inv(states[k]) && id in states[k].db.jobs && states[k].db.jobs[id].spec == s.db.jobs[id].spec
    ensures Stuck(s, id) ==> Stuck(states[k], id) && states[k].db.jobs[id] == s.db.jobs[id]
    ensures HitsOk(s) ==> HitsOk(states[k])
  {
    if k > 0 {
      KeptAlong(states, s, steps, end, id, k - 1);
      assert Linked(states, steps, k - 1);
      StepKeepsInv(states[k - 1], steps[k - 1]);
      StepFollowsEdges(states[k - 1], steps[k - 1], id);
      if Stuck(s, id) {
        StepKeepsStuck(states[k - 1], steps[k - 1], id);
      }
      if HitsOk(s) {
        StepKeepsHits(states[k - 1], steps[k - 1]);
      }
    }
  }

  /** What no continuation changes. */
  lemma Kept(rule: Rule, s: State, end: State, id: JobId)
    requires Reaches(rule, s, end) && Inv(s) && id in s.db.jobs
    ensures Inv(end) && id in end.db.jobs && end.db.jobs[id].spec == s.db.jobs[id].spec
    ensures Stuck(s, id) ==> Stuck(end, id) && end.db.jobs[id] == s.db.jobs[id]
    ensures HitsOk(s) ==> HitsOk(end)
  {
    var steps :| Via(rule, s, steps, end);
    var states :| Traces(states, s, steps, end);
    KeptAlong(states, s, steps, end, id, |steps|);
  }

  // ---- completed ----

  predicate IsCompleted(s: State, id: JobId) {
    id in s.db.jobs && s.db.jobs[id].status == Completed
  }

  /** Some continuation completes the job. */
  ghost predicate CanComplete(s: State, id: JobId) {
    exists end :: Reaches(ANY, s, end) && IsCompleted(end, id)
  }

  lemma QueuedCompletes(rule: Rule, s: State, id: JobId) returns (end: State)
    requires Inv(s) && id in s.db.jobs && s.db.jobs[id].status == Queued
    requires rule.limits || HasRoom(s.db, s.db.jobs[id].spec.queue)
    requires rule.unrun != Some(id)
    ensures Goes(rule, s, end, id) && IsCompleted(end, id)
  {
    var s1, w := StartAndExecute(rule, s, id);
    assert FlightOk(s1, w, id);
    end := GoOn(rule, s, s1, Finish(w, id), id);
  }

  /**
   From every good state a job can still be completed exactly unless it is scheduled or was
   dropped between the two writes of a failure.
   */
  lemma CompletableExactly(s: State, id: JobId)
    requires Inv(s) && id in s.db.jobs
    ensures CanComplete(s, id) <==> s.db.jobs[id].status == Completed || !Stuck(s, id)
  {
    if s.db.jobs[id].status == Completed {
      Stays(ANY, s, id);
    } else if Stuck(s, id) {
      forall end | Reaches(ANY, s, end) ensures !IsCompleted(end, id) {
        Kept(ANY, s, end, id);
      }
    } else {
      var s1 := BackToQueue(ANY, s, id);
      var end := QueuedCompletes(ANY, s1, id);
      ReachesOn(ANY, s, s1, end);
    }
  }

  // ---- without a change of limits ----

  ghost predicate CanCompleteUnaided(s: State, id: JobId) {
    exists end :: Reaches(Rule(false, None), s, end) && IsCompleted(end, id)
  }

  /** Without one, a job in a queue that takes none stays where it is. */
  lemma {:induction false} IdleAlong(states: seq<State>, s: State, steps: seq<Step>, end: State, id: JobId, k: nat)
    requires Traces(states, s, steps, end) && k < |states| && Inv(s)
    requires forall i | 0 <= i < |steps| :: !steps[i].PutQueue?
    requires id in s.db.jobs && s.db.jobs[id].status == Queued && !HasRoom(s.db, s.db.jobs[id].spec.queue)
    ensures Inv(states[k]) && states[k].db.queues == s.db.queues
    ensures id in states[k].db.jobs && states[k].db.jobs[id] == s.db.jobs[id]
  {
    if k > 0 {
      IdleAlong(states, s, steps, end, id, k - 1);
      assert Linked(states, steps, k - 1);
      StepKeepsInv(states[k - 1], steps[k - 1]);
      StepKeepsQueues(states[k - 1], steps[k - 1]);
      NoRoomNoClaim(states[k - 1], steps[k - 1], id);
      QueuedRowStays(states[k - 1], steps[k - 1], id);
      StepRow(states[k - 1], steps[k - 1], id);
    }
  }

  lemma StepKeepsQueues(s: State, step: Step)
    requires Enabled(s, step) && !step.PutQueue?
    ensures Apply(s, step).db.queues == s.db.queues
  {
    if step.SubmitBatch? {
      CreateAllExtends(s.db, step.ids, step.inputs);
    }
  }

  lemma NoRoomNoClaim(s: State, step: Step, id: JobId)
    requires Enabled(s, step) && id in s.db.jobs && !HasRoom(s.db, s.db.jobs[id].spec.queue)
    ensures !ClaimsJob(step, id)
  {
  }

  /** A queued job can be completed with all limits left alone exactly if its queue's limit is not below one. */
  lemma UnaidedExactly(s: State, id: JobId)
    requires Inv(s) && id in s.db.jobs && s.db.jobs[id].status == Queued
    ensures CanCompleteUnaided(s, id) <==> HasRoom(s.db, s.db.jobs[id].spec.queue)
  {
    var rule := Rule(false, None);
    if HasRoom(s.db, s.db.jobs[id].spec.queue) {
      var _ := QueuedCompletes(rule, s, id);
    } else {
      forall end | Reaches(rule, s, end) ensures !IsCompleted(end, id) {
        var steps :| Via(rule, s, steps, end);
        var states :| Traces(states, s, steps, end);
        IdleAlong(states, s, steps, end, id, |steps|);
      }
    }
  }

  /** So in every state of every timely run, from the submission on. */
  lemma RunCompletableExactly(r: Run, i: nat, id: JobId)
    requires IsRun(r) && Timely(r) && i < |r.states| && id in r.states[i].db.jobs
    ensures CanComplete(r.states[i], id) <==>
            r.states[i].db.jobs[id].status == Completed || !Stuck(r.states[i], id)
  {
    RunKeepsInv(r, i);
    CompletableExactly(r.states[i], id);
  }

  // ---- lost between the two writes ----

  /** Failed for ever, under a worker that lives on. */
  predicate LostBy(s: State, w: WorkerId, id: JobId) {
    w in s.live && FailedBy(s, w, id) && !Holds(s, w, id)
  }

  ghost predicate CanBeLost(s: State, id: JobId) {
    exists end :: Reaches(ANY, s, end) && Stuck(end, id) && end.db.jobs[id].status == Failed
  }

  /** The first write lands, the second does not. */
  lemma FailsOnce(s: State, id: JobId) returns (end: State, w: WorkerId)
    requires Inv(s) && id in s.db.jobs && s.db.jobs[id].status == Queued
    requires s.db.jobs[id].attempts + 1 < s.db.jobs[id].spec.maxAttempts
    ensures Goes(ANY, s, end, id) && LostBy(end, w, id)
  {
    var s1;
    s1, w := StartAndExecute(ANY, s, id);
    end := FailsUnheard(s, s1, w, id, s.db.jobs[id]);
  }

  lemma FailsUnheard(s: State, mid: State, w: WorkerId, id: JobId, row: Job) returns (end: State)
    requires Goes(ANY, s, mid, id) && InHands(mid, w, id, Executing, row) && row.attempts + 1 < row.spec.maxAttempts
    ensures Goes(ANY, s, end, id) && LostBy(end, w, id)
  {
    assert FlightOk(mid, w, id);
    var s1 := GoOn(ANY, s, mid, FailWrite(w, id, [], true), id);
    end := GoOn(ANY, s, s1, GiveUp(w, id), id);
  }

  /** An exhausted job is dead-lettered and revived first. */
  lemma DiesAndRevives(s: State, id: JobId) returns (end: State)
    requires Inv(s) && id in s.db.jobs && s.db.jobs[id].status == Queued
    requires s.db.jobs[id].attempts + 1 >= s.db.jobs[id].spec.maxAttempts
    ensures Goes(ANY, s, end, id) && InQueue(s, end, id) && end.db.jobs[id].attempts == 0
  {
    var s1, w := StartAndExecute(ANY, s, id);
    assert FlightOk(s1, w, id);
    BuryKeepsInv(s1, w, id, []);
    var s2 := GoOn(ANY, s, s1, Bury(w, id, []), id);
    end := GoOn(ANY, s, s2, RetryDead(id), id);
  }

  lemma QueuedIsLost(s: State, id: JobId) returns (end: State, w: WorkerId)
    requires Inv(s) && id in s.db.jobs && s.db.jobs[id].status == Queued && s.db.jobs[id].spec.maxAttempts >= 2
    ensures Reaches(ANY, s, end) && LostBy(end, w, id)
  {
    if s.db.jobs[id].attempts + 1 < s.db.jobs[id].spec.maxAttempts {
      end, w := FailsOnce(s, id);
    } else {
      var s1 := DiesAndRevives(s, id);
      end, w := FailsOnce(s1, id);
      ReachesOn(ANY, s, s1, end);
    }
  }

  /**
   From every good state a job can still be lost to a failure whose requeueing write never
   comes exactly if it may be tried more than once and is neither completed nor scheduled.
   */
  lemma LosableExactly(s: State, id: JobId)
    requires Inv(s) && id in s.db.jobs
    ensures CanBeLost(s, id) <==>
            && s.db.jobs[id].spec.maxAttempts >= 2
            && s.db.jobs[id].status != Completed && s.db.jobs[id].status != Scheduled
  {
    assert RowOk(s.db, id);
    forall end | Reaches(ANY, s, end) && Stuck(end, id) && end.db.jobs[id].status == Failed
      ensures s.db.jobs[id].spec.maxAttempts >= 2
      ensures s.db.jobs[id].status != Completed && s.db.jobs[id].status != Scheduled
    {
      Kept(ANY, s, end, id);
      assert RowOk(end.db, id);
    }
    if Stuck(s, id) {
      Stays(ANY, s, id);
    } else if s.db.jobs[id].spec.maxAttempts >= 2 {
      var s1 := BackToQueue(ANY, s, id);
      var end, _ := QueuedIsLost(s1, id);
      ReachesOn(ANY, s, s1, end);
    }
  }

  // ---- abandoned under a healthy worker ----

  ghost predicate CanBeAbandoned(s: State, id: JobId) {
    exists end, w :: Reaches(ANY, s, end) && Abandoned(end, w, id)
  }

  lemma QueuedIsAbandoned(s: State, id: JobId) returns (end: State, w: WorkerId)
    requires Inv(s) && id in s.db.jobs && s.db.jobs[id].status == Queued
    ensures Reaches(ANY, s, end) && Abandoned(end, w, id) && end.db.jobs[id].status == Running
  {
    var s1;
    s1, w := StartAndExecute(ANY, s, id);
    assert FlightOk(s1, w, id);
    end := GoOn(ANY, s, s1, GiveUp(w, id), id);
  }

  /** From every good state a lost settling write can wedge a job exactly unless it is stuck already. */
  lemma AbandonableExactly(s: State, id: JobId)
    requires Inv(s) && id in s.db.jobs
    ensures CanBeAbandoned(s, id) <==> !Stuck(s, id)
  {
    forall end, w | Reaches(ANY, s, end) && Abandoned(end, w, id) ensures !Stuck(s, id) {
      Kept(ANY, s, end, id);
    }
    if !Stuck(s, id) {
      var s1 := BackToQueue(ANY, s, id);
      var end, w := QueuedIsAbandoned(s1, id);
      ReachesOn(ANY, s, s1, end);
      assert Abandoned(end, w, id);
    }
  }

  // ---- completed without running ----

  /** Some continuation that does not run the job has the gate short-circuit it. */
  ghost predicate CanHit(s: State, id: JobId) {
    exists end, w :: Reaches(Rule(true, Some(id)), s, end) && InPhase(end, w, id, Hit)
  }

  function Twin(queue: QueueId, key: Option<string>, now: Time): JobInput {
    JobInput(queue, 0, [], key, Some(now), Queued, 1, None, None)
  }

  /** A job with the same key in a queue of its own. */
  lemma SubmitTwin(rule: Rule, s: State, id: JobId) returns (end: State, twin: JobId)
    requires Inv(s) && id in s.db.jobs && s.db.jobs[id].status == Queued && rule == Rule(true, Some(id))
    ensures Goes(rule, s, end, twin) && twin != id && twin in end.db.jobs && end.db.jobs[twin].status == Queued
    ensures end.db.jobs[twin].spec.key == s.db.jobs[id].spec.key
    ensures id in end.db.jobs && end.db.jobs[id] == s.db.jobs[id]
  {
    twin := UnusedId(s.db.jobs.Keys);
    var queues := set x | x in s.db.jobs :: s.db.jobs[x].spec.queue;
    var q := UnusedId(queues);
    Stays(rule, s, twin);
    var s1 := GoOn(rule, s, s, PutQueue(q, Queue(None, false, 0)), twin);
    forall x | x in s1.db.jobs ensures s1.db.jobs[x].spec.queue != q {
      assert s.db.jobs[x].spec.queue in queues;
    }
    end := GoOn(rule, s, s1, Submit(twin, Twin(q, s.db.jobs[id].spec.key, s.now)), twin);
  }

  lemma CompleteTwin(rule: Rule, s: State, id: JobId) returns (end: State, twin: JobId)
    requires Inv(s) && id in s.db.jobs && s.db.jobs[id].status == Queued && rule == Rule(true, Some(id))
    ensures Reaches(rule, s, end) && Inv(end) && IsCompleted(end, twin)
    ensures end.db.jobs[twin].spec.key == s.db.jobs[id].spec.key
    ensures id in end.db.jobs && end.db.jobs[id] == s.db.jobs[id]
  {
    var s1;
    s1, twin := SubmitTwin(rule, s, id);
    end := QueuedCompletes(rule, s1, twin);
    Kept(rule, s1, end, twin);
    ReachesOn(rule, s, s1, end);
  }

  lemma QueuedHits(rule: Rule, s: State, id: JobId) returns (end: State, w: WorkerId)
    requires Inv(s) && id in s.db.jobs && s.db.jobs[id].status == Queued && rule == Rule(true, Some(id)) && s.db.jobs[id].spec.key.Some?
    ensures Reaches(rule, s, end) && InPhase(end, w, id, Hit)
  {
    var s1, twin := CompleteTwin(rule, s, id);
    var s2;
    s2, w := Start(rule, s1, id);
    Kept(rule, s1, s2, twin);
    assert KeyCompleted(s2.db, s.db.jobs[id].spec.key.value);
    end := GoOn(rule, s1, s2, CheckKey(w, id, true), id);
    ReachesOn(rule, s, s1, end);
  }

  /** From every good state the gate can still short-circuit a job exactly if it has a key and is not stuck. */
  lemma HittableExactly(s: State, id: JobId)
    requires Inv(s) && HitsOk(s) && id in s.db.jobs
    ensures CanHit(s, id) <==> s.db.jobs[id].spec.key.Some? && !Stuck(s, id)
  {
    forall end, w | Reaches(Rule(true, Some(id)), s, end) && InPhase(end, w, id, Hit)
      ensures s.db.jobs[id].spec.key.Some? && !Stuck(s, id)
    {
      Kept(Rule(true, Some(id)), s, end, id);
      assert FlightOk(end, w, id);
    }
    if s.db.jobs[id].spec.key.Some? && !Stuck(s, id) {
      var s1 := BackToQueue(Rule(true, Some(id)), s, id);
      var end, w := QueuedHits(Rule(true, Some(id)), s1, id);
      ReachesOn(Rule(true, Some(id)), s, s1, end);
      assert InPhase(end, w, id, Hit);
    }
  }

  // ---- from empty tables ----

  /** What can be reached from empty tables is the last state of a timely run. */
  lemma ReachedByRun(rule: Rule, s: State, end: State) returns (r: Run)
    requires Init(s) && Reaches(rule, s, end)
    ensures EndsIn(r, end) && forall i | 0 <= i < |r.steps| :: Allowed(rule, r.steps[i])
  {
    var steps :| Via(rule, s, steps, end);
    var states :| Traces(states, s, steps, end);
    r := Run(states, steps);
    forall i | 0 <= i < |steps| ensures StepAt(r, i) && (r.steps[i].Sweep? ==> OnTime(r.states[i])) {
      assert Linked(states, steps, i);
    }
  }

  ghost predicate EndsIn(r: Run, end: State) {
    IsRun(r) && Timely(r) && r.states[|r.steps|] == end
  }

  lemma Submitted(rule: Rule, input: JobInput) returns (start: State, s: State)
    requires ValidInput(input) && input.status == Queued && rule.limits
    ensures Init(start) && Reaches(rule, start, s) && Inv(s)
    ensures 0 in s.db.jobs && s.db.jobs[0] == NewRow(input)
  {
    start := State(0, Tables(map[], map[], map[], map[]), map[]);
    Stays(rule, start, 0);
    var s1 := GoOn(rule, start, start, PutQueue(input.queue, Queue(None, false, 0)), 0);
    s := GoOn(rule, start, s1, Submit(0, input), 0);
  }

  lemma SomeRunAbandons(input: JobInput) returns (r: Run, w: WorkerId)
    requires ValidInput(input) && input.status == Queued
    ensures IsRun(r) && Timely(r) && Abandoned(r.states[|r.steps|], w, 0)
  {
    var start, s := Submitted(ANY, input);
    var end;
    end, w := QueuedIsAbandoned(s, 0);
    ReachesOn(ANY, start, s, end);
    r := ReachedByRun(ANY, start, end);
  }

  lemma SomeRunLoses(input: JobInput) returns (r: Run, w: WorkerId)
    requires ValidInput(input) && input.status == Queued && input.maxAttempts >= 2
    ensures IsRun(r) && Timely(r) && LostBy(r.states[|r.steps|], w, 0)
  {
    var start, s := Submitted(ANY, input);
    var end;
    end, w := QueuedIsLost(s, 0);
    ReachesOn(ANY, start, s, end);
    r := ReachedByRun(ANY, start, end);
  }

  /** The job's handler is started nowhere in the run. */
  predicate NeverRun(r: Run, id: JobId) {
    forall i | 0 <= i < |r.steps| && r.steps[i].MarkRunning? :: r.steps[i].j != id
  }

  lemma SomeRunSkips(input: JobInput) returns (r: Run)
    requires ValidInput(input) && input.status == Queued && input.key.Some?
    ensures IsRun(r) && Timely(r) && NeverRun(r, 0) && IsCompleted(r.states[|r.steps|], 0)
  {
    var rule := Rule(true, Some(0));
    var start, s := Submitted(rule, input);
    var hit, w := QueuedHits(rule, s, 0);
    ReachesOn(rule, start, s, hit);
    Kept(rule, s, hit, 0);
    Stays(rule, hit, 0);
    var end := GoOn(rule, hit, hit, Finish(w, 0), 0);
    ReachesOn(rule, start, hit, end);
    r := ReachedByRun(rule, start, end);
  }

  /**
   Each of the three ways out happens to whatever is submitted: some timely run from empty
   tables wedges it under a living worker, one loses it for ever if it may be tried twice,
   and one completes it without ever starting its handler if it has a key.
   */
  lemma EveryFailureHappens(input: JobInput)
    requires ValidInput(input) && input.status == Queued
    ensures exists r, w :: IsRun(r) && Timely(r) && Abandoned(r.states[|r.steps|], w, 0)
    ensures input.maxAttempts >= 2 ==> exists r, w :: IsRun(r) && Timely(r) && LostBy(r.states[|r.steps|], w, 0)
    ensures input.key.Some? ==>
              exists r :: IsRun(r) && Timely(r) && NeverRun(r, 0) && IsCompleted(r.states[|r.steps|], 0)
  {
    var _, _ := SomeRunAbandons(input);
    if input.maxAttempts >= 2 {
      var _, _ := SomeRunLoses(input);
    }
    if input.key.Some? {
      var _ := SomeRunSkips(input);
    }
  }

  // ---- a shutdown in flight ----

  lemma RunOn(r: Run, step: Step) returns (r': Run)
    requires IsRun(r) && Timely(r) && Enabled(r.states[|r.steps|], step) && !step.Sweep?
    ensures IsRun(r') && Timely(r') && r'.steps == r.steps + [step]
    ensures r'.states == r.states + [Apply(r.states[|r.steps|], step)]
  {
    r' := Run(r.states + [Apply(r.states[|r.steps|], step)], r.steps + [step]);
    forall i | 0 <= i < |r'.steps| ensures StepAt(r', i) && (r'.steps[i].Sweep? ==> OnTime(r'.states[i])) {
      if i < |r.steps| {
        assert StepAt(r, i);
      }
    }
  }

  lemma SomeRunExecutes(input: JobInput) returns (r: Run, w: WorkerId)
    requires ValidInput(input) && input.status == Queued
    ensures IsRun(r) && Timely(r) && InHands(r.states[|r.steps|], w, 0, Executing, NewRow(input))
  {
    var start, s := Submitted(ANY, input);
    var end;
    end, w := StartAndExecute(ANY, s, 0);
    ReachesOn(ANY, start, s, end);
    r := ReachedByRun(ANY, start, end);
  }

  /** Whatever is submitted, some graceful shutdown catches it running and leaves it to the reaper. */
  lemma ShutdownLeavesSome(input: JobInput) returns (r: Run, c: nat, w: WorkerId)
    requires ValidInput(input) && input.status == Queued
    ensures IsRun(r) && Timely(r) && ShutsDown(r, c, c + 1, w)
    ensures InPhase(r.states[c], w, 0, Executing) && ActiveFor(r.states[c + 2].db, w, 0)
  {
    r, w := SomeRunExecutes(input);
    c := |r.steps|;
    RunKeepsInv(r, c);
    assert FlightOk(r.states[c], w, 0) && WorkerOk(r.states[c], w);
    r := DropAndRelease(r, w, 0);
    ShutdownLeavesExactly(r, c, c + 1, w, 0);
  }

  lemma DropAndRelease(r: Run, w: WorkerId, id: JobId) returns (r': Run)
    requires IsRun(r) && Timely(r)
    requires var s := r.states[|r.steps|]; w in s.live && w in s.db.workers && s.live[w].held.Keys == {id}
    ensures IsRun(r') && Timely(r') && ShutsDown(r', |r.steps|, |r.steps| + 1, w)
    ensures r'.states[|r.steps|] == r.states[|r.steps|]
  {
    DropsLast(r.states[|r.steps|], w, id);
    r' := RunOn(r, GiveUp(w, id));
    r' := RunOn(r', Release(w));
  }

  /** A worker that drops its only job can release, and stays live. */
  lemma DropsLast(s: State, w: WorkerId, id: JobId)
    requires w in s.live && w in s.db.workers && s.live[w].held.Keys == {id}
    ensures var s1 := Apply(s, GiveUp(w, id));
            w in s1.live && Enabled(s1, Release(w)) && w in Apply(s1, Release(w)).live
  {
    assert Apply(s, GiveUp(w, id)).live[w].held == map[];
  }
}
