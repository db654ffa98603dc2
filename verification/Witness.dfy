/**
 Runs written out from the empty tables on: the drain bound is exact, and past it one
 job's handler runs in two workers at once, or the gate finds the job itself completed.
 */
module Witness {
  import opened Domain
  import opened Statements
  import opened Claiming
  import opened Protocol
  import opened Invariant
  import opened Exclusion
  import opened Recovery

  const J: JobId := 0
  const Q: QueueId := 0
  const W: WorkerId := 0
  const V: WorkerId := 1

  const QUEUE := Queue(None, false, 0)

  /** The four times a worker's configuration fixes, and the key of the one job submitted. */
  datatype Config = Config(lease: nat, beat: nat, poll: nat, drain: nat, key: string)

  function Input(k: Config): JobInput {
    JobInput(Q, 0, [], Some(k.key), Some(0), Queued, 1, None, None)
  }

  // ---- the states of the run ----

  function Db(row: Job, workers: map<WorkerId, WorkerRow>): Tables {
    Tables(map[J := row], map[], map[Q := QUEUE], workers)
  }

  function Alone(): map<WorkerId, WorkerRow> {
    map[W := WorkerRow(true, 0)]
  }

  function Both(k: Config): map<WorkerId, WorkerRow> {
    map[W := WorkerRow(true, 0), V := WorkerRow(true, Deadline(k))]
  }

  /** When the drain is over, counted from the worker's only renewal. */
  function Deadline(k: Config): nat {
    k.beat + k.poll + k.drain
  }

  function Taken(k: Config): Job {
    ClaimedRow(NewRow(Input(k)), W, 0, k.lease)
  }

  function Returned(k: Config): Job {
    ReapedRow(RunningRow(Taken(k)), Deadline(k))
  }

  function Retaken(k: Config): Job {
    ClaimedRow(Returned(k), V, Deadline(k), k.lease)
  }

  function First(k: Config, phase: Phase): Worker {
    Worker(k.lease, 1, 0, map[J := Flight(Taken(k), phase)], {})
  }

  function Second(k: Config, held: map<JobId, Flight>): Worker {
    Worker(k.lease, 1, Deadline(k), held, {})
  }

  function Lonely(k: Config, now: Time, row: Job, phase: Phase): State {
    State(now, Db(row, Alone()), map[W := First(k, phase)])
  }

  function Joined(k: Config, row: Job, held: map<JobId, Flight>): State {
    State(Deadline(k), Db(row, Both(k)), map[W := First(k, Executing), V := Second(k, held)])
  }

  function Handed(k: Config, row: Job, phase: Phase): State {
    Joined(k, row, map[J := Flight(Retaken(k), phase)])
  }

  function Blank(queues: map<QueueId, Queue>): State {
    State(0, Tables(map[], map[], queues, map[]), map[])
  }

  function Submitted(k: Config): State {
    State(0, Db(NewRow(Input(k)), map[]), map[])
  }

  function Idle(k: Config): State {
    State(0, Db(NewRow(Input(k)), Alone()), map[W := Worker(k.lease, 1, 0, map[], {})])
  }

  /** The first worker has settled the job; the second one's claim is still on the row. */
  function Finished(k: Config, phase: Phase): State {
    State(Deadline(k), Db(CompletedRow(Retaken(k), Deadline(k)), Both(k)),
          map[W := Worker(k.lease, 1, 0, map[], {}), V := Second(k, map[J := Flight(Retaken(k), phase)])])
  }

  // ---- the runs ----

  /** The run, and one step more. */
  function Then(r: Run, step: Step, s: State): Run {
    Run(r.states + [s], r.steps + [step])
  }

  /** A run in which the first worker never renews and is cancelled in state 8. */
  ghost predicate OnSchedule(k: Config, r: Run) {
    && IsRun(r) && OthersTimely(r, W)
    && (forall i | 0 <= i < |r.states| :: InSchedule(k, i, r.states[i]))
  }

  predicate InSchedule(k: Config, i: nat, s: State) {
    && (W in s.live ==> s.live[W].lease == k.lease && s.live[W].renewed == 0)
    && s.now <= (if i <= 8 then k.beat else Deadline(k))
    && (i == 8 ==> W in s.live && s.now == k.beat)
  }

  /** One more step keeps the schedule, and everything before it. */
  lemma GoOn(k: Config, r: Run, step: Step, s: State) returns (r': Run)
    requires OnSchedule(k, r) && Next(r.states[|r.steps|], step, s) && InSchedule(k, |r.states|, s)
    requires step.Sweep? ==> OthersOnTime(r.states[|r.steps|])
    ensures OnSchedule(k, r') && |r'.steps| == |r.steps| + 1 && r'.states[|r'.steps|] == s
    ensures r'.steps[|r.steps|] == step
    ensures forall i | 0 <= i < |r.states| :: r'.states[i] == r.states[i]
    ensures forall i | 0 <= i < |r.steps| :: r'.steps[i] == r.steps[i]
  {
    r' := Then(r, step, s);
    ThenOnSchedule(k, r, step, s);
  }

  lemma ThenOnSchedule(k: Config, r: Run, step: Step, s: State)
    requires OnSchedule(k, r) && Next(r.states[|r.steps|], step, s) && InSchedule(k, |r.states|, s)
    requires step.Sweep? ==> OthersOnTime(r.states[|r.steps|])
    ensures OnSchedule(k, Then(r, step, s)) && Then(r, step, s).states[|r.steps| + 1] == s
    ensures |Then(r, step, s).steps| == |r.steps| + 1
  {
    var r' := Then(r, step, s);
    forall i | 0 <= i < |r'.steps| ensures StepAt(r', i) {
      if i < |r.steps| { assert StepAt(r, i); }
    }
  }

  ghost predicate OthersOnTime(s: State) {
    forall v | v in s.live && v != W :: s.now <= s.live[v].renewed + s.live[v].lease
  }

  lemma OnScheduleIsCancelled(k: Config, r: Run)
    requires OnSchedule(k, r) && |r.states| > 8
    ensures Cancelled(r, W, 8, k.lease, k.beat, k.poll, k.drain)
  {
    forall i | 0 <= i < |r.states|
      ensures W in r.states[i].live ==> r.states[i].live[W].lease == k.lease && r.states[i].live[W].renewed == 0
      ensures r.states[i].now <= if i <= 8 then k.beat else Deadline(k)
    {
      assert InSchedule(k, i, r.states[i]);
    }
    assert InSchedule(k, 8, r.states[8]);
  }

  // ---- each of its steps ----

  lemma OnlyJob(s: State, w: WorkerId)
    requires s.db.jobs.Keys == {J} && s.db.queues == map[Q := QUEUE] && w in s.live
    requires s.db.jobs[J].spec.queue == Q && FreeAndDue(s, J) && J !in s.live[w].held
    ensures Enabled(s, Claim(w, Q, {}, [J]))
  {
    assert ActiveIn(s.db, Q) == {};
    assert Budget(s.db, Q, UNLIMITED) == UNLIMITED;
    assert Claimable(s.db, Q, s.now, {}, false, J);
    assert ValidBatch(s.db, Q, s.now, {}, false, Budget(s.db, Q, UNLIMITED), [J]);
  }

  lemma FirstClaims(k: Config)
    ensures Next(Idle(k), Claim(W, Q, {}, [J]), Lonely(k, 0, Taken(k), Waiting))
  {
    var s := Idle(k);
    OnlyJob(s, W);
    assert ClaimRows(s.db, W, [J], 0, k.lease).jobs == map[J := Taken(k)];
    assert Pick(s, W, [J]).live[W].held == map[J := Flight(Taken(k), Waiting)];
    assert Pick(s, W, [J]).live == map[W := First(k, Waiting)];
  }

  lemma SecondClaims(k: Config)
    requires Deadline(k) > k.lease
    ensures Next(Joined(k, Returned(k), map[]), Claim(V, Q, {}, [J]), Handed(k, Retaken(k), Waiting))
  {
    var s := Joined(k, Returned(k), map[]);
    OnlyJob(s, V);
    assert ClaimRows(s.db, V, [J], Deadline(k), k.lease).jobs == map[J := Retaken(k)];
    assert Pick(s, V, [J]).live[V].held == map[J := Flight(Retaken(k), Waiting)];
    assert Pick(s, V, [J]).live == Handed(k, Retaken(k), Waiting).live;
  }

  /** Moving one worker's only job to another phase. */
  lemma Enters(s: State, w: WorkerId, p: Phase, s': State)
    requires Holds(s, w, J) && s.live[w].held.Keys == {J}
    requires s' == s.(live := s'.live) && s'.live.Keys == s.live.Keys
    requires forall v | v in s.live && v != w :: s'.live[v] == s.live[v]
    requires s'.live[w] == s.live[w].(held := map[J := s.live[w].held[J].(phase := p)])
    ensures Enter(s, w, J, p) == s'
  {
    var k := s.live[w];
    assert k.held[J := k.held[J].(phase := p)] == map[J := k.held[J].(phase := p)];
    assert Enter(s, w, J, p).live == s'.live;
  }

  lemma FirstStarts(k: Config)
    ensures Next(Lonely(k, 0, Taken(k), Waiting), Dispatch(W, J), Lonely(k, 0, Taken(k), Dispatched))
    ensures Next(Lonely(k, 0, Taken(k), Dispatched), CheckKey(W, J, true), Lonely(k, 0, Taken(k), Cleared))
  {
    assert Busy(First(k, Waiting)) == {};
    Enters(Lonely(k, 0, Taken(k), Waiting), W, Dispatched, Lonely(k, 0, Taken(k), Dispatched));
    Enters(Lonely(k, 0, Taken(k), Dispatched), W, Cleared, Lonely(k, 0, Taken(k), Cleared));
  }

  lemma FirstRuns(k: Config)
    ensures Next(Lonely(k, 0, Taken(k), Cleared), MarkRunning(W, J), Lonely(k, 0, RunningRow(Taken(k)), Executing))
  {
    Enters(Lonely(k, 0, Taken(k), Cleared), W, Executing, Lonely(k, 0, Taken(k), Executing));
    assert map[J := Taken(k)][J := RunningRow(Taken(k))] == map[J := RunningRow(Taken(k))];
  }

  lemma SecondStarts(k: Config)
    ensures Next(Handed(k, Retaken(k), Waiting), Dispatch(V, J), Handed(k, Retaken(k), Dispatched))
    ensures Next(Handed(k, Retaken(k), Dispatched), CheckKey(V, J, true), Handed(k, Retaken(k), Cleared))
  {
    assert Busy(Second(k, map[J := Flight(Retaken(k), Waiting)])) == {};
    Enters(Handed(k, Retaken(k), Waiting), V, Dispatched, Handed(k, Retaken(k), Dispatched));
    Enters(Handed(k, Retaken(k), Dispatched), V, Cleared, Handed(k, Retaken(k), Cleared));
  }

  lemma SecondRuns(k: Config)
    ensures Next(Handed(k, Retaken(k), Cleared), MarkRunning(V, J), Handed(k, RunningRow(Retaken(k)), Executing))
  {
    Enters(Handed(k, Retaken(k), Cleared), V, Executing, Handed(k, Retaken(k), Executing));
    assert map[J := Retaken(k)][J := RunningRow(Retaken(k))] == map[J := RunningRow(Retaken(k))];
  }

  lemma SweepTakes(k: Config)
    ensures Next(Joined(k, RunningRow(Taken(k)), map[]), Sweep, Joined(k, Returned(k), map[]))
  {
    assert RequeueOrphanedJobs(Db(RunningRow(Taken(k)), Both(k)), Deadline(k)).jobs == map[J := Returned(k)];
  }

  lemma JobEnters(k: Config)
    ensures Next(Blank(map[]), PutQueue(Q, QUEUE), Blank(map[Q := QUEUE]))
    ensures Next(Blank(map[Q := QUEUE]), Submit(J, Input(k)), Submitted(k))
    ensures Next(Submitted(k), Register(W, k.lease, 1), Idle(k))
  {
  }

  lemma TimePasses(k: Config)
    ensures var at := (now: Time) => Lonely(k, now, RunningRow(Taken(k)), Executing);
            && Next(at(0), Advance(k.beat), at(k.beat))
            && Next(at(k.beat), Advance(k.poll + k.drain), at(Deadline(k)))
            && Next(at(Deadline(k)), Register(V, k.lease, 1), Joined(k, RunningRow(Taken(k)), map[]))
  {
  }

  lemma Arrive(k: Config) returns (r: Run)
    ensures OnSchedule(k, r) && |r.steps| == 3 && r.states[3] == Idle(k)
    ensures forall i | 0 <= i < |r.steps| :: !r.steps[i].Sweep?
  {
    JobEnters(k);
    r := Run([Blank(map[])], []);
    r := GoOn(k, r, PutQueue(Q, QUEUE), Blank(map[Q := QUEUE]));
    r := GoOn(k, r, Submit(J, Input(k)), Submitted(k));
    r := GoOn(k, r, Register(W, k.lease, 1), Idle(k));
  }

  lemma ClaimIt(k: Config) returns (r: Run)
    ensures OnSchedule(k, r) && |r.steps| == 4 && r.states[4] == Lonely(k, 0, Taken(k), Waiting)
    ensures forall i | 0 <= i < |r.steps| :: !r.steps[i].Sweep?
  {
    r := Arrive(k);
    FirstClaims(k);
    r := GoOn(k, r, Claim(W, Q, {}, [J]), Lonely(k, 0, Taken(k), Waiting));
  }

  lemma TakeUp(k: Config) returns (r: Run)
    ensures OnSchedule(k, r) && |r.steps| == 5 && r.states[5] == Lonely(k, 0, Taken(k), Dispatched)
    ensures forall i | 0 <= i < |r.steps| :: !r.steps[i].Sweep?
  {
    r := ClaimIt(k);
    FirstStarts(k);
    r := GoOn(k, r, Dispatch(W, J), Lonely(k, 0, Taken(k), Dispatched));
  }

  lemma Start(k: Config) returns (r: Run)
    ensures OnSchedule(k, r) && |r.steps| == 7 && r.states[7] == Lonely(k, 0, RunningRow(Taken(k)), Executing)
    ensures forall i | 0 <= i < |r.steps| :: !r.steps[i].Sweep?
  {
    r := TakeUp(k);
    FirstStarts(k);
    r := GoOn(k, r, CheckKey(W, J, true), Lonely(k, 0, Taken(k), Cleared));
    FirstRuns(k);
    r := GoOn(k, r, MarkRunning(W, J), Lonely(k, 0, RunningRow(Taken(k)), Executing));
  }

  /** Cancelled in state 8, and still at it when the drain is over. */
  lemma Outstay(k: Config) returns (r: Run)
    ensures OnSchedule(k, r) && Timely(r)
    ensures |r.steps| == 10 && r.states[10] == Joined(k, RunningRow(Taken(k)), map[])
  {
    TimePasses(k);
    r := Start(k);
    r := GoOn(k, r, Advance(k.beat), Lonely(k, k.beat, RunningRow(Taken(k)), Executing));
    r := GoOn(k, r, Advance(k.poll + k.drain), Lonely(k, Deadline(k), RunningRow(Taken(k)), Executing));
    r := GoOn(k, r, Register(V, k.lease, 1), Joined(k, RunningRow(Taken(k)), map[]));
  }

  /** The sweep of step 10 takes the job from the first worker. */
  predicate TakenAway(k: Config, r: Run) {
    && |r.steps| > 10 && |r.states| == |r.steps| + 1 && r.steps[10] == Sweep
    && r.states[10] == Joined(k, RunningRow(Taken(k)), map[]) && r.states[11] == Joined(k, Returned(k), map[])
  }

  /** Then the other worker claims and dispatches it. */
  lemma Reclaim(k: Config) returns (r: Run)
    requires Deadline(k) > k.lease
    ensures OnSchedule(k, r) && TakenAway(k, r)
    ensures |r.steps| == 13 && r.states[13] == Handed(k, Retaken(k), Dispatched)
  {
    r := Outstay(k);
    SweepTakes(k);
    r := GoOn(k, r, Sweep, Joined(k, Returned(k), map[]));
    SecondClaims(k);
    r := GoOn(k, r, Claim(V, Q, {}, [J]), Handed(k, Retaken(k), Waiting));
    SecondStarts(k);
    r := GoOn(k, r, Dispatch(V, J), Handed(k, Retaken(k), Dispatched));
  }

  /** It asks the gate and starts the handler. */
  lemma Double(k: Config) returns (r: Run)
    requires Deadline(k) > k.lease
    ensures OnSchedule(k, r) && TakenAway(k, r)
    ensures |r.steps| == 15 && r.states[15] == Handed(k, RunningRow(Retaken(k)), Executing)
  {
    r := Reclaim(k);
    SecondStarts(k);
    r := GoOn(k, r, CheckKey(V, J, true), Handed(k, Retaken(k), Cleared));
    SecondRuns(k);
    r := GoOn(k, r, MarkRunning(V, J), Handed(k, RunningRow(Retaken(k)), Executing));
  }

  /** Or the first worker finishes just before the other one asks the gate. */
  lemma FinishFirst(k: Config) returns (r: Run)
    requires Deadline(k) > k.lease
    ensures OnSchedule(k, r) && |r.steps| == 15 && r.steps[14] == CheckKey(V, J, true)
    ensures r.states[14] == Finished(k, Dispatched) && r.states[15] == Finished(k, Hit)
  {
    r := Reclaim(k);
    FirstFinishes(k);
    r := GoOn(k, r, Finish(W, J), Finished(k, Dispatched));
    SecondHits(k);
    r := GoOn(k, r, CheckKey(V, J, true), Finished(k, Hit));
  }

  lemma FirstFinishes(k: Config)
    ensures Next(Handed(k, Retaken(k), Dispatched), Finish(W, J), Finished(k, Dispatched))
  {
    var s := Handed(k, Retaken(k), Dispatched);
    var s' := Apply(s, Finish(W, J));
    assert s.live[W].held - {J} == map[];
    assert s'.live == Finished(k, Dispatched).live;
    assert s'.db.jobs == map[J := CompletedRow(Retaken(k), Deadline(k))];
  }

  lemma SecondHits(k: Config)
    ensures Next(Finished(k, Dispatched), CheckKey(V, J, true), Finished(k, Hit))
  {
    var s := Finished(k, Dispatched);
    assert s.db.jobs[J].status == Completed && s.db.jobs[J].spec.key == Some(k.key);
    assert KeyCompleted(s.db, k.key);
    Enters(s, V, Hit, Finished(k, Hit));
  }

  // ---- what they show ----

  /**
   The drain bound is exact: with heartbeats `beat` apart, a poll delay and a drain timeout,
   some run takes a job from a draining worker's hands if and only if the three together
   exceed the lease.
   */
  lemma DrainBoundExactly(k: Config)
    ensures (exists r, w, c, i: nat, j :: DrainReaped(r, w, c, k.lease, k.beat, k.poll, k.drain, i, j))
       <==> k.beat + k.poll + k.drain > k.lease
  {
    if Deadline(k) > k.lease {
      var _ := TooLongIsReaped(k);
    }
    forall r: Run, w: WorkerId, c: nat, i: nat, j: JobId
      | DrainReaped(r, w, c, k.lease, k.beat, k.poll, k.drain, i, j)
      ensures Deadline(k) > k.lease
    {
      ReapedMeansTooLong(k, r, w, c, i, j);
    }
  }

  lemma TooLongIsReaped(k: Config) returns (r: Run)
    requires Deadline(k) > k.lease
    ensures DrainReaped(r, W, 8, k.lease, k.beat, k.poll, k.drain, 10, J)
  {
    r := Double(k);
    OnScheduleIsCancelled(k, r);
  }

  lemma ReapedMeansTooLong(k: Config, r: Run, w: WorkerId, c: nat, i: nat, j: JobId)
    requires DrainReaped(r, w, c, k.lease, k.beat, k.poll, k.drain, i, j)
    ensures Deadline(k) > k.lease
  {
    if Deadline(k) <= k.lease {
      DrainFitsLease(r, w, c, k.lease, k.beat, k.poll, k.drain);
      RunKeepsInv(r, i + 1);
    }
  }

  /** In state `i` of the run the job's handler runs in the draining worker and in another one. */
  ghost predicate TwoHandlers(k: Config, r: Run, w: WorkerId, v: WorkerId, c: nat, i: nat, j: JobId) {
    && IsRun(r) && OthersTimely(r, w) && Cancelled(r, w, c, k.lease, k.beat, k.poll, k.drain)
    && v != w && i < |r.states|
    && InPhase(r.states[i], w, j, Executing) && InPhase(r.states[i], v, j, Executing)
  }

  /** One job's handler can run in two live workers at once exactly past that bound. */
  lemma OneJobTwoHandlersExactly(k: Config)
    ensures (exists r, w, v, c, i: nat, j :: TwoHandlers(k, r, w, v, c, i, j))
       <==> k.beat + k.poll + k.drain > k.lease
  {
    if Deadline(k) > k.lease {
      var r := Double(k);
      OnScheduleIsCancelled(k, r);
      assert TwoHandlers(k, r, W, V, 8, 15, J);
    }
    forall r: Run, w: WorkerId, v: WorkerId, c: nat, i: nat, j: JobId | TwoHandlers(k, r, w, v, c, i, j)
      ensures Deadline(k) > k.lease
    {
      if Deadline(k) <= k.lease {
        DrainFitsLease(r, w, c, k.lease, k.beat, k.poll, k.drain);
        MutualExclusion(r, i, v, w, j);
      }
    }
  }

  /** The worker's renewals are never more than `gap` behind. */
  ghost predicate RenewsWithin(r: Run, w: WorkerId, lease: Time, gap: Time)
    requires |r.states| == |r.steps| + 1
  {
    forall i | 0 <= i < |r.states| && w in r.states[i].live ::
      r.states[i].live[w].lease == lease && r.states[i].now <= r.states[i].live[w].renewed + gap
  }

  /** The gate, asked in step `i`, hits on the job's own row, which the late worker has just completed. */
  ghost predicate HitsItself(lease: Time, gap: Time, r: Run, w: WorkerId, v: WorkerId, i: nat, j: JobId) {
    && IsRun(r) && OthersTimely(r, w) && RenewsWithin(r, w, lease, gap)
    && i < |r.steps| && r.steps[i] == CheckKey(v, j, true)
    && InPhase(r.states[i], v, j, Dispatched) && InPhase(r.states[i + 1], v, j, Hit)
    && j in r.states[i].db.jobs && r.states[i].db.jobs[j].status == Completed
  }

  /** The gate can save a job from being executed again exactly if renewals may be later than the lease. */
  lemma GateHitsItselfExactly(lease: nat, gap: nat)
    ensures (exists r, w, v, i: nat, j :: HitsItself(lease, gap, r, w, v, i, j)) <==> gap > lease
  {
    if gap > lease {
      var _ := LateIsCaught(Config(lease, gap, 0, 0, []));
    }
    forall r: Run, w: WorkerId, v: WorkerId, i: nat, j: JobId | HitsItself(lease, gap, r, w, v, i, j)
      ensures gap > lease
    {
      if gap <= lease {
        forall m | 0 <= m < |r.steps| && r.steps[m].Sweep? ensures OnTime(r.states[m]) {
        }
        RunKeepsInv(r, i);
      }
    }
  }

  lemma LateIsCaught(k: Config) returns (r: Run)
    requires Deadline(k) > k.lease
    ensures HitsItself(k.lease, Deadline(k), r, W, V, 14, J)
  {
    r := FinishFirst(k);
    forall i | 0 <= i < |r.states| && W in r.states[i].live
      ensures r.states[i].live[W].lease == k.lease && r.states[i].now <= r.states[i].live[W].renewed + Deadline(k)
    {
      assert InSchedule(k, i, r.states[i]);
    }
  }

  /**
   The shipped worker configuration, in seconds (cmd/worker/main.go), with the poll loop
   taking `poll` to return.
   */
  function Shipped(poll: nat, key: string): Config {
    Config(30, 10, poll, 30, key)
  }

  /** It lies past the bound however quickly the poll loop returns. */
  lemma ShippedDefaultsDouble(poll: nat, key: string)
    ensures exists r, w, c, i: nat, j :: DrainReaped(r, w, c, 30, 10, poll, 30, i, j)
    ensures exists r, w, v, c, i: nat, j :: TwoHandlers(Shipped(poll, key), r, w, v, c, i, j)
  {
    DrainBoundExactly(Shipped(poll, key));
    OneJobTwoHandlersExactly(Shipped(poll, key));
  }

  /** A timely run reaches a state from which one sweep and one claim double a job. */
  lemma LateStateIsReachable(k: Config) returns (s: State)
    requires k.beat + k.poll + k.drain > k.lease
    ensures exists r :: IsRun(r) && Timely(r) && s in r.states
    ensures Inv(s) && Holds(s, W, J) && V in s.live && V != W
    ensures J in s.db.jobs && Expired(s.db.jobs[J], s.now) && s.db.jobs[J].spec.queue in s.db.queues
    ensures LimitOr(s.db, s.db.jobs[J].spec.queue, UNLIMITED) >= |ActiveIn(s.db, s.db.jobs[J].spec.queue)|
  {
    var r := Outstay(k);
    s := r.states[10];
    RunKeepsInv(r, 10);
    assert s in r.states;
    assert ActiveIn(s.db, Q) == {J};
  }
}
