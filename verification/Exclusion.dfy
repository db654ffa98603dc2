/** Mutual exclusion from lease timing, and exactly when a sweep or a release is safe. */
module Exclusion {
  import opened Domain
  import opened Statements
  import opened Claiming
  import opened Protocol
  import opened Invariant

  /** At most one live worker handles a job, and it is the one the row names. */
  lemma MutualExclusion(r: Run, i: nat, v: WorkerId, w: WorkerId, j: JobId)
    requires IsRun(r) && Timely(r) && i < |r.states|
    requires Holds(r.states[i], v, j) && Holds(r.states[i], w, j)
    ensures v == w && j in r.states[i].db.jobs && r.states[i].db.jobs[j].worker == Some(w)
  {
    RunKeepsInv(r, i);
    assert FlightOk(r.states[i], v, j) && FlightOk(r.states[i], w, j);
  }

  /** No sweep of a timely run touches a job some live worker still handles. */
  lemma SweepSparesHeld(r: Run, i: nat, w: WorkerId, j: JobId)
    requires IsRun(r) && Timely(r) && i < |r.steps| && r.steps[i].Sweep?
    requires Holds(r.states[i], w, j)
    ensures j in r.states[i].db.jobs && j in r.states[i + 1].db.jobs
    ensures r.states[i + 1].db.jobs[j] == r.states[i].db.jobs[j]
    ensures Holds(r.states[i + 1], w, j)
  {
    RunKeepsInv(r, i);
    assert StepAt(r, i);
    OnTimeNotExpired(r.states[i], w, j);
  }

  /** The running status and the handler's phase coincide for a held job. */
  lemma ExecutingMeansRunning(r: Run, i: nat, w: WorkerId, j: JobId)
    requires IsRun(r) && Timely(r) && i < |r.states| && InPhase(r.states[i], w, j, Executing)
    ensures j in r.states[i].db.jobs && r.states[i].db.jobs[j].status == Running
    ensures r.states[i].db.jobs[j].attempts == r.states[i].live[w].held[j].job.attempts
    ensures r.states[i].db.jobs[j].spec == r.states[i].live[w].held[j].job.spec
  {
    RunKeepsInv(r, i);
    assert FlightOk(r.states[i], w, j);
  }

  /** A sweep keeps the protocol's invariant exactly when no held job's lease has run out. */
  lemma SweepSafeExactly(s: State)
    requires Inv(s)
    ensures Inv(Apply(s, Sweep)) <==>
            forall w, j | Holds(s, w, j) && j in s.db.jobs :: !Expired(s.db.jobs[j], s.now)
  {
    var s' := Apply(s, Sweep);
    if Inv(s') {
      forall w, j | Holds(s, w, j) && j in s.db.jobs ensures !Expired(s.db.jobs[j], s.now) {
        assert Holds(s', w, j) && FlightOk(s', w, j) && RowOk(s'.db, j);
      }
    }
    if forall w, j | Holds(s, w, j) && j in s.db.jobs :: !Expired(s.db.jobs[j], s.now) {
      forall id | id in s.db.jobs
        ensures s'.db.jobs[id] == s.db.jobs[id] || (RowOk(s'.db, id) && s'.db.jobs[id].status == Queued)
      {
        assert RowOk(s.db, id);
      }
      RowsReturned(s, s');
    }
  }

  /**
   A release while goroutines still run keeps the invariant exactly when none of the jobs
   the worker holds is still merely claimed.
   */
  lemma ReleaseSafeExactly(s: State, w: WorkerId)
    requires Inv(s)
    ensures Inv(s.(db := ReleaseJobs(s.db, w))) <==>
            forall j | Holds(s, w, j) && j in s.db.jobs :: s.db.jobs[j].status != Claimed
  {
    var s' := s.(db := ReleaseJobs(s.db, w));
    if Inv(s') {
      forall j | Holds(s, w, j) && j in s.db.jobs ensures s.db.jobs[j].status != Claimed {
        assert Holds(s', w, j) && FlightOk(s', w, j) && FlightOk(s, w, j);
      }
    }
    if forall j | Holds(s, w, j) && j in s.db.jobs :: s.db.jobs[j].status != Claimed {
      forall v, j | Holds(s, v, j) && j in s.db.jobs ensures s'.db.jobs[j] == s.db.jobs[j] {
        assert FlightOk(s, v, j);
      }
      forall id | id in s.db.jobs
        ensures s'.db.jobs[id] == s.db.jobs[id] || (RowOk(s'.db, id) && s'.db.jobs[id].status == Queued)
      {
        assert RowOk(s.db, id);
      }
      RowsReturned(s, s');
    }
  }

  /**
   Without punctual renewals exclusion is lost: from any good state where a live worker's
   lease has run out and its queue has room, a sweep and another worker's claim put the
   same job in two workers' hands.
   */
  lemma LateRenewalDoublesJob(s: State, w: WorkerId, v: WorkerId, j: JobId)
    returns (claim: Step)
    requires Inv(s) && Holds(s, w, j) && v in s.live && v != w
    requires j in s.db.jobs && Expired(s.db.jobs[j], s.now)
    requires s.db.jobs[j].spec.queue in s.db.queues
    requires LimitOr(s.db, s.db.jobs[j].spec.queue, UNLIMITED) >= |ActiveIn(s.db, s.db.jobs[j].spec.queue)|
    ensures Enabled(Apply(s, Sweep), claim)
    ensures var end := Apply(Apply(s, Sweep), claim); Holds(end, w, j) && Holds(end, v, j)
  {
    var q := s.db.jobs[j].spec.queue;
    var s1 := Apply(s, Sweep);
    assert FlightOk(s, w, j);
    assert !Holds(s, v, j);
    var locked := s1.db.jobs.Keys - {j};
    claim := Claim(v, q, locked, [j]);
    assert s1.db.jobs[j] == ReapedRow(s.db.jobs[j], s.now);
    forall id | id in ActiveIn(s1.db, q) ensures id in ActiveIn(s.db, q) - {j} {
      assert s1.db.jobs[id] == ReapedRow(s.db.jobs[id], s.now);
    }
    CardMonotone(ActiveIn(s1.db, q), ActiveIn(s.db, q) - {j});
    assert Budget(s1.db, q, UNLIMITED) >= 1;
    assert Claimable(s1.db, q, s1.now, locked, false, j);
    forall id | id in s1.db.jobs && Claimable(s1.db, q, s1.now, locked, false, id) && id !in [j]
      ensures false
    {
    }
    assert ValidBatch(s1.db, q, s1.now, locked, false, Budget(s1.db, q, UNLIMITED), [j]);
  }
}
