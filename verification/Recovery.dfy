/**
 Time over whole runs: how long a dead worker's job stays away, what a drained worker
 leaves behind, and how long a drain may last before the reaper takes its jobs.
 */
module Recovery {
  import opened Domain
  import opened Statements
  import opened Protocol
  import opened Invariant
  import opened Lifecycle
  import opened Exclusion

  lemma {:induction false} ClockMonotone(r: Run, i: nat, k: nat)
    requires IsRun(r) && i <= k < |r.states|
    ensures r.states[i].now <= r.states[k].now
    decreases k
  {
    if i < k {
      ClockMonotone(r, i, k - 1);
      assert StepAt(r, k - 1);
    }
  }

  // ---- the recovery bound ----

  /** The step renews the worker's leases or has it settle the job. */
  predicate RenewsOrSettles(step: Step, w: WorkerId, id: JobId) {
    match step
    case Beat(v) => v == w
    case Finish(v, j) => v == w && j == id
    case Bury(v, j, _) => v == w && j == id
    case FailWrite(v, j, _, landed) => v == w && j == id && landed
    case Requeue(v, j, _) => v == w && j == id
    case _ => false
  }

  /** Still in the worker's name under the same lease. */
  predicate Leased(t: Tables, id: JobId, w: WorkerId, lease: Time) {
    id in t.jobs && Active(t.jobs[id]) && t.jobs[id].worker == Some(w) && t.jobs[id].lease == Some(lease)
  }

  /** Back in the queue, unowned, and due at once. */
  predicate Recovered(s: State, id: JobId) {
    FreeAndDue(s, id) && Unowned(s.db.jobs[id])
  }

  /** A later sweep comes no more than `gap` after the one at `m`. */
  ghost predicate SweptAgain(r: Run, m: nat, gap: Time)
    requires |r.states| == |r.steps| + 1 && m < |r.steps|
  {
    exists n | m < n < |r.steps| :: r.steps[n].Sweep? && r.states[n].now <= r.states[m].now + gap
  }

  /** Sweeps are at most `gap` apart for as long as the run lasts. */
  ghost predicate SweepsWithin(r: Run, gap: Time)
    requires |r.states| == |r.steps| + 1
  {
    forall m {:trigger SweptAgain(r, m, gap)}
      | 0 <= m < |r.steps| && r.steps[m].Sweep? && r.states[m].now + gap < r.states[|r.steps|].now ::
      SweptAgain(r, m, gap)
  }

  lemma StepLeavesLease(s: State, step: Step, w: WorkerId, id: JobId, lease: Time)
    requires Inv(s) && Enabled(s, step) && Leased(s.db, id, w, lease)
    requires !RenewsOrSettles(step, w, id)
    ensures Leased(Apply(s, step).db, id, w, lease) || Recovered(Apply(s, step), id)
  {
    StepRow(s, step, id);
    WriterKnowsRow(s, step, id);
    assert RowOk(s.db, id) && OwnerOk(s, id);
  }

  /** As long as nobody renews or settles, the lease stands until the job is recovered. */
  lemma {:induction false} LeasedOrRecovered(r: Run, i: nat, k: nat, w: WorkerId, id: JobId, lease: Time)
    returns (at: nat)
    requires IsRun(r) && Timely(r) && i <= k < |r.states|
    requires Leased(r.states[i].db, id, w, lease)
    requires forall m | i <= m < k :: !RenewsOrSettles(r.steps[m], w, id)
    ensures i <= at <= k
    ensures Recovered(r.states[at], id) || (at == k && Leased(r.states[k].db, id, w, lease))
    decreases k
  {
    at := k;
    if i < k {
      at := LeasedOrRecovered(r, i, k - 1, w, id, lease);
      if !Recovered(r.states[at], id) {
        RunKeepsInv(r, k - 1);
        assert StepAt(r, k - 1);
        StepLeavesLease(r.states[k - 1], r.steps[k - 1], w, id, lease);
        at := k;
      }
    }
  }

  /** From a sweep no later than the lease's end, find the first one after it. */
  lemma {:induction false} SweepAfterLease(r: Run, m: nat, lease: Time, gap: Time) returns (n: nat)
    requires IsRun(r) && SweepsWithin(r, gap)
    requires m < |r.steps| && r.steps[m].Sweep? && r.states[m].now <= lease
    requires lease + gap < r.states[|r.steps|].now
    ensures n < |r.steps| && r.steps[n].Sweep? && lease < r.states[n].now <= lease + gap
    decreases |r.steps| - m
  {
    assert SweptAgain(r, m, gap);
    n :| m < n < |r.steps| && r.steps[n].Sweep? && r.states[n].now <= r.states[m].now + gap;
    if r.states[n].now <= lease {
      n := SweepAfterLease(r, n, lease, gap);
    }
  }

  lemma SweepRecovers(s: State, id: JobId, w: WorkerId, lease: Time)
    requires Leased(s.db, id, w, lease) && lease < s.now
    ensures Recovered(Apply(s, Sweep), id)
  {
  }

  /**
   If sweeps are at most `gap` apart and one falls at or before the lease's end, a job
   that its worker never renews or settles again is back in the queue, owner and lease
   cleared, no later than `gap` after that end.
   */
  lemma RecoveryBound(r: Run, i: nat, first: nat, gap: Time, w: WorkerId, id: JobId, lease: Time)
    returns (at: nat)
    requires IsRun(r) && Timely(r) && SweepsWithin(r, gap)
    requires i < |r.states| && Leased(r.states[i].db, id, w, lease) && r.states[i].now <= lease
    requires forall m | i <= m < |r.steps| :: !RenewsOrSettles(r.steps[m], w, id)
    requires first < |r.steps| && r.steps[first].Sweep? && r.states[first].now <= lease
    requires lease + gap < r.states[|r.steps|].now
    ensures i < at < |r.states| && r.states[at].now <= lease + gap
    ensures Recovered(r.states[at], id)
  {
    var n := SweepAfterLease(r, first, lease, gap);
    if n < i {
      ClockMonotone(r, n, i);
    }
    at := LeasedOrRecovered(r, i, n, w, id, lease);
    if Recovered(r.states[at], id) {
      ClockMonotone(r, at, n);
    } else {
      assert StepAt(r, n);
      SweepRecovers(r.states[n], id, w, lease);
      at := n + 1;
    }
  }

  /** A worker id that has been used never comes back to life. */
  lemma {:induction false} GoneForGood(r: Run, i: nat, k: nat, w: WorkerId)
    requires IsRun(r) && i <= k < |r.states|
    requires w in r.states[i].db.workers && w !in r.states[i].live
    ensures w in r.states[k].db.workers && w !in r.states[k].live
    decreases k
  {
    if i < k {
      GoneForGood(r, i, k - 1, w);
      assert StepAt(r, k - 1);
      StepKeepsGone(r.states[k - 1], r.steps[k - 1], w);
    }
  }

  /** Crash recovery: a job whose owner has died is queued again within `gap` of its lease's end. */
  lemma CrashRecovery(r: Run, i: nat, first: nat, gap: Time, w: WorkerId, id: JobId, lease: Time)
    returns (at: nat)
    requires IsRun(r) && Timely(r) && SweepsWithin(r, gap)
    requires i < |r.states| && Leased(r.states[i].db, id, w, lease) && r.states[i].now <= lease
    requires w !in r.states[i].live
    requires first < |r.steps| && r.steps[first].Sweep? && r.states[first].now <= lease
    requires lease + gap < r.states[|r.steps|].now
    ensures i < at < |r.states| && r.states[at].now <= lease + gap
    ensures Recovered(r.states[at], id)
  {
    RunKeepsInv(r, i);
    assert RowOk(r.states[i].db, id);
    forall m | i <= m < |r.steps| ensures !RenewsOrSettles(r.steps[m], w, id) {
      GoneForGood(r, i, m, w);
      assert StepAt(r, m);
    }
    at := RecoveryBound(r, i, first, gap, w, id, lease);
  }

  predicate StartsLease(s: State, step: Step, w: WorkerId, id: JobId) {
    || (step == Beat(w) && id in s.db.jobs && Active(s.db.jobs[id]) && s.db.jobs[id].worker == Some(w))
    || (step.Claim? && step.w == w && id in step.batch)
  }

  lemma LeaseStarted(s: State, step: Step, w: WorkerId, id: JobId)
    requires Enabled(s, step) && StartsLease(s, step, w, id) && w in s.live
    ensures Leased(Apply(s, step).db, id, w, s.now + s.live[w].lease) && Apply(s, step).now == s.now
  {
  }

  /** Measured from the last claim or renewal: one lease plus one sweep gap. */
  lemma RecoveredWithinLeasePlusGap(r: Run, i: nat, first: nat, gap: Time, w: WorkerId, id: JobId)
    returns (at: nat)
    requires IsRun(r) && Timely(r) && SweepsWithin(r, gap) && i < |r.steps|
    requires StartsLease(r.states[i], r.steps[i], w, id) && w in r.states[i].live && 0 <= r.states[i].live[w].lease
    requires forall m | i < m < |r.steps| :: !RenewsOrSettles(r.steps[m], w, id)
    requires first < |r.steps| && r.steps[first].Sweep?
    requires r.states[first].now <= r.states[i].now + r.states[i].live[w].lease
    requires r.states[i].now + r.states[i].live[w].lease + gap < r.states[|r.steps|].now
    ensures i < at < |r.states|
    ensures r.states[at].now - r.states[i].now <= r.states[i].live[w].lease + gap
    ensures Recovered(r.states[at], id)
  {
    var lease := r.states[i].now + r.states[i].live[w].lease;
    assert StepAt(r, i);
    LeaseStarted(r.states[i], r.steps[i], w, id);
    at := RecoveryBound(r, i + 1, first, gap, w, id, lease);
  }

  // ---- what a drained worker leaves ----

  predicate NamesNoActive(t: Tables, w: WorkerId) {
    forall id | id in t.jobs :: Active(t.jobs[id]) ==> t.jobs[id].worker != Some(w)
  }

  lemma StepNamesNoActive(s: State, step: Step, w: WorkerId)
    requires Inv(s) && Enabled(s, step) && w !in s.live && NamesNoActive(s.db, w)
    ensures NamesNoActive(Apply(s, step).db, w)
  {
    var s' := Apply(s, step);
    forall id | id in s'.db.jobs ensures Active(s'.db.jobs[id]) ==> s'.db.jobs[id].worker != Some(w) {
      match step
      case SubmitBatch(ids, inputs) => CreateAllExtends(s.db, ids, inputs);
      case MarkRunning(v, j) => assert FlightOk(s, v, j);
      case _ =>
    }
  }

  lemma DrainedNamesNone(s: State, w: WorkerId)
    requires Inv(s) && w in s.live && s.live[w].held == map[] && s.live[w].lost == {}
    ensures NamesNoActive(s.db, w) && w in s.db.workers
  {
    assert WorkerOk(s, w);
    forall id | id in s.db.jobs ensures Active(s.db.jobs[id]) ==> s.db.jobs[id].worker != Some(w) {
      assert OwnerOk(s, id) && RowOk(s.db, id);
    }
  }

  /** A worker that drained with every write landing leaves no active row, then or ever after. */
  lemma {:induction false} CleanDrain(r: Run, i: nat, k: nat, w: WorkerId)
    requires IsRun(r) && Timely(r) && i < k < |r.states|
    requires r.steps[i] == Stop(w) && w in r.states[i].live
    requires r.states[i].live[w].held == map[] && r.states[i].live[w].lost == {}
    ensures NamesNoActive(r.states[k].db, w)
    ensures w in r.states[k].db.workers && w !in r.states[k].live
    decreases k
  {
    if k == i + 1 {
      RunKeepsInv(r, i);
      assert StepAt(r, i);
      DrainedNamesNone(r.states[i], w);
    } else {
      CleanDrain(r, i, k - 1, w);
      RunKeepsInv(r, k - 1);
      assert StepAt(r, k - 1);
      StepNamesNoActive(r.states[k - 1], r.steps[k - 1], w);
      GoneForGood(r, k - 1, k, w);
    }
  }

  /**
   Writes that did not land: after the release of a drained worker, the active rows in
   its name are exactly its running ones, and each is a job it lost.
   */
  lemma ReleaseLeavesRunning(r: Run, i: nat, w: WorkerId, id: JobId)
    requires IsRun(r) && Timely(r) && i < |r.steps| && r.steps[i] == Release(w)
    requires w in r.states[i].live && id in r.states[i].db.jobs
    ensures id in r.states[i + 1].db.jobs
    ensures var before, after := r.states[i].db.jobs[id], r.states[i + 1].db.jobs[id];
            && (Active(after) && after.worker == Some(w) <==>
                  before.status == Running && before.worker == Some(w))
            && (Active(after) && after.worker == Some(w) ==> id in r.states[i].live[w].lost)
  {
    assert StepAt(r, i);
    RunKeepsInv(r, i);
    assert OwnerOk(r.states[i], id) && RowOk(r.states[i].db, id);
  }

  // ---- a shutdown in flight ----

  /**
   The step needs the worker's run context: a claim, a renewal, or a write on a job. The
   context is cancelled by the signal that starts the drain, and a statement under a
   cancelled context does not reach the database.
   */
  predicate NeedsContext(step: Step, w: WorkerId) {
    match step
    case Claim(v, _, _, _) => v == w
    case Beat(v) => v == w
    case MarkRunning(v, _) => v == w
    case Finish(v, _) => v == w
    case Bury(v, _, _) => v == w
    case FailWrite(v, _, _, landed) => v == w && landed
    case Requeue(v, _, _) => v == w
    case _ => false
  }

  predicate ActiveFor(t: Tables, w: WorkerId, id: JobId) {
    id in t.jobs && Active(t.jobs[id]) && t.jobs[id].worker == Some(w)
  }

  lemma CutStepRow(s: State, step: Step, w: WorkerId, id: JobId)
    requires Inv(s) && Enabled(s, step) && (step.Sweep? ==> OnTime(s))
    requires w in s.live && !NeedsContext(step, w) && step != Release(w) && id in s.db.jobs
    ensures ActiveFor(s.db, w, id) ==> RowAfter(s, step, id) == s.db.jobs[id]
    ensures Active(RowAfter(s, step, id)) && RowAfter(s, step, id).worker == Some(w) ==> ActiveFor(s.db, w, id)
  {
    assert RowOk(s.db, id) && OwnerOk(s, id);
    WriterKnowsRow(s, step, id);
    if step.Claim? {
      ClaimTakesFree(s, step.w, step.q, step.locked, step.batch);
    }
  }

  /** Once cut off, a worker's active rows stay exactly what they are. */
  lemma {:induction false} CutOffRowsStay(r: Run, c: nat, n: nat, w: WorkerId, id: JobId)
    requires IsRun(r) && Timely(r) && c <= n < |r.states|
    requires forall m | c <= m <= n :: w in r.states[m].live
    requires forall m | c <= m < n :: !NeedsContext(r.steps[m], w) && r.steps[m] != Release(w)
    ensures ActiveFor(r.states[n].db, w, id) <==> ActiveFor(r.states[c].db, w, id)
    ensures ActiveFor(r.states[n].db, w, id) ==> r.states[n].db.jobs[id] == r.states[c].db.jobs[id]
    decreases n
  {
    if c < n {
      CutOffRowsStay(r, c, n - 1, w, id);
      RunKeepsInv(r, n - 1);
      assert StepAt(r, n - 1);
      if id in r.states[n - 1].db.jobs {
        StepRow(r.states[n - 1], r.steps[n - 1], id);
        CutStepRow(r.states[n - 1], r.steps[n - 1], w, id);
      } else if id in r.states[n].db.jobs {
        StepCreates(r.states[n - 1], r.steps[n - 1], id);
      }
    }
  }

  /** From state `c` on the worker's context is cancelled, and with step `n` it releases its claims. */
  ghost predicate ShutsDown(r: Run, c: nat, n: nat, w: WorkerId)
    requires |r.states| == |r.steps| + 1
  {
    && c <= n < |r.steps| && r.steps[n] == Release(w)
    && (forall m | c <= m <= n :: w in r.states[m].live)
    && (forall m | c <= m < n :: !NeedsContext(r.steps[m], w) && r.steps[m] != Release(w))
  }

  /**
   A graceful shutdown leaves a row to the reaper exactly if the job was running when the
   signal came, however quickly its handler returned.
   */
  lemma ShutdownLeavesExactly(r: Run, c: nat, n: nat, w: WorkerId, id: JobId)
    requires IsRun(r) && Timely(r) && ShutsDown(r, c, n, w)
    ensures ActiveFor(r.states[n + 1].db, w, id)
       <==> ActiveFor(r.states[c].db, w, id) && r.states[c].db.jobs[id].status == Running
  {
    CutOffRowsStay(r, c, n, w, id);
    assert StepAt(r, n);
    if id in r.states[n].db.jobs {
      ReleaseLeavesRunning(r, n, w, id);
    }
  }

  /** And the reaper then puts it back in the queue to be run again. */
  lemma InFlightRunsAgain(r: Run, c: nat, first: nat, gap: Time, w: WorkerId, id: JobId) returns (at: nat)
    requires IsRun(r) && Timely(r) && SweepsWithin(r, gap) && c < |r.states|
    requires forall m | c <= m < |r.steps| :: !NeedsContext(r.steps[m], w)
    requires ActiveFor(r.states[c].db, w, id) && r.states[c].db.jobs[id].lease.Some?
    requires r.states[c].now <= r.states[c].db.jobs[id].lease.value
    requires first < |r.steps| && r.steps[first].Sweep?
    requires r.states[first].now <= r.states[c].db.jobs[id].lease.value
    requires r.states[c].db.jobs[id].lease.value + gap < r.states[|r.steps|].now
    ensures c < at < |r.states| && r.states[at].now <= r.states[c].db.jobs[id].lease.value + gap
    ensures Recovered(r.states[at], id)
  {
    at := RecoveryBound(r, c, first, gap, w, id, r.states[c].db.jobs[id].lease.value);
  }

  // ---- a lost write under a healthy worker ----

  /** Active in a live worker's name, but no longer handled by it. */
  predicate Abandoned(s: State, w: WorkerId, id: JobId) {
    && w in s.live && !Holds(s, w, id)
    && id in s.db.jobs && Active(s.db.jobs[id]) && s.db.jobs[id].worker == Some(w)
  }

  /** The step ends it: the worker stops, or hands back the claim it no longer handles. */
  predicate EndsAbandonment(s: State, step: Step, w: WorkerId, id: JobId) {
    step == Stop(w) || (step == Release(w) && id in s.db.jobs && s.db.jobs[id].status == Claimed)
  }

  lemma StepKeepsAbandonedExactly(s: State, step: Step, w: WorkerId, id: JobId)
    requires Inv(s) && Enabled(s, step) && (step.Sweep? ==> OnTime(s)) && Abandoned(s, w, id)
    ensures Abandoned(Apply(s, step), w, id) <==> !EndsAbandonment(s, step, w, id)
  {
    StepRow(s, step, id);
    AbandonedRow(s, step, w, id);
    NotTakenUp(s, step, w, id);
    if step != Stop(w) {
      StaysLive(s, step, w);
    }
  }

  lemma StaysLive(s: State, step: Step, w: WorkerId)
    requires Enabled(s, step) && w in s.live && step != Stop(w)
    ensures w in Apply(s, step).live
  {
  }

  lemma AbandonedRow(s: State, step: Step, w: WorkerId, id: JobId)
    requires Inv(s) && Enabled(s, step) && (step.Sweep? ==> OnTime(s)) && Abandoned(s, w, id)
    ensures Active(RowAfter(s, step, id)) && RowAfter(s, step, id).worker == Some(w) <==>
            !(step == Release(w) && s.db.jobs[id].status == Claimed)
  {
    assert RowOk(s.db, id) && OwnerOk(s, id);
    WriterKnowsRow(s, step, id);
    if step.Claim? {
      ClaimTakesFree(s, step.w, step.q, step.locked, step.batch);
    }
  }

  /**
   A job whose settling write was lost stays claimed or running in its worker's name, and no
   sweep returns it, exactly until that worker stops or, if it was never started, releases.
   */
  lemma AbandonedExactlyUntil(r: Run, i: nat, k: nat, w: WorkerId, id: JobId)
    requires IsRun(r) && Timely(r) && i <= k < |r.states| && Abandoned(r.states[i], w, id)
    ensures (forall m | i <= m <= k :: Abandoned(r.states[m], w, id))
       <==> (forall m | i <= m < k :: !EndsAbandonment(r.states[m], r.steps[m], w, id))
  {
    if forall m | i <= m < k :: !EndsAbandonment(r.states[m], r.steps[m], w, id) {
      forall m | i <= m <= k ensures Abandoned(r.states[m], w, id) {
        AbandonedWhileWorkerLives(r, i, m, w, id);
      }
    }
    if forall m | i <= m <= k :: Abandoned(r.states[m], w, id) {
      forall m | i <= m < k ensures !EndsAbandonment(r.states[m], r.steps[m], w, id) {
        assert Abandoned(r.states[m + 1], w, id);
        RunKeepsInv(r, m);
        assert StepAt(r, m);
        StepKeepsAbandonedExactly(r.states[m], r.steps[m], w, id);
      }
    }
  }

  lemma {:induction false} AbandonedWhileWorkerLives(r: Run, i: nat, k: nat, w: WorkerId, id: JobId)
    requires IsRun(r) && Timely(r) && i <= k < |r.states| && Abandoned(r.states[i], w, id)
    requires forall m | i <= m < k :: !EndsAbandonment(r.states[m], r.steps[m], w, id)
    ensures Abandoned(r.states[k], w, id)
    decreases k
  {
    if i < k {
      AbandonedWhileWorkerLives(r, i, k - 1, w, id);
      RunKeepsInv(r, k - 1);
      assert StepAt(r, k - 1);
      StepKeepsAbandonedExactly(r.states[k - 1], r.steps[k - 1], w, id);
    }
  }

  /**
   One dropped job is enough. A claimed or running one is abandoned, and one whose failure
   was recorded but not requeued is stuck.
   */
  lemma GiveUpAbandons(r: Run, i: nat, w: WorkerId, j: JobId)
    requires IsRun(r) && Timely(r) && i < |r.steps| && r.steps[i] == GiveUp(w, j)
    ensures Abandoned(r.states[i + 1], w, j) || (Stuck(r.states[i + 1], j) && FailedBy(r.states[i + 1], w, j))
    ensures j in r.states[i].db.jobs
    ensures Stuck(r.states[i + 1], j) <==> r.states[i].db.jobs[j].status == Failed
  {
    RunKeepsInv(r, i);
    assert StepAt(r, i);
    assert FlightOk(r.states[i], w, j);
  }

  /** A requeueing write that did not land leaves the job failed for ever, though its worker lives on. */
  lemma LostRequeue(r: Run, i: nat, k: nat, w: WorkerId, j: JobId)
    requires IsRun(r) && Timely(r) && i < k < |r.states|
    requires r.steps[i] == GiveUp(w, j) && FailedBy(r.states[i], w, j)
    ensures w in r.states[i + 1].live
    ensures FailedBy(r.states[k], w, j) && r.states[k].db.jobs[j] == r.states[i].db.jobs[j]
  {
    assert StepAt(r, i);
    GiveUpAbandons(r, i, w, j);
    StuckForever(r, i + 1, k, j);
  }

  // ---- how long a drain may last ----

  /** Every sweep finds every worker other than `w` on time. */
  ghost predicate OthersTimely(r: Run, w: WorkerId)
    requires |r.states| == |r.steps| + 1
  {
    forall i, v | 0 <= i < |r.steps| && r.steps[i].Sweep? && v in r.states[i].live && v != w ::
      r.states[i].now <= r.states[i].live[v].renewed + r.states[i].live[v].lease
  }

  /**
   The worker is cancelled in state `c`: renewals at most `beat` apart until then, and it
   is gone once the poll loop's return and the drain timeout have passed.
   */
  ghost predicate Cancelled(r: Run, w: WorkerId, c: nat, lease: Time, beat: Time, poll: Time, drain: Time)
    requires |r.states| == |r.steps| + 1
  {
    && c < |r.states| && w in r.states[c].live
    && (forall i | 0 <= i < |r.states| && w in r.states[i].live :: r.states[i].live[w].lease == lease)
    && (forall i | 0 <= i <= c && w in r.states[i].live :: r.states[i].now <= r.states[i].live[w].renewed + beat)
    && (forall i | c < i < |r.states| && w in r.states[i].live ::
          r.states[i].now <= r.states[c].now + poll + drain)
  }

  /** While a worker lives its renewal time only grows. */
  lemma {:induction false} RenewalGrows(r: Run, c: nat, i: nat, w: WorkerId)
    requires IsRun(r) && c <= i < |r.states|
    requires w in r.states[c].live && w in r.states[c].db.workers && w in r.states[i].live
    requires r.states[c].live[w].renewed <= r.states[c].now
    ensures r.states[c].live[w].renewed <= r.states[i].live[w].renewed
    decreases i
  {
    if c < i {
      assert StepAt(r, i - 1);
      if w !in r.states[i - 1].live {
        NeverReturns(r, c, i - 1, w);
        assert false;
      }
      RenewalGrows(r, c, i - 1, w);
      ClockMonotone(r, c, i);
    }
  }

  lemma {:induction false} NeverReturns(r: Run, c: nat, i: nat, w: WorkerId)
    requires IsRun(r) && c <= i < |r.steps|
    requires w in r.states[c].db.workers && w !in r.states[i].live
    ensures w !in r.states[i + 1].live
  {
    StaysRegistered(r, c, i, w);
    GoneForGood(r, i, i + 1, w);
  }

  lemma {:induction false} StaysRegistered(r: Run, c: nat, i: nat, w: WorkerId)
    requires IsRun(r) && c <= i < |r.states| && w in r.states[c].db.workers
    ensures w in r.states[i].db.workers
    decreases i
  {
    if c < i {
      StaysRegistered(r, c, i - 1, w);
      assert StepAt(r, i - 1);
      StepKeepsGone(r.states[i - 1], r.steps[i - 1], w);
    }
  }

  lemma {:induction false} Registered(r: Run, i: nat, w: WorkerId)
    requires IsRun(r) && i < |r.states| && w in r.states[i].live
    ensures w in r.states[i].db.workers && r.states[i].live[w].renewed <= r.states[i].now
  {
    if i > 0 {
      assert StepAt(r, i - 1);
      if w in r.states[i - 1].live {
        Registered(r, i - 1, w);
        StepKeepsGone(r.states[i - 1], r.steps[i - 1], w);
      }
    }
  }

  /** A drain that fits in one lease after the last heartbeat keeps the whole run timely. */
  lemma DrainFitsLease(r: Run, w: WorkerId, c: nat, lease: Time, beat: Time, poll: Time, drain: Time)
    requires IsRun(r) && OthersTimely(r, w) && Cancelled(r, w, c, lease, beat, poll, drain)
    requires 0 <= beat && 0 <= poll && 0 <= drain && beat + poll + drain <= lease
    ensures Timely(r)
  {
    forall i | 0 <= i < |r.steps| && r.steps[i].Sweep? ensures OnTime(r.states[i]) {
      if w in r.states[i].live && c < i {
        Registered(r, c, w);
        RenewalGrows(r, c, i, w);
      }
    }
  }

  /** So none of the draining worker's jobs is reaped before its drain deadline. */
  lemma DrainNeverReaped(
    r: Run, w: WorkerId, c: nat, lease: Time, beat: Time, poll: Time, drain: Time, i: nat, j: JobId)
    requires IsRun(r) && OthersTimely(r, w) && Cancelled(r, w, c, lease, beat, poll, drain)
    requires 0 <= beat && 0 <= poll && 0 <= drain && beat + poll + drain <= lease
    requires i < |r.steps| && r.steps[i].Sweep? && Holds(r.states[i], w, j)
    ensures j in r.states[i].db.jobs && j in r.states[i + 1].db.jobs
    ensures r.states[i + 1].db.jobs[j] == r.states[i].db.jobs[j]
  {
    DrainFitsLease(r, w, c, lease, beat, poll, drain);
    SweepSparesHeld(r, i, w, j);
  }

  /** Sweep number `i` of the run takes a job away from the worker that is draining it. */
  ghost predicate DrainReaped(
    r: Run, w: WorkerId, c: nat, lease: Time, beat: Time, poll: Time, drain: Time, i: nat, j: JobId)
  {
    && IsRun(r) && OthersTimely(r, w) && Cancelled(r, w, c, lease, beat, poll, drain)
    && i < |r.steps| && r.steps[i].Sweep? && Holds(r.states[i], w, j) && Holds(r.states[i + 1], w, j)
    && Recovered(r.states[i + 1], j)
  }
}
