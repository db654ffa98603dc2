/**
 Idempotent submission end to end: one row per queue and key, one completion per key,
 and no completion without a handler that really succeeded.
 */
module Idempotency {
  import opened Domain
  import opened Statements
  import opened Protocol
  import opened Invariant
  import opened Untimed
  import opened Lifecycle

  // ---- one row per queue and key ----

  lemma CreateKeepsKeys(t: Tables, id: JobId, input: JobInput)
    requires KeysUnique(t)
    ensures var r := CreateJob(t, id, input); r.Ok? ==> KeysUnique(r.value)
  {
    var r := CreateJob(t, id, input);
    if r.Ok? && r.value != t {
      var t' := r.value;
      forall a, b | a in t'.jobs && b in t'.jobs && t'.jobs[a].spec.key.Some?
        && t'.jobs[a].spec.queue == t'.jobs[b].spec.queue && t'.jobs[a].spec.key == t'.jobs[b].spec.key
        ensures a == b
      {
        if a == id && b != id {
          assert HasKey(t, b, input.queue, input.key.value);
        } else if b == id && a != id {
          assert HasKey(t, a, input.queue, input.key.value);
        }
      }
    }
  }

  lemma {:induction false} CreateAllKeepsKeys(t: Tables, ids: seq<JobId>, inputs: seq<JobInput>)
    requires KeysUnique(t) && |ids| == |inputs|
    ensures var r := CreateAll(t, ids, inputs); r.Ok? ==> KeysUnique(r.value)
    decreases |inputs|
  {
    if inputs != [] {
      var n := |inputs| - 1;
      CreateAllKeepsKeys(t, ids[..n], inputs[..n]);
      var first := CreateAll(t, ids[..n], inputs[..n]);
      if first.Ok? {
        CreateKeepsKeys(first.value, ids[n], inputs[n]);
      }
    }
  }

  /** Only submissions add rows; nothing else changes what was submitted. */
  lemma StepKeepsSpecs(s: State, step: Step)
    requires Enabled(s, step) && !step.Submit? && !step.SubmitBatch?
    ensures Apply(s, step).db.jobs.Keys == s.db.jobs.Keys
    ensures forall id | id in s.db.jobs :: Apply(s, step).db.jobs[id].spec == s.db.jobs[id].spec
  {
    var s' := Apply(s, step);
    forall id | id in s.db.jobs ensures id in s'.db.jobs && s'.db.jobs[id].spec == s.db.jobs[id].spec {
      StepKeepsSpec(s, step, id);
    }
    forall id | id in s'.db.jobs ensures id in s.db.jobs {
    }
  }

  lemma StepKeepsKeys(s: State, step: Step)
    requires Enabled(s, step) && KeysUnique(s.db)
    ensures KeysUnique(Apply(s, step).db)
  {
    if step.Submit? {
      CreateKeepsKeys(s.db, step.id, step.input);
    } else if step.SubmitBatch? {
      CreateAllKeepsKeys(s.db, step.ids, step.inputs);
    } else {
      StepKeepsSpecs(s, step);
    }
  }

  /** Over any mix of single and batch submissions a queue has one row per key. */
  lemma {:induction false} OneRowPerKey(r: Run, i: nat)
    requires IsRun(r) && i < |r.states|
    ensures KeysUnique(r.states[i].db)
  {
    if i > 0 {
      OneRowPerKey(r, i - 1);
      assert StepAt(r, i - 1);
      StepKeepsKeys(r.states[i - 1], r.steps[i - 1]);
    }
  }

  /** Submitting a known key again changes nothing, and the known row is the only answer. */
  lemma ResubmitChangesNothing(r: Run, i: nat, k: nat, id: JobId, other: JobId, key: string)
    requires IsRun(r) && i <= k < |r.steps|
    requires r.steps[k].Submit? && r.steps[k].input.key == Some(key)
    requires HasKey(r.states[i].db, id, r.steps[k].input.queue, key)
    ensures r.states[k + 1] == r.states[k]
    ensures HasKey(r.states[k].db, other, r.steps[k].input.queue, key) <==> other == id
  {
    SpecForever(r, i, k, id);
    OneRowPerKey(r, k);
    assert StepAt(r, k);
    assert HasKey(r.states[k].db, id, r.steps[k].input.queue, key);
  }

  // ---- one completion per key ----

  predicate Completes(r: Run, i: nat, id: JobId)
    requires |r.states| == |r.steps| + 1 && i < |r.steps|
  {
    && id in r.states[i].db.jobs && r.states[i].db.jobs[id].status != Completed
    && id in r.states[i + 1].db.jobs && r.states[i + 1].db.jobs[id].status == Completed
  }

  /** A queue's key makes at most one transition into completed in a whole run. */
  lemma KeyCompletesOnce(r: Run, i: nat, k: nat, a: JobId, b: JobId)
    requires IsRun(r) && Timely(r) && i <= k < |r.steps|
    requires Completes(r, i, a) && Completes(r, k, b)
    requires r.states[i].db.jobs[a].spec.key.Some?
    requires r.states[i].db.jobs[a].spec.key == r.states[k].db.jobs[b].spec.key
    requires r.states[i].db.jobs[a].spec.queue == r.states[k].db.jobs[b].spec.queue
    ensures i == k && a == b
  {
    SpecForever(r, i, k, a);
    OneRowPerKey(r, k);
    assert a == b;
    if i < k {
      CompletedForever(r, i + 1, k, a);
    }
  }

  // ---- no completion out of thin air ----

  /** The gate's answer still stands while the worker acts on it. */
  ghost predicate HitsOk(s: State) {
    forall w, j | InPhase(s, w, j, Hit) ::
      var key := s.live[w].held[j].job.spec.key;
      key.Some? && KeyCompleted(s.db, key.value)
  }

  lemma StepKeepsCompletedKey(s: State, step: Step, key: string)
    requires Inv(s) && Enabled(s, step) && KeyCompleted(s.db, key)
    ensures KeyCompleted(Apply(s, step).db, key)
  {
    var id :| id in s.db.jobs && s.db.jobs[id].spec.key == Some(key) && s.db.jobs[id].status == Completed;
    StepKeepsStuck(s, step, id);
    assert id in Apply(s, step).db.jobs;
  }

  lemma StepKeepsHits(s: State, step: Step)
    requires Inv(s) && Enabled(s, step) && HitsOk(s)
    ensures HitsOk(Apply(s, step))
  {
    var s' := Apply(s, step);
    forall w, j | InPhase(s', w, j, Hit)
      ensures var key := s'.live[w].held[j].job.spec.key; key.Some? && KeyCompleted(s'.db, key.value)
    {
      HitOrigin(s, step, w, j);
      StepKeepsCompletedKey(s, step, s'.live[w].held[j].job.spec.key.value);
    }
  }

  /** A job past the gate as a hit was one before the step, or the gate just said so. */
  lemma HitOrigin(s: State, step: Step, w: WorkerId, j: JobId)
    requires Enabled(s, step) && HitsOk(s) && InPhase(Apply(s, step), w, j, Hit)
    ensures var key := Apply(s, step).live[w].held[j].job.spec.key;
            key.Some? && KeyCompleted(s.db, key.value)
  {
    if !step.CheckKey? || step.w != w || step.j != j {
      assert InPhase(s, w, j, Hit);
    }
  }

  lemma {:induction false} RunKeepsHits(r: Run, i: nat)
    requires IsRun(r) && Timely(r) && i < |r.states|
    ensures HitsOk(r.states[i])
  {
    if i > 0 {
      RunKeepsHits(r, i - 1);
      RunKeepsInv(r, i - 1);
      assert StepAt(r, i - 1);
      StepKeepsHits(r.states[i - 1], r.steps[i - 1]);
    }
  }

  /** Only the holder's completing write completes a job. */
  lemma CompletionIsFinish(s: State, step: Step, id: JobId)
    requires Enabled(s, step)
    requires id in s.db.jobs && s.db.jobs[id].status != Completed
    requires RowAfter(s, step, id).status == Completed
    ensures step.Finish? && step.j == id && (InPhase(s, step.w, id, Hit) || InPhase(s, step.w, id, Executing))
  {
  }

  /** A job past the gate as a hit was one before the step, or the gate just found its key completed. */
  lemma HitComes(s: State, step: Step, w: WorkerId, j: JobId)
    requires Enabled(s, step) && InPhase(Apply(s, step), w, j, Hit)
    ensures Holds(s, w, j)
    ensures InPhase(s, w, j, Hit)
         || (s.live[w].held[j].job.spec.key.Some? && KeyCompleted(s.db, s.live[w].held[j].job.spec.key.value))
  {
  }

  /** The step at `m` completes the job because its handler succeeded. */
  predicate Succeeds(r: Run, m: nat, id: JobId)
    requires |r.states| == |r.steps| + 1 && m < |r.steps|
  {
    r.steps[m].Finish? && r.steps[m].j == id && InPhase(r.states[m], r.steps[m].w, id, Executing)
  }

  /** The same job, or one with the same key. */
  predicate SameWork(t: Tables, a: JobId, b: JobId) {
    a in t.jobs && b in t.jobs && (a == b || (t.jobs[a].spec.key.Some? && t.jobs[a].spec.key == t.jobs[b].spec.key))
  }

  /** Two jobs that are the same work stay so. */
  lemma SameWorkStays(r: Run, i: nat, a: JobId, b: JobId)
    requires IsRun(r) && i < |r.steps| && SameWork(r.states[i].db, a, b)
    ensures SameWork(r.states[i + 1].db, a, b)
  {
    SpecForever(r, i, i + 1, a);
    SpecForever(r, i, i + 1, b);
  }

  /**
   Behind every completed job of any run stands an earlier real success: its own, or, when
   the gate short-circuited it, that of a job with the same key.
   */
  lemma {:induction false} NoPhantomCompletion(r: Run, i: nat, id: JobId) returns (m: nat, origin: JobId)
    requires IsRun(r) && i < |r.states|
    requires id in r.states[i].db.jobs && r.states[i].db.jobs[id].status == Completed
    ensures m < i && Succeeds(r, m, origin) && SameWork(r.states[i].db, origin, id)
    decreases i
  {
    assert i > 0;
    var s, step := r.states[i - 1], r.steps[i - 1];
    assert StepAt(r, i - 1);
    if id !in s.db.jobs {
      StepCreates(s, step, id);
      assert false;
    }
    StepRow(s, step, id);
    if s.db.jobs[id].status == Completed {
      m, origin := NoPhantomCompletion(r, i - 1, id);
    } else {
      CompletionIsFinish(s, step, id);
      if InPhase(s, step.w, id, Hit) {
        m, origin := NoPhantomHit(r, i - 1, step.w, id);
      } else {
        m, origin := i - 1, id;
      }
    }
    SameWorkStays(r, i - 1, origin, id);
  }

  /** Nor does the gate hit on anything but such a success. */
  lemma {:induction false} NoPhantomHit(r: Run, i: nat, w: WorkerId, j: JobId) returns (m: nat, origin: JobId)
    requires IsRun(r) && i < |r.states| && InPhase(r.states[i], w, j, Hit)
    ensures m < i && Succeeds(r, m, origin) && SameWork(r.states[i].db, origin, j)
    decreases i
  {
    assert i > 0;
    var s, step := r.states[i - 1], r.steps[i - 1];
    assert StepAt(r, i - 1);
    HitComes(s, step, w, j);
    if InPhase(s, w, j, Hit) {
      m, origin := NoPhantomHit(r, i - 1, w, j);
    } else {
      var other := KeyHolder(r, i - 1, w, j);
      m, origin := NoPhantomCompletion(r, i - 1, other);
    }
    SameWorkStays(r, i - 1, origin, j);
  }

  /** The completed job the gate saw. */
  lemma KeyHolder(r: Run, i: nat, w: WorkerId, j: JobId) returns (other: JobId)
    requires IsRun(r) && i < |r.states| && Holds(r.states[i], w, j)
    requires var key := r.states[i].live[w].held[j].job.spec.key;
             key.Some? && KeyCompleted(r.states[i].db, key.value)
    ensures SameWork(r.states[i].db, other, j) && r.states[i].db.jobs[other].status == Completed
    ensures r.states[i].db.jobs[other].spec.key.Some?
    ensures r.states[i].db.jobs[other].spec.key == r.states[i].db.jobs[j].spec.key
  {
    var s := r.states[i];
    RunKeepsAlways(r, i);
    assert CopyOk(s, w, j);
    other :| other in s.db.jobs && s.db.jobs[other].spec.key == s.live[w].held[j].job.spec.key
             && s.db.jobs[other].status == Completed;
  }

  lemma HitWitness(r: Run, i: nat, w: WorkerId, j: JobId) returns (other: JobId)
    requires IsRun(r) && Timely(r) && i < |r.states| && InPhase(r.states[i], w, j, Hit)
    ensures j in r.states[i].db.jobs && r.states[i].db.jobs[j].spec.key.Some?
    ensures other in r.states[i].db.jobs && r.states[i].db.jobs[other].status == Completed
    ensures r.states[i].db.jobs[other].spec.key == r.states[i].db.jobs[j].spec.key
  {
    var s := r.states[i];
    RunKeepsInv(r, i);
    RunKeepsHits(r, i);
    assert FlightOk(s, w, j);
    other :| other in s.db.jobs && s.db.jobs[other].spec.key == s.db.jobs[j].spec.key
             && s.db.jobs[other].status == Completed;
  }

  /** A completed job that carries the key: the job itself, or one of another queue. */
  predicate DoneBefore(t: Tables, other: JobId, j: JobId) {
    && j in t.jobs && other in t.jobs && t.jobs[other].status == Completed
    && t.jobs[other].spec.key.Some? && t.jobs[other].spec.key == t.jobs[j].spec.key
    && (other == j || t.jobs[other].spec.queue != t.jobs[j].spec.queue)
  }

  predicate CompletedElsewhere(t: Tables, other: JobId, j: JobId) {
    DoneBefore(t, other, j) && other != j
  }

  /**
   The gate looks at the key alone. Since a queue has one row per key, it hits exactly when
   the job itself was completed in the meantime or a job of another queue did the work. This
   holds in every run, and a hit job is completed without running.
   */
  lemma GateExactly(r: Run, i: nat, w: WorkerId, j: JobId)
    requires IsRun(r) && i < |r.states| && InPhase(r.states[i], w, j, Dispatched)
    ensures var s := r.states[i];
            var s1 := Apply(s, CheckKey(w, j, true));
            && (InPhase(s1, w, j, Hit) <==> exists other :: DoneBefore(s.db, other, j))
            && (InPhase(s1, w, j, Hit) || InPhase(s1, w, j, Cleared))
            && (InPhase(s1, w, j, Hit) ==>
                  j in s1.db.jobs && Apply(s1, Finish(w, j)).db.jobs[j].status == Completed)
  {
    KeyDone(r, i, w, j);
    GateEnters(r.states[i], w, j);
  }

  lemma KeyDone(r: Run, i: nat, w: WorkerId, j: JobId)
    requires IsRun(r) && i < |r.states| && Holds(r.states[i], w, j)
    ensures var s := r.states[i];
            var key := s.live[w].held[j].job.spec.key;
            && j in s.db.jobs
            && (key.Some? && KeyCompleted(s.db, key.value) <==> exists other :: DoneBefore(s.db, other, j))
  {
    var s := r.states[i];
    RunKeepsAlways(r, i);
    OneRowPerKey(r, i);
    assert CopyOk(s, w, j);
    var key := s.live[w].held[j].job.spec.key;
    if key.Some? && KeyCompleted(s.db, key.value) {
      var o := KeyHolder(r, i, w, j);
      assert DoneBefore(s.db, o, j);
    }
  }

  lemma GateEnters(s: State, w: WorkerId, j: JobId)
    requires InPhase(s, w, j, Dispatched) && j in s.db.jobs
    ensures var s1 := Apply(s, CheckKey(w, j, true));
            var key := s.live[w].held[j].job.spec.key;
            && (InPhase(s1, w, j, Hit) <==> key.Some? && KeyCompleted(s.db, key.value))
            && (InPhase(s1, w, j, Hit) || InPhase(s1, w, j, Cleared))
            && (InPhase(s1, w, j, Hit) ==>
                  j in s1.db.jobs && Apply(s1, Finish(w, j)).db.jobs[j].status == Completed)
  {
  }

  /** In a timely run a held job is not completed, so then it is always a job of another queue. */
  lemma GateFiresAcrossQueues(r: Run, i: nat, w: WorkerId, j: JobId)
    requires IsRun(r) && Timely(r) && i < |r.states| && Holds(r.states[i], w, j)
    ensures forall other | DoneBefore(r.states[i].db, other, j) :: CompletedElsewhere(r.states[i].db, other, j)
    ensures InPhase(r.states[i], w, j, Hit) ==> exists other :: CompletedElsewhere(r.states[i].db, other, j)
  {
    RunKeepsInv(r, i);
    assert FlightOk(r.states[i], w, j);
    if InPhase(r.states[i], w, j, Hit) {
      var other := HitWitness(r, i, w, j);
      OneRowPerKey(r, i);
      assert DoneBefore(r.states[i].db, other, j);
    }
  }
}
