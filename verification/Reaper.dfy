/** The reaper: one sweep at the start, then one at every tick. */
module Reaper {
  import opened Domain
  import S = Statements
  import Store

  /**
   What sweeping up to `now` makes of a row: queued, unowned and due if its lease ran out,
   else untouched.
   */
  predicate SweptTo(before: Job, after: Job, now: Time) {
    if Expired(before, now) then
      && after.nextRunAt.Some? && before.lease.value < after.nextRunAt.value <= now
      && after == Job(before.spec, Queued, after.nextRunAt, before.attempts, None, None, None,
                      before.completedAt, before.failedAt, before.error)
    else
      after == before
  }

  /** A worker is left online if it was online and has been seen within the threshold. */
  predicate MarkedTo(before: WorkerRow, after: WorkerRow, now: Time, threshold: Time) {
    && after.lastSeen == before.lastSeen
    && (after.online <==> before.online && now - threshold <= before.lastSeen)
  }

  class Reaper {
    const store: Store.JobStore
    const staleThreshold: Time

    constructor (store: Store.JobStore, staleThreshold: Time)
      ensures this.store == store && this.staleThreshold == staleThreshold
    {
      this.store, this.staleThreshold := store, staleThreshold;
    }

    /** Orphaned jobs first, stale workers second. */
    method Sweep() returns (reclaimed: seq<JobId>, dead: nat)
      modifies store
      ensures store.now == old(store.now)
      ensures store.View()
           == S.MarkDeadWorkers(S.RequeueOrphanedJobs(old(store.View()), store.now), store.now, staleThreshold)
      ensures forall id :: id in reclaimed <==> id in old(store.jobs) && Expired(old(store.jobs)[id], store.now)
      ensures dead == |set w | w in old(store.workers) && old(store.workers)[w] != store.workers[w]|
      ensures store.jobs.Keys == old(store.jobs).Keys && store.dlq == old(store.dlq)
      ensures forall id | id in store.jobs :: SweptTo(old(store.jobs)[id], store.jobs[id], store.now)
      ensures store.workers.Keys == old(store.workers).Keys
      ensures forall w | w in store.workers ::
                MarkedTo(old(store.workers)[w], store.workers[w], store.now, staleThreshold)
    {
      reclaimed := store.RequeueOrphanedJobs();
      dead := store.MarkDeadWorkers(staleThreshold);
    }

    /** Left alone with the table, the loop returns exactly the rows whose lease has run out by its last sweep. */
    method Run(waits: seq<nat>)
      modifies store
      ensures old(store.now) <= store.now
      ensures store.jobs.Keys == old(store.jobs).Keys && store.dlq == old(store.dlq)
      ensures forall id | id in store.jobs :: SweptTo(old(store.jobs)[id], store.jobs[id], store.now)
      ensures store.workers.Keys == old(store.workers).Keys
      ensures forall w | w in store.workers ::
                MarkedTo(old(store.workers)[w], store.workers[w], store.now, staleThreshold)
    {
      var _, _ := Sweep();
      var i := 0;
      while i < |waits|
        invariant 0 <= i <= |waits|
        invariant old(store.now) <= store.now
        invariant store.jobs.Keys == old(store.jobs).Keys && store.dlq == old(store.dlq)
        invariant forall id | id in store.jobs :: SweptTo(old(store.jobs)[id], store.jobs[id], store.now)
        invariant store.workers.Keys == old(store.workers).Keys
        invariant forall w | w in store.workers ::
          MarkedTo(old(store.workers)[w], store.workers[w], store.now, staleThreshold)
      {
        store.now := store.now + waits[i];
        var _, _ := Sweep();
        i := i + 1;
      }
    }
  }
}
