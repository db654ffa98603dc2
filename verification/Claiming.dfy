/**
 The ordered claim under a concurrency budget. The query filters, sorts by priority
 descending then next_run_at ascending, and takes the budget; the partial index is
 walked in its own order (NULLS FIRST) with ineligible rows skipped. Both give the
 same batch. The Go worker never claims a row without a run time; the serverless tick
 does, first of its priority. `nulls` tells the two apart.
 */
module Claiming {
  import opened Domain
  import opened Statements

  const UNLIMITED := 2147483647

  // ---- the budget ----

  function ActiveIn(t: Tables, q: QueueId): set<JobId> {
    set id | id in t.jobs && t.jobs[id].spec.queue == q && Active(t.jobs[id])
  }

  function LimitOr(t: Tables, q: QueueId, fallback: int): int {
    if q in t.queues && t.queues[q].limit.Some? then t.queues[q].limit.value else fallback
  }

  function Budget(t: Tables, q: QueueId, fallback: int): nat {
    Max(LimitOr(t, q, fallback) - |ActiveIn(t, q)|, 0)
  }

  // ---- the order ----

  predicate NextBefore(a: Option<Time>, b: Option<Time>, nullsFirst: bool) {
    match (a, b)
    case (None, None) => false
    case (None, Some(_)) => nullsFirst
    case (Some(_), None) => !nullsFirst
    case (Some(x), Some(y)) => x < y
  }

  /** Row `a` sorts strictly before row `b`. */
  predicate Before(a: Job, b: Job, nullsFirst: bool) {
    a.spec.priority > b.spec.priority
    || (a.spec.priority == b.spec.priority && NextBefore(a.nextRunAt, b.nextRunAt, nullsFirst))
  }

  predicate Sorted(t: Tables, s: seq<JobId>, nullsFirst: bool)
    requires Known(t, s)
  {
    forall i, k | 0 <= i < k < |s| :: !Before(t.jobs[s[k]], t.jobs[s[i]], nullsFirst)
  }

  predicate Known(t: Tables, s: seq<JobId>) {
    forall i | 0 <= i < |s| :: s[i] in t.jobs
  }

  predicate Distinct(s: seq<JobId>) {
    forall i, k | 0 <= i < k < |s| :: s[i] != s[k]
  }

  predicate Claimable(t: Tables, q: QueueId, now: Time, locked: set<JobId>, nulls: bool, id: JobId) {
    && id in t.jobs
    && t.jobs[id].spec.queue == q
    && t.jobs[id].status == Queued
    && (if t.jobs[id].nextRunAt.Some? then t.jobs[id].nextRunAt.value <= now else nulls)
    && id !in locked
  }

  /**
   What a claim may return: distinct unlocked due rows of the queue, in order, as many
   as the budget allows, and none left behind that should have gone first.
   */
  ghost predicate ValidBatch(
    t: Tables, q: QueueId, now: Time, locked: set<JobId>, nulls: bool, budget: nat, batch: seq<JobId>)
  {
    && Distinct(batch)
    && |batch| <= budget
    && Known(t, batch)
    && (forall i | 0 <= i < |batch| :: Claimable(t, q, now, locked, nulls, batch[i]))
    && Sorted(t, batch, nulls)
    && (forall id | id in t.jobs && Claimable(t, q, now, locked, nulls, id) && id !in batch ::
          |batch| == budget && Unbeaten(t, id, nulls, batch))
  }

  /** No claimed row is strictly preceded by the row left behind. */
  ghost predicate Unbeaten(t: Tables, id: JobId, nulls: bool, batch: seq<JobId>)
    requires id in t.jobs && Known(t, batch)
  {
    forall k | 0 <= k < |batch| :: !Before(t.jobs[id], t.jobs[batch[k]], nulls)
  }

  // ---- the order in columns ----

  /**
   Higher priority first, then the earlier run time; a row without one goes first or last
   of its priority, as `nulls` says.
   */
  predicate NoWorse(a: Job, b: Job, nulls: bool) {
    && a.spec.priority >= b.spec.priority
    && (a.spec.priority == b.spec.priority ==>
          match (a.nextRunAt, b.nextRunAt)
          case (Some(x), Some(y)) => x <= y
          case (Some(_), None) => !nulls
          case (None, Some(_)) => nulls
          case (None, None) => true)
  }

  /** A queued row of the queue whose time has come, unlocked and yet not in the batch. */
  predicate LeftBehind(
    t: Tables, q: QueueId, now: Time, locked: set<JobId>, nulls: bool, batch: seq<JobId>, id: JobId)
  {
    && id in t.jobs && id !in batch && id !in locked
    && t.jobs[id].spec.queue == q && t.jobs[id].status == Queued
    && match t.jobs[id].nextRunAt case Some(at) => at <= now case None => nulls
  }

  /** Every row of the batch is queued in the queue and its time has come. */
  ghost predicate AllDue(t: Tables, q: QueueId, now: Time, locked: set<JobId>, nulls: bool, batch: seq<JobId>) {
    forall id | id in batch ::
      && id in t.jobs && id !in locked && t.jobs[id].spec.queue == q && t.jobs[id].status == Queued
      && (t.jobs[id].nextRunAt.Some? ==> t.jobs[id].nextRunAt.value <= now)
      && (t.jobs[id].nextRunAt.None? ==> nulls)
  }

  /** Due rows only, and none left behind that is better than one taken. */
  ghost predicate NoneBetterLeft(t: Tables, q: QueueId, now: Time, locked: set<JobId>, nulls: bool, batch: seq<JobId>)
    requires Known(t, batch)
  {
    && AllDue(t, q, now, locked, nulls, batch)
    && (forall id, k | LeftBehind(t, q, now, locked, nulls, batch, id) && 0 <= k < |batch| ::
          NoWorse(t.jobs[batch[k]], t.jobs[id], nulls))
  }

  /** The rows moreover come in that order. */
  ghost predicate BestFirst(t: Tables, q: QueueId, now: Time, locked: set<JobId>, nulls: bool, batch: seq<JobId>)
    requires Known(t, batch)
  {
    && (forall i, k | 0 <= i < k < |batch| :: NoWorse(t.jobs[batch[i]], t.jobs[batch[k]], nulls))
    && NoneBetterLeft(t, q, now, locked, nulls, batch)
  }

  /** A row is left behind only in a full queue: one at its limit, or at `unset` without one. */
  ghost predicate FullIfLeft(
    t: Tables, after: Tables, q: QueueId, now: Time, locked: set<JobId>, nulls: bool, batch: seq<JobId>, unset: int)
  {
    forall id | LeftBehind(t, q, now, locked, nulls, batch, id) ::
      |ActiveIn(after, q)| >= if q in t.queues && t.queues[q].limit.Some? then t.queues[q].limit.value else unset
  }

  lemma ValidIsBestFirst(
    t: Tables, q: QueueId, now: Time, locked: set<JobId>, nulls: bool, budget: nat, batch: seq<JobId>)
    requires ValidBatch(t, q, now, locked, nulls, budget, batch)
    ensures BestFirst(t, q, now, locked, nulls, batch)
  {
    forall id | id in batch ensures Claimable(t, q, now, locked, nulls, id) {
      var i :| 0 <= i < |batch| && batch[i] == id;
      assert Claimable(t, q, now, locked, nulls, batch[i]);
    }
    forall i, k | 0 <= i < k < |batch| ensures NoWorse(t.jobs[batch[i]], t.jobs[batch[k]], nulls) {
      assert !Before(t.jobs[batch[k]], t.jobs[batch[i]], nulls);
    }
    forall id, k | LeftBehind(t, q, now, locked, nulls, batch, id) && 0 <= k < |batch|
      ensures NoWorse(t.jobs[batch[k]], t.jobs[id], nulls)
    {
      assert Claimable(t, q, now, locked, nulls, id) && Unbeaten(t, id, nulls, batch);
    }
  }

  // ---- filter, sort, take ----

  function Filter(p: JobId -> bool, s: seq<JobId>): (r: seq<JobId>)
    ensures forall i | 0 <= i < |r| :: p(r[i])
  {
    if s == [] then []
    else if p(s[0]) then [s[0]] + Filter(p, s[1..])
    else Filter(p, s[1..])
  }

  function Insert(t: Tables, x: JobId, s: seq<JobId>, nullsFirst: bool): (r: seq<JobId>)
    requires x in t.jobs && Known(t, s)
    ensures Known(t, r)
  {
    if s == [] || !Before(t.jobs[s[0]], t.jobs[x], nullsFirst) then [x] + s
    else [s[0]] + Insert(t, x, s[1..], nullsFirst)
  }

  /** A stable sort: rows that tie keep the order in which they were read. */
  function Sort(t: Tables, s: seq<JobId>, nullsFirst: bool): (r: seq<JobId>)
    requires Known(t, s)
    ensures multiset(r) == multiset(s)
    ensures Known(t, r)
  {
    if s == [] then []
    else
      assert s == [s[0]] + s[1..];
      var rest := Sort(t, s[1..], nullsFirst);
      InsertIsPermutation(t, s[0], rest, nullsFirst);
      var r := Insert(t, s[0], rest, nullsFirst);
      r
  }

  function Take(n: nat, s: seq<JobId>): seq<JobId> {
    if |s| <= n then s else s[..n]
  }

  /** A reading of the whole table, each row once, in any order. */
  ghost predicate Listing(t: Tables, rows: seq<JobId>) {
    Distinct(rows) && forall id :: id in rows <==> id in t.jobs
  }

  lemma ListingKnown(t: Tables, rows: seq<JobId>)
    requires Listing(t, rows)
    ensures Known(t, rows)
  {
    forall i | 0 <= i < |rows| ensures rows[i] in t.jobs {
      assert rows[i] in rows;
    }
  }

  function Due(t: Tables, q: QueueId, now: Time, locked: set<JobId>, nulls: bool): JobId -> bool {
    id => Claimable(t, q, now, locked, nulls, id)
  }

  function InIndex(t: Tables, q: QueueId): JobId -> bool {
    id => id in t.jobs && t.jobs[id].spec.queue == q && t.jobs[id].status == Queued
  }

  /** The claim query as written: filter, sort (NULLS LAST), limit. */
  ghost function ClaimQuery(
    t: Tables, q: QueueId, now: Time, locked: set<JobId>, nulls: bool, budget: nat, rows: seq<JobId>): seq<JobId>
    requires Listing(t, rows)
  {
    ListingKnown(t, rows);
    FilterKnown(t, Due(t, q, now, locked, nulls), rows);
    Take(budget, Sort(t, Filter(Due(t, q, now, locked, nulls), rows), nulls))
  }

  /** The entries of the partial index for one queue, in its order (NULLS FIRST). */
  ghost function ClaimIndex(t: Tables, q: QueueId, rows: seq<JobId>): (index: seq<JobId>)
    requires Listing(t, rows)
    ensures Known(t, index)
  {
    ListingKnown(t, rows);
    FilterKnown(t, InIndex(t, q), rows);
    Sort(t, Filter(InIndex(t, q), rows), true)
  }

  // ---- members, order and permutation ----

  lemma {:induction false} FilterMembers(p: JobId -> bool, s: seq<JobId>)
    ensures forall id :: id in Filter(p, s) <==> id in s && p(id)
  {
    if s != [] {
      FilterMembers(p, s[1..]);
      assert s == [s[0]] + s[1..];
    }
  }

  lemma {:induction false} FilterKnown(t: Tables, p: JobId -> bool, s: seq<JobId>)
    requires Known(t, s)
    ensures Known(t, Filter(p, s))
  {
    if s != [] {
      FilterKnown(t, p, s[1..]);
    }
  }

  lemma FilterFrom(p: JobId -> bool, s: seq<JobId>, i: nat)
    requires i < |s|
    ensures Filter(p, s[i..]) == (if p(s[i]) then [s[i]] else []) + Filter(p, s[i + 1..])
  {
    assert s[i..][1..] == s[i + 1..];
  }

  lemma {:induction false} FilterDistinct(p: JobId -> bool, s: seq<JobId>)
    requires Distinct(s)
    ensures Distinct(Filter(p, s))
  {
    if s != [] {
      FilterDistinct(p, s[1..]);
      FilterMembers(p, s[1..]);
      assert s[0] !in s[1..];
    }
  }

  lemma {:induction false} FilterTwice(p: JobId -> bool, q: JobId -> bool, s: seq<JobId>)
    requires forall i | 0 <= i < |s| :: p(s[i]) ==> q(s[i])
    ensures Filter(p, Filter(q, s)) == Filter(p, s)
  {
    if s != [] {
      FilterTwice(p, q, s[1..]);
      if q(s[0]) {
        assert ([s[0]] + Filter(q, s[1..]))[1..] == Filter(q, s[1..]);
      }
    }
  }

  lemma {:induction false} InsertIsPermutation(t: Tables, x: JobId, s: seq<JobId>, nullsFirst: bool)
    requires x in t.jobs && Known(t, s)
    ensures multiset(Insert(t, x, s, nullsFirst)) == multiset([x] + s)
  {
    if s != [] && Before(t.jobs[s[0]], t.jobs[x], nullsFirst) {
      InsertIsPermutation(t, x, s[1..], nullsFirst);
      assert s == [s[0]] + s[1..];
    }
  }

  lemma {:induction false} InsertMembers(t: Tables, x: JobId, s: seq<JobId>, nullsFirst: bool)
    requires x in t.jobs && Known(t, s)
    ensures forall id :: id in Insert(t, x, s, nullsFirst) <==> id == x || id in s
  {
    InsertIsPermutation(t, x, s, nullsFirst);
    var r := Insert(t, x, s, nullsFirst);
    assert forall id :: id in r <==> id in multiset(r);
    assert forall id :: id in [x] + s <==> id in multiset([x] + s);
  }

  lemma {:induction false} InsertSorted(t: Tables, x: JobId, s: seq<JobId>, nullsFirst: bool)
    requires x in t.jobs && Known(t, s)
    requires Sorted(t, s, nullsFirst)
    ensures Known(t, Insert(t, x, s, nullsFirst))
    ensures Sorted(t, Insert(t, x, s, nullsFirst), nullsFirst)
  {
    InsertMembers(t, x, s, nullsFirst);
    if s != [] && Before(t.jobs[s[0]], t.jobs[x], nullsFirst) {
      InsertSorted(t, x, s[1..], nullsFirst);
      InsertMembers(t, x, s[1..], nullsFirst);
      var rest := Insert(t, x, s[1..], nullsFirst);
      forall k | 0 <= k < |rest| ensures !Before(t.jobs[rest[k]], t.jobs[s[0]], nullsFirst) {
        if rest[k] != x {
          assert rest[k] in rest;
          var m :| 0 <= m < |s[1..]| && s[1..][m] == rest[k];
          assert s[m + 1] == rest[k];
        }
      }
    }
  }

  lemma {:induction false} SortSorted(t: Tables, s: seq<JobId>, nullsFirst: bool)
    requires Known(t, s)
    ensures Sorted(t, Sort(t, s, nullsFirst), nullsFirst)
  {
    if s != [] {
      SortSorted(t, s[1..], nullsFirst);
      InsertSorted(t, s[0], Sort(t, s[1..], nullsFirst), nullsFirst);
    }
  }

  lemma {:induction false} SortMembers(t: Tables, s: seq<JobId>, nullsFirst: bool)
    requires Known(t, s)
    ensures |Sort(t, s, nullsFirst)| == |s|
    ensures forall id :: id in Sort(t, s, nullsFirst) <==> id in s
    ensures Distinct(s) ==> Distinct(Sort(t, s, nullsFirst))
  {
    var r := Sort(t, s, nullsFirst);
    assert |multiset(r)| == |multiset(s)|;
    assert forall id :: id in r <==> id in multiset(r);
    assert forall id :: id in s <==> id in multiset(s);
    if Distinct(s) {
      DistinctCounts(s);
      CountsDistinct(r);
    }
  }

  lemma {:induction false} DistinctCounts(s: seq<JobId>)
    requires Distinct(s)
    ensures forall id :: multiset(s)[id] <= 1
  {
    if s != [] {
      DistinctCounts(s[1..]);
      assert s == [s[0]] + s[1..];
      assert s[0] !in s[1..];
      assert multiset(s[1..])[s[0]] == 0;
    }
  }

  lemma TwiceCounts(s: seq<JobId>, i: nat, k: nat)
    requires i < k < |s| && s[i] == s[k]
    ensures multiset(s)[s[i]] >= 2
  {
    assert s == s[..i] + [s[i]] + s[i + 1..k] + [s[k]] + s[k + 1..];
  }

  lemma CountsDistinct(s: seq<JobId>)
    requires forall id :: multiset(s)[id] <= 1
    ensures Distinct(s)
  {
    forall i, k | 0 <= i < k < |s| ensures s[i] != s[k] {
      if s[i] == s[k] {
        TwiceCounts(s, i, k);
      }
    }
  }

  // ---- filtering commutes with sorting ----

  lemma {:induction false} FilterInsert(
    t: Tables, p: JobId -> bool, x: JobId, s: seq<JobId>, nullsFirst: bool)
    requires x in t.jobs && Known(t, s)
    requires Sorted(t, s, nullsFirst)
    ensures Known(t, Filter(p, s)) && Known(t, Insert(t, x, s, nullsFirst))
    ensures Filter(p, Insert(t, x, s, nullsFirst))
         == if p(x) then Insert(t, x, Filter(p, s), nullsFirst) else Filter(p, s)
  {
    FilterMembers(p, s);
    FilterKnown(t, p, s);
    if s == [] {
    } else if !Before(t.jobs[s[0]], t.jobs[x], nullsFirst) {
      var rest := Filter(p, s);
      assert ([x] + s)[1..] == s;
      if rest != [] {
        assert rest[0] in rest;
        var k :| 0 <= k < |s| && s[k] == rest[0];
        assert !Before(t.jobs[rest[0]], t.jobs[x], nullsFirst);
      }
    } else {
      FilterInsert(t, p, x, s[1..], nullsFirst);
      var rest := Insert(t, x, s[1..], nullsFirst);
      assert ([s[0]] + rest)[1..] == rest;
      if p(s[0]) {
        assert ([s[0]] + Filter(p, s[1..]))[1..] == Filter(p, s[1..]);
      } else if p(x) {
        assert Filter(p, s) == Filter(p, s[1..]);
      }
    }
  }

  lemma {:induction false} FilterSort(t: Tables, p: JobId -> bool, s: seq<JobId>, nullsFirst: bool)
    requires Known(t, s)
    ensures Known(t, Filter(p, s))
    ensures Filter(p, Sort(t, s, nullsFirst)) == Sort(t, Filter(p, s), nullsFirst)
  {
    FilterKnown(t, p, s);
    if s != [] {
      FilterSort(t, p, s[1..], nullsFirst);
      SortSorted(t, s[1..], nullsFirst);
      FilterInsert(t, p, s[0], Sort(t, s[1..], nullsFirst), nullsFirst);
      if p(s[0]) {
        assert ([s[0]] + Filter(p, s[1..]))[1..] == Filter(p, s[1..]);
      }
    }
  }

  predicate Timed(t: Tables, s: seq<JobId>) {
    forall i | 0 <= i < |s| :: s[i] in t.jobs && t.jobs[s[i]].nextRunAt.Some?
  }

  lemma {:induction false} SortTimed(t: Tables, s: seq<JobId>, nullsFirst: bool)
    requires Timed(t, s) && Known(t, s)
    ensures Timed(t, Sort(t, s, nullsFirst))
  {
    SortMembers(t, s, nullsFirst);
    var r := Sort(t, s, nullsFirst);
    forall i | 0 <= i < |r| ensures t.jobs[r[i]].nextRunAt.Some? {
      assert r[i] in r;
      var k :| 0 <= k < |s| && s[k] == r[i];
    }
  }

  /** Where every row has a run time, the two NULL placements sort alike. */
  lemma {:induction false} NullPlacementIrrelevant(t: Tables, s: seq<JobId>)
    requires Timed(t, s)
    ensures Known(t, s) && Sort(t, s, true) == Sort(t, s, false)
  {
    if s != [] {
      NullPlacementIrrelevant(t, s[1..]);
      SortTimed(t, s[1..], true);
      InsertAlike(t, s[0], Sort(t, s[1..], true));
    }
  }

  lemma {:induction false} InsertAlike(t: Tables, x: JobId, s: seq<JobId>)
    requires x in t.jobs && t.jobs[x].nextRunAt.Some?
    requires Timed(t, s)
    ensures Insert(t, x, s, true) == Insert(t, x, s, false)
  {
    if s != [] {
      InsertAlike(t, x, s[1..]);
    }
  }

  /** Skipping while walking a sorted list is sorting what is left after skipping. */
  lemma {:induction false} SkipWhileSorted(t: Tables, due: JobId -> bool, inIndex: JobId -> bool, rows: seq<JobId>)
    requires Known(t, rows)
    requires forall i | 0 <= i < |rows| :: due(rows[i]) ==> inIndex(rows[i])
    ensures Known(t, Filter(inIndex, rows)) && Known(t, Filter(due, rows))
    ensures Filter(due, Sort(t, Filter(inIndex, rows), true)) == Sort(t, Filter(due, rows), true)
  {
    FilterKnown(t, inIndex, rows);
    FilterSort(t, due, Filter(inIndex, rows), true);
    FilterTwice(due, inIndex, rows);
  }

  lemma {:induction false} DueIsTimed(t: Tables, due: JobId -> bool, rows: seq<JobId>)
    requires Known(t, rows)
    requires forall id | id in t.jobs && due(id) :: t.jobs[id].nextRunAt.Some?
    ensures Timed(t, Filter(due, rows))
  {
    FilterKnown(t, due, rows);
    var r := Filter(due, rows);
    forall i | 0 <= i < |r| ensures r[i] in t.jobs && t.jobs[r[i]].nextRunAt.Some? {
      var id := r[i];
      assert id in t.jobs && due(id);
    }
  }

  /** Walking the partial index and skipping rows is the claim query. */
  lemma IndexWalkIsQuery(
    t: Tables, q: QueueId, now: Time, locked: set<JobId>, nulls: bool, budget: nat, rows: seq<JobId>)
    requires Listing(t, rows)
    ensures Take(budget, Filter(Due(t, q, now, locked, nulls), ClaimIndex(t, q, rows)))
         == ClaimQuery(t, q, now, locked, nulls, budget, rows)
  {
    var due := Due(t, q, now, locked, nulls);
    forall i | 0 <= i < |rows| && due(rows[i]) ensures InIndex(t, q)(rows[i]) {
    }
    SkipWhileSorted(t, due, InIndex(t, q), rows);
    if !nulls {
      DueIsTimed(t, due, rows);
      NullPlacementIrrelevant(t, Filter(due, rows));
    }
  }

  /** The query's answer is a valid batch: nothing due is left behind that goes first. */
  lemma QueryIsValid(
    t: Tables, q: QueueId, now: Time, locked: set<JobId>, nulls: bool, budget: nat, rows: seq<JobId>)
    requires Listing(t, rows)
    ensures ValidBatch(t, q, now, locked, nulls, budget, ClaimQuery(t, q, now, locked, nulls, budget, rows))
  {
    var due := Due(t, q, now, locked, nulls);
    var kept := Filter(due, rows);
    FilterMembers(due, rows);
    FilterDistinct(due, rows);
    SortMembers(t, kept, nulls);
    SortSorted(t, kept, nulls);
    var all := Sort(t, kept, nulls);
    forall id ensures id in all <==> Claimable(t, q, now, locked, nulls, id) {
      assert id in all <==> id in kept;
    }
    PrefixIsValid(t, q, now, locked, nulls, budget, all);
  }

  lemma PrefixIsValid(
    t: Tables, q: QueueId, now: Time, locked: set<JobId>, nulls: bool, budget: nat, all: seq<JobId>)
    requires Distinct(all) && Known(t, all) && Sorted(t, all, nulls)
    requires forall id :: id in all <==> Claimable(t, q, now, locked, nulls, id)
    ensures ValidBatch(t, q, now, locked, nulls, budget, Take(budget, all))
  {
    var batch := Take(budget, all);
    forall i | 0 <= i < |batch| ensures Claimable(t, q, now, locked, nulls, batch[i]) {
      assert batch[i] == all[i];
    }
    forall id | id in t.jobs && Claimable(t, q, now, locked, nulls, id) && id !in batch
      ensures |batch| == budget && Unbeaten(t, id, nulls, batch)
    {
      var m :| 0 <= m < |all| && all[m] == id;
    }
  }

  lemma BatchNoLonger(
    t: Tables, q: QueueId, now: Time, locked: set<JobId>, nulls: bool, budget: nat, a: seq<JobId>, b: seq<JobId>)
    requires ValidBatch(t, q, now, locked, nulls, budget, a) && ValidBatch(t, q, now, locked, nulls, budget, b)
    ensures |b| <= |a|
  {
    if |a| < budget {
      var inA, inB := (set i | 0 <= i < |a| :: a[i]), (set i | 0 <= i < |b| :: b[i]);
      forall id | id in inB ensures id in inA {
        var k :| 0 <= k < |b| && b[k] == id;
        assert Claimable(t, q, now, locked, nulls, b[k]);
        assert id in a;
      }
      DistinctCard(a, |a|);
      DistinctCard(b, |b|);
      CardMonotone(inB, inA);
    }
  }

  /** Two valid batches have the same length, and rows of the same rank tie: only ties are free. */
  lemma ValidBatchRanks(
    t: Tables, q: QueueId, now: Time, locked: set<JobId>, nulls: bool, budget: nat, a: seq<JobId>, b: seq<JobId>, k: nat)
    requires ValidBatch(t, q, now, locked, nulls, budget, a) && ValidBatch(t, q, now, locked, nulls, budget, b)
    requires k < |a|
    ensures |a| == |b|
    ensures !Before(t.jobs[a[k]], t.jobs[b[k]], nulls) && !Before(t.jobs[b[k]], t.jobs[a[k]], nulls)
  {
    BatchNoLonger(t, q, now, locked, nulls, budget, a, b);
    BatchNoLonger(t, q, now, locked, nulls, budget, b, a);
    RankNotBefore(t, q, now, locked, nulls, budget, a, b, k);
    RankNotBefore(t, q, now, locked, nulls, budget, b, a, k);
  }

  lemma RankNotBefore(
    t: Tables, q: QueueId, now: Time, locked: set<JobId>, nulls: bool, budget: nat, a: seq<JobId>, b: seq<JobId>, k: nat)
    requires ValidBatch(t, q, now, locked, nulls, budget, a) && ValidBatch(t, q, now, locked, nulls, budget, b)
    requires k < |a| && k < |b|
    ensures !Before(t.jobs[a[k]], t.jobs[b[k]], nulls)
  {
    if Before(t.jobs[a[k]], t.jobs[b[k]], nulls) {
      // all of a[..k+1] goes strictly before b[k], so it must sit inside b[..k]
      forall i | 0 <= i <= k ensures a[i] in b[..k] {
        assert Before(t.jobs[a[i]], t.jobs[b[k]], nulls);
        assert Claimable(t, q, now, locked, nulls, a[i]);
        assert a[i] in b;
        var m :| 0 <= m < |b| && b[m] == a[i];
        assert m < k;
      }
      var small, large := (set i | 0 <= i < k + 1 :: a[i]), (set i | 0 <= i < k :: b[i]);
      DistinctCard(a, k + 1);
      DistinctCard(b, k);
      assert small <= large;
      CardMonotone(small, large);
      assert false;
    }
  }

  lemma CardMonotone(a: set<JobId>, b: set<JobId>)
    requires a <= b
    ensures |a| <= |b|
  {
    assert b == a + (b - a);
  }

  lemma {:induction false} DistinctCard(s: seq<JobId>, n: nat)
    requires Distinct(s) && n <= |s|
    ensures |set i | 0 <= i < n :: s[i]| == n
  {
    if n > 0 {
      DistinctCard(s, n - 1);
      assert (set i | 0 <= i < n :: s[i]) == (set i | 0 <= i < n - 1 :: s[i]) + {s[n - 1]};
    }
  }

  // ---- the budget is never exceeded ----

  /** After a claim, for whatever budget, the queue holds its old active rows and the batch, nothing else. */
  lemma ClaimCounts(
    t: Tables, w: WorkerId, q: QueueId, now: Time, locked: set<JobId>, nulls: bool, lease: Time, budget: nat, batch: seq<JobId>)
    requires ValidBatch(t, q, now, locked, nulls, budget, batch)
    ensures |ActiveIn(ClaimRows(t, w, batch, now, lease), q)| == |ActiveIn(t, q)| + |batch|
  {
    var taken := BatchSet(batch);
    TakenAreNew(t, w, q, now, locked, nulls, lease, budget, batch, taken);
  }

  lemma BatchSet(batch: seq<JobId>) returns (taken: set<JobId>)
    requires Distinct(batch)
    ensures |taken| == |batch| && forall id :: id in taken <==> id in batch
  {
    taken := set i | 0 <= i < |batch| :: batch[i];
    DistinctCard(batch, |batch|);
    forall id | id in batch ensures id in taken {
      var i :| 0 <= i < |batch| && batch[i] == id;
    }
  }

  lemma TakenAreNew(
    t: Tables, w: WorkerId, q: QueueId, now: Time, locked: set<JobId>, nulls: bool, lease: Time, budget: nat,
    batch: seq<JobId>, taken: set<JobId>)
    requires ValidBatch(t, q, now, locked, nulls, budget, batch)
    requires forall id :: id in taken <==> id in batch
    ensures ActiveIn(t, q) !! taken && ActiveIn(ClaimRows(t, w, batch, now, lease), q) == ActiveIn(t, q) + taken
  {
    forall id | id in batch ensures Claimable(t, q, now, locked, nulls, id) {
      var i :| 0 <= i < |batch| && batch[i] == id;
      assert Claimable(t, q, now, locked, nulls, batch[i]);
    }
    var after := ActiveIn(ClaimRows(t, w, batch, now, lease), q);
    forall id ensures id in after <==> id in ActiveIn(t, q) + taken {
      assert id in taken <==> id in batch;
    }
    forall id | id in taken ensures id !in ActiveIn(t, q) {
      assert id in batch;
    }
  }

  /** With the budget read under the same lock it stays within the limit. */
  lemma ClaimKeepsLimit(
    t: Tables, w: WorkerId, q: QueueId, now: Time, locked: set<JobId>, nulls: bool, lease: Time, fallback: int, batch: seq<JobId>)
    requires ValidBatch(t, q, now, locked, nulls, Budget(t, q, fallback), batch)
    ensures |ActiveIn(ClaimRows(t, w, batch, now, lease), q)| == |ActiveIn(t, q)| + |batch|
    ensures |ActiveIn(ClaimRows(t, w, batch, now, lease), q)|
         <= Max(|ActiveIn(t, q)|, LimitOr(t, q, fallback))
  {
    ClaimCounts(t, w, q, now, locked, nulls, lease, Budget(t, q, fallback), batch);
  }

  /** Whoever is left behind was left because the queue is full. */
  lemma LeftOnlyWhenFull(
    t: Tables, w: WorkerId, q: QueueId, now: Time, locked: set<JobId>, nulls: bool, lease: Time, fallback: int, batch: seq<JobId>)
    requires ValidBatch(t, q, now, locked, nulls, Budget(t, q, fallback), batch)
    ensures FullIfLeft(t, ClaimRows(t, w, batch, now, lease), q, now, locked, nulls, batch, fallback)
  {
    ClaimCounts(t, w, q, now, locked, nulls, lease, Budget(t, q, fallback), batch);
    forall id | LeftBehind(t, q, now, locked, nulls, batch, id)
      ensures |ActiveIn(ClaimRows(t, w, batch, now, lease), q)|
           >= if q in t.queues && t.queues[q].limit.Some? then t.queues[q].limit.value else fallback
    {
      assert Claimable(t, q, now, locked, nulls, id);
    }
  }

  /** The same jobs, each once, in whatever order. */
  ghost predicate SameJobs(a: seq<JobId>, b: seq<JobId>) {
    Distinct(a) && |a| == |b| && forall id :: id in a <==> id in b
  }

  lemma SameSize(a: seq<JobId>, b: seq<JobId>)
    requires Distinct(a) && Distinct(b) && forall id :: id in a <==> id in b
    ensures SameJobs(a, b)
  {
    DistinctCard(a, |a|);
    DistinctCard(b, |b|);
    var x, y := set i | 0 <= i < |a| :: a[i], set i | 0 <= i < |b| :: b[i];
    forall id ensures id in x <==> id in y {
      assert id in x <==> id in a;
      assert id in y <==> id in b;
    }
    assert x == y;
  }

  /** Walk the entries, skip what is not wanted, stop at the budget. */
  method ScanIndex(wanted: JobId -> bool, budget: nat, index: seq<JobId>) returns (batch: seq<JobId>)
    ensures batch == Take(budget, Filter(wanted, index))
  {
    batch := [];
    var i := 0;
    while i < |index| && |batch| < budget
      invariant 0 <= i <= |index|
      invariant |batch| <= budget
      invariant Filter(wanted, index) == batch + Filter(wanted, index[i..])
    {
      FilterFrom(wanted, index, i);
      if wanted(index[i]) {
        batch := batch + [index[i]];
      }
      i := i + 1;
    }
  }

  /** The scan over the partial index returns the claim query's answer, a valid batch. */
  method ClaimWalk(
    t: Tables, q: QueueId, now: Time, locked: set<JobId>, nulls: bool, budget: nat, index: seq<JobId>, ghost rows: seq<JobId>)
    returns (batch: seq<JobId>)
    requires Listing(t, rows) && index == ClaimIndex(t, q, rows)
    ensures batch == ClaimQuery(t, q, now, locked, nulls, budget, rows)
    ensures ValidBatch(t, q, now, locked, nulls, budget, batch) && BestFirst(t, q, now, locked, nulls, batch)
  {
    IndexWalkIsQuery(t, q, now, locked, nulls, budget, rows);
    QueryIsValid(t, q, now, locked, nulls, budget, rows);
    batch := ScanIndex(Due(t, q, now, locked, nulls), budget, index);
    ValidIsBestFirst(t, q, now, locked, nulls, budget, batch);
  }
}
