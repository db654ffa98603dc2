/**
 The tick scheduler: at most one throttled tick at a time and one start per interval,
 next to unthrottled ticks that only push the interval's start.
 */
module Throttle {
  import opened Domain

  const MIN_INTERVAL_MS := 2500

  class Scheduler {
    var inFlight: bool
    var lastRunAt: Time
    /** Every call and settling so far. */
    ghost var trace: seq<Event>

    ghost function View(): Gate
      reads this
    {
      Gate(inFlight, lastRunAt)
    }

    ghost predicate Valid()
      reads this
    {
      View() == GateAt(trace, |trace|)
    }

    constructor ()
      ensures Valid() && trace == [] && !inFlight && lastRunAt == 0
    {
      inFlight, lastRunAt, trace := false, 0, [];
    }

    /**
     A tick starts only if none is in flight and, on a clock that does not run backwards, at
     least one interval after every earlier start of either kind. A refusal changes nothing.
     */
    method ScheduleWorkerTick(now: Time) returns (started: bool)
      requires Valid()
      modifies this
      ensures Valid() && trace == old(trace) + [Schedule(now)]
      ensures started <==> StartsThrottled(trace, |trace| - 1)
      ensures started ==> !old(inFlight) && inFlight
      ensures started && Sensible(trace) ==>
                forall i | 0 <= i < |old(trace)| && Starts(trace, i) :: trace[i].at + 2500 <= now
      ensures !started ==> View() == old(View()) && (inFlight || now < lastRunAt + 2500)
    {
      ghost var before := trace;
      trace := trace + [Schedule(now)];
      GatePrefix(before, trace, |before|);
      if inFlight || now - lastRunAt < MIN_INTERVAL_MS {
        return false;
      }
      lastRunAt := now;
      inFlight := true;
      if Sensible(trace) {
        forall i | 0 <= i < |before| && Starts(trace, i) ensures trace[i].at + MIN_INTERVAL_MS <= now {
          StartsApart(trace, i, |before|);
        }
      }
      return true;
    }

    /** An immediate tick holds throttled ones off for one interval and leaves the one in flight alone. */
    method RunWorkerTickNow(now: Time)
      requires Valid()
      modifies this
      ensures Valid() && trace == old(trace) + [RunNow(now)]
      ensures inFlight == old(inFlight)
      ensures forall t :: Admits(View(), t) <==> !inFlight && now + 2500 <= t
    {
      ghost var before := trace;
      trace := trace + [RunNow(now)];
      GatePrefix(before, trace, |before|);
      lastRunAt := now;
    }

    /** The started tick settles, well or badly: the next one may start as soon as the interval is over. */
    method TickSettled(now: Time)
      requires Valid()
      modifies this
      ensures Valid() && trace == old(trace) + [Settle(now)]
      ensures lastRunAt == old(lastRunAt)
      ensures forall t :: Admits(View(), t) <==> lastRunAt + 2500 <= t
    {
      ghost var before := trace;
      trace := trace + [Settle(now)];
      GatePrefix(before, trace, |before|);
      inFlight := false;
    }
  }

  /** The module's two variables. */
  datatype Gate = Gate(inFlight: bool, lastRunAt: Time)

  datatype Event = Schedule(at: Time) | RunNow(at: Time) | Settle(at: Time)

  predicate Admits(g: Gate, now: Time) {
    !g.inFlight && now - g.lastRunAt >= MIN_INTERVAL_MS
  }

  function After(g: Gate, e: Event): Gate {
    match e
    case Schedule(now) => if Admits(g, now) then Gate(true, now) else g
    case RunNow(now) => g.(lastRunAt := now)
    case Settle(_) => g.(inFlight := false)
  }

  function GateAt(trace: seq<Event>, i: nat): Gate
    requires i <= |trace|
  {
    if i == 0 then Gate(false, 0) else After(GateAt(trace, i - 1), trace[i - 1])
  }

  predicate Starts(trace: seq<Event>, i: nat)
    requires i < |trace|
  {
    trace[i].RunNow? || StartsThrottled(trace, i)
  }

  predicate StartsThrottled(trace: seq<Event>, i: nat)
    requires i < |trace|
  {
    trace[i].Schedule? && Admits(GateAt(trace, i), trace[i].at)
  }

  /** The clock does not run backwards, and a tick settles only while one is in flight. */
  predicate Sensible(trace: seq<Event>) {
    && (forall i, j | 0 <= i < j < |trace| :: trace[i].at <= trace[j].at)
    && (forall i | 0 <= i < |trace| && trace[i].Settle? :: GateAt(trace, i).inFlight)
  }

  /** After a start, the gate remembers that start or a later one. */
  lemma {:induction false} RemembersStart(trace: seq<Event>, i: nat, k: nat)
    requires Sensible(trace) && i < k <= |trace| && Starts(trace, i)
    ensures trace[i].at <= GateAt(trace, k).lastRunAt
    decreases k
  {
    if i < k - 1 {
      RemembersStart(trace, i, k - 1);
    }
  }

  /** A throttled tick starts at least one interval after every earlier start of either kind. */
  lemma StartsApart(trace: seq<Event>, i: nat, k: nat)
    requires Sensible(trace) && i < k < |trace| && Starts(trace, i) && StartsThrottled(trace, k)
    ensures trace[k].at >= trace[i].at + MIN_INTERVAL_MS
  {
    RemembersStart(trace, i, k);
  }

  /** Between two throttled starts the first one has settled: they never overlap. */
  lemma {:induction false} NeverOverlaps(trace: seq<Event>, i: nat, k: nat) returns (m: nat)
    requires Sensible(trace) && i < k < |trace| && StartsThrottled(trace, i) && StartsThrottled(trace, k)
    ensures i < m < k && trace[m].Settle?
  {
    m := SettledBetween(trace, i, k);
  }

  lemma {:induction false} SettledBetween(trace: seq<Event>, i: nat, k: nat) returns (m: nat)
    requires i < k <= |trace| && StartsThrottled(trace, i) && !GateAt(trace, k).inFlight
    ensures i < m < k && trace[m].Settle?
    decreases k
  {
    if k > i + 1 && trace[k - 1].Settle? {
      m := k - 1;
    } else {
      assert k > i + 1;
      m := SettledBetween(trace, i, k - 1);
    }
  }

  /** The positions of some throttled starts, in order. */
  predicate ThrottledStarts(trace: seq<Event>, at: seq<nat>) {
    && (forall x | 0 <= x < |at| :: at[x] < |trace| && StartsThrottled(trace, at[x]))
    && (forall x, y | 0 <= x < y < |at| :: at[x] < at[y])
  }

  /** k throttled starts span at least k - 1 intervals. */
  lemma {:induction false} StartsSpan(trace: seq<Event>, at: seq<nat>)
    requires Sensible(trace) && ThrottledStarts(trace, at) && |at| >= 1
    ensures trace[at[|at| - 1]].at - trace[at[0]].at >= (|at| - 1) * MIN_INTERVAL_MS
    decreases |at|
  {
    if |at| > 1 {
      var n := |at| - 1;
      StartsSpan(trace, at[..n]);
      StartsApart(trace, at[n - 1], at[n]);
    }
  }

  /** Only throttled ticks exclude each other: an immediate one may start while one is running. */
  lemma {:induction false} ImmediateMayOverlap(trace: seq<Event>, i: nat, now: Time)
    requires Sensible(trace) && i < |trace| && StartsThrottled(trace, i) && GateAt(trace, |trace|).inFlight
    requires trace[|trace| - 1].at <= now
    ensures Sensible(trace + [RunNow(now)]) && Starts(trace + [RunNow(now)], |trace|)
    ensures GateAt(trace + [RunNow(now)], |trace|).inFlight
  {
    var longer := trace + [RunNow(now)];
    forall k | 0 <= k <= |trace| ensures GateAt(longer, k) == GateAt(trace, k) {
      GatePrefix(trace, longer, k);
    }
  }

  lemma {:induction false} GatePrefix(trace: seq<Event>, longer: seq<Event>, k: nat)
    requires trace <= longer && k <= |trace|
    ensures GateAt(longer, k) == GateAt(trace, k)
  {
    if k > 0 {
      GatePrefix(trace, longer, k - 1);
    }
  }
}
