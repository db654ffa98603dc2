/**
 Job submission: request validation, and what a batch of inserts adds up to.
 */
module Submission {
  import opened Domain
  import opened Statements
  import opened Protocol
  import Backoff

  const MAX_PAYLOAD := 256 * 1024
  const MAX_BATCH := 1000

  datatype JobRequest = JobRequest(
    payload: string, priority: Option<int>, maxAttempts: Option<int>, key: Option<string>,
    delaySeconds: Option<int>, runAt: Option<Time>, cron: Option<string>)

  datatype Field = Payload | Scheduling | DelaySeconds | RunAt | CronExpr | MaxAttempts

  datatype Problem =
    | Required | TooLarge | NotJson | ManyModes | NotPositive | NotInFuture | BadCron | BelowOne

  function Modes(req: JobRequest): nat {
    (if req.delaySeconds.Some? then 1 else 0) + (if req.runAt.Some? then 1 else 0)
    + (if req.cron.Some? then 1 else 0)
  }

  /** What is wrong with a field. JSON validity and cron parsing come from outside. */
  predicate Violates(f: Field, req: JobRequest, now: Time, validJson: bool, cronNext: Option<Time>) {
    match f
    case Payload => |req.payload| == 0 || |req.payload| > 262144 || !validJson
    case Scheduling => Modes(req) > 1
    case DelaySeconds => req.delaySeconds.Some? && req.delaySeconds.value <= 0
    case RunAt => req.runAt.Some? && req.runAt.value < now
    case CronExpr => req.cron.Some? && cronNext.None?
    case MaxAttempts => req.maxAttempts.Some? && req.maxAttempts.value < 1
  }

  /** The fields looked at so far are in the error map when they are wrong, with what is wrong. */
  ghost predicate Reported(
    errs: map<Field, Problem>, checked: set<Field>, req: JobRequest, now: Time, validJson: bool, cronNext: Option<Time>)
  {
    && (forall f :: f in errs <==> f in checked && Violates(f, req, now, validJson, cronNext))
    && (forall f | f in errs :: errs[f] == ProblemOf(f, req))
  }

  /** Enters a field in the error map when it is wrong. */
  function Note(
    errs: map<Field, Problem>, f: Field, wrong: bool, problem: Problem, ghost checked: set<Field>, ghost req: JobRequest,
    ghost now: Time, ghost validJson: bool, ghost cronNext: Option<Time>): (r: map<Field, Problem>)
    requires Reported(errs, checked, req, now, validJson, cronNext) && f !in checked
    requires wrong <==> Violates(f, req, now, validJson, cronNext)
    requires problem == ProblemOf(f, req)
    ensures Reported(r, checked + {f}, req, now, validJson, cronNext)
  {
    if wrong then errs[f := problem] else errs
  }

  method CountModes(req: JobRequest) returns (modes: nat)
    ensures modes == Modes(req)
  {
    modes := 0;
    if req.delaySeconds.Some? {
      modes := modes + 1;
    }
    if req.runAt.Some? {
      modes := modes + 1;
    }
    if req.cron.Some? {
      modes := modes + 1;
    }
  }

  /** What is reported for a field that is wrong. */
  function ProblemOf(f: Field, req: JobRequest): Problem {
    match f
    case Payload => if |req.payload| == 0 then Required else if |req.payload| > 262144 then TooLarge else NotJson
    case Scheduling => ManyModes
    case DelaySeconds => NotPositive
    case RunAt => NotInFuture
    case CronExpr => BadCron
    case MaxAttempts => BelowOne
  }

  method ValidatePayload(req: JobRequest, ghost now: Time, validJson: bool, ghost cronNext: Option<Time>)
    returns (errs: map<Field, Problem>)
    ensures Reported(errs, {Payload}, req, now, validJson, cronNext)
  {
    errs := map[];
    if |req.payload| == 0 {
      errs := errs[Payload := Required];
    } else if |req.payload| > MAX_PAYLOAD {
      errs := errs[Payload := TooLarge];
    } else if !validJson {
      errs := errs[Payload := NotJson];
    }
  }

  lemma EveryField(f: Field)
    ensures f in {Payload, Scheduling, DelaySeconds, RunAt} + {CronExpr} + {MaxAttempts}
  {
    match f
    case _ =>
  }

  /** The number of modes, the delay and the run time are looked at after the payload. */
  method ValidateTimes(
    before: map<Field, Problem>, req: JobRequest, now: Time, ghost validJson: bool, ghost cronNext: Option<Time>)
    returns (errs: map<Field, Problem>)
    requires Reported(before, {Payload}, req, now, validJson, cronNext)
    ensures Reported(errs, {Payload, Scheduling, DelaySeconds, RunAt}, req, now, validJson, cronNext)
  {
    var modes := CountModes(req);
    errs := Note(before, Scheduling, modes > 1, ManyModes, {Payload}, req, now, validJson, cronNext);
    var wrong := req.delaySeconds.Some? && req.delaySeconds.value <= 0;
    ghost var seen := {Payload} + {Scheduling};
    errs := Note(errs, DelaySeconds, wrong, NotPositive, seen, req, now, validJson, cronNext);
    wrong := req.runAt.Some? && req.runAt.value < now;
    errs := Note(errs, RunAt, wrong, NotInFuture, seen + {DelaySeconds}, req, now, validJson, cronNext);
    assert seen + {DelaySeconds} + {RunAt} == {Payload, Scheduling, DelaySeconds, RunAt};
  }

  /** Reports exactly the fields that are wrong, and what is wrong with each. */
  method Validate(req: JobRequest, now: Time, validJson: bool, cronNext: Option<Time>)
    returns (errs: map<Field, Problem>)
    ensures forall f :: f in errs <==> Violates(f, req, now, validJson, cronNext)
    ensures forall f | f in errs :: errs[f] == ProblemOf(f, req)
  {
    errs := ValidatePayload(req, now, validJson, cronNext);
    errs := ValidateTimes(errs, req, now, validJson, cronNext);
    ghost var seen := {Payload, Scheduling, DelaySeconds, RunAt};
    var wrong := req.cron.Some? && cronNext.None?;
    errs := Note(errs, CronExpr, wrong, BadCron, seen, req, now, validJson, cronNext);
    wrong := req.maxAttempts.Some? && req.maxAttempts.value < 1;
    errs := Note(errs, MaxAttempts, wrong, BelowOne, seen + {CronExpr}, req, now, validJson, cronNext);
    forall f ensures f in errs <==> Violates(f, req, now, validJson, cronNext) {
      EveryField(f);
    }
  }

  /** The run time a request asks for; at most one mode is set. */
  predicate RunsAt(next: Option<Time>, req: JobRequest, now: Time, cronNext: Option<Time>) {
    && (req.cron.Some? ==> next == cronNext)
    && (req.runAt.Some? ==> next == req.runAt)
    && (req.delaySeconds.Some? ==> next == Some(now + Backoff.Wrap64(req.delaySeconds.value * 1000000000)))
    && (Modes(req) == 0 ==> next == Some(now))
  }

  /** The input carries what was asked for, and the documented defaults for what was not. */
  predicate Honours(input: JobInput, req: JobRequest, q: QueueId, queue: Queue, now: Time, cronNext: Option<Time>) {
    && input.queue == q && input.payload == req.payload && input.key == req.key && input.cron == req.cron
    && input.priority == (if req.priority.Some? then req.priority.value else queue.priorityDefault)
    && input.maxAttempts == (if req.maxAttempts.Some? then req.maxAttempts.value else 3)
    && input.status == (if req.cron.Some? || req.runAt.Some? then Scheduled else Queued)
    && RunsAt(input.nextRunAt, req, now, cronNext)
  }

  /** Validation reports exactly the wrong fields, and what passes it is a valid input. */
  method BuildJobInput(
    req: JobRequest, q: QueueId, queue: Queue, now: Time, validJson: bool, cronNext: Option<Time>)
    returns (r: Result<JobInput, map<Field, Problem>>)
    ensures r.Ok? <==> forall f :: !Violates(f, req, now, validJson, cronNext)
    ensures r.Err? ==> forall f :: f in r.error <==> Violates(f, req, now, validJson, cronNext)
    ensures r.Err? ==> forall f | f in r.error :: r.error[f] == ProblemOf(f, req)
    ensures r.Ok? ==> ValidInput(r.value) && Honours(r.value, req, q, queue, now, cronNext) && r.value.batch.None?
  {
    var errs := Validate(req, now, validJson, cronNext);
    if |errs| > 0 {
      var f :| f in errs;
      return Err(errs);
    }
    assert !Violates(Scheduling, req, now, validJson, cronNext) && !Violates(CronExpr, req, now, validJson, cronNext)
        && !Violates(MaxAttempts, req, now, validJson, cronNext);

    var status, next := Queued, now;
    if req.cron.Some? {
      status, next := Scheduled, cronNext.value;
    } else if req.runAt.Some? {
      status, next := Scheduled, req.runAt.value;
    } else if req.delaySeconds.Some? {
      next := now + Backoff.Wrap64(req.delaySeconds.value * Backoff.SECOND);
    }
    var priority := if req.priority.Some? then req.priority.value else queue.priorityDefault;
    var maxAttempts := if req.maxAttempts.Some? then req.maxAttempts.value else 3;
    return Ok(JobInput(q, priority, req.payload, req.key, Some(next), status, maxAttempts, req.cron, None));
  }

  /** A delay is kept exactly when its nanoseconds fit 64 bits; past that the job may run at once. */
  lemma DelayKeptExactly(seconds: int, now: Time)
    requires 0 < seconds < Backoff.TWO63
    ensures now + Backoff.Wrap64(seconds * Backoff.SECOND) == now + seconds * Backoff.SECOND
       <==> seconds <= 9223372036
  {
  }

  // ---- counting what a batch adds ----

  function Unkeyed(inputs: seq<JobInput>): set<nat> {
    set k: nat | k < |inputs| && inputs[k].key.None?
  }

  /** The distinct queue-and-key pairs the batch asks for. */
  function Keys(inputs: seq<JobInput>): set<(QueueId, string)> {
    set k: nat | k < |inputs| && inputs[k].key.Some? :: (inputs[k].queue, inputs[k].key.value)
  }

  function NewKeys(t: Tables, inputs: seq<JobInput>): set<(QueueId, string)> {
    set p | p in Keys(inputs) && !KeyTaken(t, p.0, Some(p.1))
  }

  lemma KeysSnoc(inputs: seq<JobInput>)
    requires inputs != []
    ensures var last := inputs[|inputs| - 1];
            Keys(inputs) == Keys(inputs[..|inputs| - 1])
              + (if last.key.Some? then {(last.queue, last.key.value)} else {})
  {
    var n := |inputs| - 1;
    var front := inputs[..n];
    forall p | p in Keys(inputs)
      ensures p in Keys(front) || (inputs[n].key.Some? && p == (inputs[n].queue, inputs[n].key.value))
    {
      var k: nat :| k < |inputs| && inputs[k].key.Some? && p == (inputs[k].queue, inputs[k].key.value);
      assert k < n ==> front[k] == inputs[k];
    }
    forall p | p in Keys(front) ensures p in Keys(inputs) {
      var k: nat :| k < |front| && front[k].key.Some? && p == (front[k].queue, front[k].key.value);
      assert front[k] == inputs[k];
    }
  }

  /** After a batch the taken keys are the old ones and the requested ones. */
  lemma {:induction false} KeysAfter(t: Tables, ids: seq<JobId>, inputs: seq<JobInput>, q: QueueId, key: string)
    requires |ids| == |inputs| && CreateAll(t, ids, inputs).Ok?
    ensures KeyTaken(CreateAll(t, ids, inputs).value, q, Some(key))
       <==> KeyTaken(t, q, Some(key)) || (q, key) in Keys(inputs)
    decreases |inputs|
  {
    if inputs != [] {
      var n := |inputs| - 1;
      KeysAfter(t, ids[..n], inputs[..n], q, key);
      KeysSnoc(inputs);
      KeysAfterOne(CreateAll(t, ids[..n], inputs[..n]).value, ids[n], inputs[n], q, key);
    }
  }

  lemma KeysAfterOne(t: Tables, id: JobId, input: JobInput, q: QueueId, key: string)
    requires CreateJob(t, id, input).Ok?
    ensures KeyTaken(CreateJob(t, id, input).value, q, Some(key))
       <==> KeyTaken(t, q, Some(key)) || (input.key == Some(key) && input.queue == q)
  {
    var t' := CreateJob(t, id, input).value;
    if KeyTaken(t, q, Some(key)) {
      var a :| a in t.jobs && HasKey(t, a, q, key);
      assert HasKey(t', a, q, key);
    } else {
      assert input.key == Some(key) && input.queue == q ==> HasKey(t', id, q, key);
      if KeyTaken(t', q, Some(key)) {
        var a :| a in t'.jobs && HasKey(t', a, q, key);
        assert a in t.jobs ==> !HasKey(t, a, q, key);
      }
    }
  }

  lemma UnkeyedSnoc(inputs: seq<JobInput>)
    requires inputs != []
    ensures var n := |inputs| - 1;
            |Unkeyed(inputs)| == |Unkeyed(inputs[..n])| + (if inputs[n].key.None? then 1 else 0)
  {
    var n := |inputs| - 1;
    var front := inputs[..n];
    assert Unkeyed(inputs) == Unkeyed(front) + (if inputs[n].key.None? then {n as nat} else {});
  }

  lemma {:induction false} NewKeysSnoc(t: Tables, ids: seq<JobId>, inputs: seq<JobInput>)
    requires |ids| == |inputs| && inputs != []
    requires CreateAll(t, ids[..|ids| - 1], inputs[..|inputs| - 1]).Ok?
    ensures var n := |inputs| - 1;
            var mid := CreateAll(t, ids[..n], inputs[..n]).value;
            var last := inputs[n];
            |NewKeys(t, inputs)| == |NewKeys(t, inputs[..n])|
              + (if last.key.None? || KeyTaken(mid, last.queue, last.key) then 0 else 1)
  {
    var n := |inputs| - 1;
    var front, last := inputs[..n], inputs[n];
    KeysSnoc(inputs);
    if last.key.None? {
      assert NewKeys(t, inputs) == NewKeys(t, front);
    } else {
      KeysAfter(t, ids[..n], front, last.queue, last.key.value);
      var pair := (last.queue, last.key.value);
      if KeyTaken(t, last.queue, last.key) || pair in Keys(front) {
        assert NewKeys(t, inputs) == NewKeys(t, front);
      } else {
        assert NewKeys(t, inputs) == NewKeys(t, front) + {pair};
      }
    }
  }

  /** A batch adds one row per request without a key and one per distinct new key. */
  lemma {:induction false} BatchAddsExactly(t: Tables, ids: seq<JobId>, inputs: seq<JobInput>)
    requires |ids| == |inputs| && CreateAll(t, ids, inputs).Ok?
    ensures |CreateAll(t, ids, inputs).value.jobs| == |t.jobs| + |Unkeyed(inputs)| + |NewKeys(t, inputs)|
    decreases |inputs|
  {
    if inputs != [] {
      var n := |inputs| - 1;
      BatchAddsExactly(t, ids[..n], inputs[..n]);
      UnkeyedSnoc(inputs);
      NewKeysSnoc(t, ids, inputs);
    } else {
      assert Unkeyed(inputs) == {};
      assert Keys(inputs) == {};
      assert NewKeys(t, inputs) == {};
    }
  }

  // ---- submissions as steps ----

  /** A submission adds its row exactly if its queue exists and its id and key are free; it never changes another. */
  lemma SubmitAddsExactly(s: State, id: JobId, input: JobInput)
    requires Enabled(s, Submit(id, input))
    ensures var s' := Apply(s, Submit(id, input));
            var free := id !in s.db.jobs && input.queue in s.db.queues
                        && (input.key.Some? ==> forall j | j in s.db.jobs :: !HasKey(s.db, j, input.queue, input.key.value));
            && (id !in s.db.jobs && id in s'.db.jobs <==> free)
            && (!free ==> s' == s)
            && (forall j | j in s.db.jobs :: j in s'.db.jobs && s'.db.jobs[j] == s.db.jobs[j])
  {
  }

  /** A batch is all or nothing, and if it is stored, every key it asks for is there afterwards. */
  lemma BatchStepAddsExactly(s: State, ids: seq<JobId>, inputs: seq<JobInput>)
    requires Enabled(s, SubmitBatch(ids, inputs))
    ensures var s' := Apply(s, SubmitBatch(ids, inputs));
            if CreateAll(s.db, ids, inputs).Err? then s' == s
            else
              && |s'.db.jobs| == |s.db.jobs| + |Unkeyed(inputs)| + |NewKeys(s.db, inputs)|
              && (forall k | 0 <= k < |inputs| :: KeyTaken(s'.db, inputs[k].queue, inputs[k].key) || inputs[k].key.None?)
              && (forall j | j in s.db.jobs :: j in s'.db.jobs && s'.db.jobs[j] == s.db.jobs[j])
  {
    if CreateAll(s.db, ids, inputs).Ok? {
      CreateAllExtends(s.db, ids, inputs);
      BatchAddsExactly(s.db, ids, inputs);
      forall k | 0 <= k < |inputs| && inputs[k].key.Some?
        ensures KeyTaken(CreateAll(s.db, ids, inputs).value, inputs[k].queue, inputs[k].key)
      {
        KeysAfter(s.db, ids, inputs, inputs[k].queue, inputs[k].key.value);
      }
    }
  }
}
