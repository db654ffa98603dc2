/** The batch endpoint: validation of every request, then one transaction for all of them. */
module BatchHandler {
  import opened Domain
  import opened Protocol
  import opened Submission
  import Store

  datatype Reply =
    | EmptyBatch
    | TooManyJobs
    | UnknownQueue
    | Invalid(index: nat, errors: map<Field, Problem>)
    | NotStored(error: DbError)
    | Created(answers: seq<JobId>)

  /** The decoders of the payload and the cron expression, and the time of the request. */
  datatype Context = Context(now: Time, validJson: string -> bool, cronNext: string -> Option<Time>)

  function CronNext(ctx: Context, req: JobRequest): Option<Time> {
    if req.cron.Some? then ctx.cronNext(req.cron.value) else None
  }

  ghost predicate Acceptable(ctx: Context, req: JobRequest) {
    forall f :: !Violates(f, req, ctx.now, ctx.validJson(req.payload), CronNext(ctx, req))
  }

  /** The reply names exactly the fields that are wrong, each with what is wrong. */
  ghost predicate Explains(errors: map<Field, Problem>, ctx: Context, req: JobRequest) {
    && (forall f :: f in errors <==> Violates(f, req, ctx.now, ctx.validJson(req.payload), CronNext(ctx, req)))
    && (forall f | f in errors :: errors[f] == ProblemOf(f, req))
    && (CronExpr in errors <==> req.cron.Some? && ctx.cronNext(req.cron.value).None?)
  }

  /** The input is what the request asked for, stamped with the batch. */
  predicate BuiltFrom(input: JobInput, ctx: Context, req: JobRequest, q: QueueId, queue: Queue, batch: int) {
    && ValidInput(input) && input.batch == Some(batch)
    && Honours(input, req, q, queue, ctx.now, CronNext(ctx, req))
    && (req.cron.Some? ==> input.nextRunAt == ctx.cronNext(req.cron.value))
  }

  /** Builds all inputs, or stops at the first request that is not acceptable. */
  method BuildInputs(ctx: Context, reqs: seq<JobRequest>, q: QueueId, queue: Queue, batch: int)
    returns (r: Result<seq<JobInput>, Reply>)
    ensures r.Ok? <==> forall k | 0 <= k < |reqs| :: Acceptable(ctx, reqs[k])
    ensures r.Ok? ==> |r.value| == |reqs|
    ensures r.Ok? ==> forall k | 0 <= k < |reqs| :: BuiltFrom(r.value[k], ctx, reqs[k], q, queue, batch)
    ensures r.Err? ==> r.error.Invalid? && r.error.index < |reqs| && !Acceptable(ctx, reqs[r.error.index])
                       && forall k | 0 <= k < r.error.index :: Acceptable(ctx, reqs[k])
    ensures r.Err? ==> Explains(r.error.errors, ctx, reqs[r.error.index])
  {
    var inputs: seq<JobInput> := [];
    var i := 0;
    while i < |reqs|
      invariant 0 <= i <= |reqs| && |inputs| == i
      invariant forall k | 0 <= k < i :: Acceptable(ctx, reqs[k]) && BuiltFrom(inputs[k], ctx, reqs[k], q, queue, batch)
    {
      var one := BuildJobInput(
        reqs[i], q, queue, ctx.now, ctx.validJson(reqs[i].payload), CronNext(ctx, reqs[i]));
      if one.Err? {
        assert !Acceptable(ctx, reqs[i]);
        return Err(Invalid(i, one.error));
      }
      inputs := inputs + [one.value.(batch := Some(batch))];
      i := i + 1;
    }
    return Ok(inputs);
  }

  /**
   Either nothing is written, or the table grows by exactly one row per request without a
   key and one per distinct new key, with one answer per request in order.
   */
  method CreateBatch(
    store: Store.JobStore, ctx: Context, reqs: seq<JobRequest>, q: QueueId, batch: int,
    ids: seq<JobId>, outage: Option<nat>)
    returns (reply: Reply, ghost inputs: seq<JobInput>)
    requires |ids| == |reqs|
    modifies store
    ensures !reply.Created? ==> store.View() == old(store.View())
    ensures reply.EmptyBatch? <==> reqs == []
    ensures reply.TooManyJobs? <==> |reqs| > 1000
    ensures reply.UnknownQueue? <==> 0 < |reqs| <= 1000 && q !in old(store.queues)
    ensures reply.Invalid? ==> reply.index < |reqs| && !Acceptable(ctx, reqs[reply.index])
                               && forall k | 0 <= k < reply.index :: Acceptable(ctx, reqs[k])
    ensures reply.Invalid? ==> Explains(reply.errors, ctx, reqs[reply.index])
    ensures reply.Created? ==> forall k | 0 <= k < |reqs| :: Acceptable(ctx, reqs[k])
    ensures reply.Created? ==>
              && |inputs| == |reqs| == |reply.answers|
              && q in store.queues
              && (forall k | 0 <= k < |reqs| :: BuiltFrom(inputs[k], ctx, reqs[k], q, store.queues[q], batch))
              && Store.Grown(old(store.jobs), store.jobs, inputs)
              && (forall k | 0 <= k < |reqs| :: Store.Answers(store.View(), ids[k], inputs[k], reply.answers[k]))
              && |store.jobs| == |old(store.jobs)| + |Unkeyed(inputs)| + |NewKeys(old(store.View()), inputs)|
  {
    inputs := [];
    if |reqs| == 0 {
      return EmptyBatch, inputs;
    }
    if |reqs| > MAX_BATCH {
      return TooManyJobs, inputs;
    }
    if q !in store.queues {
      return UnknownQueue, inputs;
    }
    var built := BuildInputs(ctx, reqs, q, store.queues[q], batch);
    if built.Err? {
      return built.error, inputs;
    }
    inputs := built.value;
    var r := store.CreateBatch(ids, built.value, outage);
    if r.Err? {
      return NotStored(r.error), inputs;
    }
    return Created(r.value), inputs;
  }
}
