/**
 * The shape every operation handler shares: build the store arguments, run
 * the optional pre-hook, make exactly one store call, run the optional
 * post-hook, and answer 200 with the result. A throw anywhere ends the
 * handler; the dispatcher returns the handler's promise without awaiting it,
 * so that throw leaves the route handler as a rejection.
 */
module Hooks {
  import opened Values
  import opened Store
  import opened Types

  /** One run of a handler (or of the whole route handler): its outcome, the
      observable steps in order, and the store's rows afterwards. */
  datatype Run = Run(reply: Reply, steps: seq<Step>, tables: Tables)

  /** Where a step sits in a handler: pre-hook, then store call, then post-hook. */
  function Rank(step: Step): nat
  {
    match step
    case RanPreHook => 0
    case CalledStore(_) => 1
    case RanPostHook => 2
  }

  /** The steps strictly follow the handler's order, so each kind of step
      happens at most once. */
  predicate InOrder(steps: seq<Step>)
  {
    |steps| <= 1 || (Rank(steps[0]) < Rank(steps[1]) && InOrder(steps[1..]))
  }

  /** The store calls among the steps, in order. */
  function CallsOf(steps: seq<Step>): (calls: seq<StoreCall>)
    ensures |calls| <= |steps|
    ensures forall c :: c in calls <==> CalledStore(c) in steps
  {
    if steps == [] then []
    else (if steps[0].CalledStore? then [steps[0].call] else []) + CallsOf(steps[1..])
  }

  /** The object a hook was handed, after the hook ran. A hook can change an
      object or an array in place, but it cannot turn it into something else,
      and it cannot change a primitive or null at all. */
  function InPlace(before: Value, mutated: Value): (after: Value)
    ensures after.Obj? == before.Obj? && after.Arr? == before.Arr?
    ensures !before.Obj? && !before.Arr? ==> after == before
    ensures after == before || after == mutated
  {
    match (before, mutated)
    case (Obj(_), Obj(_)) => mutated
    case (Arr(_), Arr(_)) => mutated
    case _ => before
  }

  /** A data hook (`onPostQuery`, `onPrePersist`, `onPostPersist`) applied to
      its event: the data as the hook left it, or what it threw. What the hook
      resolves to is never looked at. */
  function RunDataHook(hook: DataHook, event: DataEvent): (r: Result<Value>)
    ensures r.Threw? <==> hook(event).Failed?
    ensures r.Threw? ==> r.error == hook(event).error
    ensures r.Ok? ==> r.value == InPlace(event.data, hook(event).mutated)
  {
    match hook(event)
    case Failed(e) => Threw(e)
    case Completed(mutated, _) => Ok(InPlace(event.data, mutated))
  }

  /** `{...uriVariables, ...where}`: every URI variable and every declared key;
      on a shared key the declared value wins. */
  function EffectiveWhere(uriVariables: UriVariables, where: Option<Filter>): (w: Filter)
    ensures w.Keys == uriVariables.Keys + where.GetOr(map[]).Keys
    ensures forall k :: k in where.GetOr(map[]) ==> w[k] == where.value[k]
    ensures forall k :: k in uriVariables && k !in where.GetOr(map[]) ==> w[k] == uriVariables[k]
  {
    var base: Filter := uriVariables;
    base + where.GetOr(map[])
  }

  /** The read arguments of `get` and `getCollection`:
      `{orderBy, where: {...uriVariables, ...where}, select, distinct}`. */
  function ReadQuery(fields: QueryFields, uriVariables: UriVariables): (query: Query)
    ensures query.where == EffectiveWhere(uriVariables, fields.where)
    ensures query.orderBy == fields.orderBy && query.select == fields.select && query.distinct == fields.distinct
  {
    Query(fields.orderBy, EffectiveWhere(uriVariables, fields.where), fields.select, fields.distinct)
  }

  /** `inputValidation?.parse(body) || body`: the validated value when it is
      truthy, the raw body when there is no validator or the validated value
      is falsy, and the validator's throw when it rejects. */
  function BodyData(validator: Option<Validator>, body: Value): (r: Result<Value>)
    ensures validator.None? ==> r == Ok(body)
    ensures r.Threw? <==> validator.Some? && validator.value(body).Threw?
    ensures r.Threw? ==> r.error == validator.value(body).error
    ensures r.Ok? && validator.Some? && Truthy(validator.value(body).value) ==> r.value == validator.value(body).value
    ensures r.Ok? && validator.Some? && !Truthy(validator.value(body).value) ==> r.value == body
  {
    match validator
    case None => Ok(body)
    case Some(parse) =>
      match parse(body)
      case Threw(e) => Threw(e)
      case Ok(parsed) => if Truthy(parsed) then Ok(parsed) else Ok(body)
  }

  /** `onPrePersist`, when declared, applied to the data a write is about to
      send: the data as the hook left it in place, or what the hook threw. */
  function PrePersist(pre: Option<DataHook>, data: Value, uriVariables: UriVariables, context: Context): (r: Result<Value>)
    ensures pre.None? ==> r == Ok(data)
    ensures r.Threw? <==> pre.Some? && pre.value(DataEvent(data, uriVariables, context)).Failed?
    ensures r.Threw? ==> r.error == pre.value(DataEvent(data, uriVariables, context)).error
    ensures r.Ok? && pre.Some? ==> r.value == InPlace(data, pre.value(DataEvent(data, uriVariables, context)).mutated)
  {
    match pre
    case None => Ok(data)
    case Some(hook) => RunDataHook(hook, DataEvent(data, uriVariables, context))
  }

  /** The data `create` or `update` receives: the body through the validator,
      then through `onPrePersist`; or the first throw on the way. */
  function WriteData(validator: Option<Validator>, pre: Option<DataHook>, body: Value, uriVariables: UriVariables,
      context: Context): (r: Result<Value>)
    ensures BodyData(validator, body).Threw? ==> r == BodyData(validator, body)
    ensures BodyData(validator, body).Ok? ==> r == PrePersist(pre, BodyData(validator, body).value, uriVariables, context)
  {
    match BodyData(validator, body)
    case Threw(e) => Threw(e)
    case Ok(data) => PrePersist(pre, data, uriVariables, context)
  }

  /** A run that first went through a pre-hook. */
  function AfterPreHook(run: Run): (r: Run)
    requires InOrder(run.steps) && (run.steps == [] || Rank(run.steps[0]) > 0)
    ensures InOrder(r.steps)
    ensures r.reply == run.reply && r.tables == run.tables
    ensures r.steps == [RanPreHook] + run.steps
    ensures CallsOf(r.steps) == CallsOf(run.steps)
  {
    assert ([RanPreHook] + run.steps)[1..] == run.steps;
    Run(run.reply, [RanPreHook] + run.steps, run.tables)
  }

  /** The store call and what follows it: a call that throws ends the run with
      the rows untouched; otherwise the post-hook, when present, sees the result
      and may change it in place, and the result is the body of a 200. */
  function CallThenPost(tables: Tables, call: StoreCall, post: Option<DataHook>, uriVariables: UriVariables, context: Context)
    : (run: Run)
    ensures InOrder(run.steps) && |run.steps| > 0 && run.steps[0] == CalledStore(call)
    ensures RanPreHook !in run.steps
    ensures run.tables == Effect(tables, call).0
    ensures CallsOf(run.steps) == [call]
    ensures Effect(tables, call).1.Threw? ==> run == Run(Raised(Effect(tables, call).1.error), [CalledStore(call)], tables)
    ensures Effect(tables, call).1.Ok? && post.None? ==> run == Run(Json(200, Effect(tables, call).1.value), [CalledStore(call)], run.tables)
    ensures Effect(tables, call).1.Ok? && post.Some? ==> run.steps == [CalledStore(call), RanPostHook]
    ensures Effect(tables, call).1.Ok? && post.Some? ==>
      var done := post.value(DataEvent(Effect(tables, call).1.value, uriVariables, context));
      && (done.Completed? ==> run.reply == Json(200, InPlace(Effect(tables, call).1.value, done.mutated)))
      && (done.Failed? ==> run.reply == Raised(done.error))
    ensures run.reply.Json? ==> run.reply.status == 200 && Effect(tables, call).1.Ok?
    ensures run.reply.Json? ==> run.reply.body.Arr? == Effect(tables, call).1.value.Arr?
    ensures run.reply.Json? && call.FindMany? ==> run.reply.body.Arr?
    ensures run.reply.Json? ==> run.reply.body.Obj? == Effect(tables, call).1.value.Obj?
  {
    var (after, outcome) := Effect(tables, call);
    match outcome
    case Threw(e) => Run(Raised(e), [CalledStore(call)], after)
    case Ok(result) =>
      match post
      case None => Run(Json(200, result), [CalledStore(call)], after)
      case Some(hook) =>
        var steps := [CalledStore(call), RanPostHook];
        assert CallsOf(steps) == [call] by {
          assert steps[1..] == [RanPostHook];
        }
        match RunDataHook(hook, DataEvent(result, uriVariables, context))
        case Threw(e) => Run(Raised(e), steps, after)
        case Ok(data) => Run(Json(200, data), steps, after)
  }

  /** The tail every handler shares: the store call, then `onPost…` when
      present, then the 200 response. */
  method CallAndPost(call: StoreCall, post: Option<DataHook>, uriVariables: UriVariables, context: Context)
    returns (reply: Reply)
    modifies context.db
    ensures var run := CallThenPost(old(context.db.tables), call, post, uriVariables, context);
      reply == run.reply && context.db.tables == run.tables && context.db.calls == old(context.db.calls) + [call]
  {
    var result := context.db.Execute(call);
    if result.Threw? {
      return Raised(result.error);
    }
    var data := result.value;
    if post.Some? {
      var outcome := RunDataHook(post.value, DataEvent(data, uriVariables, context));
      if outcome.Threw? {
        return Raised(outcome.error);
      }
      data := outcome.value;
    }
    reply := Json(200, data);
  }

  /** A handler whose store call threw, or whose hooks threw, answers nothing:
      the run ends in the thrown value. A handler that answers answers 200.
      Together with `CallThenPost`: at most one store call per handler. */
  lemma {:induction false} HandlerStatus(tables: Tables, call: StoreCall, post: Option<DataHook>, uriVariables: UriVariables, context: Context)
    ensures var run := CallThenPost(tables, call, post, uriVariables, context);
      run.reply.Json? <==> Effect(tables, call).1.Ok? && (post.None? || post.value(DataEvent(Effect(tables, call).1.value, uriVariables, context)).Completed?)
  {
  }

  /** A post-hook that throws after a successful write does not undo it: the
      run ends in the hook's error with the store's change in place. */
  lemma {:induction false} PostHookFailureKeepsWrite(tables: Tables, call: StoreCall, hook: DataHook, uriVariables: UriVariables, context: Context)
    requires Effect(tables, call).1.Ok?
    requires hook(DataEvent(Effect(tables, call).1.value, uriVariables, context)).Failed?
    ensures var run := CallThenPost(tables, call, Some(hook), uriVariables, context);
      run.reply == Raised(hook(DataEvent(Effect(tables, call).1.value, uriVariables, context)).error)
      && run.tables == Effect(tables, call).0
  {
  }

  /** The value a post-hook resolves to never reaches the response: two hooks
      that leave the result in the same state give the same run. */
  lemma {:induction false} PostHookReturnIgnored(tables: Tables, call: StoreCall, h1: DataHook, h2: DataHook, uriVariables: UriVariables, context: Context)
    requires forall e: DataEvent :: h1(e).Completed? && h2(e).Completed? && h1(e).mutated == h2(e).mutated
    ensures CallThenPost(tables, call, Some(h1), uriVariables, context) == CallThenPost(tables, call, Some(h2), uriVariables, context)
  {
  }
}
