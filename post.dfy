/**
 * `postHandler` and `createPostOperation`: create one record from the
 * request body.
 */
module PostOperation {
  import opened Values
  import opened Store
  import opened Types
  import opened Hooks

  /** `createPostOperation`: the declared fields, tagged `post`. */
  function CreatePostOperation(fields: PostFields): (op: Operation)
    ensures op.Base() == fields.base
    ensures op.Post? && op.postFields == fields
  {
    Post(fields)
  }

  /** What `postHandler` does, given the rows before it runs: the body goes
      through the validator, `onPrePersist` may change it in place, `create`
      stores it with no filter, and `onPostPersist` may change the result in
      place. A run either leaves the rows alone or adds exactly one row to the
      model; a successful run does add it. */
  function PostRun(model: string, fields: PostFields, body: Value, uriVariables: UriVariables, context: Context, tables: Tables)
    : (run: Run)
    ensures InOrder(run.steps)
    ensures |CallsOf(run.steps)| <= 1
    ensures forall c :: c in CallsOf(run.steps) ==> c.Create? && c.model == model && c.select == fields.select
    ensures run.tables == tables || RowAdded(tables, run.tables, model)
    ensures run.reply.Json? ==> run.reply.status == 200 && RowAdded(tables, run.tables, model)
    ensures var sent := WriteData(fields.inputValidation, fields.onPrePersist, body, uriVariables, context);
      && (sent.Ok? ==> CallsOf(run.steps) == [Create(model, sent.value, fields.select)])
      && (sent.Ok? ==>
            var call := Create(model, sent.value, fields.select);
            run.reply == CallThenPost(tables, call, fields.onPostPersist, uriVariables, context).reply
            && run.tables == Effect(tables, call).0)
      && (sent.Threw? ==> run.reply == Raised(sent.error) && run.tables == tables && CallsOf(run.steps) == [])
    ensures run.reply.Json? ==> |CallsOf(run.steps)| == 1
  {
    match BodyData(fields.inputValidation, body)
    case Threw(e) => Run(Raised(e), [], tables)
    case Ok(data) =>
      match fields.onPrePersist
      case None => CallThenPost(tables, Create(model, data, fields.select), fields.onPostPersist, uriVariables, context)
      case Some(hook) =>
        match RunDataHook(hook, DataEvent(data, uriVariables, context))
        case Threw(e) => Run(Raised(e), [RanPreHook], tables)
        case Ok(changed) =>
          AfterPreHook(CallThenPost(tables, Create(model, changed, fields.select), fields.onPostPersist, uriVariables, context))
  }

  /** `postHandler`. */
  method PostHandler(model: string, fields: PostFields, request: Request, uriVariables: UriVariables, context: Context)
    returns (reply: Reply)
    modifies context.db
    ensures var run := PostRun(model, fields, request.body, uriVariables, context, old(context.db.tables));
      reply == run.reply && context.db.tables == run.tables && context.db.calls == old(context.db.calls) + CallsOf(run.steps)
  {
    var data := request.body;
    if fields.inputValidation.Some? {
      var parsed := fields.inputValidation.value(request.body);
      if parsed.Threw? {
        return Raised(parsed.error);
      }
      if Truthy(parsed.value) {
        data := parsed.value;
      }
    }
    if fields.onPrePersist.Some? {
      var outcome := RunDataHook(fields.onPrePersist.value, DataEvent(data, uriVariables, context));
      if outcome.Threw? {
        return Raised(outcome.error);
      }
      data := outcome.value;
    }
    reply := CallAndPost(Create(model, data, fields.select), fields.onPostPersist, uriVariables, context);
  }

  /** A body the validator rejects stops the handler before any hook or
      store call, with the validator's error. */
  lemma {:induction false} RejectedBodyStops(model: string, fields: PostFields, body: Value, uriVariables: UriVariables, context: Context, tables: Tables)
    requires fields.inputValidation.Some? && fields.inputValidation.value(body).Threw?
    ensures PostRun(model, fields, body, uriVariables, context, tables)
         == Run(Raised(fields.inputValidation.value(body).error), [], tables)
  {
  }

  /** A validator that accepts the body but yields a falsy value is as good as
      no validator: the raw body is stored. */
  lemma {:induction false} FalsyParseFallsBack(model: string, fields: PostFields, body: Value, uriVariables: UriVariables, context: Context, tables: Tables)
    requires fields.inputValidation.Some? && fields.inputValidation.value(body).Ok?
    requires !Truthy(fields.inputValidation.value(body).value)
    ensures PostRun(model, fields, body, uriVariables, context, tables)
         == PostRun(model, fields.(inputValidation := None), body, uriVariables, context, tables)
  {
  }

  /** Without hooks the URI variables play no part: a create has no filter. */
  lemma {:induction false} UriVariablesUnused(model: string, fields: PostFields, body: Value, u1: UriVariables, u2: UriVariables,
      context: Context, tables: Tables)
    requires fields.onPrePersist.None? && fields.onPostPersist.None?
    ensures PostRun(model, fields, body, u1, context, tables) == PostRun(model, fields, body, u2, context, tables)
  {
  }

  /** Without a validator or hooks, an object body becomes the model's last
      row and the response is that row, restricted to the selection. */
  lemma {:induction false} BodyBecomesRow(model: string, fields: PostFields, body: Value, uriVariables: UriVariables, context: Context, tables: Tables)
    requires fields.inputValidation.None? && fields.onPrePersist.None? && fields.onPostPersist.None?
    requires body.Obj? && model in tables
    ensures var run := PostRun(model, fields, body, uriVariables, context, tables);
      run.reply == Json(200, Obj(Project(body.fields, fields.select))) && run.tables[model] == tables[model] + [body.fields]
  {
  }

  /** The value `onPrePersist` resolves to never reaches the store or the
      response: two hooks that leave the data in the same state give the
      same run. */
  lemma {:induction false} PrePersistReturnIgnored(model: string, fields: PostFields, h1: DataHook, h2: DataHook, body: Value,
      uriVariables: UriVariables, context: Context, tables: Tables)
    requires forall e: DataEvent :: h1(e).Completed? && h2(e).Completed? && h1(e).mutated == h2(e).mutated
    ensures PostRun(model, fields.(onPrePersist := Some(h1)), body, uriVariables, context, tables)
         == PostRun(model, fields.(onPrePersist := Some(h2)), body, uriVariables, context, tables)
  {
  }
}
