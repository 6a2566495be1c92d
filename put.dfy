/**
 * `putHandler` and `createPutOperation`: update the record that the URI
 * variables and the declared filter select.
 */
module PutOperation {
  import opened Values
  import opened Store
  import opened Types
  import opened Hooks

  /** `createPutOperation`: the declared fields, tagged `put`. */
  function CreatePutOperation(fields: MutationFields): (op: Operation)
    ensures op.Base() == fields.base
    ensures op.Put? && op.mutationFields == fields
  {
    Put(fields)
  }

  /** The `update` call on the final data, and the post-hook. */
  function UpdateAndPost(model: string, fields: MutationFields, data: Value, uriVariables: UriVariables, context: Context, tables: Tables)
    : (run: Run)
    ensures InOrder(run.steps) && |run.steps| > 0 && Rank(run.steps[0]) > 0
    ensures CallsOf(run.steps) == [Update(model, data, EffectiveWhere(uriVariables, fields.where), fields.select)]
    ensures RowsRewritten(tables, run.tables, model)
    ensures run.reply.Json? ==> run.reply.status == 200
    ensures var call := Update(model, data, EffectiveWhere(uriVariables, fields.where), fields.select);
      run.reply == CallThenPost(tables, call, fields.onPostPersist, uriVariables, context).reply
      && run.tables == Effect(tables, call).0
  {
    CallThenPost(tables, Update(model, data, EffectiveWhere(uriVariables, fields.where), fields.select), fields.onPostPersist,
                 uriVariables, context)
  }

  /** The update once the data is known: `onPrePersist` may change it in
      place, then `update` runs with the filter `{...uriVariables, ...where}`,
      then `onPostPersist` may change the result in place. */
  function UpdateWith(model: string, fields: MutationFields, data: Value, uriVariables: UriVariables, context: Context, tables: Tables)
    : (run: Run)
    ensures InOrder(run.steps)
    ensures |CallsOf(run.steps)| <= 1
    ensures forall c :: c in CallsOf(run.steps) ==>
      c.Update? && c.model == model && c.where == EffectiveWhere(uriVariables, fields.where) && c.select == fields.select
    ensures RowsRewritten(tables, run.tables, model)
    ensures run.reply.Json? ==> run.reply.status == 200
    ensures var sent := PrePersist(fields.onPrePersist, data, uriVariables, context);
      && (sent.Ok? ==> CallsOf(run.steps) == [Update(model, sent.value, EffectiveWhere(uriVariables, fields.where), fields.select)])
      && (sent.Ok? ==>
            var call := Update(model, sent.value, EffectiveWhere(uriVariables, fields.where), fields.select);
            run.reply == CallThenPost(tables, call, fields.onPostPersist, uriVariables, context).reply
            && run.tables == Effect(tables, call).0)
      && (sent.Threw? ==> run.reply == Raised(sent.error) && run.tables == tables && CallsOf(run.steps) == [])
  {
    match fields.onPrePersist
    case None => UpdateAndPost(model, fields, data, uriVariables, context, tables)
    case Some(hook) =>
      match RunDataHook(hook, DataEvent(data, uriVariables, context))
      case Threw(e) => Run(Raised(e), [RanPreHook], tables)
      case Ok(changed) => AfterPreHook(UpdateAndPost(model, fields, changed, uriVariables, context, tables))
  }

  /** What `putHandler` (and `patchHandler`, which is the same code) does,
      given the rows before it runs: the body goes through the validator, then
      the update runs on it. Only the model's rows can change, and never their
      number. */
  function UpdateRun(model: string, fields: MutationFields, body: Value, uriVariables: UriVariables, context: Context, tables: Tables)
    : (run: Run)
    ensures InOrder(run.steps)
    ensures |CallsOf(run.steps)| <= 1
    ensures forall c :: c in CallsOf(run.steps) ==>
      c.Update? && c.model == model && c.where == EffectiveWhere(uriVariables, fields.where) && c.select == fields.select
    ensures RowsRewritten(tables, run.tables, model)
    ensures run.reply.Json? ==> run.reply.status == 200
    ensures var sent := WriteData(fields.inputValidation, fields.onPrePersist, body, uriVariables, context);
      && (sent.Ok? ==> CallsOf(run.steps) == [Update(model, sent.value, EffectiveWhere(uriVariables, fields.where), fields.select)])
      && (sent.Ok? ==>
            var call := Update(model, sent.value, EffectiveWhere(uriVariables, fields.where), fields.select);
            run.reply == CallThenPost(tables, call, fields.onPostPersist, uriVariables, context).reply
            && run.tables == Effect(tables, call).0)
      && (sent.Threw? ==> run.reply == Raised(sent.error) && run.tables == tables && CallsOf(run.steps) == [])
    ensures run.reply.Json? ==> |CallsOf(run.steps)| == 1
  {
    match BodyData(fields.inputValidation, body)
    case Threw(e) => Run(Raised(e), [], tables)
    case Ok(data) => UpdateWith(model, fields, data, uriVariables, context, tables)
  }

  /** `putHandler`. */
  method PutHandler(model: string, fields: MutationFields, request: Request, uriVariables: UriVariables, context: Context)
    returns (reply: Reply)
    modifies context.db
    ensures var run := UpdateRun(model, fields, request.body, uriVariables, context, old(context.db.tables));
      reply == run.reply && context.db.tables == run.tables && context.db.calls == old(context.db.calls) + CallsOf(run.steps)
  {
    var data := request.body;
    if fields.inputValidation.Some? {
      var parsed := fields.inputValidation.value(request.body);
      if parsed.Threw? {
        return Raised(parsed.error);
      }
      if Truthy(parsed.value) {
        data := parsed.value;
      }
    }
    if fields.onPrePersist.Some? {
      var outcome := RunDataHook(fields.onPrePersist.value, DataEvent(data, uriVariables, context));
      if outcome.Threw? {
        return Raised(outcome.error);
      }
      data := outcome.value;
    }
    var call := Update(model, data, EffectiveWhere(uriVariables, fields.where), fields.select);
    reply := CallAndPost(call, fields.onPostPersist, uriVariables, context);
  }

  /** Without a validator or hooks, when exactly one row holds the effective
      filter, an object body is merged over that row (its fields win) and the
      response is the merged row, restricted to the selection. */
  lemma {:induction false} BodyMergedIntoRow(model: string, fields: MutationFields, body: Value, uriVariables: UriVariables,
      context: Context, tables: Tables, i: nat)
    requires fields.inputValidation.None? && fields.onPrePersist.None? && fields.onPostPersist.None?
    requires body.Obj? && model in tables && i < |tables[model]|
    requires EffectiveWhere(uriVariables, fields.where) != map[]
    requires Matches(tables[model][i], EffectiveWhere(uriVariables, fields.where))
    requires forall j :: 0 <= j < |tables[model]| && j != i ==> !Matches(tables[model][j], EffectiveWhere(uriVariables, fields.where))
    ensures var run := UpdateRun(model, fields, body, uriVariables, context, tables);
      && run.reply == Json(200, Obj(Project(tables[model][i] + body.fields, fields.select)))
      && run.tables == tables[model := tables[model][i := tables[model][i] + body.fields]]
  {
    var rows := tables[model];
    var where := EffectiveWhere(uriVariables, fields.where);
    UniqueHits(rows, where, i, |rows|);
    assert rows[..|rows|] == rows;
    assert Target(rows, where) == Some(i);
    var row := rows[i] + body.fields;
    var call := Update(model, body, where, fields.select);
    assert Effect(tables, call) == (tables[model := rows[i := row]], Ok(Obj(Project(row, fields.select))));
  }

  /** A body the validator rejects stops the handler before any hook or
      store call. */
  lemma {:induction false} RejectedBodyStops(model: string, fields: MutationFields, body: Value, uriVariables: UriVariables, context: Context, tables: Tables)
    requires fields.inputValidation.Some? && fields.inputValidation.value(body).Threw?
    ensures UpdateRun(model, fields, body, uriVariables, context, tables)
         == Run(Raised(fields.inputValidation.value(body).error), [], tables)
  {
  }

  /** The value `onPrePersist` resolves to never reaches the store or the
      response. */
  lemma {:induction false} PrePersistReturnIgnored(model: string, fields: MutationFields, h1: DataHook, h2: DataHook, body: Value,
      uriVariables: UriVariables, context: Context, tables: Tables)
    requires forall e: DataEvent :: h1(e).Completed? && h2(e).Completed? && h1(e).mutated == h2(e).mutated
    ensures UpdateRun(model, fields.(onPrePersist := Some(h1)), body, uriVariables, context, tables)
         == UpdateRun(model, fields.(onPrePersist := Some(h2)), body, uriVariables, context, tables)
  {
  }
}
