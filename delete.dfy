/**
 * `deleteHandler` and `createDeleteOperation`: delete the record that the
 * URI variables and the declared filter select. The request body, the input
 * validator and `onPrePersist` are never consulted.
 */
module DeleteOperation {
  import opened Values
  import opened Store
  import opened Types
  import opened Hooks

  /** `createDeleteOperation`: the declared fields, tagged `delete`. */
  function CreateDeleteOperation(fields: MutationFields): (op: Operation)
    ensures op.Base() == fields.base
    ensures op.Delete? && op.mutationFields == fields
  {
    Operation.Delete(fields)
  }

  /** What `deleteHandler` does, given the rows before it runs: `delete` with
      the filter `{...uriVariables, ...where}`, then `onPostPersist` may change
      the deleted record in place. A run either leaves the rows alone or
      removes exactly one of the model's rows; a successful run does remove it. */
  function DeleteRun(model: string, fields: MutationFields, uriVariables: UriVariables, context: Context, tables: Tables)
    : (run: Run)
    ensures InOrder(run.steps) && RanPreHook !in run.steps
    ensures |CallsOf(run.steps)| == 1
    ensures forall c :: c in CallsOf(run.steps) ==>
      c.Delete? && c.model == model && c.where == EffectiveWhere(uriVariables, fields.where) && c.select == fields.select
    ensures run.tables == tables || RowRemoved(tables, run.tables, model)
    ensures run.reply.Json? ==> run.reply.status == 200 && RowRemoved(tables, run.tables, model)
    ensures var call := StoreCall.Delete(model, EffectiveWhere(uriVariables, fields.where), fields.select);
      run.reply == CallThenPost(tables, call, fields.onPostPersist, uriVariables, context).reply
      && run.tables == Effect(tables, call).0
  {
    var call := StoreCall.Delete(model, EffectiveWhere(uriVariables, fields.where), fields.select);
    CallThenPost(tables, call, fields.onPostPersist, uriVariables, context)
  }

  /** `deleteHandler`. */
  method DeleteHandler(model: string, fields: MutationFields, uriVariables: UriVariables, context: Context)
    returns (reply: Reply)
    modifies context.db
    ensures var run := DeleteRun(model, fields, uriVariables, context, old(context.db.tables));
      reply == run.reply && context.db.tables == run.tables && context.db.calls == old(context.db.calls) + CallsOf(run.steps)
  {
    var call := StoreCall.Delete(model, EffectiveWhere(uriVariables, fields.where), fields.select);
    reply := CallAndPost(call, fields.onPostPersist, uriVariables, context);
  }

  /** The write-only fields a delete operation may carry change nothing. */
  lemma {:induction false} WriteInputsIgnored(model: string, fields: MutationFields, validator: Option<Validator>, pre: Option<DataHook>,
      uriVariables: UriVariables, context: Context, tables: Tables)
    ensures DeleteRun(model, fields.(inputValidation := validator, onPrePersist := pre), uriVariables, context, tables)
         == DeleteRun(model, fields, uriVariables, context, tables)
  {
  }

  /** Without a post-hook, when exactly one row holds the effective filter,
      that row is removed and returned, restricted to the selection. */
  lemma {:induction false} UniqueRowDeleted(model: string, fields: MutationFields, uriVariables: UriVariables,
      context: Context, tables: Tables, i: nat)
    requires fields.onPostPersist.None?
    requires model in tables && i < |tables[model]|
    requires EffectiveWhere(uriVariables, fields.where) != map[]
    requires Matches(tables[model][i], EffectiveWhere(uriVariables, fields.where))
    requires forall j :: 0 <= j < |tables[model]| && j != i ==> !Matches(tables[model][j], EffectiveWhere(uriVariables, fields.where))
    ensures var run := DeleteRun(model, fields, uriVariables, context, tables);
      && run.reply == Json(200, Obj(Project(tables[model][i], fields.select)))
      && run.tables == tables[model := tables[model][..i] + tables[model][i + 1..]]
  {
    var rows := tables[model];
    var where := EffectiveWhere(uriVariables, fields.where);
    UniqueHits(rows, where, i, |rows|);
    assert rows[..|rows|] == rows;
    assert Target(rows, where) == Some(i);
    var call := StoreCall.Delete(model, where, fields.select);
    assert Effect(tables, call) == (tables[model := rows[..i] + rows[i + 1..]], Ok(Obj(Project(rows[i], fields.select))));
  }
}
