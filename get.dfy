/**
 * `getHandler` and `createGetOperation`: one record by a unique filter.
 */
module GetOperation {
  import opened Values
  import opened Store
  import opened Types
  import opened Hooks

  /** `createGetOperation`: the declared fields, tagged `get`. */
  function CreateGetOperation(fields: QueryFields): (op: Operation)
    ensures op.Base() == fields.base
    ensures op.Get? && op.queryFields == fields
  {
    Get(fields)
  }

  /** What `getHandler` does, given the rows before it runs: `onPreQuery` may
      rewrite the query, then `findUnique` runs on it, then `onPostQuery` may
      change the result in place. A read never changes the rows. */
  function GetRun(model: string, fields: QueryFields, uriVariables: UriVariables, context: Context, tables: Tables)
    : (run: Run)
    ensures run.tables == tables
    ensures InOrder(run.steps)
    ensures |CallsOf(run.steps)| <= 1
    ensures forall c :: c in CallsOf(run.steps) ==> c.FindUnique? && c.model == model
    ensures RanPreHook in run.steps <==> fields.onPreQuery.Some?
    ensures run.reply.Json? ==> run.reply.status == 200
    ensures fields.onPreQuery.None? ==> CallsOf(run.steps) == [FindUnique(model, ReadQuery(fields, uriVariables))]
    ensures fields.onPreQuery.None? ==>
      run == CallThenPost(tables, FindUnique(model, ReadQuery(fields, uriVariables)), fields.onPostQuery, uriVariables, context)
    ensures fields.onPreQuery.Some? ==>
      var outcome := fields.onPreQuery.value(QueryEvent(ReadQuery(fields, uriVariables), uriVariables, context));
      && (outcome.Completed? ==> CallsOf(run.steps) == [FindUnique(model, outcome.mutated)])
      && (outcome.Completed? ==>
            run == AfterPreHook(CallThenPost(tables, FindUnique(model, outcome.mutated), fields.onPostQuery, uriVariables, context)))
      && (outcome.Failed? ==> run.reply == Raised(outcome.error) && CallsOf(run.steps) == [])
    ensures run.reply.Json? ==> |CallsOf(run.steps)| == 1
  {
    var query := ReadQuery(fields, uriVariables);
    match fields.onPreQuery
    case None => CallThenPost(tables, FindUnique(model, query), fields.onPostQuery, uriVariables, context)
    case Some(hook) =>
      match hook(QueryEvent(query, uriVariables, context))
      case Failed(e) => Run(Raised(e), [RanPreHook], tables)
      case Completed(rewritten, _) =>
        AfterPreHook(CallThenPost(tables, FindUnique(model, rewritten), fields.onPostQuery, uriVariables, context))
  }

  /** `getHandler`. */
  method GetHandler(model: string, fields: QueryFields, uriVariables: UriVariables, context: Context) returns (reply: Reply)
    modifies context.db
    ensures var run := GetRun(model, fields, uriVariables, context, old(context.db.tables));
      reply == run.reply && context.db.tables == run.tables && context.db.calls == old(context.db.calls) + CallsOf(run.steps)
  {
    var query := ReadQuery(fields, uriVariables);
    if fields.onPreQuery.Some? {
      var outcome := fields.onPreQuery.value(QueryEvent(query, uriVariables, context));
      if outcome.Failed? {
        return Raised(outcome.error);
      }
      query := outcome.mutated;
    }
    reply := CallAndPost(FindUnique(model, query), fields.onPostQuery, uriVariables, context);
  }

  /** Reading twice in a row gives the same run: the first read leaves
      nothing behind that the second could see. */
  lemma {:induction false} GetIdempotent(model: string, fields: QueryFields, uriVariables: UriVariables, context: Context, tables: Tables)
    ensures var first := GetRun(model, fields, uriVariables, context, tables);
      GetRun(model, fields, uriVariables, context, first.tables) == first
  {
  }

  /** Without hooks, when exactly one row holds the effective filter, the
      response is that row, restricted to the selection. */
  lemma {:induction false} GetFindsRow(model: string, fields: QueryFields, uriVariables: UriVariables, context: Context,
      tables: Tables, i: nat)
    requires fields.onPreQuery.None? && fields.onPostQuery.None?
    requires model in tables && i < |tables[model]|
    requires EffectiveWhere(uriVariables, fields.where) != map[]
    requires Matches(tables[model][i], EffectiveWhere(uriVariables, fields.where))
    requires forall j :: 0 <= j < |tables[model]| && j != i ==> !Matches(tables[model][j], EffectiveWhere(uriVariables, fields.where))
    ensures GetRun(model, fields, uriVariables, context, tables).reply == Json(200, Obj(Project(tables[model][i], fields.select)))
  {
    var rows := tables[model];
    UniqueHits(rows, EffectiveWhere(uriVariables, fields.where), i, |rows|);
    assert rows[..|rows|] == rows;
  }

  /** A declared filter value overrides the URI variable of the same name in
      the query sent to the store. */
  lemma {:induction false} DeclaredWhereWins(fields: QueryFields, uriVariables: UriVariables, key: string)
    requires fields.where.Some? && key in fields.where.value
    ensures ReadQuery(fields, uriVariables).where[key] == fields.where.value[key]
  {
  }

  /** The value `onPreQuery` resolves to never reaches the store or the
      response: two hooks that leave the query in the same state give the
      same run. */
  lemma {:induction false} PreQueryReturnIgnored(model: string, fields: QueryFields, h1: PreQueryHook, h2: PreQueryHook,
      uriVariables: UriVariables, context: Context, tables: Tables)
    requires forall e: QueryEvent :: h1(e).Completed? && h2(e).Completed? && h1(e).mutated == h2(e).mutated
    ensures GetRun(model, fields.(onPreQuery := Some(h1)), uriVariables, context, tables)
         == GetRun(model, fields.(onPreQuery := Some(h2)), uriVariables, context, tables)
  {
  }
}
