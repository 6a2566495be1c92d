/**
 * `getCollectionHandler` and `createGetCollectionOperation`: every record a
 * filter selects.
 */
module GetCollectionOperation {
  import opened Values
  import opened Store
  import opened Types
  import opened Hooks

  /** `createGetCollectionOperation`: the declared fields, tagged `getCollection`. */
  function CreateGetCollectionOperation(fields: QueryFields): (op: Operation)
    ensures op.Base() == fields.base
    ensures op.GetCollection? && op.queryFields == fields
  {
    GetCollection(fields)
  }

  /** What `getCollectionHandler` does, given the rows before it runs: the
      same steps as `getHandler`, with `findMany` as the read. */
  function GetCollectionRun(model: string, fields: QueryFields, uriVariables: UriVariables, context: Context, tables: Tables)
    : (run: Run)
    ensures run.tables == tables
    ensures InOrder(run.steps)
    ensures |CallsOf(run.steps)| <= 1
    ensures forall c :: c in CallsOf(run.steps) ==> c.FindMany? && c.model == model
    ensures RanPreHook in run.steps <==> fields.onPreQuery.Some?
    ensures run.reply.Json? ==> run.reply.status == 200
    ensures run.reply.Json? ==> run.reply.body.Arr?
    ensures fields.onPreQuery.None? ==> CallsOf(run.steps) == [FindMany(model, ReadQuery(fields, uriVariables))]
    ensures fields.onPreQuery.None? ==>
      run == CallThenPost(tables, FindMany(model, ReadQuery(fields, uriVariables)), fields.onPostQuery, uriVariables, context)
    ensures fields.onPreQuery.Some? ==>
      var outcome := fields.onPreQuery.value(QueryEvent(ReadQuery(fields, uriVariables), uriVariables, context));
      && (outcome.Completed? ==> CallsOf(run.steps) == [FindMany(model, outcome.mutated)])
      && (outcome.Completed? ==>
            run == AfterPreHook(CallThenPost(tables, FindMany(model, outcome.mutated), fields.onPostQuery, uriVariables, context)))
      && (outcome.Failed? ==> run.reply == Raised(outcome.error) && CallsOf(run.steps) == [])
    ensures run.reply.Json? ==> |CallsOf(run.steps)| == 1
  {
    var query := ReadQuery(fields, uriVariables);
    match fields.onPreQuery
    case None =>
      var run := CallThenPost(tables, FindMany(model, query), fields.onPostQuery, uriVariables, context);
      assert run.reply.Json? ==> run.reply.body.Arr?;
      run
    case Some(hook) =>
      match hook(QueryEvent(query, uriVariables, context))
      case Failed(e) => Run(Raised(e), [RanPreHook], tables)
      case Completed(rewritten, _) =>
        var run := CallThenPost(tables, FindMany(model, rewritten), fields.onPostQuery, uriVariables, context);
        assert run.reply.Json? ==> run.reply.body.Arr?;
        AfterPreHook(run)
  }

  /** `getCollectionHandler`. */
  method GetCollectionHandler(model: string, fields: QueryFields, uriVariables: UriVariables, context: Context)
    returns (reply: Reply)
    modifies context.db
    ensures var run := GetCollectionRun(model, fields, uriVariables, context, old(context.db.tables));
      reply == run.reply && context.db.tables == run.tables && context.db.calls == old(context.db.calls) + CallsOf(run.steps)
  {
    var query := ReadQuery(fields, uriVariables);
    if fields.onPreQuery.Some? {
      var outcome := fields.onPreQuery.value(QueryEvent(query, uriVariables, context));
      if outcome.Failed? {
        return Raised(outcome.error);
      }
      query := outcome.mutated;
    }
    reply := CallAndPost(FindMany(model, query), fields.onPostQuery, uriVariables, context);
  }

  /** Without hooks, the response lists exactly the rows that hold the
      effective filter, each restricted to the selection. */
  lemma {:induction false} CollectionIsMatchingRows(model: string, fields: QueryFields, uriVariables: UriVariables, context: Context, tables: Tables)
    requires fields.onPreQuery.None? && fields.onPostQuery.None? && model in tables
    ensures var reply := GetCollectionRun(model, fields, uriVariables, context, tables).reply;
      var rows := tables[model];
      var where := EffectiveWhere(uriVariables, fields.where);
      && reply.Json? && reply.body.Arr?
      && (forall v :: v in reply.body.items ==>
            exists j :: 0 <= j < |rows| && Matches(rows[j], where) && v == Obj(Project(rows[j], fields.select)))
      && (forall j :: 0 <= j < |rows| && Matches(rows[j], where) ==> Obj(Project(rows[j], fields.select)) in reply.body.items)
  {
    var rows := tables[model];
    var where := EffectiveWhere(uriVariables, fields.where);
    var hs := Hits(rows, where);
    var items := ProjectAll(RowsAt(rows, hs), fields.select);
    assert GetCollectionRun(model, fields, uriVariables, context, tables).reply == Json(200, Arr(items));
    forall j | 0 <= j < |rows| && Matches(rows[j], where)
      ensures Obj(Project(rows[j], fields.select)) in items
    {
      var k :| 0 <= k < |hs| && hs[k] == j;
      assert items[k] == Obj(Project(rows[j], fields.select));
    }
  }

  /** The value `onPreQuery` resolves to never reaches the store or the
      response. */
  lemma {:induction false} PreQueryReturnIgnored(model: string, fields: QueryFields, h1: PreQueryHook, h2: PreQueryHook,
      uriVariables: UriVariables, context: Context, tables: Tables)
    requires forall e: QueryEvent :: h1(e).Completed? && h2(e).Completed? && h1(e).mutated == h2(e).mutated
    ensures GetCollectionRun(model, fields.(onPreQuery := Some(h1)), uriVariables, context, tables)
         == GetCollectionRun(model, fields.(onPreQuery := Some(h2)), uriVariables, context, tables)
  {
  }
}
