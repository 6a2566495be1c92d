/**
 * `createRouteHandler`: the request pipeline. Resolve the schema's defaults,
 * match the path, build the URI variables, pre-fetch the object, build the
 * context, check security, and dispatch on the operation's tag. A JavaScript
 * `Error` thrown on the way (before dispatch) becomes a 500 response with its
 * message; any other thrown value is re-thrown. The handler's promise is
 * returned without being awaited, so whatever a handler throws leaves the
 * route handler as a rejection.
 */
module Api {
  import opened Values
  import opened Store
  import opened Types
  import opened Hooks
  import opened Router
  import opened Security
  import opened ObjectLookup
  import opened ContextBuilder
  import opened Defaults
  import opened GetOperation
  import opened GetCollectionOperation
  import opened PostOperation
  import opened PutOperation
  import opened PatchOperation
  import opened DeleteOperation

  const DefaultPrefix := "/api"
  const NotFound := "Not found"
  const Unauthorized := "Unauthorized"

  /** The `TypeError` that reading `fields` off a missing model entry raises. */
  const MissingFieldsTable := "Cannot read properties of undefined (reading 'fields')"

  /** The `catch` block: an `Error` becomes a 500 carrying its message;
      anything else thrown is thrown again. */
  function Catch(e: Thrown): (reply: Reply)
    ensures reply.Json? <==> e.Error?
    ensures reply.Json? ==> reply.status == 500 && reply.body == Message(e.message)
    ensures reply.Raised? ==> reply.error == e
  {
    match e
    case Error(m) => Json(500, Message(m))
    case NonError(_) => Raised(e)
  }

  /** `operation.securityMessage || resource.securityMessage || "Unauthorized"`:
      an absent or empty message falls through to the next one. */
  function DenialMessage(operation: Operation, resource: ModelResource): (m: string)
    ensures m != ""
    ensures m in {operation.Base().securityMessage.GetOr(""), resource.securityMessage.GetOr(""), Unauthorized}
    ensures operation.Base().securityMessage.GetOr("") != "" ==> m == operation.Base().securityMessage.value
    ensures operation.Base().securityMessage.GetOr("") == "" && resource.securityMessage.GetOr("") != ""
      ==> m == resource.securityMessage.value
  {
    var own := operation.Base().securityMessage.GetOr("");
    var shared := resource.securityMessage.GetOr("");
    if own != "" then own else if shared != "" then shared else Unauthorized
  }

  /** `getFieldsType`: the model's field table, or the `TypeError` of reading
      a property of `undefined` when the model has no entry. */
  function FieldsOf(config: Config, model: string): (r: Result<map<string, string>>)
    ensures r.Ok? <==> model in config.fields
    ensures r.Ok? ==> r.value == config.fields[model]
    ensures r.Threw? ==> r.error == Error(MissingFieldsTable)
  {
    if model in config.fields then Ok(config.fields[model]) else Threw(Error(MissingFieldsTable))
  }

  /** `prefix = "/api"`: the default applies only when the schema has no prefix. */
  function PrefixOf(schema: Schema): (prefix: string)
    ensures schema.prefix.Some? ==> prefix == schema.prefix.value
    ensures schema.prefix.None? ==> prefix == DefaultPrefix
  {
    schema.prefix.GetOr(DefaultPrefix)
  }

  /** `resources = getDefaultResources({config})`: the default applies only
      when the schema has no resources. */
  function ResourcesOf(schema: Schema, config: Config, pluralize: string -> string): Resources
  {
    match schema.resources
    case Some(resources) => resources
    case None => DefaultResources(config.clientKeys, pluralize)
  }

  /** A run whose first step is the lookup `getObject` made. */
  function AfterLookup(call: StoreCall, run: Run): (r: Run)
    ensures r.reply == run.reply && r.tables == run.tables
    ensures CallsOf(r.steps) == [call] + CallsOf(run.steps)
  {
    var steps := [CalledStore(call)] + run.steps;
    assert steps[1..] == run.steps;
    Run(run.reply, steps, run.tables)
  }

  /** The `switch` on the operation's tag. Every tag an operation can carry
      has its case, so the `405` branch is never taken. A handler makes at
      most one store call, on the routed model; reads leave the rows alone;
      a handler's response is always a 200. */
  function Dispatch(model: string, operation: Operation, body: Value, uriVariables: UriVariables, context: Context, tables: Tables)
    : (run: Run)
  {
    match operation
    case Get(fields) => GetRun(model, fields, uriVariables, context, tables)
    case GetCollection(fields) => GetCollectionRun(model, fields, uriVariables, context, tables)
    case Post(fields) => PostRun(model, fields, body, uriVariables, context, tables)
    case Put(fields) => UpdateRun(model, fields, body, uriVariables, context, tables)
    case Patch(fields) => UpdateRun(model, fields, body, uriVariables, context, tables)
    case Delete(fields) => DeleteRun(model, fields, uriVariables, context, tables)
  }

  /** `checkSecurity` and what follows it: a denial answers 403 with the
      denial message and calls nothing; otherwise the request is dispatched. */
  function Authorized(route: Route, uriVariables: UriVariables, context: Context, body: Value, tables: Tables): (run: Run)
  {
    if !CheckSecurity(route.resource, route.operation, context) then
      Run(Json(403, Message(DenialMessage(route.operation, route.resource))), [], tables)
    else
      Dispatch(route.model, route.operation, body, uriVariables, context, tables)
  }

  /** Everything after the URI variables are known: the lookup, the context,
      the security check and the dispatch. The lookup always happens and is
      the first store call; a denial stops right after it, with a 403. */
  function Guarded(route: Route, uriVariables: UriVariables, config: Config, request: Request, tables: Tables)
    : (run: Run)
  {
    var obj := LookupObject(tables, route.model, uriVariables);
    AfterLookup(LookupCall(route.model, uriVariables), WithObject(route, uriVariables, config, request, obj, tables))
  }

  /** What follows the lookup, once the object is known: the context is
      built, and an `Error` the auth provider throws is caught; otherwise the
      security check and the dispatch run. */
  function WithObject(route: Route, uriVariables: UriVariables, config: Config, request: Request, obj: Value, tables: Tables)
    : (run: Run)
  {
    match BuildContext(config.auth, request, route.model, obj, config.database)
    case Threw(e) => Run(Catch(e), [], tables)
    case Ok(context) => Authorized(route, uriVariables, context, request.body, tables)
  }

  /** The matched route from `buildUriVariables` on: a missing field table or
      an unknown placeholder throws an `Error` before any store call. */
  function Routed(route: Route, prefix: string, config: Config, request: Request, tables: Tables): (run: Run)
    requires |TemplateParts(prefix, route.operation)| <= |SplitPath(request.path)|
  {
    match FieldsOf(config, route.model)
    case Threw(e) => Run(Catch(e), [], tables)
    case Ok(fields) =>
      match UriVariablesOf(request.path, route.operation, prefix, route.model, fields)
      case Threw(e) => Run(Catch(e), [], tables)
      case Ok(uriVariables) => Guarded(route, uriVariables, config, request, tables)
  }

  /** What the route handler does with one request, given the store's rows
      before it. */
  function Pipeline(schema: Schema, config: Config, request: Request, pluralize: string -> string, tables: Tables): Run
  {
    var prefix := PrefixOf(schema);
    match FindRoute(request.path, prefix, ResourcesOf(schema, config, pluralize))
    case None => Run(Json(404, Message(NotFound)), [], tables)
    case Some(route) => Routed(route, prefix, config, request, tables)
  }

  /** Every handler makes at most one store call, on the routed model; reads
      leave the rows alone; a handler's response is always a 200. Every tag
      an operation can carry has its case, so the `405` branch is never taken. */
  lemma {:induction false} DispatchOutcomes(model: string, operation: Operation, body: Value, uriVariables: UriVariables, context: Context,
      tables: Tables)
    ensures var run := Dispatch(model, operation, body, uriVariables, context, tables);
      && (run.reply.Json? ==> run.reply.status == 200)
      && |CallsOf(run.steps)| <= 1
      && (forall c :: c in CallsOf(run.steps) ==> c.model == model)
      && (operation.Get? || operation.GetCollection? ==> run.tables == tables)
  {
  }

  /** After the security check: a 403 calls nothing and changes nothing. */
  lemma {:induction false} AuthorizedOutcomes(route: Route, uriVariables: UriVariables, context: Context, body: Value, tables: Tables)
    ensures var run := Authorized(route, uriVariables, context, body, tables);
      && (run.reply.Json? ==> run.reply.status in {200, 403})
      && |CallsOf(run.steps)| <= 1
      && (forall c :: c in CallsOf(run.steps) ==> c.model == route.model)
      && (run.reply.Json? && run.reply.status != 200 ==> run.tables == tables && CallsOf(run.steps) == [])
      && (route.operation.Get? || route.operation.GetCollection? ==> run.tables == tables)
  {
    DispatchOutcomes(route.model, route.operation, body, uriVariables, context, tables);
  }

  /** Once the URI variables are known, the lookup always happens and is the
      first store call, on the routed model like any other; an answer other
      than 200 follows the lookup alone and changes nothing. */
  lemma {:induction false} GuardedOutcomes(route: Route, uriVariables: UriVariables, config: Config, request: Request, tables: Tables)
    ensures var run := Guarded(route, uriVariables, config, request, tables);
      && (run.reply.Json? ==> run.reply.status in {200, 403, 500})
      && 1 <= |CallsOf(run.steps)| <= 2 && CallsOf(run.steps)[0] == LookupCall(route.model, uriVariables)
      && (forall c :: c in CallsOf(run.steps) ==> c.model == route.model)
      && (run.reply.Json? && run.reply.status != 200 ==> run.tables == tables && |CallsOf(run.steps)| == 1)
      && (route.operation.Get? || route.operation.GetCollection? ==> run.tables == tables)
  {
    var obj := LookupObject(tables, route.model, uriVariables);
    var built := BuildContext(config.auth, request, route.model, obj, config.database);
    if built.Ok? {
      AuthorizedOutcomes(route, uriVariables, built.value, request.body, tables);
    }
  }

  /** The outcomes after matching: either a 500 or rejection before any call,
      or what the guarded part allows. */
  lemma {:induction false} RoutedOutcomes(route: Route, prefix: string, config: Config, request: Request, tables: Tables)
    requires |TemplateParts(prefix, route.operation)| <= |SplitPath(request.path)|
    ensures var run := Routed(route, prefix, config, request, tables);
      && (run.reply.Json? ==> run.reply.status in {200, 403, 500})
      && |CallsOf(run.steps)| <= 2
      && (CallsOf(run.steps) != [] ==> CallsOf(run.steps)[0].FindUnique?)
      && (run.reply.Json? && run.reply.status != 200 ==> run.tables == tables && |CallsOf(run.steps)| <= 1)
      && (route.operation.Get? || route.operation.GetCollection? ==> run.tables == tables)
  {
    var fields := FieldsOf(config, route.model);
    if fields.Ok? {
      var built := UriVariablesOf(request.path, route.operation, prefix, route.model, fields.value);
      if built.Ok? {
        GuardedOutcomes(route, built.value, config, request, tables);
      }
    }
  }

  /** The `switch`, on the live store. */
  method DispatchRequest(model: string, operation: Operation, request: Request, uriVariables: UriVariables, context: Context)
    returns (reply: Reply)
    modifies context.db
    ensures var run := Dispatch(model, operation, request.body, uriVariables, context, old(context.db.tables));
      reply == run.reply && context.db.tables == run.tables && context.db.calls == old(context.db.calls) + CallsOf(run.steps)
  {
    match operation
    case Get(fields) => reply := GetHandler(model, fields, uriVariables, context);
    case GetCollection(fields) => reply := GetCollectionHandler(model, fields, uriVariables, context);
    case Post(fields) => reply := PostHandler(model, fields, request, uriVariables, context);
    case Put(fields) => reply := PutHandler(model, fields, request, uriVariables, context);
    case Patch(fields) => reply := PatchHandler(model, fields, request, uriVariables, context);
    case Delete(fields) => reply := DeleteHandler(model, fields, uriVariables, context);
  }

  /** `checkSecurity` and the `switch`, on the live store. */
  method AuthorizeRequest(route: Route, uriVariables: UriVariables, context: Context, request: Request) returns (reply: Reply)
    modifies context.db
    ensures var run := Authorized(route, uriVariables, context, request.body, old(context.db.tables));
      reply == run.reply && context.db.tables == run.tables && context.db.calls == old(context.db.calls) + CallsOf(run.steps)
  {
    if !CheckSecurity(route.resource, route.operation, context) {
      return Json(403, Message(DenialMessage(route.operation, route.resource)));
    }
    reply := DispatchRequest(route.model, route.operation, request, uriVariables, context);
  }

  /** From `buildContext` to the dispatch, on the live store, once the
      object is known. */
  method ContextRequest(route: Route, uriVariables: UriVariables, config: Config, request: Request, obj: Value)
    returns (reply: Reply)
    modifies config.database
    ensures var run := WithObject(route, uriVariables, config, request, obj, old(config.database.tables));
      reply == run.reply && config.database.tables == run.tables
      && config.database.calls == old(config.database.calls) + CallsOf(run.steps)
  {
    var built := BuildContext(config.auth, request, route.model, obj, config.database);
    if built.Threw? {
      reply := Catch(built.error);
    } else {
      reply := AuthorizeRequest(route, uriVariables, built.value, request);
    }
  }

  /** From `getObject` to the dispatch, on the live store. */
  method GuardRequest(route: Route, uriVariables: UriVariables, config: Config, request: Request) returns (reply: Reply)
    modifies config.database
    ensures var run := Guarded(route, uriVariables, config, request, old(config.database.tables));
      reply == run.reply && config.database.tables == run.tables
      && config.database.calls == old(config.database.calls) + CallsOf(run.steps)
  {
    ghost var calls := config.database.calls;
    var lookup := LookupCall(route.model, uriVariables);
    var obj := GetObject(config.database, route.model, uriVariables);
    reply := ContextRequest(route, uriVariables, config, request, obj);
    ghost var rest := WithObject(route, uriVariables, config, request, obj, old(config.database.tables));
    assert calls + [lookup] + CallsOf(rest.steps) == calls + ([lookup] + CallsOf(rest.steps));
  }

  /** The route handler returned by `createRouteHandler`, on one request. */
  method HandleRequest(schema: Schema, config: Config, request: Request, pluralize: string -> string) returns (reply: Reply)
    modifies config.database
    ensures var run := Pipeline(schema, config, request, pluralize, old(config.database.tables));
      reply == run.reply && config.database.tables == run.tables
      && config.database.calls == old(config.database.calls) + CallsOf(run.steps)
  {
    var prefix := if schema.prefix.Some? then schema.prefix.value else DefaultPrefix;
    var resources: Resources;
    if schema.resources.Some? {
      resources := schema.resources.value;
    } else {
      resources := GetDefaultResources(config.clientKeys, pluralize);
    }
    assert prefix == PrefixOf(schema) && resources == ResourcesOf(schema, config, pluralize);
    ghost var tables := config.database.tables;
    var found := MatchRoute(request.path, resources, prefix);
    if found.None? {
      return Json(404, Message(NotFound));
    }
    var route := found.value;
    assert Pipeline(schema, config, request, pluralize, tables) == Routed(route, prefix, config, request, tables);
    var fields := FieldsOf(config, route.model);
    if fields.Threw? {
      return Catch(fields.error);
    }
    var variables := BuildUriVariables(request.path, route.operation, prefix, route.model, fields.value);
    if variables.Threw? {
      return Catch(variables.error);
    }
    reply := GuardRequest(route, variables.value, config, request);
  }

  /** A path that no operation's template matches is answered 404, and the
      store is never called. */
  lemma {:induction false} UnmatchedPathNotFound(schema: Schema, config: Config, request: Request, pluralize: string -> string, tables: Tables)
    requires forall q: Position :: !MatchesAt(SplitPath(request.path), PrefixOf(schema), ResourcesOf(schema, config, pluralize), q)
    ensures Pipeline(schema, config, request, pluralize, tables) == Run(Json(404, Message(NotFound)), [], tables)
  {
  }

  /** What any request can come to: a response is 200, 403, 404 or 500 (never
      405); at most two store calls are made and the first is always the
      lookup; a response other than 200 leaves the rows alone and follows at
      most the lookup. */
  lemma {:induction false} PipelineOutcomes(schema: Schema, config: Config, request: Request, pluralize: string -> string, tables: Tables)
    ensures var run := Pipeline(schema, config, request, pluralize, tables);
      && (run.reply.Json? ==> run.reply.status in {200, 403, 404, 500})
      && |CallsOf(run.steps)| <= 2
      && (CallsOf(run.steps) != [] ==> CallsOf(run.steps)[0].FindUnique?)
      && (run.reply.Json? && run.reply.status != 200 ==> run.tables == tables && |CallsOf(run.steps)| <= 1)
  {
    var prefix := PrefixOf(schema);
    var found := FindRoute(request.path, prefix, ResourcesOf(schema, config, pluralize));
    if found.Some? {
      RoutedOutcomes(found.value, prefix, config, request, tables);
    }
  }

  /** A model the configuration has no field table for fails with the
      `TypeError` as a 500 once it is routed, whether or not its template has
      placeholders, and before any store call. */
  lemma {:induction false} MissingFieldsTableFails(schema: Schema, config: Config, request: Request, pluralize: string -> string, tables: Tables)
    requires FindRoute(request.path, PrefixOf(schema), ResourcesOf(schema, config, pluralize)).Some?
    requires FindRoute(request.path, PrefixOf(schema), ResourcesOf(schema, config, pluralize)).value.model !in config.fields
    ensures Pipeline(schema, config, request, pluralize, tables) == Run(Json(500, Message(MissingFieldsTable)), [], tables)
  {
  }

  /** Without an auth provider there is no user, so an operation predicate
      that refuses anonymous payloads answers 403, after the lookup alone. */
  lemma {:induction false} AnonymousRequestDenied(schema: Schema, config: Config, request: Request, pluralize: string -> string,
      tables: Tables, route: Route, uriVariables: UriVariables, check: SecurityFn)
    requires FindRoute(request.path, PrefixOf(schema), ResourcesOf(schema, config, pluralize)) == Some(route)
    requires route.model in config.fields
    requires UriVariablesOf(request.path, route.operation, PrefixOf(schema), route.model, config.fields[route.model]) == Ok(uriVariables)
    requires config.auth.None?
    requires route.operation.Base().security == Some(check)
    requires forall payload: SecurityPayload :: payload.user.None? ==> !check(payload)
    ensures var run := Pipeline(schema, config, request, pluralize, tables);
      && run.reply == Json(403, Message(DenialMessage(route.operation, route.resource)))
      && run.tables == tables
      && CallsOf(run.steps) == [LookupCall(route.model, uriVariables)]
  {
    var obj := LookupObject(tables, route.model, uriVariables);
    NoProviderNoUser(request, route.model, obj, config.database);
    var context := Context(route.model, SecurityContext(obj, None, None), obj, config.database);
    assert !check(Payload(context));
  }

  /** With the default resources (the schema declares none), only `get` and
      `getCollection` can be routed, so no request ever changes a row. */
  lemma {:induction false} DefaultSchemaNeverWrites(schema: Schema, config: Config, request: Request, pluralize: string -> string,
      tables: Tables)
    requires schema.resources.None?
    ensures Pipeline(schema, config, request, pluralize, tables).tables == tables
  {
    var prefix := PrefixOf(schema);
    var resources := DefaultResources(config.clientKeys, pluralize);
    assert ResourcesOf(schema, config, pluralize) == resources;
    var found := FindRoute(request.path, prefix, resources);
    if found.Some? {
      DefaultResourcesAllDefault(config.clientKeys, pluralize);
      DefaultRoutesOnlyReads(request.path, prefix, resources, pluralize);
      var route := found.value;
      assert Pipeline(schema, config, request, pluralize, tables) == Routed(route, prefix, config, request, tables);
      RoutedOutcomes(route, prefix, config, request, tables);
    }
  }

  /** A collection read with no hooks, filter, selection or predicate, and no
      auth provider, answers every row of the model, whole. */
  lemma {:induction false} OpenCollectionListsRows(route: Route, config: Config, request: Request, tables: Tables)
    requires config.auth.None? && route.model in tables
    requires route.operation.GetCollection? && route.operation.Base().security.None? && route.resource.security.None?
    requires var fields := route.operation.queryFields;
      fields.onPreQuery.None? && fields.onPostQuery.None? && fields.where.None? && fields.select.None?
    ensures var rows := tables[route.model];
      var run := Guarded(route, map[], config, request, tables);
      && run.tables == tables
      && run.reply.Json? && run.reply.status == 200 && run.reply.body.Arr?
      && (forall v :: v in run.reply.body.items ==> exists j :: 0 <= j < |rows| && v == Obj(rows[j]))
      && (forall j :: 0 <= j < |rows| ==> Obj(rows[j]) in run.reply.body.items)
  {
    var model := route.model;
    var fields := route.operation.queryFields;
    var obj := LookupObject(tables, model, map[]);
    var context := Context(model, SecurityContext(obj, None, None), obj, config.database);
    NoProviderNoUser(request, model, obj, config.database);
    assert CheckSecurity(route.resource, route.operation, context);
    var run := GetCollectionRun(model, fields, map[], context, tables);
    assert Guarded(route, map[], config, request, tables).reply == run.reply;

    // Every row holds the empty filter and the absent selection keeps it whole.
    CollectionIsMatchingRows(model, fields, map[], context, tables);
    var rows := tables[model];
    var where := EffectiveWhere(map[], fields.where);
    assert where.Keys == {};
    forall j | 0 <= j < |rows|
      ensures Matches(rows[j], where) && Project(rows[j], fields.select) == rows[j]
    {
    }
  }

  /** Neither segment of `/api/<plural>` is a placeholder. */
  lemma {:induction false} DefaultPathLiteral(plural: string)
    requires PluralSegment(plural)
    ensures forall k :: 0 <= k < 2 ==> !IsPlaceholder(["api", plural][k])
  {
    assert "api"[0] == 'a';
  }

  /** The generated collection template has no placeholder, so
      `/api/<plural>` yields no URI variables. */
  lemma {:induction false} DefaultCollectionNoVariables(model: string, pluralize: string -> string, fields: map<string, string>)
    requires PluralSegment(pluralize(model))
    ensures var operation := DefaultOperations(model, pluralize)[0];
      var path := DefaultPrefix + "/" + pluralize(model);
      && |TemplateParts(DefaultPrefix, operation)| <= |SplitPath(path)|
      && UriVariablesOf(path, operation, DefaultPrefix, model, fields) == Ok(map[])
  {
    var plural := pluralize(model);
    DefaultTemplateParts(DefaultPrefix, model, pluralize);
    ExtraSlashesIgnored("api", "");
    SplitPathSegment("api");
    var parts := TemplateParts(DefaultPrefix, DefaultOperations(model, pluralize)[0]);
    assert parts == ["api", plural];
    SplitPathAppend(DefaultPrefix, plural);
    var pathParts := SplitPath(DefaultPrefix + "/" + plural);
    assert pathParts == parts;
    DefaultPathLiteral(plural);
    LiteralTemplateNoVariables(parts, pathParts, model, fields);
  }

  /** With the schema's defaults, `/api/<plural>` reaches the generated
      collection operation of the model at index `i`, with no URI variables.
      The plurals up to `i` must be single literal segments, and no earlier
      model may share the plural. */
  lemma {:induction false} DefaultCollectionRouted(config: Config, request: Request, pluralize: string -> string,
      tables: Tables, i: nat)
    requires i < |DefaultResources(config.clientKeys, pluralize)|
    requires var resources := DefaultResources(config.clientKeys, pluralize);
      && (forall j :: 0 <= j <= i ==> PluralSegment(pluralize(resources[j].model)))
      && (forall j :: 0 <= j < i ==> pluralize(resources[j].model) != pluralize(resources[i].model))
      && request.path == DefaultPrefix + "/" + pluralize(resources[i].model)
      && resources[i].model in config.fields
    ensures var model := DefaultResources(config.clientKeys, pluralize)[i].model;
      var route := Route(model, DefaultOperations(model, pluralize)[0], DefaultResource(model, pluralize));
      Pipeline(Schema(None, None), config, request, pluralize, tables) == Guarded(route, map[], config, request, tables)
  {
    var schema := Schema(None, None);
    var resources := DefaultResources(config.clientKeys, pluralize);
    var model := resources[i].model;
    var plural := pluralize(model);
    assert PrefixOf(schema) == DefaultPrefix && ResourcesOf(schema, config, pluralize) == resources;
    DefaultResourcesAllDefault(config.clientKeys, pluralize);
    CollectionPathRoutes(DefaultPrefix, resources, pluralize, i);
    DefaultAt(resources, pluralize, i);
    var route := FindRoute(request.path, DefaultPrefix, resources).value;
    assert route == Route(model, DefaultOperations(model, pluralize)[0], DefaultResource(model, pluralize));

    DefaultCollectionNoVariables(model, pluralize, config.fields[model]);
  }

  /** With the schema's defaults and no auth provider, `/api/<plural>` lists
      every row of the generated model at index `i`, and changes nothing. */
  lemma {:induction false} DefaultCollectionListsRows(config: Config, request: Request, pluralize: string -> string,
      tables: Tables, i: nat)
    requires config.auth.None?
    requires i < |DefaultResources(config.clientKeys, pluralize)|
    requires var resources := DefaultResources(config.clientKeys, pluralize);
      && (forall j :: 0 <= j <= i ==> PluralSegment(pluralize(resources[j].model)))
      && (forall j :: 0 <= j < i ==> pluralize(resources[j].model) != pluralize(resources[i].model))
      && request.path == DefaultPrefix + "/" + pluralize(resources[i].model)
      && resources[i].model in config.fields && resources[i].model in tables
    ensures var rows := tables[DefaultResources(config.clientKeys, pluralize)[i].model];
      var run := Pipeline(Schema(None, None), config, request, pluralize, tables);
      && run.tables == tables
      && run.reply.Json? && run.reply.status == 200 && run.reply.body.Arr?
      && (forall v :: v in run.reply.body.items ==> exists j :: 0 <= j < |rows| && v == Obj(rows[j]))
      && (forall j :: 0 <= j < |rows| ==> Obj(rows[j]) in run.reply.body.items)
  {
    var model := DefaultResources(config.clientKeys, pluralize)[i].model;
    DefaultCollectionRouted(config, request, pluralize, tables, i);
    DefaultOperationsShape(model, pluralize);
    OpenCollectionListsRows(Route(model, DefaultOperations(model, pluralize)[0], DefaultResource(model, pluralize)),
                            config, request, tables);
  }
}
