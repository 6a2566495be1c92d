# illostack API request pipeline, in Dafny

This project models the request pipeline of illostack's `packages/api`. The
pipeline is the route handler that `createRouteHandler` builds from a schema
and a configuration. For one request it does these steps in order:

1. It takes the schema's prefix and resources, or the defaults. The default
   resources are generated from the database client's models.
2. It matches the request path against each operation's URI template.
3. It extracts the URI variables and coerces them by the model's field types.
4. It pre-fetches the designated record with `getObject`.
5. It builds the per-request context, using the optional auth provider.
6. It runs `checkSecurity`.
7. It dispatches to one of the six operation handlers: `get`,
   `getCollection`, `post`, `put`, `patch`, `delete`.

Each handler builds its store arguments and runs the optional pre-hook
(`onPreQuery` for the reads, `onPrePersist` for create and update; `delete`
has none). It then makes one store call, runs the optional post-hook, and
answers 200.

Module by module:

| module | file | models |
|---|---|---|
| `Values` | `values.dfy` | JavaScript values, truthiness, thrown values, query shape |
| `Store` | `store.dfy` | the database client |
| `Types` | `types.dfy` | the shapes of `types.ts` |
| `Hooks` | `hooks.dfy` | the skeleton the six handlers share |
| `Router` | `router.dfy` | `splitPath`, `matchRoute`, `buildUriVariables` |
| `Security` | `security.dfy` | `checkSecurity` |
| `ObjectLookup` | `object.dfy` | `getObject` |
| `ContextBuilder` | `context.dfy` | `buildContext` |
| `GetOperation` … `DeleteOperation` | `get.dfy` … `delete.dfy` | the handlers and their `create*Operation` |
| `Defaults` | `defaults.dfy` | `excludeMethods`, `getDefaultOperations`, `getDefaultResources` |
| `Api` | `api.dfy` | `createRouteHandler` |

The database client is an outside collaborator. `Store` gives it a small
meaning so that the calls the pipeline makes, their order and their effect on
the rows can be stated:

- each model maps to its rows in insertion order;
- `findUnique` needs a non-empty filter that selects at most one row;
- `update` and `delete` need a filter that selects exactly one row;
- `create` appends a row;
- a call on an unknown model throws.

`Store.Database` is a class holding the rows and a log of every call; its
one method, `Execute`, performs a call. Every handler and the whole pipeline
are module-level methods that modify the database they are given
(`modifies context.db`, `modifies config.database`). Each method is proved
against a function that says what the run does, given the rows before it.
That function gives the reply, the ordered steps (pre-hook, store call,
post-hook) and the rows after. The lemmas state the source's promises about
those functions.

Where the code and its intent differ, the model follows the code:

- **The HTTP method is ignored.** `matchRoute` never looks at it. The first
  operation in scan order whose template matches is the route. In the
  default resources, the create operation sits behind the list operation with
  the same template. The replace, patch and delete operations sit behind the
  read. So every request routed through the default resources is a read, and
  it never changes the store (`Defaults.DefaultRoutesOnlyReads`,
  `Api.DefaultSchemaNeverWrites`).
- **The lookup always runs.** `getObject` is called even on a collection
  route, where it gets an empty filter. Every routed request makes that
  lookup first.
- **Handler throws escape the catch.** The handler's promise is returned
  without `await`. A throw inside a handler is therefore not turned into a
  500: it leaves the route handler as a rejection (`Raised`). This covers
  validator rejections, hook failures and store errors.
- **A hook's return value is ignored.** Only a hook's in-place changes to the
  query, the data or the result it is handed reach the store or the response
  (`Hooks.PostHookReturnIgnored`, and `PreQueryReturnIgnored` and
  `PrePersistReturnIgnored` in the handler modules).
- **Defaults apply only to absent values.** The prefix and resources defaults
  apply only when the schema leaves them undefined. An empty prefix is kept.
- **Empty denial messages fall through.** The denial message uses `||`, so an
  empty message falls through to the next one.
- **The request body is passed on as it is.** The write handlers hand
  `request.body` straight to the validator and to `create`/`update`; nothing
  awaits `request.json()`. On a Fetch `Request` that property is a stream
  (or null), not the parsed JSON. The model takes the body as a value and
  assumes the caller has put the parsed payload there. The lemmas about what
  a body becomes (`PostOperation.BodyBecomesRow`,
  `PutOperation.BodyMergedIntoRow`, `PostOperation.FalsyParseFallsBack`) hold
  only under that assumption.
- **A model without a field table gives a 500.** `config.providers.database[model].fields`
  on a model without an entry throws a `TypeError`. The route handler
  answers 500 with that error's message.

## Model

| member | source | states |
|---|---|---|
| Values.Message | packages/api/src/api.ts:38 | the error body is an object whose only key is `message`, holding the given text |
| Values.Project | packages/api/src/operations/get.ts:34 | a selection keeps exactly the selected fields that the row has, with their values; no selection keeps the whole row |
| Router.SplitPath | packages/api/src/utils/router.ts:14-16 | every segment is non-empty and free of slashes |
| Router.SplitPathConcat | packages/api/src/utils/router.ts:14-16 | splitting `a/b` gives the segments of `a` followed by those of `b` |
| Router.ExtraSlashesIgnored | packages/api/src/utils/router.ts:14-16 | a leading slash, a trailing slash or a doubled slash does not change the segments |
| Router.SplitJoin | packages/api/src/utils/router.ts:14-16 | splitting a path joined from non-empty, slash-free segments gives back exactly those segments |
| Router.TemplatePartsSplit | packages/api/src/utils/router.ts:105-107 | a template's segments are the prefix's segments followed by the template's own |
| Router.FirstOperation | packages/api/src/utils/router.ts:102-133 | the result is the first matching operation from the start index on; with no result, none from there matches |
| Router.FirstMatchFrom | packages/api/src/utils/router.ts:94-134 | the result is a matching position, and no earlier position in scan order (resources, then operations) matches; with no result, nothing matches |
| Router.FindRoute | packages/api/src/utils/router.ts:85-137 | a route found has a non-empty template whose segments match the path's, placeholders matching anything; no route is found exactly when no operation of any resource matches |
| Router.MatchRoute | packages/api/src/utils/router.ts:85-137 | the nested loop with early return yields exactly the first match in scan order (`FindRoute`) |
| Router.CompareSegments | packages/api/src/utils/router.ts:109-124 | the segment loop reports a match exactly when every literal template segment equals the path segment at its place |
| Router.EarlierResourcesSkipped | packages/api/src/utils/router.ts:94-99 | resources none of whose operations match do not change where the scan ends |
| Router.Shadowed | packages/api/src/utils/router.ts:102-131 | of two operations with the same template, the later one in scan order is never the route of any path, whatever the HTTP method |
| Router.ParseInt | packages/api/src/utils/router.ts:71-73 | a string of decimal digits parses to a non-negative number, and any other string to NaN |
| Router.ParseIntDecimal | packages/api/src/utils/router.ts:71-73 | parsing the decimal digits of any natural number gives that number back |
| Router.FirstUnknown | packages/api/src/utils/router.ts:62-67 | the key returned is a key the field table lacks; nothing is returned exactly when every key from the start index on is known |
| Router.ExtractVariables | packages/api/src/utils/router.ts:38-77 | it succeeds exactly when every placeholder name is a field of the model; a failure is the `Field … not found in model …` error for an unknown placeholder name; on success the keys are exactly the placeholder names, each holding its path segment coerced by its field type |
| Router.BuildUriVariables | packages/api/src/utils/router.ts:38-77 | both loops together compute `ExtractVariables` on the split path and template, including the throw |
| Router.CoerceVariables | packages/api/src/utils/router.ts:62-74 | in key order, the first key the model lacks throws; otherwise every key is coerced, `Int` fields parsed and others kept as strings |
| Router.CoercedUpToStep | packages/api/src/utils/router.ts:69-73 | visiting one more key parses that key's string when its field is `Int` and leaves every other variable unchanged |
| Router.InstanceMatchesTemplate | packages/api/src/utils/router.ts:109-124 | a template with its placeholders filled by non-empty, slash-free values is matched by the template |
| Router.ExtractionInvertsInstantiation | packages/api/src/utils/router.ts:38-77 | filling a template's placeholders and extracting from the resulting path gives back the assignment, each value coerced by its field type, and the path matches the operation |
| Router.LiteralTemplateNoVariables | packages/api/src/utils/router.ts:54-58 | a template without placeholders yields no URI variables, whatever the field table holds |
| Router.SplitPathAppend | packages/api/src/utils/router.ts:14-16 | one more slash-free segment after a slash adds exactly that segment |
| Security.Payload | packages/api/src/utils/security.ts:22-25 | a predicate is shown the pre-fetched object and the context's user |
| Security.CheckSecurity | packages/api/src/utils/security.ts:15-37 | a request can be denied only when the operation or the resource declares a predicate |
| Security.OperationPredicateShadows | packages/api/src/utils/security.ts:20-26 | an operation's own predicate decides alone; the resource's predicate, whatever it is, never changes the verdict |
| Security.ResourcePredicateDecides | packages/api/src/utils/security.ts:28-34 | without an operation predicate, the resource's predicate decides |
| Security.OnlyObjectAndUserMatter | packages/api/src/utils/security.ts:15-37 | two contexts with the same object and user get the same verdict |
| Security.AcceptingPredicatesAllow | packages/api/src/utils/security.ts:15-37 | predicates that accept every payload, or no predicates, always allow |
| ObjectLookup.LookupCall | packages/api/src/utils/object.ts:13-17 | the lookup is a `findUnique` read on the model, filtered by exactly the URI variables, with no selection |
| ObjectLookup.ObjectFrom | packages/api/src/utils/object.ts:12-22 | a lookup that throws gives null; otherwise the object is what the store resolved to |
| ObjectLookup.GetObject | packages/api/src/utils/object.ts:3-23 | one lookup call is logged, the rows are untouched, and the object is the lookup's outcome |
| ObjectLookup.NoVariablesNoObject | packages/api/src/utils/object.ts:3-23 | with no URI variables (a collection route) the object is null |
| ObjectLookup.UniqueRowFound | packages/api/src/utils/object.ts:3-23 | when exactly one row holds every URI variable, the object is that whole row |
| ObjectLookup.NoRowNoObject | packages/api/src/utils/object.ts:3-23 | when no row holds the URI variables, the object is null |
| ObjectLookup.AmbiguousNoObject | packages/api/src/utils/object.ts:12-22 | when two rows hold the URI variables, the lookup throws and the object is null |
| ContextBuilder.SecurityFrom | packages/api/src/utils/context.ts:21-28 | the security context keeps the object; the provider's user and flag overlay it; without a result there is no user and no flag |
| ContextBuilder.BuildContext | packages/api/src/utils/context.ts:15-34 | it throws exactly when the provider throws, with its error; otherwise the context holds the model, the store and the object as previous object and security object |
| ContextBuilder.NoProviderNoUser | packages/api/src/utils/context.ts:21 | without an auth provider the context has no user and no authentication flag |
| ContextBuilder.ProviderUserReachesContext | packages/api/src/utils/context.ts:21-28 | the provider's user is the user the security check sees |
| Hooks.PrePersist | packages/api/src/operations/post.ts:38-45 | without `onPrePersist` the data is unchanged; with it, the hook's throw is the outcome, or else the data as the hook left it in place |
| Hooks.WriteData | packages/api/src/operations/post.ts:33-45 | the data a write sends: the validator's throw when it rejects, otherwise the validated body after `onPrePersist` |
| Hooks.AfterPreHook | packages/api/src/operations/get.ts:38-45 | a pre-hook step comes first and leaves the reply, the rows and the store calls as they were |
| Hooks.InPlace | packages/api/src/operations/get.ts:51-58 | a hook can change an object or array in place but not its kind, and cannot change a primitive or null |
| Hooks.RunDataHook | packages/api/src/operations/post.ts:38-45 | the hook fails exactly when it throws, with its error; otherwise the data is what the hook left in place, and its return value is ignored |
| Hooks.EffectiveWhere | packages/api/src/operations/get.ts:30-33 | the filter holds every URI variable and every declared key; on a shared key the declared value wins |
| Hooks.ReadQuery | packages/api/src/operations/get.ts:26-36 | the read arguments carry the declared order, selection and distinct, with the merged filter |
| Hooks.BodyData | packages/api/src/operations/post.ts:33-34 | with no validator the body passes; a rejecting validator throws its error; a truthy parse replaces the body; a falsy parse falls back to the body |
| Hooks.CallThenPost | packages/api/src/operations/get.ts:47-60 | the store call is the first step and the only call; the rows are the call's effect; a throwing call ends the run with the rows untouched; without a post-hook a successful call is answered 200 with its result; with one, a completing hook gives a 200 whose body is the result as the hook left it in place, and a throwing hook ends the run with its error |
| Hooks.CallAndPost | packages/api/src/operations/get.ts:47-60 | on the live store: the call is logged, and the reply and rows are those of `CallThenPost` |
| Hooks.HandlerStatus | packages/api/src/operations/get.ts:47-60 | a handler answers exactly when its store call succeeds and its post-hook, if any, completes |
| Hooks.PostHookFailureKeepsWrite | packages/api/src/operations/post.ts:47-59 | a post-hook that throws after a successful write does not undo it: the run ends in the hook's error with the write in place |
| Hooks.PostHookReturnIgnored | packages/api/src/operations/post.ts:52-61 | two post-hooks that leave the result in the same state give the same run, whatever they resolve to |
| GetOperation.CreateGetOperation | packages/api/src/operations/get.ts:63-70 | the operation keeps the declared fields and is tagged `get` |
| GetOperation.GetRun | packages/api/src/operations/get.ts:10-61 | a read never changes the rows; the steps follow pre-hook, call, post-hook; a pre-hook step exactly when one is declared; without `onPreQuery` the only call is `findUnique` with the declared query and the merged filter; with it, the call gets the query as the completed hook left it, and a throwing hook ends the run with its error and no call; the run is then the store call and post-hook tail (`CallThenPost`) on that query, so the reply is the found row or null as `onPostQuery` left it; a reply is a 200 and follows exactly one call |
| GetOperation.GetHandler | packages/api/src/operations/get.ts:10-61 | on the live store: the reply, rows and logged calls are those of `GetRun` |
| GetOperation.PreQueryReturnIgnored | packages/api/src/operations/get.ts:38-45 | two `onPreQuery` hooks that leave the query in the same state give the same run, whatever they resolve to |
| GetOperation.GetIdempotent | packages/api/src/operations/get.ts:10-61 | reading twice in a row gives the same run |
| GetOperation.GetFindsRow | packages/api/src/operations/get.ts:26-60 | without hooks, when exactly one row holds the effective filter, the reply is that row restricted to the selection |
| GetOperation.DeclaredWhereWins | packages/api/src/operations/get.ts:30-33 | a declared filter value overrides the URI variable of the same name |
| GetCollectionOperation.CreateGetCollectionOperation | packages/api/src/operations/get-collection.ts:63-70 | the operation keeps the declared fields and is tagged `getCollection` |
| GetCollectionOperation.GetCollectionRun | packages/api/src/operations/get-collection.ts:10-61 | a read never changes the rows; the steps follow pre-hook, call, post-hook; a pre-hook step exactly when one is declared; without `onPreQuery` the only call is `findMany` with the declared query and the merged filter; with it, the call gets the query as the completed hook left it, and a throwing hook ends the run with its error and no call; the run is then the store call and post-hook tail (`CallThenPost`) on that query, so the reply is the `findMany` list as `onPostQuery` left it; a reply is a 200 carrying an array and follows exactly one call |
| GetCollectionOperation.GetCollectionHandler | packages/api/src/operations/get-collection.ts:10-61 | on the live store: the reply, rows and logged calls are those of `GetCollectionRun` |
| GetCollectionOperation.PreQueryReturnIgnored | packages/api/src/operations/get-collection.ts:38-45 | two `onPreQuery` hooks that leave the query in the same state give the same run, whatever they resolve to |
| GetCollectionOperation.CollectionIsMatchingRows | packages/api/src/operations/get-collection.ts:26-60 | without hooks, every listed item is a row that holds the effective filter, restricted to the selection, and every such row is listed |
| PostOperation.CreatePostOperation | packages/api/src/operations/post.ts:64-74 | the operation keeps the declared fields and is tagged `post` |
| PostOperation.PostRun | packages/api/src/operations/post.ts:22-62 | the steps are in order; when neither the validator nor `onPrePersist` throws, the only call is `create` on the model with the validated body as the pre-hook left it and the declared selection; when one throws, the run ends in that error with no call and the rows unchanged; otherwise the rows are the `create`'s effect and the reply is the `create`'s result after `onPostPersist`; the rows stay or gain exactly one row of the model; a reply is a 200, follows exactly one call and comes with that row added |
| PostOperation.PostHandler | packages/api/src/operations/post.ts:22-62 | on the live store: the reply, rows and logged calls are those of `PostRun` |
| PostOperation.PrePersistReturnIgnored | packages/api/src/operations/post.ts:38-45 | two `onPrePersist` hooks that leave the data in the same state give the same run, whatever they resolve to |
| PostOperation.RejectedBodyStops | packages/api/src/operations/post.ts:33-34 | a body the validator rejects ends the run with the validator's error, before any hook or call |
| PostOperation.FalsyParseFallsBack | packages/api/src/operations/post.ts:33-34 | a validator that yields a falsy value acts as no validator |
| PostOperation.UriVariablesUnused | packages/api/src/operations/post.ts:47-50 | without hooks the URI variables play no part |
| PostOperation.BodyBecomesRow | packages/api/src/operations/post.ts:33-61 | without a validator or hooks, an object body becomes the model's last row, and the reply is that row restricted to the selection |
| PutOperation.CreatePutOperation | packages/api/src/operations/put.ts:67-77 | the operation keeps the declared fields and is tagged `put` |
| PutOperation.UpdateAndPost | packages/api/src/operations/put.ts:46-64 | the only call is `update` on the given data, with the merged filter and the selection; the rows are that call's effect and the reply its result after `onPostPersist`; only the model's rows change, never their number |
| PutOperation.UpdateWith | packages/api/src/operations/put.ts:37-64 | the steps are in order; when `onPrePersist` completes (or is absent) the only call is `update` on the model with the data as the hook left it, the merged filter and the selection; when it throws, the run ends in its error with no call and the rows unchanged; otherwise the rows are the `update`'s effect and the reply its result after `onPostPersist`; only the model's rows change, never their number; a reply is a 200 |
| PutOperation.UpdateRun | packages/api/src/operations/put.ts:21-65 | when neither the validator nor `onPrePersist` throws, the only call is `update` with the validated body as the pre-hook left it, the merged filter and the selection; when one throws, the run ends in that error with no call and the rows unchanged; otherwise the rows are the `update`'s effect and the reply its result after `onPostPersist`; only the model's rows change, never their number; a reply is a 200 and follows exactly one call |
| PutOperation.PrePersistReturnIgnored | packages/api/src/operations/put.ts:37-44 | two `onPrePersist` hooks that leave the data in the same state give the same run, whatever they resolve to |
| PutOperation.PutHandler | packages/api/src/operations/put.ts:21-65 | on the live store: the reply, rows and logged calls are those of `UpdateRun` |
| PutOperation.BodyMergedIntoRow | packages/api/src/operations/put.ts:32-64 | without a validator or hooks, when exactly one row holds the effective filter, the body's fields are merged over that row, and the reply is the merged row restricted to the selection |
| PutOperation.RejectedBodyStops | packages/api/src/operations/put.ts:32-33 | a body the validator rejects ends the run with the validator's error, before any hook or call |
| PatchOperation.CreatePatchOperation | packages/api/src/operations/patch.ts:65-75 | the operation keeps the declared fields and is tagged `patch` |
| PatchOperation.PatchHandler | packages/api/src/operations/patch.ts:22-63 | on the live store: the reply, rows and logged calls are those of `UpdateRun`, the same run as `putHandler` |
| DeleteOperation.CreateDeleteOperation | packages/api/src/operations/delete.ts:48-58 | the operation keeps the declared fields and is tagged `delete` |
| DeleteOperation.DeleteRun | packages/api/src/operations/delete.ts:9-46 | there is no pre-hook; exactly one call, a `delete` on the model with the merged filter and the selection; the rows are that call's effect and the reply its result after `onPostPersist`; the rows stay or lose exactly one row of the model; a reply is a 200 and comes with the row removed |
| DeleteOperation.DeleteHandler | packages/api/src/operations/delete.ts:9-46 | on the live store: the reply, rows and logged calls are those of `DeleteRun` |
| DeleteOperation.WriteInputsIgnored | packages/api/src/operations/delete.ts:26-45 | the validator and pre-persist hook a delete operation may carry change nothing |
| DeleteOperation.UniqueRowDeleted | packages/api/src/operations/delete.ts:26-45 | without a post-hook, when exactly one row holds the effective filter, that row is removed, and the reply is that row restricted to the selection |
| Defaults.DefaultOperationsShape | packages/api/src/utils/defaults.ts:43-70 | six operations, in the order list, read, create, replace, patch, delete; the list and create operations are under `/plural`, the rest under `/plural/{id}`; none declares a predicate or message |
| Defaults.ModelNames | packages/api/src/utils/defaults.ts:80-82 | exactly the client's keys that are not excluded are models |
| Defaults.ModelNamesDistinct | packages/api/src/utils/defaults.ts:80-82 | filtering keeps distinct keys distinct |
| Defaults.LookupFindsModels | packages/api/src/utils/defaults.ts:84-90 | looking up a model in a resources object finds exactly the models it holds |
| Defaults.Assign | packages/api/src/utils/defaults.ts:87-89 | after an assignment the model holds the new value and every other model holds what it held |
| Defaults.AssignOrder | packages/api/src/utils/defaults.ts:87-89 | an existing key keeps its place in iteration order; a new key goes last |
| Defaults.GetDefaultResources | packages/api/src/utils/defaults.ts:72-93 | the loop builds exactly `DefaultResources` |
| Defaults.DefaultResourcesCover | packages/api/src/utils/defaults.ts:72-93 | a model has a resource exactly when it is a key of the client and not excluded, and that resource holds its default operations |
| Defaults.DefaultResourcesOrder | packages/api/src/utils/defaults.ts:80-90 | with distinct keys, the resources follow the client's key order |
| Defaults.DefaultResourcesAllDefault | packages/api/src/utils/defaults.ts:86-90 | every generated resource is the default resource of its model |
| Defaults.DefaultAt | packages/api/src/utils/defaults.ts:86-90 | in default resources, each entry's operations are its model's default operations |
| Defaults.DefaultOperationMatched | packages/api/src/utils/defaults.ts:43-70 | under the prefix, `/plural` selects the list operation, `/plural/x` the read, and any other path none of a model's default operations |
| Defaults.RouteToModel | packages/api/src/utils/defaults.ts:72-93 | a path whose segment after the prefix is a model's plural, with no earlier model sharing it, routes to that model's list or read |
| Defaults.CollectionPathRoutes | packages/api/src/utils/defaults.ts:51-53 | `prefix/plural` routes to the model's list operation and its default resource |
| Defaults.ItemPathRoutes | packages/api/src/utils/defaults.ts:54-56 | `prefix/plural/id` routes to the model's read operation |
| Defaults.DefaultRoutesOnlyReads | packages/api/src/utils/defaults.ts:43-70 | in default resources every route found is a list or a read, because matching ignores the HTTP method |
| Api.Catch | packages/api/src/api.ts:135-141 | a thrown `Error` becomes a 500 carrying its message; anything else is thrown again unchanged |
| Api.DenialMessage | packages/api/src/api.ts:67-70 | the message is never empty; the operation's non-empty message wins, then the resource's, then `Unauthorized` |
| Api.FieldsOf | packages/api/src/utils/router.ts:23-28 | the field table is found exactly when the model has an entry; otherwise reading it throws the `TypeError` |
| Api.PrefixOf | packages/api/src/api.ts:29-32 | the schema's prefix when present, `/api` otherwise |
| Api.AfterLookup | packages/api/src/api.ts:51 | the lookup comes before everything else, and is the first store call |
| Api.DispatchOutcomes | packages/api/src/api.ts:80-134 | the handler dispatched to answers only 200, makes at most one store call, on the routed model, and reads change nothing; the 405 branch is unreachable |
| Api.AuthorizedOutcomes | packages/api/src/api.ts:60-134 | after the security check the answer is 200 or 403; a 403 makes no call and changes nothing |
| Api.GuardedOutcomes | packages/api/src/api.ts:51-134 | once the URI variables are known, the lookup is always the first call; at most two calls, all on the routed model; an answer other than 200 (403 or 500) follows the lookup alone and changes nothing |
| Api.RoutedOutcomes | packages/api/src/api.ts:41-141 | after matching, the answer is 200, 403 or 500; at most two calls, the first a `findUnique`; an answer other than 200 changes nothing and follows at most one call |
| Api.DispatchRequest | packages/api/src/api.ts:80-134 | on the live store: the reply, rows and logged calls are those of the dispatch |
| Api.AuthorizeRequest | packages/api/src/api.ts:60-134 | on the live store: a denial answers 403 with the denial message; otherwise it dispatches |
| Api.ContextRequest | packages/api/src/api.ts:53-134 | on the live store, once the object is fetched: the context is built, a provider's `Error` is caught, and otherwise the check and the dispatch run, as `WithObject` |
| Api.GuardRequest | packages/api/src/api.ts:51-134 | on the live store: the lookup, the context, the check and the dispatch, as `Guarded` |
| Api.HandleRequest | packages/api/src/api.ts:20-143 | the route handler on one request: the reply, the rows afterwards and the logged calls are those of `Pipeline` on the rows before |
| Api.UnmatchedPathNotFound | packages/api/src/api.ts:35-39 | a path no template matches is answered 404 `Not found` with no store call |
| Api.PipelineOutcomes | packages/api/src/api.ts:20-143 | any response is 200, 403, 404 or 500; at most two store calls, the first a `findUnique`; an answer other than 200 changes nothing and follows at most one call |
| Api.MissingFieldsTableFails | packages/api/src/api.ts:43-49 | a routed model without a field table is answered 500 with the `TypeError`'s message and no store call |
| Api.AnonymousRequestDenied | packages/api/src/api.ts:51-78 | without an auth provider, an operation whose predicate denies every anonymous payload answers 403 with the denial message after the lookup alone, changing nothing |
| Api.DefaultSchemaNeverWrites | packages/api/src/api.ts:29-32 | with the default resources, no request changes the store |
| Api.OpenCollectionListsRows | packages/api/src/api.ts:51-134 | an unguarded, hook-free list operation without an auth provider answers 200 listing exactly the model's rows |
| Api.DefaultCollectionNoVariables | packages/api/src/utils/router.ts:38-77 | the default list path `/api/plural` yields no URI variables |
| Api.DefaultCollectionRouted | packages/api/src/api.ts:29-49 | with the default schema, `/api/plural` reaches the model's list operation with no URI variables |
| Api.DefaultCollectionListsRows | packages/api/src/api.ts:20-143 | with the default schema and no auth provider, `/api/plural` answers 200 listing exactly the model's rows, changing nothing |

## Left out

- `getPathFromRequest`: the request's path is an input, so URL parsing is not modelled.
- Promises and `await`: each step is sequential, with one request at a time.
  A handler's promise is returned without `await`, so its throws are modelled as a rejection (`Raised`).
- Zod validation: an input validator is an opaque function from the body to a parsed value or a throw.
- `outputValidation` is not modelled: no handler consults it.
- `pluralize` is an opaque `string -> string` parameter.
  - `Api.DefaultCollectionRouted`, `Defaults.CollectionPathRoutes` and `Defaults.ItemPathRoutes` assume that the plurals are single literal segments and that no earlier model shares the plural.
- The database client (Prisma) is modelled by `Store` with only the behaviour the handlers rely on, and these parts are not modelled:
  - ordering (`orderBy`) and `distinct`;
  - nested writes and relations;
  - type checks on data;
  - Prisma's exact error messages.
- Router.ParseInt: only strings of decimal digits are parsed, and every other string reads as `NaN`. It does not model the following:
  - `parseInt` on a leading sign;
  - whitespace;
  - a trailing non-digit suffix;
  - a `0x`/`0X` prefix, which `parseInt` reads as hexadecimal;
  - the loss of precision above 2^53.
- Router.ExtractVariables: keys are visited in the order they first appear in the template, so it does not model `Object.entries` putting integer-like keys first.
  - This order only decides which unknown key the error names.
- JavaScript property lookups on prototype keys (such as `constructor`) in the field table or the resources object are not modelled: tables are plain maps.
- GetOperation.GetRun and GetCollectionOperation.GetCollectionRun: the query's `select`, `orderBy` and `distinct` are the operation's own objects, shared by reference. An `onPreQuery` that changes one of them in place changes the operation for every later request. The model builds the query afresh from unchanged fields on each request, so such changes do not carry over from one request to the next.
- Hooks cannot read or write the store, and do not receive the `operation` argument.
  - Their effect is reduced to an in-place change of the object they are handed, or a throw.
- Security predicates are pure and cannot throw.
  - The `await` on them and the cast of a missing user to `User` have no counterpart.
- Api.FieldsOf: the field table is looked up before `buildUriVariables`' first loop rather than between its two loops. Neither loop can throw before that point, so the outcome is the same.
- The handlers' unused `request` argument is left out for `get`, `getCollection` and `delete`.
- Defaults.ExcludeMethods: the list is a constant. Keys of the client that are symbols are not modelled.
- Operation tags: the literal `operation` field is the datatype's variant (`Operation.Tag`).
  - An operation object whose tag disagrees with its fields cannot be built. Such an object would reach the 405 branch in the source.
- The app, UI and configuration packages and the tests are not part of this model.
