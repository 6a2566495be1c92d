/**
 * The shapes the request pipeline works on: operations and resources as a
 * schema declares them, the per-request context, hooks, the configuration
 * and the request and response.
 */
module Types {
  import opened Values
  import opened Store

  //
  // Security
  //

  datatype User = User(id: string, name: Option<string>, email: Option<string>, image: Option<string>)

  /** What a security predicate is given. The user is optional at run time:
      without an auth provider, or without a session, it is absent. */
  datatype SecurityPayload = SecurityPayload(obj: Value, user: Option<User>)

  /** A security predicate: a pure function from payload to a verdict. */
  type SecurityFn = SecurityPayload -> bool

  /** `context.security`: the pre-fetched object, overlaid by the fields of
      the auth provider's result when there is one. */
  datatype SecurityContext = SecurityContext(obj: Value, isAuthenticated: Option<bool>, user: Option<User>)

  //
  // Context
  //

  /** The per-request context handed to the security check and the handlers. */
  datatype Context = Context(model: string, security: SecurityContext, previousObject: Value, db: Database)

  //
  // URI variables
  //

  /** A URI variable is a string or a number (`NaN` is a number). */
  type UriValue = v: Value | v.Str? || v.Num? || v.NaN? witness Str("")

  type UriVariables = map<string, UriValue>

  //
  // Hooks and validation
  //

  /** What a hook does when awaited: it either completes, leaving `mutated` as
      the in-place state of the object it was handed (the query or the data)
      and resolving to `returned`, or it throws. */
  datatype HookResult<T> = Completed(mutated: T, returned: Value) | Failed(error: Thrown)

  datatype QueryEvent = QueryEvent(query: Query, uriVariables: UriVariables, context: Context)

  datatype DataEvent = DataEvent(data: Value, uriVariables: UriVariables, context: Context)

  /** `onPreQuery`: may rewrite the query in place. */
  type PreQueryHook = QueryEvent -> HookResult<Query>

  /** `onPostQuery`, `onPrePersist` and `onPostPersist`: may rewrite the data in place. */
  type DataHook = DataEvent -> HookResult<Value>

  /** An input validator's `parse`: the validated value, or a throw. */
  type Validator = Value -> Result<Value>

  //
  // Operations
  //

  datatype BaseOperation = BaseOperation(
    uriTemplate: Option<string>,
    security: Option<SecurityFn>,
    securityMessage: Option<string>)

  /** The fields of a `get` or `getCollection` operation. */
  datatype QueryFields = QueryFields(
    base: BaseOperation,
    orderBy: Option<Value>,
    where: Option<Filter>,
    select: Option<Select>,
    distinct: Option<seq<string>>,
    onPreQuery: Option<PreQueryHook>,
    onPostQuery: Option<DataHook>)

  /** The fields of a `post` operation: a selection but no filter. */
  datatype PostFields = PostFields(
    base: BaseOperation,
    inputValidation: Option<Validator>,
    select: Option<Select>,
    onPrePersist: Option<DataHook>,
    onPostPersist: Option<DataHook>)

  /** The fields of a `put`, `patch` or `delete` operation: a filter and a selection. */
  datatype MutationFields = MutationFields(
    base: BaseOperation,
    inputValidation: Option<Validator>,
    select: Option<Select>,
    where: Option<Filter>,
    onPrePersist: Option<DataHook>,
    onPostPersist: Option<DataHook>)

  /** An operation is exactly one of six variants; the variant is its tag. */
  datatype Operation =
    | Get(queryFields: QueryFields)
    | GetCollection(queryFields: QueryFields)
    | Post(postFields: PostFields)
    | Put(mutationFields: MutationFields)
    | Patch(mutationFields: MutationFields)
    | Delete(mutationFields: MutationFields)
  {
    /** The literal in the `operation` field. */
    function Tag(): string
    {
      match this
      case Get(_) => "get"
      case GetCollection(_) => "getCollection"
      case Post(_) => "post"
      case Put(_) => "put"
      case Patch(_) => "patch"
      case Delete(_) => "delete"
    }

    /** `uriTemplate`, `security` and `securityMessage`, which every variant has. */
    function Base(): BaseOperation
    {
      match this
      case Get(f) => f.base
      case GetCollection(f) => f.base
      case Post(f) => f.base
      case Put(f) => f.base
      case Patch(f) => f.base
      case Delete(f) => f.base
    }
  }

  /** The six tags an operation can carry. */
  const Tags: seq<string> := ["get", "getCollection", "post", "put", "patch", "delete"]

  //
  // Resources, schema and configuration
  //

  datatype ModelResource = ModelResource(
    operations: Option<seq<Operation>>,
    security: Option<SecurityFn>,
    securityMessage: Option<string>)

  /** One `[model, resource]` pair of a resources object. */
  datatype Entry = Entry(model: string, resource: ModelResource)

  /** A resources object, as its entries in iteration order. */
  type Resources = seq<Entry>

  datatype Schema = Schema(prefix: Option<string>, resources: Option<Resources>)

  datatype Request = Request(httpMethod: string, path: string, body: Value)

  datatype AuthResult = AuthResult(isAuthenticated: bool, user: Option<User>)

  /** The auth provider: resolves a request to a nullable result, or throws. */
  type AuthProvider = Request -> Result<Option<AuthResult>>

  /** The providers. Of the database client, the model keeps its own keys
      (`Object.keys`), each model's field table (field name to type name)
      and the store the delegates act on. */
  datatype Config = Config(
    database: Database,
    clientKeys: seq<string>,
    fields: map<string, map<string, string>>,
    auth: Option<AuthProvider>)

  //
  // Responses
  //

  /** What a request ends in: a JSON response, or a value thrown out of the
      route handler. */
  datatype Reply = Json(status: int, body: Value) | Raised(error: Thrown)

  /** The observable steps of one handler run, in order. */
  datatype Step = RanPreHook | CalledStore(call: StoreCall) | RanPostHook
}
