/**
 * JavaScript values as the request pipeline sees them: JSON-like data, the
 * `null`/`undefined` absence, thrown values, and the query shape handed to
 * the data store.
 */
module Values {

  datatype Option<+T> = None | Some(value: T)
  {
    function GetOr(default: T): T
    {
      match this
      case Some(v) => v
      case None => default
    }
  }

  /** A JavaScript value reduced to what the pipeline can observe.
      `Null` stands for both `null` and `undefined`; numbers are integers,
      with `NaN` kept apart because `parseInt` can produce it. */
  datatype Value =
    | Null
    | Bool(b: bool)
    | Num(n: int)
    | NaN
    | Str(s: string)
    | Arr(items: seq<Value>)
    | Obj(fields: map<string, Value>)

  /** ECMAScript truthiness, as used by `||`, `?.` guards and `if (x)`. */
  predicate Truthy(v: Value)
  {
    match v
    case Null => false
    case Bool(b) => b
    case Num(n) => n != 0
    case NaN => false
    case Str(s) => s != ""
    case Arr(_) => true
    case Obj(_) => true
  }

  /** What a `throw` carries: an `Error` instance (only its message matters
      here) or any other value. */
  datatype Thrown = Error(message: string) | NonError(value: Value)

  /** The outcome of a step that may throw. */
  datatype Result<+T> = Ok(value: T) | Threw(error: Thrown)

  /** A stored row: field name to value. */
  type Record = map<string, Value>

  /** An equality filter (`where`): every listed field must hold the value. */
  type Filter = map<string, Value>

  /** A field selection (`select`): the names of the fields to return. */
  type Select = set<string>

  /** The arguments of a read: `{orderBy, where, select, distinct}`. */
  datatype Query = Query(
    orderBy: Option<Value>,
    where: Filter,
    select: Option<Select>,
    distinct: Option<seq<string>>)

  /** The row restricted to the selected fields (all of them without a selection). */
  function Project(row: Record, select: Option<Select>): (r: Record)
    ensures select.None? ==> r == row
    ensures select.Some? ==> r.Keys == row.Keys * select.value
    ensures forall k :: k in r ==> k in row && r[k] == row[k]
  {
    match select
    case None => row
    case Some(fields) => map k | k in row && k in fields :: row[k]
  }

  /** The JSON body `{message: m}` used by every error response. */
  function Message(m: string): (v: Value)
    ensures v.Obj? && v.fields.Keys == {"message"} && v.fields["message"] == Str(m)
  {
    Obj(map["message" := Str(m)])
  }
}
