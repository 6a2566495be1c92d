/**
 * The data store the handlers talk to through `context.db[model]`. It is an
 * external collaborator; this module gives it a small map-backed meaning so
 * that what the pipeline sends to it, and in which order, can be stated.
 * Each model name maps to its rows in insertion order.
 */
module Store {
  import opened Values

  type Tables = map<string, seq<Record>>

  /** One call on a model's delegate, with the arguments the handler passed. */
  datatype StoreCall =
    | FindUnique(model: string, query: Query)
    | FindMany(model: string, query: Query)
    | Create(model: string, data: Value, select: Option<Select>)
    | Update(model: string, data: Value, where: Filter, select: Option<Select>)
    | Delete(model: string, where: Filter, select: Option<Select>)
  {
    predicate IsRead()
    {
      FindUnique? || FindMany?
    }
  }

  const UnknownModel := "model is not part of the store"
  const NotUnique := "filter does not select exactly one record"
  const RecordNotFound := "Record to update not found."
  const RecordToDeleteNotFound := "Record to delete does not exist."
  const NotAnObject := "data is not an object"

  predicate Matches(row: Record, where: Filter)
  {
    forall k :: k in where ==> k in row && row[k] == where[k]
  }

  /** The indices of the rows the filter selects, in increasing order. */
  function Hits(rows: seq<Record>, where: Filter): (hs: seq<nat>)
    ensures forall i :: 0 <= i < |hs| ==> hs[i] < |rows| && Matches(rows[hs[i]], where)
    ensures forall j :: 0 <= j < |rows| && Matches(rows[j], where) ==> j in hs
  {
    if rows == [] then []
    else
      var hs := Hits(rows[..|rows| - 1], where);
      if Matches(rows[|rows| - 1], where) then hs + [|rows| - 1] else hs
  }

  /** A filter that exactly one row satisfies hits that row alone, in every prefix that holds it. */
  lemma {:induction false} UniqueHits(rows: seq<Record>, where: Filter, i: nat, n: nat)
    requires n <= |rows| && i < |rows| && Matches(rows[i], where)
    requires forall j :: 0 <= j < |rows| && j != i ==> !Matches(rows[j], where)
    ensures Hits(rows[..n], where) == if i < n then [i] else []
  {
    if n > 0 {
      UniqueHits(rows, where, i, n - 1);
      assert rows[..n][..n - 1] == rows[..n - 1];
    }
  }

  /** The one row a unique filter designates: the filter must be non-empty and
      select exactly one row. */
  function Target(rows: seq<Record>, where: Filter): (t: Option<nat>)
    ensures t.Some? ==> t.value < |rows| && Matches(rows[t.value], where)
    ensures t.Some? ==> forall j :: 0 <= j < |rows| && j != t.value ==> !Matches(rows[j], where)
  {
    var hs := Hits(rows, where);
    if where != map[] && |hs| == 1 then Some(hs[0]) else None
  }

  function ProjectAll(rows: seq<Record>, select: Option<Select>): (vs: seq<Value>)
    ensures |vs| == |rows|
    ensures forall i :: 0 <= i < |rows| ==> vs[i] == Obj(Project(rows[i], select))
  {
    if rows == [] then [] else [Obj(Project(rows[0], select))] + ProjectAll(rows[1..], select)
  }

  function RowsAt(rows: seq<Record>, hs: seq<nat>): seq<Record>
    requires forall i :: 0 <= i < |hs| ==> hs[i] < |rows|
  {
    seq(|hs|, i requires 0 <= i < |hs| => rows[hs[i]])
  }

  /** Only `model`'s rows may differ between `before` and `after`. */
  predicate OnlyModelChanged(before: Tables, after: Tables, model: string)
  {
    if model in before then model in after && after == before[model := after[model]] else after == before
  }

  /** Only `model`'s rows may differ, and their number stays. */
  predicate RowsRewritten(before: Tables, after: Tables, model: string)
  {
    OnlyModelChanged(before, after, model) && (model in before ==> |after[model]| == |before[model]|)
  }

  /** `after` is `before` with one more row at the end of `model`'s rows. */
  predicate RowAdded(before: Tables, after: Tables, model: string)
  {
    && OnlyModelChanged(before, after, model) && model in before
    && |after[model]| == |before[model]| + 1 && after[model][..|before[model]|] == before[model]
  }

  /** `after` is `before` with one of `model`'s rows taken out. */
  predicate RowRemoved(before: Tables, after: Tables, model: string)
  {
    OnlyModelChanged(before, after, model) && model in before && |after[model]| + 1 == |before[model]|
  }

  /** What a call does to the tables and what it resolves to. A call that
      throws leaves the tables as they were; only the named model's rows can
      change, and reads change nothing. */
  function Effect(tables: Tables, call: StoreCall): (r: (Tables, Result<Value>))
    ensures OnlyModelChanged(tables, r.0, call.model)
    ensures call.IsRead() || r.1.Threw? ==> r.0 == tables
    ensures call.model !in tables ==> r == (tables, Threw(Error(UnknownModel)))
    ensures call.FindMany? && r.1.Ok? ==> r.1.value.Arr?
    ensures call.Create? && r.1.Ok? ==> call.data.Obj? && r.0 == tables[call.model := tables[call.model] + [call.data.fields]]
    ensures call.Create? && r.1.Ok? ==> RowAdded(tables, r.0, call.model)
    ensures call.Update? ==> RowsRewritten(tables, r.0, call.model)
    ensures call.Delete? && r.1.Ok? ==> RowRemoved(tables, r.0, call.model)
  {
    if call.model !in tables then (tables, Threw(Error(UnknownModel)))
    else
      var rows := tables[call.model];
      match call
      case FindUnique(_, query) =>
        var hs := Hits(rows, query.where);
        if query.where == map[] || |hs| > 1 then (tables, Threw(Error(NotUnique)))
        else if hs == [] then (tables, Ok(Null))
        else (tables, Ok(Obj(Project(rows[hs[0]], query.select))))
      case FindMany(_, query) =>
        var hs := Hits(rows, query.where);
        (tables, Ok(Arr(ProjectAll(RowsAt(rows, hs), query.select))))
      case Create(m, data, select) =>
        if !data.Obj? then (tables, Threw(Error(NotAnObject)))
        else (tables[m := rows + [data.fields]], Ok(Obj(Project(data.fields, select))))
      case Update(m, data, where, select) =>
        if !data.Obj? then (tables, Threw(Error(NotAnObject)))
        else
          (match Target(rows, where)
           case None => (tables, Threw(Error(RecordNotFound)))
           case Some(i) =>
             var row := rows[i] + data.fields;
             (tables[m := rows[i := row]], Ok(Obj(Project(row, select)))))
      case Delete(m, where, select) =>
        match Target(rows, where)
        case None => (tables, Threw(Error(RecordToDeleteNotFound)))
        case Some(i) =>
          (tables[m := rows[..i] + rows[i + 1..]], Ok(Obj(Project(rows[i], select))))
  }

  /** The store handle (`config.providers.database`, `context.db`): its rows and
      the log of every call made on it. */
  class Database {
    var tables: Tables
    var calls: seq<StoreCall>

    constructor (tables: Tables)
      ensures this.tables == tables && calls == []
    {
      this.tables := tables;
      calls := [];
    }

    /** Performs one call: it is logged, and the tables and the result are
        those `Effect` gives. */
    method Execute(call: StoreCall) returns (r: Result<Value>)
      modifies this
      ensures calls == old(calls) + [call]
      ensures (tables, r) == Effect(old(tables), call)
    {
      calls := calls + [call];
      var outcome := Effect(tables, call);
      tables := outcome.0;
      r := outcome.1;
    }
  }
}
