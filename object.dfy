/**
 * `getObject`: the record the URI variables designate, fetched before the
 * security check. Every failure of the lookup reads as null.
 */
module ObjectLookup {
  import opened Values
  import opened Store
  import opened Types

  /** The call `getObject` makes: `findUnique` with the URI variables as the
      filter and no selection. */
  function LookupCall(model: string, uriVariables: UriVariables): (call: StoreCall)
    ensures call.FindUnique? && call.model == model && call.IsRead()
    ensures call.query.where == uriVariables && call.query.select.None?
  {
    FindUnique(model, Query(None, uriVariables, None, None))
  }

  /** The lookup's outcome as an object: what the store resolved to, or null
      when it threw. */
  function ObjectFrom(outcome: Result<Value>): (obj: Value)
    ensures outcome.Threw? ==> obj == Null
    ensures outcome.Ok? ==> obj == outcome.value
  {
    match outcome
    case Ok(v) => v
    case Threw(_) => Null
  }

  /** The object `getObject` resolves to, given the store's rows. */
  function LookupObject(tables: Tables, model: string, uriVariables: UriVariables): Value
  {
    ObjectFrom(Effect(tables, LookupCall(model, uriVariables)).1)
  }

  /** `getObject`: one read on the store, never a throw. */
  method GetObject(db: Database, model: string, uriVariables: UriVariables) returns (obj: Value)
    modifies db
    ensures db.calls == old(db.calls) + [LookupCall(model, uriVariables)]
    ensures db.tables == old(db.tables)
    ensures obj == LookupObject(old(db.tables), model, uriVariables)
  {
    var outcome := db.Execute(LookupCall(model, uriVariables));
    obj := ObjectFrom(outcome);
  }

  /** With no URI variables (a collection route) the filter is empty, which
      does not designate a record: the object is null. */
  lemma {:induction false} NoVariablesNoObject(tables: Tables, model: string)
    ensures LookupObject(tables, model, map[]) == Null
  {
  }

  /** When exactly one row holds every URI variable, the object is that whole row. */
  lemma {:induction false} UniqueRowFound(tables: Tables, model: string, uriVariables: UriVariables, i: nat)
    requires model in tables && i < |tables[model]| && uriVariables != map[]
    requires Matches(tables[model][i], uriVariables)
    requires forall j :: 0 <= j < |tables[model]| && j != i ==> !Matches(tables[model][j], uriVariables)
    ensures LookupObject(tables, model, uriVariables) == Obj(tables[model][i])
  {
    var rows := tables[model];
    UniqueHits(rows, uriVariables, i, |rows|);
    assert rows[..|rows|] == rows;
  }

  /** When no row holds the URI variables, the object is null. */
  lemma {:induction false} NoRowNoObject(tables: Tables, model: string, uriVariables: UriVariables)
    requires model in tables
    requires forall j :: 0 <= j < |tables[model]| ==> !Matches(tables[model][j], uriVariables)
    ensures LookupObject(tables, model, uriVariables) == Null
  {
  }

  /** When two rows hold the URI variables, the lookup throws and the object is null. */
  lemma {:induction false} AmbiguousNoObject(tables: Tables, model: string, uriVariables: UriVariables, i: nat, j: nat)
    requires model in tables && i < j < |tables[model]|
    requires Matches(tables[model][i], uriVariables) && Matches(tables[model][j], uriVariables)
    ensures LookupObject(tables, model, uriVariables) == Null
  {
    var hs := Hits(tables[model], uriVariables);
    assert i in hs && j in hs;
  }
}
