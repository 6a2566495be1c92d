/**
 * `getDefaultResources` and `getDefaultOperations`: the resources used when
 * a schema declares none, one per model of the database client, each with
 * the six standard operations under the model's plural.
 */
module Defaults {
  import opened Values
  import opened Types
  import opened Router
  import opened GetOperation
  import opened GetCollectionOperation
  import opened PostOperation
  import opened PutOperation
  import opened PatchOperation
  import opened DeleteOperation

  /** The keys of the database client that are not models. */
  const ExcludeMethods: seq<string> := [
    "$transaction", "$queryRawUnsafe", "$queryRaw", "$on", "$extends",
    "$executeRawUnsafe", "$executeRaw", "$disconnect", "$connect", "$use",
    "$parent", "_originalClient", "_middlewares", "_createPrismaPromise",
    "_extensions", "_previewFeatures", "_clientVersion", "_activeProvider",
    "_globalOmit", "_tracingHelper", "_errorFormat", "_runtimeDataModel",
    "_engineConfig", "_accelerateEngineConfig", "_engine", "_requestHandler",
    "_metrics", "_appliedParent"]

  /** An operation that declares only its template. */
  function OnlyTemplate(uriTemplate: string): BaseOperation
  {
    BaseOperation(Some(uriTemplate), None, None)
  }

  function NoQueryFields(uriTemplate: string): QueryFields
  {
    QueryFields(OnlyTemplate(uriTemplate), None, None, None, None, None, None)
  }

  function NoMutationFields(uriTemplate: string): MutationFields
  {
    MutationFields(OnlyTemplate(uriTemplate), None, None, None, None, None)
  }

  /** The collection template `/${plural}`. */
  function CollectionTemplate(plural: string): string
  {
    "/" + plural
  }

  /** The item template `/${plural}/{id}`. */
  function ItemTemplate(plural: string): string
  {
    "/" + plural + "/{id}"
  }

  /** `getDefaultOperations`: list, read, create, replace, patch and delete, in
      that order, the two collection operations under `/${plural}` and the
      four item operations under `/${plural}/{id}`; nothing else is declared. */
  function DefaultOperations(model: string, pluralize: string -> string): seq<Operation>
  {
    var plural := pluralize(model);
    [ CreateGetCollectionOperation(NoQueryFields(CollectionTemplate(plural))),
      CreateGetOperation(NoQueryFields(ItemTemplate(plural))),
      CreatePostOperation(PostFields(OnlyTemplate(CollectionTemplate(plural)), None, None, None, None)),
      CreatePutOperation(NoMutationFields(ItemTemplate(plural))),
      CreatePatchOperation(NoMutationFields(ItemTemplate(plural))),
      CreateDeleteOperation(NoMutationFields(ItemTemplate(plural))) ]
  }

  lemma {:induction false} DefaultOperationsShape(model: string, pluralize: string -> string)
    ensures var ops := DefaultOperations(model, pluralize);
      && |ops| == 6
      && (forall k :: 0 <= k < 6 ==> ops[k].Tag() == ["getCollection", "get", "post", "put", "patch", "delete"][k])
      && (forall k :: 0 <= k < 6 ==>
            ops[k].Base().uriTemplate == Some(if k == 0 || k == 2 then CollectionTemplate(pluralize(model)) else ItemTemplate(pluralize(model))))
      && (forall k :: 0 <= k < 6 ==> ops[k].Base().security.None? && ops[k].Base().securityMessage.None?)
  {
  }

  /** The resource generated for one model: its default operations, and no
      security predicate or message. */
  function DefaultResource(model: string, pluralize: string -> string): ModelResource
  {
    ModelResource(Some(DefaultOperations(model, pluralize)), None, None)
  }

  /** `Object.keys(prisma).filter(key => !excludeMethods.includes(key))`. */
  function ModelNames(keys: seq<string>): (models: seq<string>)
    ensures |models| <= |keys|
    ensures forall m :: m in models <==> m in keys && m !in ExcludeMethods
  {
    if keys == [] then []
    else (if keys[0] in ExcludeMethods then [] else [keys[0]]) + ModelNames(keys[1..])
  }

  /** Filtering keeps distinct keys distinct. */
  lemma {:induction false} ModelNamesDistinct(keys: seq<string>)
    requires Distinct(keys)
    ensures Distinct(ModelNames(keys))
  {
    if keys != [] {
      assert Distinct(keys[1..]) by {
        forall a, b | 0 <= a < b < |keys[1..]|
          ensures keys[1..][a] != keys[1..][b]
        {
          assert keys[1..][a] == keys[a + 1] && keys[1..][b] == keys[b + 1];
        }
      }
      ModelNamesDistinct(keys[1..]);
      assert keys[0] !in keys[1..] by {
        forall a | 0 <= a < |keys[1..]|
          ensures keys[1..][a] != keys[0]
        {
          assert keys[1..][a] == keys[a + 1];
        }
      }
    }
  }

  //
  // A resources object as an ordered dictionary
  //

  /** The models of a resources object, in iteration order. */
  function Models(resources: Resources): (models: seq<string>)
    ensures |models| == |resources|
    ensures forall i :: 0 <= i < |resources| ==> models[i] == resources[i].model
  {
    if resources == [] then [] else [resources[0].model] + Models(resources[1..])
  }

  /** `resources[model]`: the resource stored under a model, if any. */
  function Lookup(resources: Resources, model: string): Option<ModelResource>
  {
    if resources == [] then None
    else if resources[0].model == model then Some(resources[0].resource)
    else Lookup(resources[1..], model)
  }

  /** A lookup finds exactly the models the object holds. */
  lemma {:induction false} LookupFindsModels(resources: Resources, model: string)
    ensures Lookup(resources, model).Some? <==> model in Models(resources)
  {
    if resources != [] {
      LookupFindsModels(resources[1..], model);
    }
  }

  /** `resources[model] = resource`: afterwards the model holds the new value
      and every other model holds what it held. */
  function Assign(resources: Resources, model: string, resource: ModelResource): (r: Resources)
    ensures Lookup(r, model) == Some(resource)
    ensures forall m :: m != model ==> Lookup(r, m) == Lookup(resources, m)
  {
    if resources == [] then [Entry(model, resource)]
    else if resources[0].model == model then [Entry(model, resource)] + resources[1..]
    else
      var rest := Assign(resources[1..], model, resource);
      assert ([resources[0]] + rest)[1..] == rest;
      [resources[0]] + rest
  }

  /** An existing key keeps its place; a new key goes last. */
  lemma {:induction false} AssignOrder(resources: Resources, model: string, resource: ModelResource)
    ensures Models(Assign(resources, model, resource))
      == if model in Models(resources) then Models(resources) else Models(resources) + [model]
  {
    if resources != [] {
      var r := Assign(resources, model, resource);
      assert r[1..] == if resources[0].model == model then resources[1..] else Assign(resources[1..], model, resource);
      assert Models(resources) == [resources[0].model] + Models(resources[1..]);
      assert Models(r) == [r[0].model] + Models(r[1..]);
      if resources[0].model != model {
        AssignOrder(resources[1..], model, resource);
      }
    }
  }

  /** One assignment, seen from a lookup of `model`. */
  lemma {:induction false} AssignStep(previous: Resources, next: Resources, key: string, resource: ModelResource, model: string)
    requires next == Assign(previous, key, resource)
    ensures Lookup(next, model) == if model == key then Some(resource) else Lookup(previous, model)
  {
  }

  /** One assignment, seen from the key order. */
  lemma {:induction false} AssignOrderStep(previous: Resources, next: Resources, key: string, resource: ModelResource)
    requires next == Assign(previous, key, resource)
    ensures Models(next) == if key in Models(previous) then Models(previous) else Models(previous) + [key]
  {
    AssignOrder(previous, key, resource);
  }

  /** The resources object after the loop has visited the first `n` models. */
  function DefaultResourcesUpTo(models: seq<string>, n: nat, pluralize: string -> string): (resources: Resources)
    requires n <= |models|
  {
    if n == 0 then []
    else
      Assign(DefaultResourcesUpTo(models, n - 1, pluralize), models[n - 1], DefaultResource(models[n - 1], pluralize))
  }

  /** What `getDefaultResources` returns for the client's keys. */
  function DefaultResources(clientKeys: seq<string>, pluralize: string -> string): Resources
  {
    var models := ModelNames(clientKeys);
    DefaultResourcesUpTo(models, |models|, pluralize)
  }

  /** `getDefaultResources`. */
  method GetDefaultResources(clientKeys: seq<string>, pluralize: string -> string) returns (resources: Resources)
    ensures resources == DefaultResources(clientKeys, pluralize)
  {
    var models := ModelNames(clientKeys);
    resources := [];
    for i := 0 to |models|
      invariant resources == DefaultResourcesUpTo(models, i, pluralize)
    {
      var model := models[i];
      resources := Assign(resources, model, DefaultResource(model, pluralize));
    }
  }

  /** Every key of the client that is not excluded gets a resource, holding
      its default operations, and nothing else does. */
  lemma {:induction false} DefaultResourcesCover(clientKeys: seq<string>, pluralize: string -> string, model: string)
    ensures Lookup(DefaultResources(clientKeys, pluralize), model).Some? <==> model in clientKeys && model !in ExcludeMethods
    ensures model in clientKeys && model !in ExcludeMethods
        ==> Lookup(DefaultResources(clientKeys, pluralize), model) == Some(DefaultResource(model, pluralize))
  {
    var models := ModelNames(clientKeys);
    UpToCover(models, |models|, pluralize, model);
    assert models[..|models|] == models;
  }

  lemma {:induction false} UpToCover(models: seq<string>, n: nat, pluralize: string -> string, model: string)
    requires n <= |models|
    ensures Lookup(DefaultResourcesUpTo(models, n, pluralize), model).Some? <==> model in models[..n]
    ensures model in models[..n] ==> Lookup(DefaultResourcesUpTo(models, n, pluralize), model) == Some(DefaultResource(model, pluralize))
  {
    if n > 0 {
      var key := models[n - 1];
      UpToCover(models, n - 1, pluralize, model);
      AssignStep(DefaultResourcesUpTo(models, n - 1, pluralize), DefaultResourcesUpTo(models, n, pluralize),
                 key, DefaultResource(key, pluralize), model);
      TakeOneMore(models, n, model);
      if model == key {
        assert DefaultResource(key, pluralize) == DefaultResource(model, pluralize);
      }
    }
  }

  lemma {:induction false} TakeOneMore(models: seq<string>, n: nat, model: string)
    requires 0 < n <= |models|
    ensures model in models[..n] <==> model in models[..n - 1] || model == models[n - 1]
  {
    assert models[..n] == models[..n - 1] + [models[n - 1]];
  }

  /** With distinct keys (as `Object.keys` gives), the resources follow the
      client's key order. */
  lemma {:induction false} DefaultResourcesOrder(clientKeys: seq<string>, pluralize: string -> string)
    requires Distinct(clientKeys)
    ensures Models(DefaultResources(clientKeys, pluralize)) == ModelNames(clientKeys)
  {
    var models := ModelNames(clientKeys);
    ModelNamesDistinct(clientKeys);
    UpToFollowsModels(models, |models|, pluralize);
    assert models[..|models|] == models;
  }

  lemma {:induction false} UpToFollowsModels(models: seq<string>, n: nat, pluralize: string -> string)
    requires n <= |models| && Distinct(models)
    ensures Models(DefaultResourcesUpTo(models, n, pluralize)) == models[..n]
  {
    if n > 0 {
      UpToFollowsModels(models, n - 1, pluralize);
      AssignOrderStep(DefaultResourcesUpTo(models, n - 1, pluralize), DefaultResourcesUpTo(models, n, pluralize),
                      models[n - 1], DefaultResource(models[n - 1], pluralize));
      var prefix := models[..n - 1];
      assert models[n - 1] !in prefix by {
        forall a | 0 <= a < n - 1
          ensures prefix[a] != models[n - 1]
        {
          assert prefix[a] == models[a];
        }
      }
      assert models[..n] == prefix + [models[n - 1]];
    }
  }

  //
  // How the default resources route
  //

  /** Every resource is the default one of its model. */
  ghost predicate AllDefault(resources: Resources, pluralize: string -> string)
  {
    resources == [] ||
      (resources[0].resource == DefaultResource(resources[0].model, pluralize) && AllDefault(resources[1..], pluralize))
  }

  lemma {:induction false} DefaultAt(resources: Resources, pluralize: string -> string, j: nat)
    requires AllDefault(resources, pluralize) && j < |resources|
    ensures resources[j].resource == DefaultResource(resources[j].model, pluralize)
    ensures OperationsOf(resources[j].resource) == DefaultOperations(resources[j].model, pluralize)
  {
    if j > 0 {
      DefaultAt(resources[1..], pluralize, j - 1);
      assert resources[1..][j - 1] == resources[j];
    }
  }

  lemma {:induction false} AssignKeepsDefault(resources: Resources, model: string, pluralize: string -> string)
    requires AllDefault(resources, pluralize)
    ensures AllDefault(Assign(resources, model, DefaultResource(model, pluralize)), pluralize)
  {
    if resources == [] {
      assert Assign(resources, model, DefaultResource(model, pluralize))[1..] == [];
    } else if resources[0].model == model {
      assert Assign(resources, model, DefaultResource(model, pluralize))[1..] == resources[1..];
    } else {
      AssignKeepsDefault(resources[1..], model, pluralize);
      assert Assign(resources, model, DefaultResource(model, pluralize))[1..]
        == Assign(resources[1..], model, DefaultResource(model, pluralize));
    }
  }

  lemma {:induction false} StepKeepsDefault(previous: Resources, next: Resources, model: string, pluralize: string -> string)
    requires AllDefault(previous, pluralize) && next == Assign(previous, model, DefaultResource(model, pluralize))
    ensures AllDefault(next, pluralize)
  {
    AssignKeepsDefault(previous, model, pluralize);
  }

  lemma {:induction false} UpToAllDefault(models: seq<string>, n: nat, pluralize: string -> string)
    requires n <= |models|
    ensures AllDefault(DefaultResourcesUpTo(models, n, pluralize), pluralize)
  {
    if n > 0 {
      UpToAllDefault(models, n - 1, pluralize);
      StepKeepsDefault(DefaultResourcesUpTo(models, n - 1, pluralize), DefaultResourcesUpTo(models, n, pluralize), models[n - 1], pluralize);
    }
  }

  /** The generated resources hold default resources only. */
  lemma {:induction false} DefaultResourcesAllDefault(clientKeys: seq<string>, pluralize: string -> string)
    ensures AllDefault(DefaultResources(clientKeys, pluralize), pluralize)
  {
    var models := ModelNames(clientKeys);
    UpToAllDefault(models, |models|, pluralize);
  }

  /** A plural that makes one literal path segment. */
  predicate PluralSegment(plural: string)
  {
    plural != "" && '/' !in plural && !IsPlaceholder(plural)
  }

  /** The split templates of the default operations: the prefix's segments,
      then the plural, then `{id}` for the item operations. */
  lemma {:induction false} DefaultTemplateParts(prefix: string, model: string, pluralize: string -> string)
    requires PluralSegment(pluralize(model))
    ensures var ops := DefaultOperations(model, pluralize);
      forall k :: 0 <= k < 6 ==>
        HasTemplate(ops[k]) && TemplateParts(prefix, ops[k]) == SplitPath(prefix) + [pluralize(model)] + (if k == 0 || k == 2 then [] else ["{id}"])
  {
    var plural := pluralize(model);
    var ops := DefaultOperations(model, pluralize);
    SplitPathEmpty();
    SplitPathAppend("", plural);
    assert "" + "/" + plural == CollectionTemplate(plural);
    SplitPathAppend(CollectionTemplate(plural), "{id}");
    assert CollectionTemplate(plural) + "/" + "{id}" == ItemTemplate(plural);
    forall k | 0 <= k < 6
      ensures TemplateParts(prefix, ops[k]) == SplitPath(prefix) + [plural] + (if k == 0 || k == 2 then [] else ["{id}"])
    {
      TemplatePartsSplit(prefix, ops[k]);
    }
  }

  /** A template of literal prefix segments, one literal and then only
      placeholders matches a path exactly when the path has the same prefix
      segments, the same literal and as many segments after it. */
  lemma {:induction false} LiteralThenPlaceholders(front: seq<string>, segment: string, tail: seq<string>, literal: string, rest: seq<string>)
    requires !IsPlaceholder(literal)
    requires forall r :: r in rest ==> IsPlaceholder(r)
    ensures SegmentsMatch(front + [segment] + tail, front + [literal] + rest) <==> segment == literal && |tail| == |rest|
  {
    var parts := front + [segment] + tail;
    var template := front + [literal] + rest;
    if SegmentsMatch(parts, template) {
      assert parts[|front|] == segment && template[|front|] == literal;
    }
    if segment == literal && |tail| == |rest| {
      forall i | 0 <= i < |parts|
        ensures IsPlaceholder(template[i]) || parts[i] == template[i]
      {
        if i > |front| {
          assert template[i] == rest[i - |front| - 1];
        }
      }
    }
  }

  /** Which of a model's default operations a path under the prefix selects:
      the collection operation for `/plural`, the item read for
      `/plural/x`, and none for any other path. */
  lemma {:induction false} DefaultOperationMatched(prefix: string, model: string, pluralize: string -> string,
                                                   segment: string, tail: seq<string>)
    requires PluralSegment(pluralize(model))
    ensures FirstOperation(SplitPath(prefix) + [segment] + tail, prefix, DefaultOperations(model, pluralize), 0)
      == if segment != pluralize(model) || |tail| > 1 then None else Some(|tail|)
  {
    var parts := SplitPath(prefix) + [segment] + tail;
    var ops := DefaultOperations(model, pluralize);
    DefaultTemplateParts(prefix, model, pluralize);
    LiteralThenPlaceholders(SplitPath(prefix), segment, tail, pluralize(model), []);
    LiteralThenPlaceholders(SplitPath(prefix), segment, tail, pluralize(model), ["{id}"]);
    assert forall k :: 0 <= k < 6 ==>
      (OperationMatches(parts, prefix, ops[k]) <==> segment == pluralize(model) && |tail| == if k == 0 || k == 2 then 0 else 1);
  }

  /** A path whose segment after the prefix is the plural of the model at
      index `i` goes to that model's collection operation (no more segments)
      or item read (one more), provided no earlier model has the same plural. */
  lemma {:induction false} RouteToModel(prefix: string, resources: Resources, pluralize: string -> string,
                                        i: nat, tail: seq<string>)
    requires AllDefault(resources, pluralize) && i < |resources| && |tail| <= 1
    requires forall j :: 0 <= j <= i ==> PluralSegment(pluralize(resources[j].model))
    requires forall j :: 0 <= j < i ==> pluralize(resources[j].model) != pluralize(resources[i].model)
    ensures FirstMatchFrom(SplitPath(prefix) + [pluralize(resources[i].model)] + tail, prefix, resources, 0)
      == Some(Position(i, |tail|))
  {
    var parts := SplitPath(prefix) + [pluralize(resources[i].model)] + tail;
    forall j | 0 <= j < i
      ensures FirstOperation(parts, prefix, OperationsOf(resources[j].resource), 0).None?
    {
      DefaultAt(resources, pluralize, j);
      DefaultOperationMatched(prefix, resources[j].model, pluralize, pluralize(resources[i].model), tail);
    }
    EarlierResourcesSkipped(parts, prefix, resources, i);
    DefaultAt(resources, pluralize, i);
    DefaultOperationMatched(prefix, resources[i].model, pluralize, pluralize(resources[i].model), tail);
  }

  /** `${prefix}/${plural}` lists the model's records. */
  lemma {:induction false} CollectionPathRoutes(prefix: string, resources: Resources, pluralize: string -> string, i: nat)
    requires AllDefault(resources, pluralize) && i < |resources|
    requires forall j :: 0 <= j <= i ==> PluralSegment(pluralize(resources[j].model))
    requires forall j :: 0 <= j < i ==> pluralize(resources[j].model) != pluralize(resources[i].model)
    ensures var route := FindRoute(prefix + "/" + pluralize(resources[i].model), prefix, resources);
      route.Some? && route.value.model == resources[i].model && route.value.operation.Tag() == "getCollection"
    ensures var route := FindRoute(prefix + "/" + pluralize(resources[i].model), prefix, resources);
      route.Some? && route.value.operation == DefaultOperations(resources[i].model, pluralize)[0]
      && route.value.resource == resources[i].resource
  {
    var plural := pluralize(resources[i].model);
    SplitPathAppend(prefix, plural);
    assert SplitPath(prefix) + [plural] + [] == SplitPath(prefix) + [plural];
    RouteToModel(prefix, resources, pluralize, i, []);
    DefaultAt(resources, pluralize, i);
    DefaultOperationsShape(resources[i].model, pluralize);
  }

  /** `${prefix}/${plural}/${id}` reads one record of the model. */
  lemma {:induction false} ItemPathRoutes(prefix: string, resources: Resources, pluralize: string -> string, i: nat, id: string)
    requires AllDefault(resources, pluralize) && i < |resources|
    requires forall j :: 0 <= j <= i ==> PluralSegment(pluralize(resources[j].model))
    requires forall j :: 0 <= j < i ==> pluralize(resources[j].model) != pluralize(resources[i].model)
    requires id != "" && '/' !in id
    ensures var route := FindRoute(prefix + "/" + pluralize(resources[i].model) + "/" + id, prefix, resources);
      route.Some? && route.value.model == resources[i].model && route.value.operation.Tag() == "get"
  {
    var plural := pluralize(resources[i].model);
    SplitPathAppend(prefix, plural);
    SplitPathAppend(prefix + "/" + plural, id);
    RouteToModel(prefix, resources, pluralize, i, [id]);
    DefaultAt(resources, pluralize, i);
    DefaultOperationsShape(resources[i].model, pluralize);
  }

  /** Matching ignores the HTTP method, so in default resources the create,
      replace, patch and delete operations sit behind the list or read
      operation with the same template: every route found is a read. */
  lemma {:induction false} DefaultRoutesOnlyReads(path: string, prefix: string, resources: Resources, pluralize: string -> string)
    requires AllDefault(resources, pluralize)
    ensures var route := FindRoute(path, prefix, resources);
      route.Some? ==> route.value.operation.Tag() in {"get", "getCollection"}
    ensures var route := FindRoute(path, prefix, resources);
      route.Some? ==> route.value.operation.Get? || route.value.operation.GetCollection?
  {
    var found := FirstMatchFrom(SplitPath(path), prefix, resources, 0);
    if found.Some? {
      var q := found.value;
      DefaultAt(resources, pluralize, q.resource);
      if q.operation >= 2 {
        Shadowed(path, prefix, resources, Position(q.resource, if q.operation == 2 then 0 else 1), q);
      }
    }
  }
}
