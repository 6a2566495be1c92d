/**
 * Path matching and URI-variable extraction: `splitPath`, `matchRoute` and
 * `buildUriVariables`.
 */
module Router {
  import opened Values
  import opened Types

  //
  // Splitting paths
  //

  /** `s.split("/")`: the pieces between slashes, empty pieces included. */
  function SplitOnSlash(s: string): (pieces: seq<string>)
    ensures |pieces| >= 1
    ensures forall i :: 0 <= i < |pieces| ==> '/' !in pieces[i]
  {
    if s == [] then [""]
    else
      var rest := SplitOnSlash(s[1..]);
      if s[0] == '/' then [""] + rest
      else [[s[0]] + rest[0]] + rest[1..]
  }

  /** `.filter((part) => part !== "")`. */
  function DropEmpty(pieces: seq<string>): (r: seq<string>)
    ensures forall i :: 0 <= i < |r| ==> r[i] != ""
    ensures forall x :: x in r <==> x in pieces && x != ""
    ensures (forall i :: 0 <= i < |pieces| ==> '/' !in pieces[i]) ==> forall i :: 0 <= i < |r| ==> '/' !in r[i]
  {
    if pieces == [] then []
    else if pieces[0] == "" then DropEmpty(pieces[1..])
    else [pieces[0]] + DropEmpty(pieces[1..])
  }

  /** `splitPath`: the non-empty segments between slashes. */
  function SplitPath(path: string): (segments: seq<string>)
    ensures forall i :: 0 <= i < |segments| ==> segments[i] != "" && '/' !in segments[i]
  {
    DropEmpty(SplitOnSlash(path))
  }

  lemma {:induction false} TailOfConcat<T>(x: seq<T>, y: seq<T>)
    requires |x| >= 1
    ensures (x + y)[0] == x[0] && (x + y)[1..] == x[1..] + y
  {
  }

  lemma {:induction false} ConsConcat<T>(h: T, x: seq<T>, y: seq<T>)
    ensures [h] + (x + y) == ([h] + x) + y
  {
  }

  lemma {:induction false} SplitOnSlashConcat(a: string, b: string)
    ensures SplitOnSlash(a + "/" + b) == SplitOnSlash(a) + SplitOnSlash(b)
  {
    if a == [] {
      assert a + "/" + b == "/" + b;
      assert ("/" + b)[1..] == b;
    } else {
      var s := a + "/" + b;
      assert s[0] == a[0] && s[1..] == a[1..] + "/" + b;
      SplitOnSlashConcat(a[1..], b);
      var x, y := SplitOnSlash(a[1..]), SplitOnSlash(b);
      if a[0] != '/' {
        TailOfConcat(x, y);
        ConsConcat([a[0]] + x[0], x[1..], y);
      } else {
        ConsConcat("", x, y);
      }
    }
  }

  lemma {:induction false} DropEmptyConcat(x: seq<string>, y: seq<string>)
    ensures DropEmpty(x + y) == DropEmpty(x) + DropEmpty(y)
  {
    if x == [] {
      assert x + y == y;
    } else {
      assert (x + y)[1..] == x[1..] + y;
      DropEmptyConcat(x[1..], y);
    }
  }

  /** Splitting at a slash splits the two sides independently. */
  lemma {:induction false} SplitPathConcat(a: string, b: string)
    ensures SplitPath(a + "/" + b) == SplitPath(a) + SplitPath(b)
  {
    SplitOnSlashConcat(a, b);
    DropEmptyConcat(SplitOnSlash(a), SplitOnSlash(b));
  }

  /** Leading, trailing and repeated slashes do not change the segments. */
  lemma {:induction false} ExtraSlashesIgnored(a: string, b: string)
    ensures SplitPath("/" + a) == SplitPath(a)
    ensures SplitPath(a + "/") == SplitPath(a)
    ensures SplitPath(a + "//" + b) == SplitPath(a + "/" + b)
  {
    SplitPathConcat("", a);
    assert "" + "/" + a == "/" + a;
    SplitPathConcat(a, "");
    assert a + "/" + "" == a + "/";
    SplitPathConcat(a, "/" + b);
    assert a + "/" + ("/" + b) == a + "//" + b;
    SplitPathConcat("", b);
    assert "" + "/" + b == "/" + b;
    SplitPathConcat(a, b);
  }

  /** The path "/s0/s1/.../sn" built from segments. */
  function JoinPath(segments: seq<string>): string
  {
    if segments == [] then "" else JoinPath(segments[..|segments| - 1]) + "/" + segments[|segments| - 1]
  }

  lemma {:induction false} SplitOnSlashWithoutSlash(s: string)
    requires '/' !in s
    ensures SplitOnSlash(s) == [s]
  {
    if s != [] {
      assert '/' !in s[1..];
      SplitOnSlashWithoutSlash(s[1..]);
      assert [s[0]] + s[1..] == s;
    }
  }

  lemma {:induction false} SplitPathSegment(a: string)
    requires a != "" && '/' !in a
    ensures SplitPath(a) == [a]
  {
    SplitOnSlashWithoutSlash(a);
    assert [a][1..] == [];
    assert DropEmpty([a]) == [a] + DropEmpty([]);
  }

  /** Splitting a joined path gives back its segments. */
  lemma {:induction false} SplitJoin(segments: seq<string>)
    requires forall i :: 0 <= i < |segments| ==> segments[i] != "" && '/' !in segments[i]
    ensures SplitPath(JoinPath(segments)) == segments
  {
    if segments != [] {
      var init, last := segments[..|segments| - 1], segments[|segments| - 1];
      SplitJoin(init);
      SplitPathConcat(JoinPath(init), last);
      SplitPathSegment(last);
      assert init + [last] == segments;
    }
  }

  //
  // Matching a path against the declared templates
  //

  /** `segment.startsWith("{")`. */
  predicate IsPlaceholder(segment: string)
  {
    |segment| > 0 && segment[0] == '{'
  }

  /** `${prefix}/${operation.uriTemplate}`; an absent template prints as "undefined". */
  function TemplatePath(prefix: string, uriTemplate: Option<string>): string
  {
    prefix + "/" + (match uriTemplate case Some(t) => t case None => "undefined")
  }

  function TemplateParts(prefix: string, operation: Operation): seq<string>
  {
    SplitPath(TemplatePath(prefix, operation.Base().uriTemplate))
  }

  /** Same number of segments, and every segment of the template that is not a
      placeholder equals the path's segment at the same index. */
  predicate SegmentsMatch(parts: seq<string>, templateParts: seq<string>)
  {
    && |parts| == |templateParts|
    && forall i :: 0 <= i < |parts| && !IsPlaceholder(templateParts[i]) ==> parts[i] == templateParts[i]
  }

  /** `if (operation.uriTemplate)`: present and not the empty string. */
  predicate HasTemplate(operation: Operation)
  {
    operation.Base().uriTemplate.Some? && operation.Base().uriTemplate.value != ""
  }

  predicate OperationMatches(parts: seq<string>, prefix: string, operation: Operation)
  {
    HasTemplate(operation) && SegmentsMatch(parts, TemplateParts(prefix, operation))
  }

  /** A resource's operations; a resource without them contributes none. */
  function OperationsOf(resource: ModelResource): seq<Operation>
  {
    resource.operations.GetOr([])
  }

  /** An operation's place: the index of its resource, then its index there. */
  datatype Position = Position(resource: nat, operation: nat)

  predicate ValidPosition(resources: Resources, p: Position)
  {
    p.resource < |resources| && p.operation < |OperationsOf(resources[p.resource].resource)|
  }

  function OperationAt(resources: Resources, p: Position): Operation
    requires ValidPosition(resources, p)
  {
    OperationsOf(resources[p.resource].resource)[p.operation]
  }

  predicate MatchesAt(parts: seq<string>, prefix: string, resources: Resources, p: Position)
  {
    ValidPosition(resources, p) && OperationMatches(parts, prefix, OperationAt(resources, p))
  }

  /** Scan order: resources in order, then operations in order. */
  predicate Before(p: Position, q: Position)
  {
    p.resource < q.resource || (p.resource == q.resource && p.operation < q.operation)
  }

  /** The first operation from index `j` on that matches. */
  function FirstOperation(parts: seq<string>, prefix: string, operations: seq<Operation>, j: nat): (r: Option<nat>)
    decreases |operations| - j
    ensures r.Some? ==> j <= r.value < |operations| && OperationMatches(parts, prefix, operations[r.value])
    ensures r.Some? ==> forall k :: j <= k < r.value ==> !OperationMatches(parts, prefix, operations[k])
    ensures r.None? ==> forall k :: j <= k < |operations| ==> !OperationMatches(parts, prefix, operations[k])
  {
    if j >= |operations| then None
    else if OperationMatches(parts, prefix, operations[j]) then Some(j)
    else FirstOperation(parts, prefix, operations, j + 1)
  }

  /** The first matching position in scan order, from resource `i` on. */
  function FirstMatchFrom(parts: seq<string>, prefix: string, resources: Resources, i: nat): (r: Option<Position>)
    decreases |resources| - i
    ensures r.Some? ==> i <= r.value.resource && MatchesAt(parts, prefix, resources, r.value)
    ensures r.Some? ==> forall q: Position :: i <= q.resource && Before(q, r.value) ==> !MatchesAt(parts, prefix, resources, q)
    ensures r.None? ==> forall q: Position :: i <= q.resource ==> !MatchesAt(parts, prefix, resources, q)
  {
    if i >= |resources| then None
    else
      match FirstOperation(parts, prefix, OperationsOf(resources[i].resource), 0)
      case Some(j) => Some(Position(i, j))
      case None => FirstMatchFrom(parts, prefix, resources, i + 1)
  }

  /** What `matchRoute` returns on a match. */
  datatype Route = Route(model: string, operation: Operation, resource: ModelResource)

  function RouteAt(resources: Resources, p: Position): Route
    requires ValidPosition(resources, p)
  {
    Route(resources[p.resource].model, OperationAt(resources, p), resources[p.resource].resource)
  }

  /** The route of the first operation in scan order whose template matches the
      path. The HTTP method is not an input. */
  function FindRoute(path: string, prefix: string, resources: Resources): (r: Option<Route>)
    ensures r.Some? ==> HasTemplate(r.value.operation)
    ensures r.Some? ==> SegmentsMatch(SplitPath(path), TemplateParts(prefix, r.value.operation))
    ensures r.None? <==> forall q: Position :: !MatchesAt(SplitPath(path), prefix, resources, q)
  {
    match FirstMatchFrom(SplitPath(path), prefix, resources, 0)
    case None => None
    case Some(p) => Some(RouteAt(resources, p))
  }

  /** `matchRoute`: nested scan with early return on the first match. */
  method MatchRoute(path: string, resources: Resources, prefix: string) returns (route: Option<Route>)
    ensures route == FindRoute(path, prefix, resources)
  {
    var parts := SplitPath(path);
    var i := 0;
    while i < |resources|
      invariant 0 <= i <= |resources|
      invariant FirstMatchFrom(parts, prefix, resources, 0) == FirstMatchFrom(parts, prefix, resources, i)
    {
      var entry := resources[i];
      if entry.resource.operations.None? {
        i := i + 1;
        continue;
      }
      var operations := entry.resource.operations.value;
      var j := 0;
      while j < |operations|
        invariant 0 <= j <= |operations|
        invariant FirstOperation(parts, prefix, operations, 0) == FirstOperation(parts, prefix, operations, j)
      {
        var operation := operations[j];
        if operation.Base().uriTemplate.Some? && operation.Base().uriTemplate.value != "" {
          var templateParts := SplitPath(TemplatePath(prefix, operation.Base().uriTemplate));
          if |parts| == |templateParts| {
            var matched := CompareSegments(parts, templateParts);
            if matched {
              return Some(Route(entry.model, operation, entry.resource));
            }
          }
        }
        j := j + 1;
      }
      i := i + 1;
    }
    return None;
  }

  /** Resources none of whose operations match are passed over. */
  lemma {:induction false} EarlierResourcesSkipped(parts: seq<string>, prefix: string, resources: Resources, i: nat)
    requires i <= |resources|
    requires forall j :: 0 <= j < i ==> FirstOperation(parts, prefix, OperationsOf(resources[j].resource), 0).None?
    ensures FirstMatchFrom(parts, prefix, resources, 0) == FirstMatchFrom(parts, prefix, resources, i)
  {
    if i > 0 {
      EarlierResourcesSkipped(parts, prefix, resources, i - 1);
    }
  }

  /** The innermost loop of `matchRoute`: segment by segment, stopping at the
      first literal segment that differs. */
  method CompareSegments(parts: seq<string>, templateParts: seq<string>) returns (matched: bool)
    requires |parts| == |templateParts|
    ensures matched == SegmentsMatch(parts, templateParts)
  {
    matched := true;
    var k := 0;
    while k < |parts|
      invariant 0 <= k <= |parts|
      invariant matched
      invariant forall m :: 0 <= m < k ==> IsPlaceholder(templateParts[m]) || parts[m] == templateParts[m]
    {
      if !IsPlaceholder(templateParts[k]) && parts[k] != templateParts[k] {
        matched := false;
        break;
      }
      k := k + 1;
    }
  }

  /** Of two operations with the same template, the later one in scan order is
      never the route of any path: matching never looks at the HTTP method. */
  lemma {:induction false} Shadowed(path: string, prefix: string, resources: Resources, p: Position, q: Position)
    requires ValidPosition(resources, p) && ValidPosition(resources, q) && Before(p, q)
    requires OperationAt(resources, p).Base().uriTemplate == OperationAt(resources, q).Base().uriTemplate
    ensures FirstMatchFrom(SplitPath(path), prefix, resources, 0) != Some(q)
  {
    var parts := SplitPath(path);
    if FirstMatchFrom(parts, prefix, resources, 0) == Some(q) {
      assert MatchesAt(parts, prefix, resources, q);
      assert TemplateParts(prefix, OperationAt(resources, p)) == TemplateParts(prefix, OperationAt(resources, q));
      assert MatchesAt(parts, prefix, resources, p);
      assert false;
    }
  }

  //
  // Extracting URI variables
  //

  /** `segment.slice(1, -1)`: the segment without its first and last character. */
  function PlaceholderName(segment: string): string
  {
    if |segment| >= 2 then segment[1..|segment| - 1] else ""
  }

  /** The names of the placeholders among the first `n` template segments. */
  function Names(templateParts: seq<string>, n: nat): (names: set<string>)
    requires n <= |templateParts|
    ensures forall i :: 0 <= i < n && IsPlaceholder(templateParts[i]) ==> PlaceholderName(templateParts[i]) in names
  {
    if n == 0 then {}
    else if IsPlaceholder(templateParts[n - 1]) then Names(templateParts, n - 1) + {PlaceholderName(templateParts[n - 1])}
    else Names(templateParts, n - 1)
  }

  /** The first loop: each placeholder among the first `n` template segments
      gets the path segment at its index; a name that recurs keeps the last. */
  function Placeholders(templateParts: seq<string>, pathParts: seq<string>, n: nat): (m: map<string, string>)
    requires n <= |templateParts| <= |pathParts|
    ensures m.Keys == Names(templateParts, n)
  {
    if n == 0 then map[]
    else
      var m := Placeholders(templateParts, pathParts, n - 1);
      if IsPlaceholder(templateParts[n - 1]) then m[PlaceholderName(templateParts[n - 1]) := pathParts[n - 1]] else m
  }

  predicate Distinct(keys: seq<string>)
  {
    forall i, j :: 0 <= i < j < |keys| ==> keys[i] != keys[j]
  }

  /** The order in which the variables object lists its keys: by first assignment. */
  function KeyOrder(templateParts: seq<string>, n: nat): (keys: seq<string>)
    requires n <= |templateParts|
    ensures Distinct(keys)
    ensures forall k :: k in keys <==> k in Names(templateParts, n)
  {
    if n == 0 then []
    else
      var keys := KeyOrder(templateParts, n - 1);
      var name := PlaceholderName(templateParts[n - 1]);
      if IsPlaceholder(templateParts[n - 1]) && name !in keys then keys + [name] else keys
  }

  predicate IsDigits(s: string)
  {
    |s| > 0 && forall i :: 0 <= i < |s| ==> '0' <= s[i] <= '9'
  }

  /** The decimal value of a string of digits. */
  function DigitsValue(s: string): nat
    requires forall i :: 0 <= i < |s| ==> '0' <= s[i] <= '9'
  {
    if s == [] then 0 else DigitsValue(s[..|s| - 1]) * 10 + (s[|s| - 1] as int - '0' as int)
  }

  /** `parseInt` on a path segment, for strings of decimal digits; any other
      string reads as NaN. */
  function ParseInt(s: string): (v: UriValue)
    ensures v.Num? <==> IsDigits(s)
    ensures v.Num? ==> v.n >= 0
  {
    if IsDigits(s) then Num(DigitsValue(s)) else NaN
  }

  /** The decimal digits of a natural number. */
  function DecimalString(n: nat): (s: string)
    ensures IsDigits(s)
  {
    if n < 10 then [('0' as int + n) as char]
    else DecimalString(n / 10) + [('0' as int + n % 10) as char]
  }

  /** `parseInt` reads back the digits of every natural number. */
  lemma {:induction false} ParseIntDecimal(n: nat)
    ensures ParseInt(DecimalString(n)) == Num(n)
  {
    var s := DecimalString(n);
    if n < 10 {
      assert s[..|s| - 1] == [];
      assert DigitsValue(s) == s[0] as int - '0' as int;
    } else {
      var d := ('0' as int + n % 10) as char;
      assert s == DecimalString(n / 10) + [d];
      assert s[..|s| - 1] == DecimalString(n / 10);
      ParseIntDecimal(n / 10);
      assert DigitsValue(s) == (n / 10) * 10 + n % 10;
    }
  }

  /** The value a variable ends with: `Int` fields are parsed, others stay strings. */
  function Coerce(raw: string, typeName: string): UriValue
  {
    if typeName == "Int" then ParseInt(raw) else Str(raw)
  }

  /** The first key, in order, that the field table does not know. */
  function FirstUnknown(keys: seq<string>, fields: map<string, string>, j: nat): (r: Option<string>)
    decreases |keys| - j
    ensures r.Some? ==> r.value in keys && r.value !in fields
    ensures r.None? <==> forall m :: j <= m < |keys| ==> keys[m] in fields
  {
    if j >= |keys| then None
    else if keys[j] !in fields then Some(keys[j])
    else FirstUnknown(keys, fields, j + 1)
  }

  lemma {:induction false} KnownKeysSkipped(keys: seq<string>, fields: map<string, string>, j: nat)
    requires j <= |keys| && forall m :: 0 <= m < j ==> keys[m] in fields
    ensures FirstUnknown(keys, fields, 0) == FirstUnknown(keys, fields, j)
  {
    if j > 0 {
      KnownKeysSkipped(keys, fields, j - 1);
    }
  }

  function FieldNotFound(key: string, model: string): string
  {
    "Field " + key + " not found in model " + model
  }

  /** Both loops of `buildUriVariables` on split segments: the first unknown key
      throws; otherwise every placeholder name is a key, coerced by its field type. */
  function ExtractVariables(templateParts: seq<string>, pathParts: seq<string>, model: string, fields: map<string, string>)
    : (r: Result<UriVariables>)
    requires |templateParts| <= |pathParts|
    ensures r.Ok? <==> Names(templateParts, |templateParts|) <= fields.Keys
    ensures r.Threw? ==> exists k :: k in Names(templateParts, |templateParts|) && k !in fields && r.error == Error(FieldNotFound(k, model))
    ensures r.Ok? ==> r.value.Keys == Names(templateParts, |templateParts|)
    ensures r.Ok? ==> forall k :: k in r.value ==> r.value[k] == Coerce(Placeholders(templateParts, pathParts, |templateParts|)[k], fields[k])
  {
    var raw := Placeholders(templateParts, pathParts, |templateParts|);
    match FirstUnknown(KeyOrder(templateParts, |templateParts|), fields, 0)
    case Some(key) => Threw(Error(FieldNotFound(key, model)))
    case None => Ok(map k | k in raw :: Coerce(raw[k], fields[k]))
  }

  function UriVariablesOf(path: string, operation: Operation, prefix: string, model: string, fields: map<string, string>)
    : Result<UriVariables>
    requires |TemplateParts(prefix, operation)| <= |SplitPath(path)|
  {
    ExtractVariables(TemplateParts(prefix, operation), SplitPath(path), model, fields)
  }

  /** The variables once the second loop has visited the first `j` keys:
      those are coerced, the rest are still strings. */
  function CoercedUpTo(raw: map<string, string>, keys: seq<string>, fields: map<string, string>, j: nat): (vars: UriVariables)
    requires j <= |keys|
    ensures vars.Keys == raw.Keys
  {
    map k | k in raw :: if k in keys[..j] && k in fields then Coerce(raw[k], fields[k]) else Str(raw[k])
  }

  /** Before the second loop every variable is still a string. */
  lemma {:induction false} CoercedUpToStart(vars: UriVariables, raw: map<string, string>, keys: seq<string>, fields: map<string, string>)
    requires vars.Keys == raw.Keys && forall k :: k in vars ==> vars[k] == Str(raw[k])
    ensures vars == CoercedUpTo(raw, keys, fields, 0)
  {
  }

  /** Visiting one more key coerces exactly that key: an `Int` field's string
      is parsed, any other field's string stays. */
  lemma {:induction false} CoercedUpToStep(raw: map<string, string>, keys: seq<string>, fields: map<string, string>, j: nat)
    requires j < |keys| && Distinct(keys) && keys[j] in raw && keys[j] in fields
    ensures CoercedUpTo(raw, keys, fields, j)[keys[j]] == Str(raw[keys[j]])
    ensures var current := CoercedUpTo(raw, keys, fields, j);
      CoercedUpTo(raw, keys, fields, j + 1)
      == if fields[keys[j]] == "Int" then current[keys[j] := ParseInt(current[keys[j]].s)] else current
  {
    assert keys[..j + 1] == keys[..j] + [keys[j]];
  }

  /** Once every key is visited, each variable holds its coerced value. */
  lemma {:induction false} CoercedUpToAll(raw: map<string, string>, keys: seq<string>, fields: map<string, string>)
    requires forall k :: k in raw ==> k in keys
    requires forall m :: 0 <= m < |keys| ==> keys[m] in fields
    ensures forall k :: k in raw ==> k in fields
    ensures CoercedUpTo(raw, keys, fields, |keys|) == map k | k in raw :: Coerce(raw[k], fields[k])
  {
    assert keys[..|keys|] == keys;
  }

  /** `buildUriVariables`, given the model's field table. */
  method BuildUriVariables(path: string, operation: Operation, prefix: string, model: string, fields: map<string, string>)
    returns (r: Result<UriVariables>)
    requires |TemplateParts(prefix, operation)| <= |SplitPath(path)|
    ensures r == UriVariablesOf(path, operation, prefix, model, fields)
  {
    var uriVariables: UriVariables := map[];
    var keys: seq<string> := [];
    var pathParts := SplitPath(path);
    var templateParts := SplitPath(TemplatePath(prefix, operation.Base().uriTemplate));
    // `if (!templateParts)` never returns early: an array is truthy.
    ghost var raw: map<string, string> := map[];
    for i := 0 to |templateParts|
      invariant raw == Placeholders(templateParts, pathParts, i)
      invariant uriVariables.Keys == raw.Keys
      invariant forall k :: k in uriVariables ==> uriVariables[k] == Str(raw[k])
      invariant keys == KeyOrder(templateParts, i)
    {
      if IsPlaceholder(templateParts[i]) {
        var key := PlaceholderName(templateParts[i]);
        if key !in uriVariables {
          keys := keys + [key];
        }
        uriVariables := uriVariables[key := Str(pathParts[i])];
        raw := raw[key := pathParts[i]];
      }
    }
    r := CoerceVariables(uriVariables, raw, keys, model, fields);
    if r.Ok? {
      CoercedUpToAll(raw, keys, fields);
    }
  }

  /** The second loop of `buildUriVariables`: in key order, a key the model
      lacks throws; an `Int` field is parsed. */
  method CoerceVariables(vars: UriVariables, ghost raw: map<string, string>, keys: seq<string>, model: string,
                         fields: map<string, string>)
    returns (r: Result<UriVariables>)
    requires Distinct(keys) && forall m :: 0 <= m < |keys| ==> keys[m] in raw
    requires vars.Keys == raw.Keys && forall k :: k in vars ==> vars[k] == Str(raw[k])
    ensures r == match FirstUnknown(keys, fields, 0)
                 case Some(key) => Threw(Error(FieldNotFound(key, model)))
                 case None => Ok(CoercedUpTo(raw, keys, fields, |keys|))
  {
    var uriVariables := vars;
    CoercedUpToStart(vars, raw, keys, fields);
    for j := 0 to |keys|
      invariant forall m :: 0 <= m < j ==> keys[m] in fields
      invariant uriVariables == CoercedUpTo(raw, keys, fields, j)
    {
      var key := keys[j];
      if key !in fields {
        KnownKeysSkipped(keys, fields, j);
        return Threw(Error(FieldNotFound(key, model)));
      }
      CoercedUpToStep(raw, keys, fields, j);
      if fields[key] == "Int" {
        uriVariables := uriVariables[key := ParseInt(uriVariables[key].s)];
      }
    }
    KnownKeysSkipped(keys, fields, |keys|);
    return Ok(uriVariables);
  }

  //
  // Extraction inverts template instantiation
  //

  predicate NamesAssigned(templateParts: seq<string>, assignment: map<string, string>)
  {
    Names(templateParts, |templateParts|) <= assignment.Keys
  }

  /** The template with each placeholder replaced by its assigned segment. */
  function Instantiate(templateParts: seq<string>, assignment: map<string, string>): (parts: seq<string>)
    requires NamesAssigned(templateParts, assignment)
    ensures |parts| == |templateParts|
  {
    seq(|templateParts|, i requires 0 <= i < |templateParts| =>
      if IsPlaceholder(templateParts[i]) then assignment[PlaceholderName(templateParts[i])] else templateParts[i])
  }

  lemma {:induction false} PlaceholdersOfInstance(templateParts: seq<string>, assignment: map<string, string>, n: nat)
    requires NamesAssigned(templateParts, assignment) && n <= |templateParts|
    requires Names(templateParts, n) <= assignment.Keys
    ensures Placeholders(templateParts, Instantiate(templateParts, assignment), n)
         == map k | k in Names(templateParts, n) :: assignment[k]
  {
    if n > 0 {
      PlaceholdersOfInstance(templateParts, assignment, n - 1);
    }
  }

  /** Every segment of an instance is a non-empty, slash-free segment that
      the template matches, when every assigned value is one. */
  lemma {:induction false} InstanceMatchesTemplate(templateParts: seq<string>, assignment: map<string, string>)
    requires NamesAssigned(templateParts, assignment)
    requires forall k :: k in assignment ==> assignment[k] != "" && '/' !in assignment[k]
    requires forall i :: 0 <= i < |templateParts| ==> templateParts[i] != "" && '/' !in templateParts[i]
    ensures var parts := Instantiate(templateParts, assignment);
      && (forall i :: 0 <= i < |parts| ==> parts[i] != "" && '/' !in parts[i])
      && SegmentsMatch(parts, templateParts)
  {
    var parts := Instantiate(templateParts, assignment);
    forall i | 0 <= i < |parts|
      ensures parts[i] != "" && '/' !in parts[i]
    {
      if IsPlaceholder(templateParts[i]) {
        assert parts[i] == assignment[PlaceholderName(templateParts[i])];
      }
    }
  }

  /** Variables coerced from placeholder values that agree with an assignment
      are the assignment, coerced. */
  lemma {:induction false} CoercedAssignment(vars: UriVariables, names: set<string>, placeholders: map<string, string>,
                          assignment: map<string, string>, fields: map<string, string>)
    requires vars.Keys == names && names <= assignment.Keys && names <= fields.Keys
    requires placeholders == map k | k in names :: assignment[k]
    requires forall k :: k in vars ==> vars[k] == Coerce(placeholders[k], fields[k])
    ensures vars == map k | k in names :: Coerce(assignment[k], fields[k])
  {
  }

  /** Extracting from an instance gives back the assignment, coerced. */
  lemma {:induction false} ExtractFromInstance(templateParts: seq<string>, assignment: map<string, string>, model: string, fields: map<string, string>)
    requires NamesAssigned(templateParts, assignment)
    requires Names(templateParts, |templateParts|) <= fields.Keys
    ensures ExtractVariables(templateParts, Instantiate(templateParts, assignment), model, fields)
         == Ok(map k | k in Names(templateParts, |templateParts|) :: Coerce(assignment[k], fields[k]))
  {
    var parts := Instantiate(templateParts, assignment);
    var names := Names(templateParts, |templateParts|);
    PlaceholdersOfInstance(templateParts, assignment, |templateParts|);
    var r := ExtractVariables(templateParts, parts, model, fields);
    CoercedAssignment(r.value, names, Placeholders(templateParts, parts, |templateParts|), assignment, fields);
  }

  /** Instantiating a template and extracting from the resulting path gives back
      the assignment, each value coerced by its field type: the path matches the
      operation, and `buildUriVariables` returns exactly the assigned names. */
  lemma {:induction false} ExtractionInvertsInstantiation(prefix: string, operation: Operation, assignment: map<string, string>,
                                       model: string, fields: map<string, string>)
    requires HasTemplate(operation)
    requires NamesAssigned(TemplateParts(prefix, operation), assignment)
    requires forall k :: k in assignment ==> assignment[k] != "" && '/' !in assignment[k]
    requires Names(TemplateParts(prefix, operation), |TemplateParts(prefix, operation)|) <= fields.Keys
    ensures var templateParts := TemplateParts(prefix, operation);
            var path := JoinPath(Instantiate(templateParts, assignment));
            && OperationMatches(SplitPath(path), prefix, operation)
            && UriVariablesOf(path, operation, prefix, model, fields)
               == Ok(map k | k in Names(templateParts, |templateParts|) :: Coerce(assignment[k], fields[k]))
  {
    var templateParts := TemplateParts(prefix, operation);
    InstanceMatchesTemplate(templateParts, assignment);
    SplitJoin(Instantiate(templateParts, assignment));
    ExtractFromInstance(templateParts, assignment, model, fields);
  }

  lemma {:induction false} LiteralNamesEmpty(templateParts: seq<string>, n: nat)
    requires n <= |templateParts|
    requires forall i :: 0 <= i < n ==> !IsPlaceholder(templateParts[i])
    ensures Names(templateParts, n) == {}
  {
    if n > 0 {
      LiteralNamesEmpty(templateParts, n - 1);
    }
  }

  /** A template without placeholders yields no URI variables, whatever the
      field table holds. */
  lemma {:induction false} LiteralTemplateNoVariables(templateParts: seq<string>, pathParts: seq<string>, model: string, fields: map<string, string>)
    requires |templateParts| <= |pathParts|
    requires forall i :: 0 <= i < |templateParts| ==> !IsPlaceholder(templateParts[i])
    ensures ExtractVariables(templateParts, pathParts, model, fields) == Ok(map[])
  {
    LiteralNamesEmpty(templateParts, |templateParts|);
    var r := ExtractVariables(templateParts, pathParts, model, fields);
    assert r.Ok? && r.value.Keys == {};
  }

  //
  // Small facts about splitting paths
  //

  lemma {:induction false} SplitPathEmpty()
    ensures SplitPath("") == []
  {
    assert SplitOnSlash("") == [""];
    assert [""][1..] == [];
  }

  /** One more segment after a slash adds one more part. */
  lemma {:induction false} SplitPathAppend(s: string, a: string)
    requires a != "" && '/' !in a
    ensures SplitPath(s + "/" + a) == SplitPath(s) + [a]
  {
    SplitPathConcat(s, a);
    SplitPathSegment(a);
  }

  /** The template's segments follow the prefix's. */
  lemma {:induction false} TemplatePartsSplit(prefix: string, operation: Operation)
    requires operation.Base().uriTemplate.Some?
    ensures TemplateParts(prefix, operation) == SplitPath(prefix) + SplitPath(operation.Base().uriTemplate.value)
  {
    SplitPathConcat(prefix, operation.Base().uriTemplate.value);
  }
}
