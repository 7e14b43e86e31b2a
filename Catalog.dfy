/**
 * The catalog walk: `generate_tools_from_spec` and `process_operation_static`.
 * Every inline path item contributes, in path order and then in the order
 * GET, POST, PUT, DELETE, PATCH, one tool per operation it defines. A tool
 * has a name derived from the method and the path template, a description,
 * and a flat input schema: the operation's parameters, then the top-level
 * properties of its `application/json` object body, resolved one `$ref`
 * level deep through `#/components/schemas/`.
 */
module Catalog {
  import opened Wrappers
  import opened Text
  import opened OpenApi

  /** A property of the input schema as emitted: `{"type": typ}` plus an optional `"description"`. */
  datatype PropSchema = PropSchema(typ: string, description: Option<string>)

  /** A tool: name, description, and the input schema's `properties` and `required`. */
  datatype Tool = Tool(
    name: string,
    description: string,
    properties: map<string, PropSchema>,
    required: seq<string>)

  /** A request body whose schema resolved to an object: its properties and required names. */
  datatype ObjectBody = ObjectBody(properties: seq<(string, RefOr<Schema>)>, required: seq<string>)

  const SchemaPrefix: string := "#/components/schemas/"
  const JsonMedia: string := "application/json"

  /* ---------- tool name and description ---------- */

  /**
   * The path part of a tool name: `/` becomes `_`, braces are deleted, and
   * leading and trailing `_` are trimmed.
   */
  function PathSuffix(path: string): string {
    TrimMatches(DeleteChar(DeleteChar(ReplaceChar(path, '/', "_"), '{'), '}'), '_')
  }

  /** The suffix has no `/` and no braces, and neither starts nor ends with `_`. */
  lemma PathSuffixSpec(path: string)
    ensures var p := PathSuffix(path);
            && '/' !in p && '{' !in p && '}' !in p
            && (p == [] || (p[0] != '_' && p[|p| - 1] != '_'))
  {
    var d0 := ReplaceChar(path, '/', "_");
    var d1 := DeleteChar(d0, '{');
    var d := DeleteChar(d1, '}');
    ReplaceCharSpec(path, '/', "_");
    ReplaceCharSpec(d0, '{', "");
    ReplaceCharSpec(d1, '}', "");
    TrimMatchesSpec(d, '_');
    var i, j :| 0 <= i <= j <= |d| && PathSuffix(path) == d[i..j];
    assert forall x :: x in d[i..j] ==> x in d;
  }

  /**
   * `lower(method) + "_" + PathSuffix(path)`; splitting the name at its
   * first `_` gives back the lower-case method and the path suffix.
   */
  function ToolName(m: Method, path: string): string {
    Lower(m.Name()) + "_" + PathSuffix(path)
  }

  lemma ToolNameSplit(m: Method, path: string)
    ensures SplitOnce(ToolName(m, path), '_') == Some((Lower(m.Name()), PathSuffix(path)))
  {
    LowerNameHasNoUnderscore(m);
    SplitOnceAt(Lower(m.Name()), PathSuffix(path), '_');
  }

  lemma LowerNameHasNoUnderscore(m: Method)
    ensures '_' !in Lower(m.Name())
  {
    LowerKeepsUnderscore(m.Name());
  }

  /** The summary if present, else the description, else `"<METHOD> <path>"`. */
  function Description(op: Operation, m: Method, path: string): (d: string)
    ensures op.summary.Some? ==> d == op.summary.value
    ensures op.summary.None? && op.description.Some? ==> d == op.description.value
    ensures op.summary.None? && op.description.None? ==> d == m.Name() + " " + path
  {
    match op.summary
    case Some(s) => s
    case None =>
      match op.description
      case Some(s) => s
      case None => m.Name() + " " + path
  }

  /* ---------- schemas of single properties ---------- */

  /** A parameter's entry: always `"string"`; its description only when its schema is inline. */
  function ParamSchema(p: Parameter): PropSchema {
    PropSchema("string", if p.format.InlineSchema? then p.description else None)
  }

  /** The JSON-Schema type name a body property's kind is emitted as. */
  function TypeName(kind: SchemaKind): (t: string)
    ensures t in {"string", "number", "integer", "boolean", "array", "object"}
    ensures t == "string" <==> kind.StringType? || kind.Composite?
  {
    match kind
    case StringType => "string"
    case NumberType => "number"
    case IntegerType => "integer"
    case BooleanType => "boolean"
    case ArrayType => "array"
    case ObjectType(_, _) => "object"
    case Composite => "string"
  }

  /** A body property's entry: its type name and description, or bare `"string"` for a `$ref`. */
  function BodyPropSchema(r: RefOr<Schema>): PropSchema {
    match r
    case Item(s) => PropSchema(TypeName(s.kind), s.description)
    case Reference(_) => PropSchema("string", None)
  }

  /* ---------- request body resolution ---------- */

  /** One level of `$ref` resolution: only `#/components/schemas/<Name>` naming an inline schema resolves. */
  function ResolveSchema(doc: Document, r: RefOr<Schema>): Option<Schema> {
    match r
    case Item(s) => Some(s)
    case Reference(ref) =>
      match StripPrefix(ref, SchemaPrefix)
      case None => None
      case Some(name) =>
        if doc.schemas.Some? && name in doc.schemas.value && doc.schemas.value[name].Item?
        then Some(doc.schemas.value[name].item)
        else None
  }

  /** The schema of the operation's inline request body under `application/json`, if any. */
  function JsonBodySchema(op: Operation): Option<RefOr<Schema>> {
    match op.requestBody
    case Some(Item(body)) => if JsonMedia in body.content then body.content[JsonMedia].schema else None
    case _ => None
  }

  /** The body that is flattened: present only when the JSON body schema resolves to an object. */
  function ResolveBody(doc: Document, op: Operation): Option<ObjectBody> {
    match JsonBodySchema(op)
    case None => None
    case Some(r) =>
      match ResolveSchema(doc, r)
      case Some(Schema(_, ObjectType(props, req))) => Some(ObjectBody(props, req))
      case _ => None
  }

  lemma ResolveNamedSchema(doc: Document, name: string)
    ensures ResolveSchema(doc, Reference(SchemaPrefix + name))
         == if doc.schemas.Some? && name in doc.schemas.value && doc.schemas.value[name].Item?
            then Some(doc.schemas.value[name].item) else None
  {
    assert (SchemaPrefix + name)[|SchemaPrefix|..] == name;
  }

  /**
   * A body contributes nothing when its `$ref` lacks the components prefix or
   * when the schema it resolves to is not an object; the tool still gets the
   * parameters' properties and required names.
   */
  lemma UnresolvedBody(doc: Document, op: Operation)
    ensures forall r :: !(SchemaPrefix <= r) ==> ResolveSchema(doc, Reference(r)) == None
    ensures ResolveBody(doc, op).None? <==>
              JsonBodySchema(op).None? || ResolveSchema(doc, JsonBodySchema(op).value).None?
              || !ResolveSchema(doc, JsonBodySchema(op).value).value.kind.ObjectType?
    ensures (JsonBodySchema(op).Some? && JsonBodySchema(op).value.Reference?
             && !(SchemaPrefix <= JsonBodySchema(op).value.reference))
            ==> ResolveBody(doc, op) == None
    ensures ResolveBody(doc, op).None? ==>
              (PropertiesOf(doc, op) == ParamProperties(op.parameters)
               && RequiredOf(doc, op) == ParamRequired(op.parameters))
  {
  }

  /* ---------- specification of the flattening ---------- */

  /** `properties` after the parameter loop: each inline parameter inserted in order. */
  function ParamProperties(params: seq<RefOr<Parameter>>): map<string, PropSchema>
    decreases |params|
  {
    if params == [] then map[]
    else
      var rest := ParamProperties(params[..|params| - 1]);
      match params[|params| - 1]
      case Item(p) => rest[p.name := ParamSchema(p)]
      case Reference(_) => rest
  }

  /** `required` after the parameter loop: path and required parameters, each pushed once. */
  function ParamRequired(params: seq<RefOr<Parameter>>): seq<string>
    decreases |params|
  {
    if params == [] then []
    else
      var rest := ParamRequired(params[..|params| - 1]);
      match params[|params| - 1]
      case Item(p) => if (p.location == Path || p.required) && p.name !in rest then rest + [p.name] else rest
      case Reference(_) => rest
  }

  /** `names` pushed onto `req` one by one, skipping those already present. */
  function AddMissing(req: seq<string>, names: seq<string>): seq<string>
    decreases |names|
  {
    if names == [] then req
    else
      var rest := AddMissing(req, names[..|names| - 1]);
      var x := names[|names| - 1];
      if x in rest then rest else rest + [x]
  }

  /** `m` after inserting every body property in order; a later insertion replaces an earlier one. */
  function InsertProperties(m: map<string, PropSchema>, props: seq<(string, RefOr<Schema>)>): map<string, PropSchema>
    decreases |props|
  {
    if props == [] then m
    else InsertProperties(m, props[..|props| - 1])[props[|props| - 1].0 := BodyPropSchema(props[|props| - 1].1)]
  }

  /** The tool's `properties`: the parameters' schemas, then the body's properties over them. */
  function PropertiesOf(doc: Document, op: Operation): map<string, PropSchema> {
    match ResolveBody(doc, op)
    case None => ParamProperties(op.parameters)
    case Some(body) => InsertProperties(ParamProperties(op.parameters), body.properties)
  }

  /** The tool's `required`: the demanded parameters, then the body's required names not yet listed. */
  function RequiredOf(doc: Document, op: Operation): seq<string> {
    match ResolveBody(doc, op)
    case None => ParamRequired(op.parameters)
    case Some(body) => AddMissing(ParamRequired(op.parameters), body.required)
  }

  /** The tool `process_operation_static` pushes for operation `op` of method `m` at `path`. */
  function BuildTool(doc: Document, path: string, m: Method, op: Operation): Tool {
    Tool(ToolName(m, path), Description(op, m, path), PropertiesOf(doc, op), RequiredOf(doc, op))
  }

  /* ---------- properties of the flattening ---------- */

  predicate NoDuplicates(s: seq<string>) {
    forall i, j :: 0 <= i < j < |s| ==> s[i] != s[j]
  }

  /** Parameter `i` is inline and named `k`. */
  predicate NamedAt(params: seq<RefOr<Parameter>>, k: string, i: int) {
    0 <= i < |params| && params[i].Item? && params[i].item.name == k
  }

  /** Parameter `i` is inline, named `k`, and is a path parameter or marked required. */
  predicate DemandedAt(params: seq<RefOr<Parameter>>, k: string, i: int) {
    NamedAt(params, k, i) && (params[i].item.location == Path || params[i].item.required)
  }

  /** Parameter `i` is the last inline parameter named `k`. */
  predicate LastNamedAt(params: seq<RefOr<Parameter>>, k: string, i: int) {
    NamedAt(params, k, i) && forall j :: i < j < |params| ==> !NamedAt(params, k, j)
  }

  /** Body property `i` is the last one named `k`. */
  predicate LastPropertyAt(props: seq<(string, RefOr<Schema>)>, k: string, i: int) {
    0 <= i < |props| && props[i].0 == k && forall j :: i < j < |props| ==> props[j].0 != k
  }

  predicate HasProperty(props: seq<(string, RefOr<Schema>)>, k: string) {
    exists i :: 0 <= i < |props| && props[i].0 == k
  }

  lemma {:induction false} AddMissingSpec(req: seq<string>, names: seq<string>)
    ensures req <= AddMissing(req, names)
    ensures forall x :: x in AddMissing(req, names) <==> x in req || x in names
    ensures NoDuplicates(req) ==> NoDuplicates(AddMissing(req, names))
    decreases |names|
  {
    if names != [] {
      var init := names[..|names| - 1];
      AddMissingSpec(req, init);
      assert names == init + [names[|names| - 1]];
    }
  }

  lemma {:induction false} ParamRequiredSpec(params: seq<RefOr<Parameter>>)
    ensures NoDuplicates(ParamRequired(params))
    ensures forall x :: x in ParamRequired(params) <==> exists i :: DemandedAt(params, x, i)
    decreases |params|
  {
    if params != [] {
      var n := |params| - 1;
      var init := params[..n];
      var rest := ParamRequired(init);
      ParamRequiredSpec(init);
      assert ParamRequired(params) == rest || ParamRequired(params) == rest + [params[n].item.name];
      forall x ensures x in ParamRequired(params) <==> exists i :: DemandedAt(params, x, i) {
        if x in rest {
          var i :| DemandedAt(init, x, i);
          assert DemandedAt(params, x, i);
        } else if x in ParamRequired(params) {
          assert DemandedAt(params, x, n);
        }
        if exists i :: DemandedAt(params, x, i) {
          var i :| DemandedAt(params, x, i);
          if i < n {
            assert DemandedAt(init, x, i);
          }
        }
      }
    }
  }

  /** Inserting a parameter with another name keeps the entry for `k`. */
  lemma ParamPropertiesOther(params: seq<RefOr<Parameter>>, k: string)
    requires params != [] && !NamedAt(params, k, |params| - 1)
    ensures var before, after := ParamProperties(params[..|params| - 1]), ParamProperties(params);
            (k in after <==> k in before) && (k in before ==> after[k] == before[k])
  {
  }

  /** Inserting a parameter named `k` sets the entry for `k`. */
  lemma ParamPropertiesNamed(params: seq<RefOr<Parameter>>, k: string)
    requires params != [] && NamedAt(params, k, |params| - 1)
    ensures k in ParamProperties(params)
    ensures ParamProperties(params)[k] == ParamSchema(params[|params| - 1].item)
  {
  }

  lemma NamedAtInit(params: seq<RefOr<Parameter>>, k: string)
    requires params != []
    ensures forall i :: 0 <= i < |params| - 1 ==> (NamedAt(params, k, i) <==> NamedAt(params[..|params| - 1], k, i))
  {
  }

  /**
   * A key is present exactly when some inline parameter has that name, and
   * it holds the entry of the last such parameter.
   */
  lemma {:induction false} ParamPropertiesSpec(params: seq<RefOr<Parameter>>, k: string)
    ensures k in ParamProperties(params) <==> exists i :: NamedAt(params, k, i)
    ensures k in ParamProperties(params) ==>
              exists i :: LastNamedAt(params, k, i) && ParamProperties(params)[k] == ParamSchema(params[i].item)
    decreases |params|
  {
    if params != [] {
      var n := |params| - 1;
      var init := params[..n];
      ParamPropertiesSpec(init, k);
      if NamedAt(params, k, n) {
        ParamPropertiesNamed(params, k);
        assert LastNamedAt(params, k, n);
      } else {
        ParamPropertiesOther(params, k);
        NamedAtInit(params, k);
        if k in ParamProperties(init) {
          var i :| LastNamedAt(init, k, i) && ParamProperties(init)[k] == ParamSchema(init[i].item);
          assert LastNamedAt(params, k, i);
        }
      }
    }
  }

  /** Inserting a property with another name keeps the entry for `k`. */
  lemma InsertPropertiesOther(m: map<string, PropSchema>, props: seq<(string, RefOr<Schema>)>, k: string)
    requires props != [] && props[|props| - 1].0 != k
    ensures var before, after := InsertProperties(m, props[..|props| - 1]), InsertProperties(m, props);
            (k in after <==> k in before) && (k in before ==> after[k] == before[k])
  {
  }

  /**
   * A key is present exactly when `m` has it or some property has that name;
   * the last property of that name decides its entry, and a key no property
   * names keeps its entry from `m`.
   */
  lemma {:induction false} InsertPropertiesSpec(m: map<string, PropSchema>, props: seq<(string, RefOr<Schema>)>, k: string)
    ensures k in InsertProperties(m, props) <==> k in m || HasProperty(props, k)
    ensures HasProperty(props, k) ==>
              exists i :: LastPropertyAt(props, k, i) && InsertProperties(m, props)[k] == BodyPropSchema(props[i].1)
    ensures !HasProperty(props, k) && k in m ==> InsertProperties(m, props)[k] == m[k]
    decreases |props|
  {
    if props != [] {
      var n := |props| - 1;
      var init := props[..n];
      InsertPropertiesSpec(m, init, k);
      if props[n].0 == k {
        assert LastPropertyAt(props, k, n);
      } else {
        InsertPropertiesOther(m, props, k);
        forall i | 0 <= i < n ensures props[i] == init[i] {
        }
        if HasProperty(props, k) {
          var i :| 0 <= i < |props| && props[i].0 == k;
          assert init[i].0 == k;
        }
        if HasProperty(init, k) {
          var i :| LastPropertyAt(init, k, i) && InsertProperties(m, init)[k] == BodyPropSchema(init[i].1);
          assert LastPropertyAt(props, k, i);
        }
      }
    }
  }

  /**
   * `required` has no duplicates, and holds exactly the path parameters, the
   * parameters marked required and the required names of a resolved object body.
   */
  lemma ToolRequired(doc: Document, path: string, m: Method, op: Operation, x: string)
    ensures NoDuplicates(BuildTool(doc, path, m, op).required)
    ensures x in BuildTool(doc, path, m, op).required <==>
              (exists i :: DemandedAt(op.parameters, x, i)) ||
              (ResolveBody(doc, op).Some? && x in ResolveBody(doc, op).value.required)
  {
    ParamRequiredSpec(op.parameters);
    if ResolveBody(doc, op).Some? {
      AddMissingSpec(ParamRequired(op.parameters), ResolveBody(doc, op).value.required);
    }
  }

  /**
   * `properties` has exactly the inline parameters' names and the resolved
   * object body's property names as keys. A key only a parameter declares
   * holds that (last) parameter's string entry; a body property's entry
   * replaces any parameter entry of the same name.
   */
  lemma ToolProperties(doc: Document, path: string, m: Method, op: Operation, k: string)
    ensures var t := BuildTool(doc, path, m, op);
            var body := ResolveBody(doc, op);
            && (k in t.properties <==> (exists i :: NamedAt(op.parameters, k, i)) ||
                                       (body.Some? && HasProperty(body.value.properties, k)))
            && (body.Some? && HasProperty(body.value.properties, k) ==>
                  exists i :: LastPropertyAt(body.value.properties, k, i) &&
                              t.properties[k] == BodyPropSchema(body.value.properties[i].1))
            && (k in t.properties && !(body.Some? && HasProperty(body.value.properties, k)) ==>
                  t.properties[k].typ == "string" &&
                  exists i :: LastNamedAt(op.parameters, k, i) && t.properties[k] == ParamSchema(op.parameters[i].item))
  {
    ParamPropertiesSpec(op.parameters, k);
    if ResolveBody(doc, op).Some? {
      InsertPropertiesSpec(ParamProperties(op.parameters), ResolveBody(doc, op).value.properties, k);
    }
  }

  /* ---------- the catalog walk ---------- */

  /** One operation of the document: the path entry's index, the path, the method and the operation. */
  datatype OpEntry = OpEntry(index: nat, path: string, verb: Method, op: Operation)

  /** The entry for method `m` of path entry `i`: one if the operation `o` is present, none otherwise. */
  function Present(i: nat, path: string, m: Method, o: Option<Operation>): seq<OpEntry> {
    match o
    case Some(op) => [OpEntry(i, path, m, op)]
    case None => []
  }

  /** The entries of path item `pi` (path entry `i`) for the first `k` methods in visiting order. */
  function FirstMethods(i: nat, path: string, pi: PathItem, k: nat): seq<OpEntry>
    requires k <= 5
  {
    if k == 0 then []
    else FirstMethods(i, path, pi, k - 1) + Present(i, path, MethodOfRank(k - 1), pi.OperationFor(MethodOfRank(k - 1)))
  }

  /** The operations of path entry `i`, in method order; none for a `$ref` path item. */
  function ItemOperations(doc: Document, i: nat): seq<OpEntry>
    requires i < |doc.paths|
  {
    match doc.paths[i].1
    case Reference(_) => []
    case Item(pi) => FirstMethods(i, doc.paths[i].0, pi, 5)
  }

  /** The operations of the first `n` path entries, in visiting order. */
  function Operations(doc: Document, n: nat): seq<OpEntry>
    requires n <= |doc.paths|
  {
    if n == 0 then [] else Operations(doc, n - 1) + ItemOperations(doc, n - 1)
  }

  function AllOperations(doc: Document): seq<OpEntry> {
    Operations(doc, |doc.paths|)
  }

  /** `a` is visited before `b`: an earlier path entry, or the same entry and an earlier method. */
  predicate Before(a: OpEntry, b: OpEntry) {
    a.index < b.index || (a.index == b.index && a.verb.Rank() < b.verb.Rank())
  }

  /** Entry `e` is a real operation of the document. */
  predicate Origin(doc: Document, e: OpEntry) {
    Defines(doc, e.index, e.verb) && doc.paths[e.index].0 == e.path
    && doc.paths[e.index].1.item.OperationFor(e.verb) == Some(e.op)
  }

  /** The tool built for one visited operation. */
  function ToolOf(doc: Document, e: OpEntry): Tool {
    BuildTool(doc, e.path, e.verb, e.op)
  }

  /** `f` applied to each entry of `ops`, in order. */
  function MapEntries(f: OpEntry -> Tool, ops: seq<OpEntry>): seq<Tool> {
    seq(|ops|, k requires 0 <= k < |ops| => f(ops[k]))
  }

  /** `ToolOf` as a function value. */
  function Builder(doc: Document): OpEntry -> Tool {
    e => ToolOf(doc, e)
  }

  /** The tools built for `ops`, one per entry, in order. */
  function ToolsOf(doc: Document, ops: seq<OpEntry>): seq<Tool> {
    MapEntries(Builder(doc), ops)
  }

  predicate RanksIncrease(s: seq<OpEntry>) {
    forall a, b :: 0 <= a < b < |s| ==> s[a].verb.Rank() < s[b].verb.Rank()
  }

  predicate Ordered(ops: seq<OpEntry>) {
    forall a, b :: 0 <= a < b < |ops| ==> Before(ops[a], ops[b])
  }

  /* ---------- properties of the walk ---------- */

  lemma InAppend<T>(a: seq<T>, b: seq<T>, x: T)
    ensures x in a + b <==> x in a || x in b
  {
  }

  lemma PresentSpec(e: OpEntry, i: nat, path: string, m: Method, o: Option<Operation>)
    ensures e in Present(i, path, m, o) <==> e == OpEntry(i, path, m, e.op) && o == Some(e.op)
  {
  }

  /** Every entry for the first `k` methods is a present operation of `pi`, among those methods. */
  lemma {:induction false} FirstMethodsSound(i: nat, path: string, pi: PathItem, k: nat, e: OpEntry)
    requires k <= 5 && e in FirstMethods(i, path, pi, k)
    ensures e.index == i && e.path == path && e.verb.Rank() < k && pi.OperationFor(e.verb) == Some(e.op)
  {
    var m := MethodOfRank(k - 1);
    InAppend(FirstMethods(i, path, pi, k - 1), Present(i, path, m, pi.OperationFor(m)), e);
    if e in FirstMethods(i, path, pi, k - 1) {
      FirstMethodsSound(i, path, pi, k - 1, e);
    } else {
      PresentSpec(e, i, path, m, pi.OperationFor(m));
    }
  }

  /** Every present operation of `pi` among the first `k` methods has its entry. */
  lemma {:induction false} FirstMethodsComplete(i: nat, path: string, pi: PathItem, k: nat, m: Method)
    requires m.Rank() < k <= 5 && pi.OperationFor(m).Some?
    ensures OpEntry(i, path, m, pi.OperationFor(m).value) in FirstMethods(i, path, pi, k)
  {
    var last := MethodOfRank(k - 1);
    var e := OpEntry(i, path, m, pi.OperationFor(m).value);
    if m.Rank() < k - 1 {
      FirstMethodsComplete(i, path, pi, k - 1, m);
    } else {
      RankInverse(m);
      PresentSpec(e, i, path, last, pi.OperationFor(last));
    }
    InAppend(FirstMethods(i, path, pi, k - 1), Present(i, path, last, pi.OperationFor(last)), e);
  }

  lemma AppendPresent(x: seq<OpEntry>, i: nat, path: string, m: Method, o: Option<Operation>)
    requires RanksIncrease(x) && forall e :: e in x ==> e.verb.Rank() < m.Rank()
    ensures RanksIncrease(x + Present(i, path, m, o))
  {
    var y := x + Present(i, path, m, o);
    forall a, b | 0 <= a < b < |y| ensures y[a].verb.Rank() < y[b].verb.Rank() {
      if b >= |x| {
        assert y[a] in x;
      }
    }
  }

  /** The entries for the first `k` methods come in increasing method rank. */
  lemma {:induction false} FirstMethodsRanks(i: nat, path: string, pi: PathItem, k: nat)
    requires k <= 5
    ensures RanksIncrease(FirstMethods(i, path, pi, k))
  {
    if k > 0 {
      var m := MethodOfRank(k - 1);
      var x := FirstMethods(i, path, pi, k - 1);
      FirstMethodsRanks(i, path, pi, k - 1);
      forall e | e in x ensures e.verb.Rank() < m.Rank() {
        FirstMethodsSound(i, path, pi, k - 1, e);
      }
      AppendPresent(x, i, path, m, pi.OperationFor(m));
    }
  }

  /** Every entry of path entry `i` is a real operation of it. */
  lemma ItemOperationsSound(doc: Document, i: nat, e: OpEntry)
    requires i < |doc.paths| && e in ItemOperations(doc, i)
    ensures e.index == i && Origin(doc, e)
  {
    FirstMethodsSound(i, doc.paths[i].0, doc.paths[i].1.item, 5, e);
  }

  /** Every operation path entry `i` defines is among its entries. */
  lemma ItemOperationsComplete(doc: Document, i: nat, m: Method)
    requires Defines(doc, i, m)
    ensures OpEntry(i, doc.paths[i].0, m, doc.paths[i].1.item.OperationFor(m).value) in ItemOperations(doc, i)
  {
    FirstMethodsComplete(i, doc.paths[i].0, doc.paths[i].1.item, 5, m);
  }

  /** Within one path entry the methods come in increasing rank. */
  lemma ItemRanks(doc: Document, i: nat)
    requires i < |doc.paths|
    ensures RanksIncrease(ItemOperations(doc, i))
  {
    if doc.paths[i].1.Item? {
      FirstMethodsRanks(i, doc.paths[i].0, doc.paths[i].1.item, 5);
    }
  }

  /** Every visited entry comes from the path entry it records, one of the first `n`. */
  lemma {:induction false} OperationsIndex(doc: Document, n: nat, e: OpEntry)
    requires n <= |doc.paths| && e in Operations(doc, n)
    ensures e.index < n && e in ItemOperations(doc, e.index)
  {
    InAppend(Operations(doc, n - 1), ItemOperations(doc, n - 1), e);
    if e in Operations(doc, n - 1) {
      OperationsIndex(doc, n - 1, e);
    } else {
      ItemOperationsSound(doc, n - 1, e);
    }
  }

  /** Every visited entry is a real operation of an inline path item among the first `n`. */
  lemma OperationsSound(doc: Document, n: nat, e: OpEntry)
    requires n <= |doc.paths| && e in Operations(doc, n)
    ensures e.index < n && Origin(doc, e)
  {
    OperationsIndex(doc, n, e);
    ItemOperationsSound(doc, e.index, e);
  }

  /** The entries of path entry `i` are among those visited for the first `n` entries. */
  lemma {:induction false} OperationsInclude(doc: Document, n: nat, i: nat, e: OpEntry)
    requires i < n <= |doc.paths| && e in ItemOperations(doc, i)
    ensures e in Operations(doc, n)
  {
    if i < n - 1 {
      OperationsInclude(doc, n - 1, i, e);
    }
    InAppend(Operations(doc, n - 1), ItemOperations(doc, n - 1), e);
  }

  /** Every operation of an inline path item among the first `n` is visited. */
  lemma OperationsComplete(doc: Document, n: nat, i: nat, m: Method)
    requires i < n <= |doc.paths| && Defines(doc, i, m)
    ensures OpEntry(i, doc.paths[i].0, m, doc.paths[i].1.item.OperationFor(m).value) in Operations(doc, n)
  {
    ItemOperationsComplete(doc, i, m);
    OperationsInclude(doc, n, i, OpEntry(i, doc.paths[i].0, m, doc.paths[i].1.item.OperationFor(m).value));
  }

  lemma AppendOrdered(prev: seq<OpEntry>, last: seq<OpEntry>, k: nat)
    requires Ordered(prev) && RanksIncrease(last)
    requires forall e :: e in prev ==> e.index < k
    requires forall e :: e in last ==> e.index == k
    ensures Ordered(prev + last)
  {
    var all := prev + last;
    forall a, b | 0 <= a < b < |all| ensures Before(all[a], all[b]) {
      if b >= |prev| {
        assert all[b] == last[b - |prev|];
        assert all[b] in last;
        if a < |prev| {
          assert all[a] in prev;
        } else {
          assert all[a] == last[a - |prev|];
        }
      } else {
        assert all[a] == prev[a] && all[b] == prev[b];
      }
    }
  }

  lemma IndexBounds(doc: Document, i: nat)
    requires i < |doc.paths|
    ensures forall e :: e in Operations(doc, i) ==> e.index < i
    ensures forall e :: e in ItemOperations(doc, i) ==> e.index == i
  {
    forall e | e in Operations(doc, i) ensures e.index < i {
      OperationsIndex(doc, i, e);
    }
    forall e | e in ItemOperations(doc, i) ensures e.index == i {
      ItemOperationsSound(doc, i, e);
    }
  }

  /** Visiting order: path order, then method order, so no operation is visited twice. */
  lemma {:induction false} OperationsOrdered(doc: Document, n: nat)
    requires n <= |doc.paths|
    ensures Ordered(Operations(doc, n))
  {
    if n > 0 {
      OperationsOrdered(doc, n - 1);
      IndexBounds(doc, n - 1);
      ItemRanks(doc, n - 1);
      AppendOrdered(Operations(doc, n - 1), ItemOperations(doc, n - 1), n - 1);
    }
  }

  /* ---------- the imperative walk ---------- */

  /** The parameter loop of `process_operation_static`: every inline parameter becomes a string property. */
  method CollectParameters(params: seq<RefOr<Parameter>>) returns (properties: map<string, PropSchema>, required: seq<string>)
    ensures properties == ParamProperties(params)
    ensures required == ParamRequired(params)
  {
    properties, required := map[], [];
    var i := 0;
    while i < |params|
      invariant 0 <= i <= |params|
      invariant properties == ParamProperties(params[..i])
      invariant required == ParamRequired(params[..i])
    {
      assert params[..i + 1][..i] == params[..i];
      if params[i].Item? {
        var p := params[i].item;
        if p.location == Path || p.required {
          if p.name !in required {
            required := required + [p.name];
          }
        }
        properties := properties[p.name := ParamSchema(p)];
      }
      i := i + 1;
    }
    assert params[..i] == params;
  }

  /** The body-property loop: each property is inserted, replacing an entry of the same name. */
  method AddBodyProperties(properties: map<string, PropSchema>, props: seq<(string, RefOr<Schema>)>)
    returns (properties': map<string, PropSchema>)
    ensures properties' == InsertProperties(properties, props)
  {
    properties' := properties;
    var j := 0;
    while j < |props|
      invariant 0 <= j <= |props|
      invariant properties' == InsertProperties(properties, props[..j])
    {
      assert props[..j + 1][..j] == props[..j];
      var (propName, propSchema) := props[j];
      properties' := properties'[propName := BodyPropSchema(propSchema)];
      j := j + 1;
    }
    assert props[..j] == props;
  }

  /** The body-required loop: each name is pushed unless it is already listed. */
  method AddBodyRequired(required: seq<string>, names: seq<string>) returns (required': seq<string>)
    ensures required' == AddMissing(required, names)
  {
    required' := required;
    var k := 0;
    while k < |names|
      invariant 0 <= k <= |names|
      invariant required' == AddMissing(required, names[..k])
    {
      assert names[..k + 1][..k] == names[..k];
      if names[k] !in required' {
        required' := required' + [names[k]];
      }
      k := k + 1;
    }
    assert names[..k] == names;
  }

  /**
   * `process_operation_static`: pushes the tool for `operation` onto `tools`
   * if the operation is present. The ghost `i` is the path entry's position,
   * which the specification's entries record.
   */
  method ProcessOperation(doc: Document, path: string, operation: Option<Operation>, m: Method, tools: seq<Tool>, ghost i: nat)
    returns (tools': seq<Tool>)
    ensures tools' == tools + ToolsOf(doc, Present(i, path, m, operation))
  {
    PresentTool(doc, i, path, m, operation);
    if operation.None? {
      return tools;
    }
    var op := operation.value;
    var name := ToolName(m, path);
    var description := Description(op, m, path);
    var properties, required := CollectParameters(op.parameters);
    match ResolveBody(doc, op) {
      case None =>
      case Some(body) =>
        properties := AddBodyProperties(properties, body.properties);
        required := AddBodyRequired(required, body.required);
    }
    tools' := tools + [Tool(name, description, properties, required)];
  }

  /** `generate_tools_from_spec`: one tool per visited operation, in visiting order. */
  method GenerateTools(doc: Document) returns (tools: seq<Tool>)
    ensures tools == ToolsOf(doc, AllOperations(doc))
  {
    tools := [];
    var i := 0;
    while i < |doc.paths|
      invariant 0 <= i <= |doc.paths|
      invariant tools == ToolsOf(doc, Operations(doc, i))
    {
      var (path, entry) := doc.paths[i];
      if entry.Item? {
        var item := entry.item;
        tools := ProcessOperation(doc, path, item.get, Get, tools, i);
        tools := ProcessOperation(doc, path, item.post, Post, tools, i);
        tools := ProcessOperation(doc, path, item.put, Put, tools, i);
        tools := ProcessOperation(doc, path, item.delete, Delete, tools, i);
        tools := ProcessOperation(doc, path, item.patch, Patch, tools, i);
        ItemTools(doc, i);
      } else {
        assert Operations(doc, i + 1) == Operations(doc, i) + [];
      }
      i := i + 1;
    }
  }

  /** The tool of a present operation is the one `process_operation_static` builds; an absent one has none. */
  lemma PresentTool(doc: Document, i: nat, path: string, m: Method, o: Option<Operation>)
    ensures ToolsOf(doc, Present(i, path, m, o)) == if o.Some? then [BuildTool(doc, path, m, o.value)] else []
  {
    match o
    case Some(op) =>
      assert ToolsOf(doc, [OpEntry(i, path, m, op)])[0] == ToolOf(doc, OpEntry(i, path, m, op));
    case None =>
  }

  /** The entries of path item `pi` are those of its five methods, one after another. */
  lemma FirstMethodsUnfold(i: nat, path: string, pi: PathItem)
    ensures FirstMethods(i, path, pi, 5)
         == Present(i, path, Get, pi.get) + Present(i, path, Post, pi.post) + Present(i, path, Put, pi.put)
            + Present(i, path, Delete, pi.delete) + Present(i, path, Patch, pi.patch)
  {
    assert FirstMethods(i, path, pi, 1) == [] + Present(i, path, Get, pi.get);
    assert FirstMethods(i, path, pi, 2) == FirstMethods(i, path, pi, 1) + Present(i, path, Post, pi.post);
    assert FirstMethods(i, path, pi, 3) == FirstMethods(i, path, pi, 2) + Present(i, path, Put, pi.put);
    assert FirstMethods(i, path, pi, 4) == FirstMethods(i, path, pi, 3) + Present(i, path, Delete, pi.delete);
    assert FirstMethods(i, path, pi, 5) == FirstMethods(i, path, pi, 4) + Present(i, path, Patch, pi.patch);
  }

  lemma MapEntriesAppend(f: OpEntry -> Tool, done: seq<OpEntry>, more: seq<OpEntry>)
    ensures MapEntries(f, done + more) == MapEntries(f, done) + MapEntries(f, more)
  {
    var l, r := MapEntries(f, done + more), MapEntries(f, done) + MapEntries(f, more);
    forall k | 0 <= k < |l| ensures l[k] == r[k] {
      if k < |done| {
        assert (done + more)[k] == done[k];
      } else {
        assert (done + more)[k] == more[k - |done|];
      }
    }
  }

  /** Mapping over five consecutive parts maps each part in turn. */
  lemma MapFive(f: OpEntry -> Tool, done: seq<OpEntry>, a: seq<OpEntry>, b: seq<OpEntry>, c: seq<OpEntry>, d: seq<OpEntry>, e: seq<OpEntry>)
    ensures MapEntries(f, done + (a + b + c + d + e))
         == MapEntries(f, done) + MapEntries(f, a) + MapEntries(f, b) + MapEntries(f, c) + MapEntries(f, d) + MapEntries(f, e)
  {
    MapEntriesAppend(f, done, a + b + c + d + e);
    MapEntriesAppend(f, a + b + c + d, e);
    MapEntriesAppend(f, a + b + c, d);
    MapEntriesAppend(f, a + b, c);
    MapEntriesAppend(f, a, b);
    AppendFive(MapEntries(f, done), MapEntries(f, a), MapEntries(f, b), MapEntries(f, c), MapEntries(f, d), MapEntries(f, e));
  }

  lemma AppendFive<T>(x: seq<T>, a: seq<T>, b: seq<T>, c: seq<T>, d: seq<T>, e: seq<T>)
    ensures x + (a + b + c + d + e) == x + a + b + c + d + e
  {
  }

  /** The tools of path entry `i` follow those of the entries before it, method by method. */
  lemma ItemTools(doc: Document, i: nat)
    requires i < |doc.paths| && doc.paths[i].1.Item?
    ensures var path, pi := doc.paths[i].0, doc.paths[i].1.item;
            ToolsOf(doc, Operations(doc, i + 1))
            == ToolsOf(doc, Operations(doc, i)) + ToolsOf(doc, Present(i, path, Get, pi.get))
               + ToolsOf(doc, Present(i, path, Post, pi.post)) + ToolsOf(doc, Present(i, path, Put, pi.put))
               + ToolsOf(doc, Present(i, path, Delete, pi.delete)) + ToolsOf(doc, Present(i, path, Patch, pi.patch))
  {
    var path, pi := doc.paths[i].0, doc.paths[i].1.item;
    FirstMethodsUnfold(i, path, pi);
    MapFive(Builder(doc), Operations(doc, i), Present(i, path, Get, pi.get), Present(i, path, Post, pi.post),
            Present(i, path, Put, pi.put), Present(i, path, Delete, pi.delete), Present(i, path, Patch, pi.patch));
  }
}
