/**
 * The part of an OpenAPI 3.0 document the bridge reads: the ordered Paths
 * Object, the five HTTP methods it serves, operations with their parameters
 * and request bodies, and the Components Object's `schemas` map.
 */
module OpenApi {
  import opened Wrappers

  /** `ReferenceOr<T>`: either an inline item or a `$ref` string. */
  datatype RefOr<+T> = Item(item: T) | Reference(reference: string)

  /** The Parameter Object's `in` field. */
  datatype Location = Query | Path | Header | Cookie

  /**
   * How a parameter describes its value: an inline `schema`, a `schema`
   * that is a `$ref`, or a `content` map.
   */
  datatype ParamFormat = InlineSchema | SchemaReference | Content

  datatype Parameter = Parameter(
    name: string,
    location: Location,
    required: bool,
    description: Option<string>,
    format: ParamFormat)

  /**
   * A Schema Object: its description and its kind. `Composite` stands for
   * every kind that is not one of the six types (oneOf, allOf, anyOf, not,
   * any). Object properties keep their declaration order.
   */
  datatype Schema = Schema(description: Option<string>, kind: SchemaKind)

  datatype SchemaKind =
    | StringType
    | NumberType
    | IntegerType
    | BooleanType
    | ArrayType
    | ObjectType(properties: seq<(string, RefOr<Schema>)>, required: seq<string>)
    | Composite

  datatype MediaType = MediaType(schema: Option<RefOr<Schema>>)

  /** A Request Body Object: its `content` map, keyed by media type. */
  datatype RequestBody = RequestBody(content: map<string, MediaType>)

  datatype Operation = Operation(
    summary: Option<string>,
    description: Option<string>,
    parameters: seq<RefOr<Parameter>>,
    requestBody: Option<RefOr<RequestBody>>)

  /** The five methods the bridge turns into tools, in the order it visits them. */
  datatype Method = Get | Post | Put | Delete | Patch {
    function Name(): string {
      match this
      case Get => "GET"
      case Post => "POST"
      case Put => "PUT"
      case Delete => "DELETE"
      case Patch => "PATCH"
    }

    /** Position in the visiting order GET, POST, PUT, DELETE, PATCH. */
    function Rank(): nat {
      match this
      case Get => 0
      case Post => 1
      case Put => 2
      case Delete => 3
      case Patch => 4
    }
  }

  /** The method at position `r` of the visiting order. */
  function MethodOfRank(r: nat): (m: Method)
    requires r < 5
    ensures m.Rank() == r
  {
    if r == 0 then Get else if r == 1 then Post else if r == 2 then Put else if r == 3 then Delete else Patch
  }

  /** The visiting order lists every method exactly once. */
  lemma RankInverse(m: Method)
    ensures m.Rank() < 5 && MethodOfRank(m.Rank()) == m
  {
  }

  /** The method whose upper-case name is `s`, if any. */
  function ParseMethod(s: string): (m: Option<Method>)
    ensures m.Some? ==> m.value.Name() == s
    ensures m.None? ==> forall x: Method :: x.Name() != s
  {
    if s == "GET" then Some(Get)
    else if s == "POST" then Some(Post)
    else if s == "PUT" then Some(Put)
    else if s == "DELETE" then Some(Delete)
    else if s == "PATCH" then Some(Patch)
    else None
  }

  datatype PathItem = PathItem(
    get: Option<Operation>,
    post: Option<Operation>,
    put: Option<Operation>,
    delete: Option<Operation>,
    patch: Option<Operation>)
  {
    function OperationFor(m: Method): Option<Operation> {
      match m
      case Get => get
      case Post => post
      case Put => put
      case Delete => delete
      case Patch => patch
    }
  }

  /**
   * The document: `paths` in declaration order (the Paths Object is an
   * ordered map), and `components.schemas` when the document has components.
   */
  datatype Document = Document(
    paths: seq<(string, RefOr<PathItem>)>,
    schemas: Option<map<string, RefOr<Schema>>>)

  /** Path entry `i` is an inline path item that defines method `m`. */
  predicate Defines(doc: Document, i: int, m: Method) {
    0 <= i < |doc.paths| && doc.paths[i].1.Item? && doc.paths[i].1.item.OperationFor(m).Some?
  }
}
