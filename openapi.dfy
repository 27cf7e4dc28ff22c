/**
 * The parsed OpenAPI specification the core consumes, the argument values a
 * tool call carries, and the errors the core raises.
 */
module OpenApi {

  import opened Wrappers
  import opened Text
  import Urls

  /**
   * The schema types of the parser; `Other` stands for a type tag outside the
   * seven JSON Schema ones.  The parser builds `Other(tag)` only for such a
   * tag, so a value like `Other("integer")` never occurs; nothing in the type
   * excludes it, and the mapper treats whatever `Other` holds as unsupported.
   */
  datatype DataType = Integer | String | Boolean | Array | Object | Number | Null | Other(tag: string)

  /** `DataType.value`, the JSON Schema spelling of the type. */
  function TypeValue(t: DataType): string {
    match t
    case Integer => "integer"
    case String => "string"
    case Boolean => "boolean"
    case Array => "array"
    case Object => "object"
    case Number => "number"
    case Null => "null"
    case Other(tag) => tag
  }

  /**
   * An argument value or a JSON value of the specification.  `Opaque` stands
   * for every other Python value (floats, lists, dicts) by its `str()` text and
   * its truthiness.
   */
  datatype Value = None | Bool(b: bool) | Int(i: int) | Text(s: string) | Opaque(repr: string, truthy: bool)

  /** `str(v)` */
  function Str(v: Value): string {
    match v
    case None => "None"
    case Bool(b) => if b then "True" else "False"
    case Int(i) => IntToString(i)
    case Text(s) => s
    case Opaque(repr, _) => repr
  }

  /** `bool(v)` */
  predicate Truthy(v: Value) {
    match v
    case None => false
    case Bool(b) => b
    case Int(i) => i != 0
    case Text(s) => s != ""
    case Opaque(_, truthy) => truthy
  }

  /** The descriptive fields every schema has; `default` and `example` are `None` when unset. */
  datatype SchemaInfo = SchemaInfo(
    description: Option<string>,
    default: Value,
    enum: seq<Value>,
    example: Value,
    deprecated: bool,
    readOnly: bool,
    writeOnly: bool)

  /**
   * A schema: an `Object` instance carries its properties and required names.
   * The parser yields an `Object` instance for every object schema, so
   * `Plain(Object, _)` does not arise from parsing; where it is written, the
   * `isinstance(schema, Object)` tests of the core treat it as a schema
   * without properties.
   */
  datatype Schema =
    | Plain(kind: DataType, info: SchemaInfo)
    | ObjectSchema(info: SchemaInfo, properties: seq<Property>, required: seq<string>)
  {
    /** `schema.type` */
    function TypeOf(): DataType {
      if ObjectSchema? then Object else kind
    }
  }

  datatype Property = Property(name: string, schema: Schema)

  datatype Location = Path | Query | Header | Cookie

  datatype Parameter = Parameter(name: string, location: Location, schema: Schema, required: bool)

  datatype HttpMethod = Get | Put | Post | Delete | Options | Head | Patch | Trace

  /** `HTTPMethod(op.method.value.upper())` */
  function Verb(m: HttpMethod): string {
    match m
    case Get => "GET"
    case Put => "PUT"
    case Post => "POST"
    case Delete => "DELETE"
    case Options => "OPTIONS"
    case Head => "HEAD"
    case Patch => "PATCH"
    case Trace => "TRACE"
  }

  datatype Content = Content(mediaType: string, schema: Schema)

  datatype RequestBody = RequestBody(content: seq<Content>)

  datatype Operation = Operation(
    operationId: Option<string>,
    verb: HttpMethod,
    summary: Option<string>,
    description: Option<string>,
    parameters: seq<Parameter>,
    requestBody: Option<RequestBody>)

  datatype PathItem = PathItem(url: string, operations: seq<Operation>)

  /** A server entry; its URL is given already parsed. */
  datatype Server = Server(url: Urls.Url)

  datatype Specification = Specification(servers: seq<Server>, paths: seq<PathItem>)

  /**
   * The `ValueError`s and `KeyError`s the core raises.  `MissingOperationId`
   * also stands for the `AssertionError` of `tool_from_path` in
   * mcp_openapi/server.py, an `assert` that `python -O` skips.
   */
  datatype Error =
    | MissingOperationId(op: Operation)
    | NoServers
    | DuplicateParameterName(name: string)
    | UnsupportedType(tag: string)
    | UnknownTool(name: string)
    | MissingArgument(name: string)
    | MissingBodyParameter(name: string)
    | MissingRequiredParameters(names: set<string>)

  /** `" - ".join(filter(None, [op.summary, op.description]))` */
  function ToolDescription(op: Operation): (d: string)
    ensures op.summary.Some? && op.summary.value != "" && op.description.Some? && op.description.value != ""
            ==> d == op.summary.value + " - " + op.description.value
    ensures op.summary.Some? && op.summary.value != "" && !(op.description.Some? && op.description.value != "")
            ==> d == op.summary.value
    ensures !(op.summary.Some? && op.summary.value != "") && op.description.Some? && op.description.value != ""
            ==> d == op.description.value
    ensures !(op.summary.Some? && op.summary.value != "") && !(op.description.Some? && op.description.value != "")
            ==> d == ""
  {
    JoinNonEmptyPair(" - ", op.summary, op.description);
    Join(" - ", NonEmpty([op.summary, op.description]))
  }

  /**
   * One entry of the flat argument namespace of a tool: a declared parameter,
   * or a top-level property of an object request body together with that
   * body schema's `required` list.
   */
  datatype ArgSource = ParamArg(param: Parameter) | BodyArg(prop: Property, ownerRequired: seq<string>)

  function ArgName(a: ArgSource): string {
    match a
    case ParamArg(p) => p.name
    case BodyArg(prop, _) => prop.name
  }

  function ArgSchema(a: ArgSource): Schema {
    match a
    case ParamArg(p) => p.schema
    case BodyArg(prop, _) => prop.schema
  }

  /** `p.required` for a parameter, `prop.name in schema.required` for a body property. */
  predicate ArgRequired(a: ArgSource) {
    match a
    case ParamArg(p) => p.required
    case BodyArg(prop, owner) => prop.name in owner
  }

  function ParamArgs(ps: seq<Parameter>): (r: seq<ArgSource>)
    ensures |r| == |ps|
    ensures forall i :: 0 <= i < |ps| ==> r[i] == ParamArg(ps[i])
    decreases |ps|
  {
    if ps == [] then [] else [ParamArg(ps[0])] + ParamArgs(ps[1..])
  }

  function PropertyArgs(props: seq<Property>, required: seq<string>): (r: seq<ArgSource>)
    ensures |r| == |props|
    ensures forall i :: 0 <= i < |props| ==> r[i] == BodyArg(props[i], required)
    decreases |props|
  {
    if props == [] then [] else [BodyArg(props[0], required)] + PropertyArgs(props[1..], required)
  }

  /** The properties of one body content; a content whose schema is not an `Object` adds none. */
  function ContentArgs(c: Content): seq<ArgSource> {
    if c.schema.ObjectSchema? then PropertyArgs(c.schema.properties, c.schema.required) else []
  }

  function BodyArgs(contents: seq<Content>): seq<ArgSource>
    decreases |contents|
  {
    if contents == [] then [] else ContentArgs(contents[0]) + BodyArgs(contents[1..])
  }

  function RequestBodyArgs(op: Operation): seq<ArgSource> {
    if op.requestBody.Some? then BodyArgs(op.requestBody.value.content) else []
  }

  /** Parameters in declaration order, then the properties of every object body content. */
  function OperationArgs(op: Operation): seq<ArgSource> {
    ParamArgs(op.parameters) + RequestBodyArgs(op)
  }

  function Names(args: seq<ArgSource>): (r: seq<string>)
    ensures |r| == |args|
    ensures forall i {:trigger r[i]} :: 0 <= i < |args| ==> r[i] == ArgName(args[i])
    decreases |args|
  {
    if args == [] then [] else [ArgName(args[0])] + Names(args[1..])
  }

  /** The names in `args`, as a set. */
  function NameSet(args: seq<ArgSource>): set<string> {
    set i | 0 <= i < |args| :: ArgName(args[i])
  }

  /** The names of the required entries of `args`. */
  function RequiredNames(args: seq<ArgSource>): (r: set<string>)
    ensures forall n :: n in r <==> exists i :: 0 <= i < |args| && ArgRequired(args[i]) && ArgName(args[i]) == n
    decreases |args|
  {
    if args == [] then {}
    else
      var rest := RequiredNames(args[1..]);
      assert forall i :: 1 <= i < |args| ==> args[i] == args[1..][i - 1];
      (if ArgRequired(args[0]) then {ArgName(args[0])} else {}) + rest
  }

  /** The names of the required entries of `args`, in order. */
  function RequiredList(args: seq<ArgSource>): seq<string>
    decreases |args|
  {
    if args == [] then []
    else (if ArgRequired(args[0]) then [ArgName(args[0])] else []) + RequiredList(args[1..])
  }

  lemma {:induction false} RequiredListElements(args: seq<ArgSource>)
    ensures forall n :: n in RequiredList(args) <==> n in RequiredNames(args)
    decreases |args|
  {
    if args != [] {
      RequiredListElements(args[1..]);
    }
  }

  lemma {:induction false} NamesAppend(a: seq<ArgSource>, b: seq<ArgSource>)
    ensures Names(a + b) == Names(a) + Names(b)
  {
  }

  /** The `(path, operation)` pairs of one path item, in declaration order. */
  function PathPairs(path: PathItem, ops: seq<Operation>): (r: seq<(PathItem, Operation)>)
    ensures |r| == |ops|
    ensures forall i :: 0 <= i < |ops| ==> r[i] == (path, ops[i])
    decreases |ops|
  {
    if ops == [] then [] else [(path, ops[0])] + PathPairs(path, ops[1..])
  }

  /** `for path in spec.paths: for op in path.operations` */
  function OperationPairs(paths: seq<PathItem>): seq<(PathItem, Operation)>
    decreases |paths|
  {
    if paths == [] then [] else PathPairs(paths[0], paths[0].operations) + OperationPairs(paths[1..])
  }

  lemma PathPairsStep(path: PathItem, ops: seq<Operation>, j: nat, rest: seq<(PathItem, Operation)>)
    requires j < |ops|
    ensures (PathPairs(path, ops[j..]) + rest)[0] == (path, ops[j])
    ensures (PathPairs(path, ops[j..]) + rest)[1..] == PathPairs(path, ops[j + 1..]) + rest
  {
  }

  lemma OperationPairsStep(paths: seq<PathItem>, i: nat)
    requires i < |paths|
    ensures OperationPairs(paths[i..]) == PathPairs(paths[i], paths[i].operations[0..]) + OperationPairs(paths[i + 1..])
  {
    assert paths[i..][1..] == paths[i + 1..];
    assert paths[i].operations[0..] == paths[i].operations;
  }

  lemma ArgsStep(args: seq<ArgSource>, j: nat, rest: seq<ArgSource>)
    requires j < |args|
    ensures (args[j..] + rest)[0] == args[j]
    ensures (args[j..] + rest)[1..] == args[j + 1..] + rest
  {
  }

  lemma BodyArgsStep(contents: seq<Content>, i: nat)
    requires i < |contents|
    ensures BodyArgs(contents[i..]) == ContentArgs(contents[i]) + BodyArgs(contents[i + 1..])
  {
    assert contents[i..][1..] == contents[i + 1..];
  }
}
