/**
 * mcp_openapi/server.py: the FastMCP-based server.  Each operation becomes a
 * tool whose argument fields are built from the parameters and object-body
 * properties, and which is registered under its operation id.
 */
module Server {

  import opened Wrappers
  import opened Dicts
  import opened Text
  import opened Urls
  import opened OpenApi
  import opened ApiClient
  import opened SpecHandlers

  /** The Python types `json_schema_type_to_python_type` returns. */
  datatype PythonKind = IntType | StrType | BoolType | ListType | DictType | NoneType | FloatType

  /** `json_schema_type_to_python_type`: one kind per JSON Schema type, anything else unsupported. */
  function PythonType(t: DataType): (r: Result<PythonKind, Error>)
    ensures r.Failure? <==> t.Other?
    ensures r.Failure? ==> r.error == UnsupportedType(t.tag)
  {
    match t
    case Integer => Success(IntType)
    case String => Success(StrType)
    case Boolean => Success(BoolType)
    case Array => Success(ListType)
    case Object => Success(DictType)
    case Number => Success(FloatType)
    case Null => Success(NoneType)
    case Other(tag) => Failure(UnsupportedType(tag))
  }

  /** The JSON Schema type a Python kind stands for. */
  function SchemaTypeOf(k: PythonKind): DataType {
    match k
    case IntType => Integer
    case StrType => String
    case BoolType => Boolean
    case ListType => Array
    case DictType => Object
    case FloatType => Number
    case NoneType => Null
  }

  /** The mapper is a bijection between the seven JSON Schema types and the seven kinds. */
  lemma PythonTypeBijective(t: DataType, k: PythonKind)
    ensures !t.Other? ==> SchemaTypeOf(PythonType(t).value) == t
    ensures PythonType(SchemaTypeOf(k)) == Success(k)
  {
  }

  /** Distinct schema types map to distinct kinds. */
  lemma PythonTypeInjective(t1: DataType, t2: DataType)
    requires PythonType(t1).Success? && PythonType(t2).Success? && PythonType(t1) == PythonType(t2)
    ensures t1 == t2
  {
    PythonTypeBijective(t1, IntType);
    PythonTypeBijective(t2, IntType);
  }

  /** The JSON schema fragment attached to a field through `WithJsonSchema`. */
  datatype Fragment = Fragment(
    title: string,
    typeName: string,
    description: Option<string>,
    default: Value,
    required: bool,
    enum: seq<Value>,
    examples: Value,
    deprecated: bool,
    readOnly: bool,
    writeOnly: bool)

  /** A pydantic field: its annotation, its schema fragment and its default (`None` when undefined). */
  datatype Field = Field(annotation: PythonKind, fragment: Fragment, default: Option<Value>)

  /** `create_param`, with the required flag a parameter or body property carries. */
  function CreateParam(a: ArgSource): (r: Result<Field, Error>)
    ensures r.Failure? <==> ArgSchema(a).TypeOf().Other?
    ensures r.Failure? ==> r.error == UnsupportedType(ArgSchema(a).TypeOf().tag)
    ensures r.Success? ==>
      && SchemaTypeOf(r.value.annotation) == ArgSchema(a).TypeOf()
      && r.value.fragment.title == ArgName(a)
      && r.value.fragment.typeName == TypeValue(ArgSchema(a).TypeOf())
      && r.value.fragment.required == ArgRequired(a)
      && r.value.fragment.default == ArgSchema(a).info.default
      && r.value.fragment.description == ArgSchema(a).info.description
      && r.value.fragment.enum == ArgSchema(a).info.enum
      && r.value.fragment.examples == ArgSchema(a).info.example
      && r.value.fragment.deprecated == ArgSchema(a).info.deprecated
      && r.value.fragment.readOnly == ArgSchema(a).info.readOnly
      && r.value.fragment.writeOnly == ArgSchema(a).info.writeOnly
      && (r.value.default.Some? <==> Truthy(ArgSchema(a).info.default))
      && (r.value.default.Some? ==> r.value.default.value == ArgSchema(a).info.default)
  {
    var schema := ArgSchema(a);
    var kind :- PythonType(schema.TypeOf());
    PythonTypeBijective(schema.TypeOf(), kind);
    var info := schema.info;
    var fragment := Fragment(ArgName(a), TypeValue(schema.TypeOf()), info.description, info.default,
                             ArgRequired(a), info.enum, info.example, info.deprecated, info.readOnly, info.writeOnly);
    Success(Field(kind, fragment, if Truthy(info.default) then Some(info.default) else Option.None))
  }

  /** The loops of `tool_params_from_operation`, from the fields `acc`: a later name overwrites. */
  function FieldsFrom(args: seq<ArgSource>, acc: Dict<string, Field>): Result<Dict<string, Field>, Error>
    decreases |args|
  {
    if args == [] then Success(acc)
    else
      var field :- CreateParam(args[0]);
      FieldsFrom(args[1..], acc.Put(ArgName(args[0]), field))
  }

  /** `tool_params_from_operation`, the argument fields of an operation. */
  function ToolParams(op: Operation): Result<Dict<string, Field>, Error> {
    FieldsFrom(OperationArgs(op), Empty())
  }

  predicate AllSupported(args: seq<ArgSource>) {
    forall i :: 0 <= i < |args| ==> !ArgSchema(args[i]).TypeOf().Other?
  }

  /** The fields of `args`, in order. */
  function FieldList(args: seq<ArgSource>): (r: seq<Field>)
    requires AllSupported(args)
    ensures |r| == |args|
    ensures forall i :: 0 <= i < |args| ==> CreateParam(args[i]) == Success(r[i])
    decreases |args|
  {
    if args == [] then [] else [CreateParam(args[0]).value] + FieldList(args[1..])
  }

  /** Building the fields fails exactly on an argument of an unsupported type, and reports such a type. */
  lemma {:induction false} FieldsFromOutcome(args: seq<ArgSource>, acc: Dict<string, Field>)
    ensures FieldsFrom(args, acc).Success? <==> AllSupported(args)
    ensures FieldsFrom(args, acc).Failure? ==>
      exists i :: 0 <= i < |args| && ArgSchema(args[i]).TypeOf().Other? &&
                  FieldsFrom(args, acc).error == UnsupportedType(ArgSchema(args[i]).TypeOf().tag)
    decreases |args|
  {
    if args != [] {
      assert forall i :: 1 <= i < |args| ==> args[i] == args[1..][i - 1];
      if CreateParam(args[0]).Success? {
        FieldsFromOutcome(args[1..], acc.Put(ArgName(args[0]), CreateParam(args[0]).value));
      }
    }
  }

  /** Successful field building is the successive assignments `params[name] = create_param(..)`. */
  lemma {:induction false} FieldsFromValue(args: seq<ArgSource>, acc: Dict<string, Field>)
    requires AllSupported(args)
    ensures FieldsFrom(args, acc) == Success(PutAll(acc, Names(args), FieldList(args)))
    decreases |args|
  {
    if args != [] {
      assert AllSupported(args[1..]) by {
        assert forall i :: 0 <= i < |args[1..]| ==> args[1..][i] == args[i + 1];
      }
      FieldsFromValue(args[1..], acc.Put(ArgName(args[0]), CreateParam(args[0]).value));
      assert FieldList(args)[1..] == FieldList(args[1..]);
      assert Names(args)[1..] == Names(args[1..]);
    }
  }

  /**
   * `tool_params_from_operation` fails only on an unsupported type; a
   * repeated name is no error.  The fields are keyed by the distinct names in
   * order of first appearance, and each name holds the field of its last
   * occurrence.
   */
  lemma ToolParamsSpec(op: Operation)
    ensures ToolParams(op).Success? <==> AllSupported(OperationArgs(op))
    ensures ToolParams(op).Failure? ==> ToolParams(op).error.UnsupportedType?
    ensures ToolParams(op).Success? ==>
      var args := OperationArgs(op);
      var fields := ToolParams(op).value;
      && fields.Valid()
      && fields.keys == AppendNew([], Names(args))
      && (forall k :: k in fields.entries <==> k in Names(args))
      && (forall i :: LastAt(Names(args), i) ==> CreateParam(args[i]) == Success(fields.entries[Names(args)[i]]))
  {
    var args := OperationArgs(op);
    FieldsFromOutcome(args, Empty());
    if AllSupported(args) {
      FieldsFromValue(args, Empty());
      PutAllSpec(Empty(), Names(args), FieldList(args));
    }
  }

  /** Each field is the one `create_param` builds for the last argument of its name. */
  lemma FieldOfName(op: Operation, k: string)
    requires ToolParams(op).Success? && k in ToolParams(op).value.entries
    ensures exists i ::
              && 0 <= i < |OperationArgs(op)| && LastAt(Names(OperationArgs(op)), i)
              && ArgName(OperationArgs(op)[i]) == k
              && CreateParam(OperationArgs(op)[i]) == Success(ToolParams(op).value.entries[k])
  {
    ToolParamsSpec(op);
    var names := Names(OperationArgs(op));
    LastOccurrence(names, k);
  }

  /** The loops of `tool_params_from_operation`. */
  method ToolParamsFromOperation(op: Operation) returns (r: Result<Dict<string, Field>, Error>)
    ensures r == ToolParams(op)
  {
    var params: Dict<string, Field> := Empty();
    ghost var paramArgs := ParamArgs(op.parameters);
    ghost var bodyArgs := RequestBodyArgs(op);
    assert paramArgs[0..] == paramArgs;
    var j := 0;
    while j < |op.parameters|
      invariant 0 <= j <= |op.parameters|
      invariant FieldsFrom(paramArgs[j..] + bodyArgs, params) == ToolParams(op)
    {
      ArgsStep(paramArgs, j, bodyArgs);
      var field := CreateParam(ParamArg(op.parameters[j]));
      if field.Failure? {
        return Failure(field.error);
      }
      params := params.Put(op.parameters[j].name, field.value);
      j := j + 1;
    }
    assert paramArgs[j..] + bodyArgs == bodyArgs;
    if op.requestBody.Some? {
      var contents := op.requestBody.value.content;
      assert contents[0..] == contents;
      var c := 0;
      while c < |contents|
        invariant 0 <= c <= |contents|
        invariant FieldsFrom(BodyArgs(contents[c..]), params) == ToolParams(op)
      {
        var schema := contents[c].schema;
        BodyArgsStep(contents, c);
        ghost var later := BodyArgs(contents[c + 1..]);
        if schema.ObjectSchema? {
          ghost var props := PropertyArgs(schema.properties, schema.required);
          assert props[0..] == props;
          var k := 0;
          while k < |schema.properties|
            invariant 0 <= k <= |schema.properties|
            invariant FieldsFrom(props[k..] + later, params) == ToolParams(op)
          {
            var prop := schema.properties[k];
            ArgsStep(props, k, later);
            var field := CreateParam(BodyArg(prop, schema.required));
            if field.Failure? {
              return Failure(field.error);
            }
            params := params.Put(prop.name, field.value);
            k := k + 1;
          }
          assert props[k..] + later == later;
        } else {
          assert ContentArgs(contents[c]) + later == later;
        }
        c := c + 1;
      }
      assert contents[c..] == [];
    }
    return Success(params);
  }

  /** A FastMCP tool: its name, its description and its argument fields. */
  datatype ServerTool = ServerTool(name: string, description: string, parameters: Dict<string, Field>)

  /** What `add_request` records for an operation id. */
  datatype Route = Route(verb: string, url: string, op: Operation)

  /** The tool `tool_from_path` builds for an identified operation. */
  function ServerToolOf(opId: string, op: Operation): (r: Result<ServerTool, Error>)
    ensures r.Success? <==> ToolParams(op).Success?
    ensures r.Success? ==> r.value.name == opId && r.value.description == ToolDescription(op)
    ensures r.Success? ==> Success(r.value.parameters) == ToolParams(op)
  {
    var params :- ToolParams(op);
    Success(ServerTool(opId, ToolDescription(op), params))
  }

  /**
   * The client `build_server` creates from the selected server URL, with the
   * routes registered through `add_request`.
   */
  class RoutingClient {
    const baseUrl: string
    var routes: map<string, Route>

    constructor Init(baseUrl: string)
      ensures this.baseUrl == baseUrl && routes == map[]
    {
      this.baseUrl := baseUrl;
      routes := map[];
    }

    /** `add_request`: the route of an operation id; a later one replaces an earlier one. */
    method AddRequest(opId: string, verb: string, url: string, op: Operation)
      modifies this
      ensures routes == old(routes)[opId := Route(verb, url, op)]
    {
      routes := routes[opId := Route(verb, url, op)];
    }
  }

  /**
   * `tool_from_path`: an operation without id fails its assertion before
   * anything happens; otherwise the route is registered with the upper-case
   * verb and the unsubstituted template, and then the tool is built.
   */
  method ToolFromPath(client: RoutingClient, path: PathItem, op: Operation) returns (r: Result<ServerTool, Error>)
    modifies client
    ensures op.operationId.None? ==> r == Failure(MissingOperationId(op)) && client.routes == old(client.routes)
    ensures op.operationId.Some? ==>
      && client.routes == old(client.routes)[op.operationId.value := Route(Verb(op.verb), path.url, op)]
      && r == ServerToolOf(op.operationId.value, op)
  {
    if op.operationId.None? {
      return Failure(MissingOperationId(op));
    }
    client.AddRequest(op.operationId.value, Verb(op.verb), path.url, op);
    var params := ToolParamsFromOperation(op);
    if params.Failure? {
      return Failure(params.error);
    }
    return Success(ServerTool(op.operationId.value, ToolDescription(op), params.value));
  }

  /** `register_tool` on a registry: an existing name is kept when duplicates only warn. */
  function Register(tools: Dict<string, ServerTool>, tool: ServerTool, warnOnDuplicateTools: bool): Dict<string, ServerTool> {
    if tool.name in tools.entries && warnOnDuplicateTools then tools else tools.Put(tool.name, tool)
  }

  /**
   * A new name adds exactly that entry at the end and changes nothing else; an
   * existing name keeps the registry when duplicates only warn, and otherwise
   * replaces that one entry in place.
   */
  lemma RegisterSpec(tools: Dict<string, ServerTool>, tool: ServerTool, warn: bool)
    requires tools.Valid()
    ensures Register(tools, tool, warn).Valid()
    ensures tool.name !in tools.entries ==>
      && Register(tools, tool, warn).keys == tools.keys + [tool.name]
      && Register(tools, tool, warn).entries == tools.entries[tool.name := tool]
    ensures tool.name in tools.entries && warn ==> Register(tools, tool, warn) == tools
    ensures tool.name in tools.entries && !warn ==>
      && Register(tools, tool, warn).keys == tools.keys
      && Register(tools, tool, warn).entries == tools.entries[tool.name := tool]
    ensures forall k :: k in tools.entries && k != tool.name ==>
      k in Register(tools, tool, warn).entries && Register(tools, tool, warn).entries[k] == tools.entries[k]
  {
  }

  /** FastMCP's tool manager: the `_tools` dictionary and its duplicate policy. */
  class ToolManager {
    var tools: Dict<string, ServerTool>
    const warnOnDuplicateTools: bool

    constructor Init(warnOnDuplicateTools: bool)
      ensures tools == Empty() && this.warnOnDuplicateTools == warnOnDuplicateTools
    {
      tools := Empty();
      this.warnOnDuplicateTools := warnOnDuplicateTools;
    }

    /** `register_tool(server, tool)` */
    method RegisterTool(tool: ServerTool)
      modifies this
      ensures tools == Register(old(tools), tool, warnOnDuplicateTools)
    {
      var existing := tool.name in tools.entries;
      if existing && warnOnDuplicateTools {
        return;
      }
      tools := tools.Put(tool.name, tool);
    }
  }

  /**
   * The server URL of `build_server`: the first server, joined onto the
   * specification's URL when it is relative, as text without trailing "/".
   */
  function SelectServerUrl(spec: Specification, openapiUrl: Url): (r: Result<string, Error>)
    ensures r.Failure? <==> spec.servers == []
    ensures r.Failure? ==> r.error == NoServers
    ensures r.Success? ==> r.value == [] || r.value[|r.value| - 1] != '/'
  {
    if spec.servers == [] then Failure(NoServers)
    else
      var serverUrl := spec.servers[0].url;
      var joined := if !IsAbsolute(serverUrl) then Resolve(openapiUrl, serverUrl) else serverUrl;
      Success(RStrip(ToString(joined), '/'))
  }

  /** `build_server` and `extract_base_url` choose the same URL, up to trailing slashes. */
  lemma ServerUrlAgreesWithClient(spec: Specification, openapiUrl: Url)
    ensures SelectServerUrl(spec, openapiUrl).Failure? <==> ExtractBaseUrl(spec, openapiUrl).Failure?
    ensures SelectServerUrl(spec, openapiUrl).Success? ==>
      SelectServerUrl(spec, openapiUrl).value == RStrip(ToString(ExtractBaseUrl(spec, openapiUrl).value), '/')
  {
  }

  /**
   * The loops of `build_server` over the `(path, operation)` pairs, from the
   * registry `tools` and the routes `routes`.
   */
  function BuildFrom(pairs: seq<(PathItem, Operation)>, tools: Dict<string, ServerTool>, routes: map<string, Route>, warn: bool)
    : Result<(Dict<string, ServerTool>, map<string, Route>), Error>
    decreases |pairs|
  {
    if pairs == [] then Success((tools, routes))
    else
      var path := pairs[0].0;
      var op := pairs[0].1;
      if op.operationId.None? then Failure(MissingOperationId(op))
      else
        var opId := op.operationId.value;
        var tool :- ServerToolOf(opId, op);
        BuildFrom(pairs[1..], Register(tools, tool, warn), routes[opId := Route(Verb(op.verb), path.url, op)], warn)
  }

  /** `build_server`: the registry and routes, or the first error raised. */
  function Build(spec: Specification, openapiUrl: Url, warn: bool)
    : Result<(string, Dict<string, ServerTool>, map<string, Route>), Error>
  {
    var url :- SelectServerUrl(spec, openapiUrl);
    var built :- BuildFrom(OperationPairs(spec.paths), Empty(), map[], warn);
    Success((url, built.0, built.1))
  }

  predicate AllBuildable(pairs: seq<(PathItem, Operation)>) {
    AllIdentified(pairs) && forall i :: 0 <= i < |pairs| ==> ToolParams(pairs[i].1).Success?
  }

  /** The tools of `pairs`, in order. */
  function ToolList(pairs: seq<(PathItem, Operation)>): (r: seq<ServerTool>)
    requires AllBuildable(pairs)
    ensures |r| == |pairs|
    ensures forall i :: 0 <= i < |pairs| ==> Success(r[i]) == ServerToolOf(pairs[i].1.operationId.value, pairs[i].1)
    decreases |pairs|
  {
    if pairs == [] then []
    else
      assert AllBuildable(pairs[1..]) by {
        assert forall i :: 0 <= i < |pairs[1..]| ==> pairs[1..][i] == pairs[i + 1];
      }
      var rest := ToolList(pairs[1..]);
      var r := [ServerToolOf(pairs[0].1.operationId.value, pairs[0].1).value] + rest;
      assert forall i :: 0 <= i < |pairs| ==> Success(r[i]) == ServerToolOf(pairs[i].1.operationId.value, pairs[i].1) by {
        forall i | 0 <= i < |pairs|
          ensures Success(r[i]) == ServerToolOf(pairs[i].1.operationId.value, pairs[i].1)
        {
          if i > 0 {
            assert r[i] == rest[i - 1] && pairs[i] == pairs[1..][i - 1];
          }
        }
      }
      r
  }

  function RouteOf(pair: (PathItem, Operation)): Route {
    Route(Verb(pair.1.verb), pair.0.url, pair.1)
  }

  /** Building succeeds exactly when every operation has an id and only supported argument types. */
  lemma {:induction false} BuildFromOutcome(pairs: seq<(PathItem, Operation)>, tools: Dict<string, ServerTool>, routes: map<string, Route>, warn: bool)
    ensures BuildFrom(pairs, tools, routes, warn).Success? <==> AllBuildable(pairs)
    decreases |pairs|
  {
    if pairs != [] {
      var op := pairs[0].1;
      if op.operationId.Some? {
        var tool := ServerToolOf(op.operationId.value, op);
        if tool.Success? {
          AllBuildableStep(pairs);
          BuildFromOutcome(pairs[1..], Register(tools, tool.value, warn), routes[op.operationId.value := RouteOf(pairs[0])], warn);
        }
      }
    }
  }

  lemma AllBuildableStep(pairs: seq<(PathItem, Operation)>)
    requires pairs != []
    ensures AllBuildable(pairs) <==>
      pairs[0].1.operationId.Some? && ToolParams(pairs[0].1).Success? && AllBuildable(pairs[1..])
  {
    var later := pairs[1..];
    if AllBuildable(later) && pairs[0].1.operationId.Some? && ToolParams(pairs[0].1).Success? {
      forall i | 0 <= i < |pairs|
        ensures pairs[i].1.operationId.Some? && ToolParams(pairs[i].1).Success?
      {
        if i > 0 {
          assert pairs[i] == later[i - 1];
        }
      }
    } else if AllBuildable(pairs) {
      forall i | 0 <= i < |later|
        ensures later[i].1.operationId.Some? && ToolParams(later[i].1).Success?
      {
        assert later[i] == pairs[i + 1];
      }
    }
  }

  /** Building fails for want of an operation id or on an unsupported argument type, and for no other reason. */
  lemma {:induction false} BuildFromError(pairs: seq<(PathItem, Operation)>, tools: Dict<string, ServerTool>, routes: map<string, Route>, warn: bool)
    ensures BuildFrom(pairs, tools, routes, warn).Failure? ==>
      BuildFrom(pairs, tools, routes, warn).error.MissingOperationId? || BuildFrom(pairs, tools, routes, warn).error.UnsupportedType?
    decreases |pairs|
  {
    if pairs != [] {
      var op := pairs[0].1;
      if op.operationId.Some? {
        var tool := ServerToolOf(op.operationId.value, op);
        if tool.Success? {
          BuildFromError(pairs[1..], Register(tools, tool.value, warn), routes[op.operationId.value := RouteOf(pairs[0])], warn);
        } else {
          FieldsFromOutcome(OperationArgs(op), Empty());
        }
      }
    }
  }

  /**
   * The registry built: with `warn` (FastMCP's default) the first tool of an
   * id is kept, without it the last one replaces the earlier ones.
   */
  lemma {:induction false} BuildFromTools(pairs: seq<(PathItem, Operation)>, tools: Dict<string, ServerTool>, routes: map<string, Route>, warn: bool)
    requires AllBuildable(pairs)
    ensures BuildFrom(pairs, tools, routes, warn).Success?
    ensures warn ==> BuildFrom(pairs, tools, routes, warn).value.0 == PutAllAbsent(tools, Ids(pairs), ToolList(pairs))
    ensures !warn ==> BuildFrom(pairs, tools, routes, warn).value.0 == PutAll(tools, Ids(pairs), ToolList(pairs))
    decreases |pairs|
  {
    BuildFromOutcome(pairs, tools, routes, warn);
    if pairs != [] {
      var op := pairs[0].1;
      var tool := ServerToolOf(op.operationId.value, op).value;
      assert AllBuildable(pairs[1..]) by {
        assert forall i :: 0 <= i < |pairs[1..]| ==> pairs[1..][i] == pairs[i + 1];
      }
      BuildFromTools(pairs[1..], Register(tools, tool, warn), routes[op.operationId.value := RouteOf(pairs[0])], warn);
      assert Ids(pairs)[1..] == Ids(pairs[1..]);
      assert ToolList(pairs)[1..] == ToolList(pairs[1..]);
    }
  }

  /** One step of building a buildable list: the first operation's tool is registered and its route set. */
  lemma BuildFromStep(pairs: seq<(PathItem, Operation)>, tools: Dict<string, ServerTool>, routes: map<string, Route>, warn: bool)
    requires pairs != [] && AllBuildable(pairs)
    ensures AllBuildable(pairs[1..])
    ensures Ids(pairs) == [pairs[0].1.operationId.value] + Ids(pairs[1..])
    ensures
      var op := pairs[0].1;
      BuildFrom(pairs, tools, routes, warn) ==
      BuildFrom(pairs[1..], Register(tools, ServerToolOf(op.operationId.value, op).value, warn),
                routes[op.operationId.value := RouteOf(pairs[0])], warn)
  {
    AllBuildableStep(pairs);
    assert Ids(pairs)[1..] == Ids(pairs[1..]);
  }

  /** The routes built: the ids of `pairs` are added to the routes and every other route stays. */
  lemma {:induction false} BuildFromRouteKeys(pairs: seq<(PathItem, Operation)>, tools: Dict<string, ServerTool>, routes: map<string, Route>, warn: bool)
    requires AllBuildable(pairs)
    ensures BuildFrom(pairs, tools, routes, warn).Success?
    ensures forall k :: k in BuildFrom(pairs, tools, routes, warn).value.1 <==> k in routes || k in Ids(pairs)
    ensures forall k :: k in routes && k !in Ids(pairs) ==> BuildFrom(pairs, tools, routes, warn).value.1[k] == routes[k]
    decreases |pairs|
  {
    BuildFromOutcome(pairs, tools, routes, warn);
    if pairs != [] {
      var op := pairs[0].1;
      var tool := ServerToolOf(op.operationId.value, op).value;
      BuildFromStep(pairs, tools, routes, warn);
      BuildFromRouteKeys(pairs[1..], Register(tools, tool, warn), routes[op.operationId.value := RouteOf(pairs[0])], warn);
    }
  }

  /** The routes built: every id is routed to its last operation. */
  lemma {:induction false} BuildFromRouteValues(pairs: seq<(PathItem, Operation)>, tools: Dict<string, ServerTool>, routes: map<string, Route>, warn: bool)
    requires AllBuildable(pairs)
    ensures BuildFrom(pairs, tools, routes, warn).Success?
    ensures forall i :: LastAt(Ids(pairs), i) ==>
      Ids(pairs)[i] in BuildFrom(pairs, tools, routes, warn).value.1 &&
      BuildFrom(pairs, tools, routes, warn).value.1[Ids(pairs)[i]] == RouteOf(pairs[i])
    decreases |pairs|
  {
    BuildFromOutcome(pairs, tools, routes, warn);
    if pairs != [] {
      var op := pairs[0].1;
      var tool := ServerToolOf(op.operationId.value, op).value;
      var routes' := routes[op.operationId.value := RouteOf(pairs[0])];
      var tools' := Register(tools, tool, warn);
      BuildFromStep(pairs, tools, routes, warn);
      BuildFromRouteValues(pairs[1..], tools', routes', warn);
      BuildFromRouteKeys(pairs[1..], tools', routes', warn);
      var ids := Ids(pairs);
      var built := BuildFrom(pairs, tools, routes, warn).value.1;
      forall i | LastAt(ids, i)
        ensures ids[i] in built && built[ids[i]] == RouteOf(pairs[i])
      {
        if i == 0 {
          assert ids[0] !in ids[1..] by {
            forall j | 0 <= j < |ids[1..]|
              ensures ids[1..][j] != ids[0]
            {
              assert ids[1..][j] == ids[j + 1];
            }
          }
        } else {
          assert LastAt(ids[1..], i - 1);
          assert ids[i] == ids[1..][i - 1];
        }
      }
    }
  }

  /** The routes built: every id is routed to its last operation, other routes stay. */
  lemma BuildFromRoutes(pairs: seq<(PathItem, Operation)>, tools: Dict<string, ServerTool>, routes: map<string, Route>, warn: bool)
    requires AllBuildable(pairs)
    ensures BuildFrom(pairs, tools, routes, warn).Success?
    ensures
      var built := BuildFrom(pairs, tools, routes, warn).value.1;
      && (forall k :: k in built <==> k in routes || k in Ids(pairs))
      && (forall i :: LastAt(Ids(pairs), i) ==> built[Ids(pairs)[i]] == RouteOf(pairs[i]))
      && (forall k :: k in routes && k !in Ids(pairs) ==> built[k] == routes[k])
  {
    BuildFromRouteKeys(pairs, tools, routes, warn);
    BuildFromRouteValues(pairs, tools, routes, warn);
  }

  /** When duplicates only warn, an id is registered with the tool of its first operation. */
  lemma BuildKeepsFirst(spec: Specification, openapiUrl: Url, i: nat)
    requires spec.servers != [] && AllBuildable(OperationPairs(spec.paths))
    requires FirstAt(Ids(OperationPairs(spec.paths)), i)
    ensures Build(spec, openapiUrl, true).Success?
    ensures
      var opId := Ids(OperationPairs(spec.paths))[i];
      && opId in Build(spec, openapiUrl, true).value.1.entries
      && Success(Build(spec, openapiUrl, true).value.1.entries[opId]) == ServerToolOf(opId, OperationPairs(spec.paths)[i].1)
  {
    var pairs := OperationPairs(spec.paths);
    var ids, list := Ids(pairs), ToolList(pairs);
    var registry := PutAllAbsent(Empty(), ids, list);
    assert BuildFrom(pairs, Empty(), map[], true).Success? && BuildFrom(pairs, Empty(), map[], true).value.0 == registry by {
      BuildFromTools(pairs, Empty(), map[], true);
    }
    assert ids[i] in registry.entries && registry.entries[ids[i]] == list[i] by {
      PutAllAbsentSpec(Empty(), ids, list);
    }
    assert Success(list[i]) == ServerToolOf(ids[i], pairs[i].1);
  }

  /** When duplicates replace, an id is registered with the tool of its last operation. */
  lemma BuildKeepsLast(spec: Specification, openapiUrl: Url, j: nat)
    requires spec.servers != [] && AllBuildable(OperationPairs(spec.paths))
    requires LastAt(Ids(OperationPairs(spec.paths)), j)
    ensures Build(spec, openapiUrl, false).Success?
    ensures
      var opId := Ids(OperationPairs(spec.paths))[j];
      && opId in Build(spec, openapiUrl, false).value.1.entries
      && Success(Build(spec, openapiUrl, false).value.1.entries[opId]) == ServerToolOf(opId, OperationPairs(spec.paths)[j].1)
  {
    var pairs := OperationPairs(spec.paths);
    var ids, list := Ids(pairs), ToolList(pairs);
    var registry := PutAll(Empty(), ids, list);
    assert BuildFrom(pairs, Empty(), map[], false).Success? && BuildFrom(pairs, Empty(), map[], false).value.0 == registry by {
      BuildFromTools(pairs, Empty(), map[], false);
    }
    assert ids[j] in registry.entries && registry.entries[ids[j]] == list[j] by {
      PutAllSpec(Empty(), ids, list);
    }
    assert Success(list[j]) == ServerToolOf(ids[j], pairs[j].1);
  }

  /** Building over two lists of operations is building over the first, then the second from its result. */
  lemma {:induction false} BuildFromAppend(a: seq<(PathItem, Operation)>, b: seq<(PathItem, Operation)>,
                                           tools: Dict<string, ServerTool>, routes: map<string, Route>, warn: bool)
    ensures BuildFrom(a, tools, routes, warn).Failure? ==> BuildFrom(a + b, tools, routes, warn) == BuildFrom(a, tools, routes, warn)
    ensures BuildFrom(a, tools, routes, warn).Success? ==>
      var mid := BuildFrom(a, tools, routes, warn).value;
      BuildFrom(a + b, tools, routes, warn) == BuildFrom(b, mid.0, mid.1, warn)
    decreases |a|
  {
    if a == [] {
      assert a + b == b;
    } else {
      assert (a + b)[0] == a[0] && (a + b)[1..] == a[1..] + b;
      var op := a[0].1;
      if op.operationId.Some? {
        var tool := ServerToolOf(op.operationId.value, op);
        if tool.Success? {
          BuildFromAppend(a[1..], b, Register(tools, tool.value, warn), routes[op.operationId.value := RouteOf(a[0])], warn);
        }
      }
    }
  }

  /** Building from path item `i` on is building its operations, then the path items after it. */
  lemma BuildFromPathStep(paths: seq<PathItem>, i: nat, tools: Dict<string, ServerTool>, routes: map<string, Route>, warn: bool)
    requires i < |paths|
    ensures
      var here := BuildFrom(PathPairs(paths[i], paths[i].operations), tools, routes, warn);
      && (here.Failure? ==> BuildFrom(OperationPairs(paths[i..]), tools, routes, warn) == here)
      && (here.Success? ==>
            BuildFrom(OperationPairs(paths[i..]), tools, routes, warn) ==
            BuildFrom(OperationPairs(paths[i + 1..]), here.value.0, here.value.1, warn))
  {
    OperationPairsStep(paths, i);
    assert paths[i].operations[0..] == paths[i].operations;
    BuildFromAppend(PathPairs(paths[i], paths[i].operations), OperationPairs(paths[i + 1..]), tools, routes, warn);
  }

  /** The inner loop of `build_server`: the tools and routes of the operations of one path item. */
  method AddPathTools(mcp: ToolManager, client: RoutingClient, path: PathItem) returns (r: Result<(), Error>)
    modifies mcp, client
    ensures
      var built := BuildFrom(PathPairs(path, path.operations), old(mcp.tools), old(client.routes), mcp.warnOnDuplicateTools);
      && (r.Success? <==> built.Success?)
      && (r.Failure? ==> r.error == built.error)
      && (r.Success? ==> mcp.tools == built.value.0 && client.routes == built.value.1)
  {
    ghost var pairs := PathPairs(path, path.operations);
    ghost var tools0 := mcp.tools;
    ghost var routes0 := client.routes;
    assert path.operations[0..] == path.operations;
    var j := 0;
    while j < |path.operations|
      invariant 0 <= j <= |path.operations|
      invariant BuildFrom(PathPairs(path, path.operations[j..]), mcp.tools, client.routes, mcp.warnOnDuplicateTools) ==
                BuildFrom(pairs, tools0, routes0, mcp.warnOnDuplicateTools)
    {
      var op := path.operations[j];
      PathPairsStep(path, path.operations, j, []);
      assert PathPairs(path, path.operations[j..]) + [] == PathPairs(path, path.operations[j..]);
      assert PathPairs(path, path.operations[j + 1..]) + [] == PathPairs(path, path.operations[j + 1..]);
      var tool := ToolFromPath(client, path, op);
      if tool.Failure? {
        return Failure(tool.error);
      }
      mcp.RegisterTool(tool.value);
      j := j + 1;
    }
    return Success(());
  }

  /** `ServerFactory.build_server`, after the specification is loaded. */
  method BuildServer(spec: Specification, openapiUrl: Url, warnOnDuplicateTools: bool)
    returns (r: Result<(ToolManager, RoutingClient), Error>)
    ensures r.Failure? <==> Build(spec, openapiUrl, warnOnDuplicateTools).Failure?
    ensures r.Failure? ==> r.error == Build(spec, openapiUrl, warnOnDuplicateTools).error
    ensures r.Success? ==>
      var built := Build(spec, openapiUrl, warnOnDuplicateTools).value;
      && fresh(r.value.0) && fresh(r.value.1)
      && r.value.1.baseUrl == built.0
      && r.value.0.tools == built.1
      && r.value.1.routes == built.2
      && r.value.0.warnOnDuplicateTools == warnOnDuplicateTools
  {
    if spec.servers == [] {
      return Failure(NoServers);
    }
    var serverUrl := spec.servers[0].url;
    if !IsAbsolute(serverUrl) {
      serverUrl := Resolve(openapiUrl, serverUrl);
    }
    var client := new RoutingClient.Init(RStrip(ToString(serverUrl), '/'));
    var mcp := new ToolManager.Init(warnOnDuplicateTools);
    var added := AddSpecTools(mcp, client, spec.paths);
    if added.Failure? {
      return Failure(added.error);
    }
    return Success((mcp, client));
  }

  /** The outer loop of `build_server`: the tools and routes of every path item. */
  method AddSpecTools(mcp: ToolManager, client: RoutingClient, paths: seq<PathItem>) returns (r: Result<(), Error>)
    modifies mcp, client
    ensures
      var built := BuildFrom(OperationPairs(paths), old(mcp.tools), old(client.routes), mcp.warnOnDuplicateTools);
      && (r.Success? <==> built.Success?)
      && (r.Failure? ==> r.error == built.error)
      && (r.Success? ==> mcp.tools == built.value.0 && client.routes == built.value.1)
  {
    ghost var goal := BuildFrom(OperationPairs(paths), mcp.tools, client.routes, mcp.warnOnDuplicateTools);
    assert paths[0..] == paths;
    var i := 0;
    while i < |paths|
      invariant 0 <= i <= |paths|
      invariant BuildFrom(OperationPairs(paths[i..]), mcp.tools, client.routes, mcp.warnOnDuplicateTools) == goal
    {
      var path := paths[i];
      ghost var tools, routes := mcp.tools, client.routes;
      ghost var here := BuildFrom(PathPairs(path, path.operations), tools, routes, mcp.warnOnDuplicateTools);
      BuildFromPathStep(paths, i, tools, routes, mcp.warnOnDuplicateTools);
      var added := AddPathTools(mcp, client, path);
      if added.Failure? {
        assert here.Failure? && goal == here;
        return Failure(added.error);
      }
      assert here.Success? && mcp.tools == here.value.0 && client.routes == here.value.1;
      i := i + 1;
    }
    assert OperationPairs(paths[i..]) == [];
    return Success(());
  }
}
