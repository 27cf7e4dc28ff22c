/**
 * mcp_openapi/spec_handlers.py: `OpenAPISpecHandler`, which indexes the
 * operations of a specification by operation id, lists them as tools and
 * dispatches tool calls to the upstream API.
 */
module SpecHandlers {

  import opened Wrappers
  import opened Dicts
  import opened Urls
  import opened OpenApi
  import opened ApiClient
  import opened Catalog
  import opened Binding
  import opened Text

  type Index = Dict<string, (PathItem, Operation)>

  /** The loop of `__init__` over the `(path, operation)` pairs, from the index `acc`. */
  function IndexFrom(pairs: seq<(PathItem, Operation)>, acc: Index): Result<Index, Error>
    decreases |pairs|
  {
    if pairs == [] then Success(acc)
    else if pairs[0].1.operationId.None? then Failure(MissingOperationId(pairs[0].1))
    else IndexFrom(pairs[1..], acc.Put(pairs[0].1.operationId.value, pairs[0]))
  }

  /** `self.operations` */
  function OperationIndex(paths: seq<PathItem>): Result<Index, Error> {
    IndexFrom(OperationPairs(paths), Empty())
  }

  predicate AllIdentified(pairs: seq<(PathItem, Operation)>) {
    forall i :: 0 <= i < |pairs| ==> pairs[i].1.operationId.Some?
  }

  /** The operation ids of `pairs`, in order. */
  function Ids(pairs: seq<(PathItem, Operation)>): (r: seq<string>)
    requires AllIdentified(pairs)
    ensures |r| == |pairs|
    ensures forall i :: 0 <= i < |pairs| ==> r[i] == pairs[i].1.operationId.value
    decreases |pairs|
  {
    if pairs == [] then [] else [pairs[0].1.operationId.value] + Ids(pairs[1..])
  }

  /**
   * Indexing fails exactly when an operation has no id, and then reports the
   * first such operation.
   */
  lemma {:induction false} IndexFromOutcome(pairs: seq<(PathItem, Operation)>, acc: Index)
    ensures IndexFrom(pairs, acc).Success? <==> AllIdentified(pairs)
    ensures IndexFrom(pairs, acc).Failure? ==>
      exists i :: 0 <= i < |pairs| && pairs[i].1.operationId.None? &&
                  AllIdentified(pairs[..i]) && IndexFrom(pairs, acc).error == MissingOperationId(pairs[i].1)
    decreases |pairs|
  {
    if pairs != [] {
      if pairs[0].1.operationId.None? {
        assert AllIdentified(pairs[..0]);
      } else {
        IndexFromOutcome(pairs[1..], acc.Put(pairs[0].1.operationId.value, pairs[0]));
        assert forall i :: 1 <= i < |pairs| ==> pairs[i] == pairs[1..][i - 1];
        if IndexFrom(pairs, acc).Failure? {
          var i :| 0 <= i < |pairs[1..]| && pairs[1..][i].1.operationId.None? &&
                   AllIdentified(pairs[1..][..i]) && IndexFrom(pairs, acc).error == MissingOperationId(pairs[1..][i].1);
          var prefix, tail := pairs[..i + 1], pairs[1..][..i];
          forall k | 0 <= k < |prefix|
            ensures prefix[k].1.operationId.Some?
          {
            if k > 0 {
              assert prefix[k] == tail[k - 1];
            }
          }
        }
      }
    }
  }

  /** A successful index is the successive assignments `operations[id] = (path, op)`. */
  lemma {:induction false} IndexFromValue(pairs: seq<(PathItem, Operation)>, acc: Index)
    requires AllIdentified(pairs)
    ensures IndexFrom(pairs, acc) == Success(PutAll(acc, Ids(pairs), pairs))
    decreases |pairs|
  {
    if pairs != [] {
      assert AllIdentified(pairs[1..]) by {
        assert forall i :: 0 <= i < |pairs[1..]| ==> pairs[1..][i] == pairs[i + 1];
      }
      IndexFromValue(pairs[1..], acc.Put(pairs[0].1.operationId.value, pairs[0]));
      assert Ids(pairs)[1..] == Ids(pairs[1..]);
    }
  }

  /**
   * `__init__`: the index fails exactly when some operation has no id.
   * Otherwise its keys are the ids in order of first appearance, and each id
   * maps to the last `(path, operation)` pair that declares it.
   */
  lemma OperationIndexSpec(paths: seq<PathItem>)
    ensures OperationIndex(paths).Success? <==> AllIdentified(OperationPairs(paths))
    ensures OperationIndex(paths).Failure? ==> OperationIndex(paths).error.MissingOperationId?
    ensures OperationIndex(paths).Success? ==>
      var pairs := OperationPairs(paths);
      var d := OperationIndex(paths).value;
      && d.Valid()
      && d.keys == AppendNew([], Ids(pairs))
      && (forall k :: k in d.entries <==> k in Ids(pairs))
      && (forall i :: LastAt(Ids(pairs), i) ==> d.entries[Ids(pairs)[i]] == pairs[i])
  {
    var pairs := OperationPairs(paths);
    IndexFromOutcome(pairs, Empty());
    if AllIdentified(pairs) {
      IndexFromValue(pairs, Empty());
      PutAllSpec(Empty(), Ids(pairs), pairs);
    }
  }

  /** A later operation with an id already indexed replaces the earlier one. */
  lemma LaterDuplicateWins(paths: seq<PathItem>, i: nat, j: nat)
    requires OperationIndex(paths).Success?
    requires i < j < |OperationPairs(paths)| && OperationPairs(paths)[j].1.operationId.Some?
    requires OperationPairs(paths)[i].1.operationId == OperationPairs(paths)[j].1.operationId
    requires forall k :: j < k < |OperationPairs(paths)| ==>
               OperationPairs(paths)[k].1.operationId != OperationPairs(paths)[j].1.operationId
    ensures OperationPairs(paths)[j].1.operationId.value in OperationIndex(paths).value.entries
    ensures OperationIndex(paths).value.entries[OperationPairs(paths)[j].1.operationId.value] == OperationPairs(paths)[j]
  {
    OperationIndexSpec(paths);
    var pairs := OperationPairs(paths);
    assert LastAt(Ids(pairs), j);
  }

  /** The nested loops of `__init__` that fill `self.operations`. */
  method BuildOperations(paths: seq<PathItem>) returns (r: Result<Index, Error>)
    ensures r == OperationIndex(paths)
  {
    var operations: Index := Empty();
    var i := 0;
    while i < |paths|
      invariant 0 <= i <= |paths|
      invariant IndexFrom(OperationPairs(paths[i..]), operations) == OperationIndex(paths)
    {
      var path := paths[i];
      OperationPairsStep(paths, i);
      var rest := OperationPairs(paths[i + 1..]);
      var j := 0;
      while j < |path.operations|
        invariant 0 <= j <= |path.operations|
        invariant IndexFrom(PathPairs(path, path.operations[j..]) + rest, operations) == OperationIndex(paths)
      {
        var op := path.operations[j];
        PathPairsStep(path, path.operations, j, rest);
        if op.operationId.None? {
          return Failure(MissingOperationId(op));
        }
        operations := operations.Put(op.operationId.value, (path, op));
        j := j + 1;
      }
      assert PathPairs(path, path.operations[j..]) + rest == rest;
      i := i + 1;
    }
    assert OperationPairs(paths[i..]) == [];
    return Success(operations);
  }

  /**
   * What a call of tool `name` sends upstream: an unknown name is a
   * `KeyError`; otherwise the binding as written of its operation.
   */
  function CallRequest(operations: Index, name: string, args: map<string, Value>): Result<HttpRequest, Error> {
    if name !in operations.entries then Failure(UnknownTool(name))
    else BindAsWritten(operations.entries[name].0, operations.entries[name].1, args)
  }

  lemma RequiredNamesStep(args: seq<ArgSource>, j: nat, rest: seq<ArgSource>)
    requires j < |args|
    ensures RequiredNames(args[j..] + rest) ==
      (if ArgRequired(args[j]) then {ArgName(args[j])} else {}) + RequiredNames(args[j + 1..] + rest)
  {
    ArgsStep(args, j, rest);
  }

  lemma BodyFromStep(props: seq<ArgSource>, k: nat, rest: seq<ArgSource>, args: map<string, Value>, acc: Dict<string, string>)
    requires k < |props|
    ensures ArgName(props[k]) !in args ==>
      BodyFrom(props[k..] + rest, args, acc, true) == Failure(MissingBodyParameter(ArgName(props[k])))
    ensures ArgName(props[k]) in args ==>
      BodyFrom(props[k..] + rest, args, acc, true) ==
      BodyFrom(props[k + 1..] + rest, args, acc.Put(ArgName(props[k]), Str(args[ArgName(props[k])])), true)
  {
    ArgsStep(props, k, rest);
  }

  /** Extracting over two property lists is extracting over the first, then the second from its result. */
  lemma {:induction false} BodyFromAppend(a: seq<ArgSource>, b: seq<ArgSource>, args: map<string, Value>, acc: Dict<string, string>)
    ensures BodyFrom(a, args, acc, true).Failure? ==> BodyFrom(a + b, args, acc, true) == BodyFrom(a, args, acc, true)
    ensures BodyFrom(a, args, acc, true).Success? ==>
      BodyFrom(a + b, args, acc, true) == BodyFrom(b, args, BodyFrom(a, args, acc, true).value, true)
    decreases |a|
  {
    if a == [] {
      assert a + b == b;
    } else {
      assert (a + b)[0] == a[0] && (a + b)[1..] == a[1..] + b;
      var name := ArgName(a[0]);
      if name in args {
        BodyFromAppend(a[1..], b, args, acc.Put(name, Str(args[name])));
      }
    }
  }

  lemma {:induction false} RequiredNamesAppend(a: seq<ArgSource>, b: seq<ArgSource>)
    ensures RequiredNames(a + b) == RequiredNames(a) + RequiredNames(b)
    decreases |a|
  {
    if a == [] {
      assert a + b == b;
    } else {
      assert (a + b)[0] == a[0] && (a + b)[1..] == a[1..] + b;
      RequiredNamesAppend(a[1..], b);
    }
  }

  /** The handler of the `list_tools` and `call_tool` requests. */
  class OpenAPISpecHandler {
    const spec: Specification
    const specUrl: Url
    const operations: Index
    const apiClient: APIClient

    /** `operations` is the index of the specification's operations. */
    ghost predicate Valid() {
      OperationIndex(spec.paths) == Success(operations) && operations.Valid()
    }

    constructor Init(spec: Specification, specUrl: Url, operations: Index, apiClient: APIClient)
      ensures this.spec == spec && this.specUrl == specUrl
      ensures this.operations == operations && this.apiClient == apiClient
    {
      this.spec := spec;
      this.specUrl := specUrl;
      this.operations := operations;
      this.apiClient := apiClient;
    }

    /**
     * `OpenAPISpecHandler(spec, spec_url)`: raises on an operation without
     * id, and then, through the client, on a specification without servers.
     */
    static method New(spec: Specification, specUrl: Url) returns (r: Result<OpenAPISpecHandler, Error>)
      ensures r.Failure? <==> !AllIdentified(OperationPairs(spec.paths)) || spec.servers == []
      ensures r.Failure? && !AllIdentified(OperationPairs(spec.paths)) ==> r.error.MissingOperationId?
      ensures r.Failure? && AllIdentified(OperationPairs(spec.paths)) ==> r.error == NoServers
      ensures r.Success? ==>
        && fresh(r.value) && fresh(r.value.apiClient) && r.value.Valid()
        && r.value.spec == spec && r.value.specUrl == specUrl
        && r.value.apiClient.spec == spec && r.value.apiClient.issued == []
        && Success(r.value.apiClient.baseUrl) == ExtractBaseUrl(spec, specUrl)
        && r.value.apiClient.sessionBaseUrl == ToString(r.value.apiClient.baseUrl)
    {
      var operations := BuildOperations(spec.paths);
      OperationIndexSpec(spec.paths);
      if operations.Failure? {
        return Failure(operations.error);
      }
      var client := APIClient.Create(spec, specUrl);
      if client.Failure? {
        return Failure(client.error);
      }
      var handler := new OpenAPISpecHandler.Init(spec, specUrl, operations.value, client.value);
      return Success(handler);
    }

    /** `list_tools`: one tool per indexed operation, in index order. */
    method ListTools() returns (r: Result<seq<Tool>, Error>)
      requires Valid()
      ensures r == ToolsFrom(operations.keys, operations.entries, [])
    {
      var keys := operations.keys;
      var tools: seq<Tool> := [];
      var i := 0;
      while i < |keys|
        invariant 0 <= i <= |keys|
        invariant ToolsFrom(keys[i..], operations.entries, tools) == ToolsFrom(keys, operations.entries, [])
      {
        var opId := keys[i];
        var op := operations.entries[opId].1;
        var tool := ToolFor(opId, op);
        assert keys[i..][1..] == keys[i + 1..];
        if tool.Failure? {
          return Failure(tool.error);
        }
        tools := tools + [tool.value];
        i := i + 1;
      }
      return Success(tools);
    }

    /** The body of the `list_tools` loop for one operation. */
    static method ToolFor(opId: string, op: Operation) returns (r: Result<Tool, Error>)
      ensures r == ToolOf(opId, op)
    {
      var inputSchema: Dict<string, Schema> := Empty();
      var requiredFields: seq<string> := [];
      var params := op.parameters;
      ghost var paramArgs := ParamArgs(params);
      ghost var bodyArgs := RequestBodyArgs(op);
      assert paramArgs[0..] == paramArgs;
      var j := 0;
      while j < |params|
        invariant 0 <= j <= |params|
        invariant Collect(paramArgs[j..] + bodyArgs, InputSchema(inputSchema, requiredFields)) == InputSchemaOf(op)
      {
        var param := params[j];
        ArgsStep(paramArgs, j, bodyArgs);
        if param.name in inputSchema.entries {
          return Failure(DuplicateParameterName(param.name));
        }
        inputSchema := inputSchema.Put(param.name, param.schema);
        if param.required {
          requiredFields := requiredFields + [param.name];
        }
        j := j + 1;
      }
      assert paramArgs[j..] + bodyArgs == bodyArgs;
      if op.requestBody.Some? {
        var contents := op.requestBody.value.content;
        assert contents[0..] == contents;
        var c := 0;
        while c < |contents|
          invariant 0 <= c <= |contents|
          invariant Collect(BodyArgs(contents[c..]), InputSchema(inputSchema, requiredFields)) == InputSchemaOf(op)
        {
          var schema := contents[c].schema;
          BodyArgsStep(contents, c);
          ghost var later := BodyArgs(contents[c + 1..]);
          if schema.ObjectSchema? {
            ghost var props := PropertyArgs(schema.properties, schema.required);
            assert props[0..] == props;
            var k := 0;
            while k < |schema.properties|
              invariant 0 <= k <= |schema.properties|
              invariant Collect(props[k..] + later, InputSchema(inputSchema, requiredFields)) == InputSchemaOf(op)
            {
              var prop := schema.properties[k];
              ArgsStep(props, k, later);
              if prop.name in inputSchema.entries {
                return Failure(DuplicateParameterName(prop.name));
              }
              inputSchema := inputSchema.Put(prop.name, prop.schema);
              if prop.name in schema.required {
                requiredFields := requiredFields + [prop.name];
              }
              k := k + 1;
            }
            assert props[k..] + later == later;
          } else {
            assert ContentArgs(contents[c]) + later == later;
          }
          c := c + 1;
        }
        assert contents[c..] == [];
      }
      var description := ToolDescription(op);
      return Success(Tool(opId, description, InputSchema(inputSchema, requiredFields)));
    }

    /**
     * `call_tool`: binds the arguments as written and issues the request, or
     * raises before any request is issued.
     */
    method CallTool(name: string, args: map<string, Value>, response: string) returns (r: Result<string, Error>)
      modifies apiClient
      ensures CallRequest(operations, name, args).Failure? ==>
        r == Failure(CallRequest(operations, name, args).error) && apiClient.issued == old(apiClient.issued)
      ensures CallRequest(operations, name, args).Success? ==>
        r == Success(response) && apiClient.issued == old(apiClient.issued) + [CallRequest(operations, name, args).value]
    {
      if name !in operations.entries {
        return Failure(UnknownTool(name));
      }
      var path := operations.entries[name].0;
      var op := operations.entries[name].1;
      var urlPath := path.url;
      assert op.parameters[0..] == op.parameters;
      var j := 0;
      while j < |op.parameters|
        invariant 0 <= j <= |op.parameters|
        invariant SubstitutePath(urlPath, op.parameters[j..], args) == SubstitutePath(path.url, op.parameters, args)
      {
        var param := op.parameters[j];
        assert op.parameters[j..][1..] == op.parameters[j + 1..];
        if param.location == Path {
          if param.name !in args {
            return Failure(MissingArgument(param.name));
          }
          urlPath := Replace(urlPath, Placeholder(param.name), Str(args[param.name]));
        }
        j := j + 1;
      }
      var query := ExtractQueryParams(op, args);
      if query.Failure? {
        return Failure(query.error);
      }
      var body := ExtractBodyParams(op, args);
      if body.Failure? {
        return Failure(body.error);
      }
      ExtractValid(op, args, true);
      var allParams := query.value.keys + body.value.keys;
      var required := GetRequiredParams(op);
      var missing := required - (set n | n in allParams);
      assert (set n | n in allParams) == query.value.entries.Keys + body.value.entries.Keys;
      if missing != {} {
        return Failure(MissingRequiredParameters(missing));
      }
      var text := apiClient.Call(Verb(op.verb), urlPath, query.value, body.value, response);
      return Success(text);
    }

    /** `_extract_query_params` */
    static method ExtractQueryParams(op: Operation, args: map<string, Value>) returns (r: Result<Dict<string, string>, Error>)
      ensures r == ExtractQuery(op, args, true)
    {
      if |args| == 0 {
        return Success(Empty());
      }
      var queryParams: Dict<string, string> := Empty();
      assert op.parameters[0..] == op.parameters;
      var j := 0;
      while j < |op.parameters|
        invariant 0 <= j <= |op.parameters|
        invariant QueryFrom(op.parameters[j..], args, queryParams, true) == QueryFrom(op.parameters, args, Empty(), true)
      {
        var param := op.parameters[j];
        assert op.parameters[j..][1..] == op.parameters[j + 1..];
        if param.location == Query {
          if param.name !in args {
            return Failure(MissingArgument(param.name));
          }
          queryParams := queryParams.Put(param.name, Str(args[param.name]));
        }
        j := j + 1;
      }
      return Success(queryParams);
    }

    /** `_extract_body_params` */
    static method ExtractBodyParams(op: Operation, args: map<string, Value>) returns (r: Result<Dict<string, string>, Error>)
      ensures r == ExtractBody(op, args, true)
    {
      if |args| == 0 || op.requestBody.None? {
        return Success(Empty());
      }
      var bodyParams: Dict<string, string> := Empty();
      var contents := op.requestBody.value.content;
      assert contents[0..] == contents;
      var c := 0;
      while c < |contents|
        invariant 0 <= c <= |contents|
        invariant BodyFrom(BodyArgs(contents[c..]), args, bodyParams, true) == ExtractBody(op, args, true)
      {
        var schema := contents[c].schema;
        BodyArgsStep(contents, c);
        ghost var later := BodyArgs(contents[c + 1..]);
        if schema.ObjectSchema? {
          ghost var props := PropertyArgs(schema.properties, schema.required);
          BodyFromAppend(props, later, args, bodyParams);
          var added := AddBodyProperties(schema, args, bodyParams);
          if added.Failure? {
            return added;
          }
          bodyParams := added.value;
        } else {
          assert ContentArgs(contents[c]) + later == later;
        }
        c := c + 1;
      }
      assert contents[c..] == [];
      return Success(bodyParams);
    }

    /** The loop of `_extract_body_params` over the properties of one object body schema. */
    static method AddBodyProperties(schema: Schema, args: map<string, Value>, acc: Dict<string, string>)
      returns (r: Result<Dict<string, string>, Error>)
      requires schema.ObjectSchema?
      ensures r == BodyFrom(PropertyArgs(schema.properties, schema.required), args, acc, true)
    {
      ghost var props := PropertyArgs(schema.properties, schema.required);
      assert props[0..] == props;
      var bodyParams := acc;
      var k := 0;
      while k < |schema.properties|
        invariant 0 <= k <= |schema.properties|
        invariant BodyFrom(props[k..], args, bodyParams, true) == BodyFrom(props, args, acc, true)
      {
        var prop := schema.properties[k];
        BodyFromStep(props, k, [], args, bodyParams);
        assert props[k..] + [] == props[k..] && props[k + 1..] + [] == props[k + 1..];
        if prop.name !in args {
          return Failure(MissingBodyParameter(prop.name));
        }
        bodyParams := bodyParams.Put(prop.name, Str(args[prop.name]));
        k := k + 1;
      }
      return Success(bodyParams);
    }

    /** The loop of `_get_required_params` over the properties of one object body schema. */
    static method AddRequiredProperties(schema: Schema, acc: set<string>) returns (r: set<string>)
      requires schema.ObjectSchema?
      ensures r == acc + RequiredNames(PropertyArgs(schema.properties, schema.required))
    {
      ghost var props := PropertyArgs(schema.properties, schema.required);
      assert props[0..] == props;
      r := acc;
      var k := 0;
      while k < |schema.properties|
        invariant 0 <= k <= |schema.properties|
        invariant r + RequiredNames(props[k..]) == acc + RequiredNames(props)
      {
        RequiredNamesStep(props, k, []);
        assert props[k..] + [] == props[k..] && props[k + 1..] + [] == props[k + 1..];
        if schema.properties[k].name in schema.required {
          r := r + {schema.properties[k].name};
        }
        k := k + 1;
      }
    }

    /** `_get_required_params` */
    static method GetRequiredParams(op: Operation) returns (r: set<string>)
      ensures r == RequiredSet(op)
    {
      var requiredParams: set<string> := {};
      ghost var paramArgs := ParamArgs(op.parameters);
      ghost var bodyArgs := RequestBodyArgs(op);
      assert paramArgs[0..] == paramArgs;
      var j := 0;
      while j < |op.parameters|
        invariant 0 <= j <= |op.parameters|
        invariant requiredParams + RequiredNames(paramArgs[j..] + bodyArgs) == RequiredSet(op)
      {
        RequiredNamesStep(paramArgs, j, bodyArgs);
        if op.parameters[j].required {
          requiredParams := requiredParams + {op.parameters[j].name};
        }
        j := j + 1;
      }
      assert paramArgs[j..] + bodyArgs == bodyArgs;
      if op.requestBody.Some? {
        var contents := op.requestBody.value.content;
        assert contents[0..] == contents;
        var c := 0;
        while c < |contents|
          invariant 0 <= c <= |contents|
          invariant requiredParams + RequiredNames(BodyArgs(contents[c..])) == RequiredSet(op)
        {
          BodyArgsStep(contents, c);
          RequiredNamesAppend(ContentArgs(contents[c]), BodyArgs(contents[c + 1..]));
          var schema := contents[c].schema;
          if schema.ObjectSchema? {
            requiredParams := AddRequiredProperties(schema, requiredParams);
          }
          c := c + 1;
        }
        assert contents[c..] == [];
      }
      return requiredParams;
    }
  }
}
