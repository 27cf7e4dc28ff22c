/**
 * How the pieces fit together: the catalog, the binder and the server fields
 * agree on the argument names of an operation, and the two registries apply
 * opposite duplicate-id policies.  Then concrete operations of the Todo test
 * API in tests/todos.py.
 */
module Scenarios {

  import opened Wrappers
  import opened Dicts
  import opened Text
  import opened Urls
  import opened OpenApi
  import opened ApiClient
  import opened Catalog
  import opened Binding
  import opened SpecHandlers
  import opened Server

  /**
   * When no name repeats, `list_tools` and `tool_params_from_operation` key
   * the arguments of an operation the same way, in the same order.
   */
  lemma CatalogKeysMatchFields(op: Operation)
    requires InputSchemaOf(op).Success? && ToolParams(op).Success?
    ensures ToolParams(op).value.keys == InputSchemaOf(op).value.properties.keys
  {
    InputSchemaSpec(op);
    ToolParamsSpec(op);
    NamesAppend(ParamArgs(op.parameters), RequestBodyArgs(op));
    var names := Names(OperationArgs(op));
    assert [] + names == names;
    AppendNewFresh([], names);
  }

  /** The required names of `list_tools` are exactly the names `call_tool` checks for. */
  lemma CatalogRequiredMatchesBinder(op: Operation)
    requires InputSchemaOf(op).Success?
    ensures forall n :: n in InputSchemaOf(op).value.required <==> n in RequiredSet(op)
  {
    InputSchemaSpec(op);
  }

  /**
   * When no name repeats (so that `list_tools` succeeds), a server field is
   * marked required exactly when its name is required.
   */
  lemma RequiredFlagsAgree(op: Operation, k: string)
    requires Distinct(Names(OperationArgs(op))) && ToolParams(op).Success?
    requires k in ToolParams(op).value.entries
    ensures ToolParams(op).value.entries[k].fragment.required <==> k in RequiredSet(op)
  {
    var args := OperationArgs(op);
    var names := Names(args);
    FieldOfName(op, k);
    var i :| 0 <= i < |args| && LastAt(names, i) && ArgName(args[i]) == k &&
             CreateParam(args[i]) == Success(ToolParams(op).value.entries[k]);
    assert names[i] == k;
    if k in RequiredNames(args) {
      var j :| 0 <= j < |args| && ArgRequired(args[j]) && ArgName(args[j]) == k;
      assert names[j] == k;
    }
  }

  /**
   * The two registries resolve a repeated operation id in opposite ways: the
   * handler's index keeps the last operation, the FastMCP registry keeps the
   * first tool when duplicates only warn and the last one otherwise.
   */
  lemma DuplicateIdPolicies(spec: Specification, openapiUrl: Url, i: nat, j: nat)
    requires spec.servers != [] && AllBuildable(OperationPairs(spec.paths))
    requires FirstAt(Ids(OperationPairs(spec.paths)), i) && LastAt(Ids(OperationPairs(spec.paths)), j)
    requires Ids(OperationPairs(spec.paths))[i] == Ids(OperationPairs(spec.paths))[j]
    ensures OperationIndex(spec.paths).Success? && Build(spec, openapiUrl, true).Success? && Build(spec, openapiUrl, false).Success?
    ensures
      var pairs := OperationPairs(spec.paths);
      var opId := Ids(pairs)[j];
      && opId in OperationIndex(spec.paths).value.entries
      && OperationIndex(spec.paths).value.entries[opId] == pairs[j]
      && opId in Build(spec, openapiUrl, true).value.1.entries
      && Success(Build(spec, openapiUrl, true).value.1.entries[opId]) == ServerToolOf(opId, pairs[i].1)
      && opId in Build(spec, openapiUrl, false).value.1.entries
      && Success(Build(spec, openapiUrl, false).value.1.entries[opId]) == ServerToolOf(opId, pairs[j].1)
  {
    OperationIndexSpec(spec.paths);
    BuildKeepsFirst(spec, openapiUrl, i);
    BuildKeepsLast(spec, openapiUrl, j);
  }

  const Blank := SchemaInfo(Option.None, Value.None, [], Value.None, false, false, false)

  function StringSchema(): Schema {
    Plain(String, Blank)
  }

  /** The tag lookup `GET /todos/tags/{tag}`. */
  function TagPath(): PathItem {
    PathItem("/todos/tags/{tag}", [TagOperation()])
  }

  function TagOperation(): Operation {
    Operation(Some("get_todos_with_tag"), Get, Some("Get all todos with a given tag"),
              Some("Get all todos that have the given tag"),
              [Parameter("tag", Path, StringSchema(), true)], Option.None)
  }

  function TagArgs(): map<string, Value> {
    map["tag" := Text("work")]
  }

  lemma TagRequired()
    ensures RequiredSet(TagOperation()) == {"tag"}
  {
    assert OperationArgs(TagOperation()) == [ParamArg(TagOperation().parameters[0])];
  }

  lemma TagSubstitution()
    ensures SubstitutePath(TagPath().url, TagOperation().parameters, TagArgs()) == Success("/todos/tags/work")
  {
    assert "/todos/tags/{tag}" == "/todos/tags/" + Placeholder("tag");
    TrailingPlaceholder("/todos/tags/", TagOperation().parameters[0], TagArgs());
    assert "/todos/tags/" + Str(TagArgs()["tag"]) == "/todos/tags/work";
  }

  lemma TagQuery(demandAll: bool)
    ensures ExtractQuery(TagOperation(), TagArgs(), demandAll) == Success(Empty())
  {
    assert TagOperation().parameters[1..] == [];
  }

  /** A required path parameter: as written the call is refused whatever is supplied. */
  lemma TagLookupAsWritten()
    ensures BindAsWritten(TagPath(), TagOperation(), TagArgs()) == Failure(MissingRequiredParameters({"tag"}))
  {
    TagRequired();
    TagSubstitution();
    TagQuery(true);
  }

  /** Corrected, the same call is sent with the tag in the path. */
  lemma TagLookupCorrected()
    ensures Bind(TagPath(), TagOperation(), TagArgs()) == Success(HttpRequest("GET", "/todos/tags/work", Empty(), Empty()))
  {
    TagRequired();
    TagSubstitution();
    TagQuery(false);
    assert RequiredSet(TagOperation()) - TagArgs().Keys == {};
  }

  /** The `Todo` body of `POST /todos`: `title` and `completed` are required, `id` and `tags` are not. */
  function TodoSchema(): Schema {
    ObjectSchema(Blank,
      [Property("id", Plain(Integer, Blank)), Property("title", StringSchema()),
       Property("completed", Plain(Boolean, Blank)), Property("tags", Plain(Array, Blank))],
      ["title", "completed"])
  }

  function CreateOperation(): Operation {
    Operation(Some("create_todo"), Post, Some("Create a todo"), Some("Add an item to the todo list"), [],
              Some(RequestBody([Content("application/json", TodoSchema())])))
  }

  function CreateArgs(): map<string, Value> {
    map["title" := Text("Buy milk"), "completed" := Bool(false)]
  }

  lemma CreateBodyArgs()
    ensures RequestBodyArgs(CreateOperation()) == PropertyArgs(TodoSchema().properties, TodoSchema().required)
    ensures OperationArgs(CreateOperation()) == RequestBodyArgs(CreateOperation())
  {
    var contents := CreateOperation().requestBody.value.content;
    assert contents[1..] == [];
    assert ParamArgs([]) == [];
  }

  /** An optional body property left out: as written the body loop raises on `id`. */
  lemma CreateTodoAsWritten()
    ensures BindAsWritten(PathItem("/todos", [CreateOperation()]), CreateOperation(), CreateArgs()) ==
            Failure(MissingBodyParameter("id"))
  {
    CreateBodyArgs();
    var props := RequestBodyArgs(CreateOperation());
    assert props[0] == BodyArg(Property("id", Plain(Integer, Blank)), ["title", "completed"]);
    assert "id" !in CreateArgs();
    assert ExtractBody(CreateOperation(), CreateArgs(), true) == Failure(MissingBodyParameter("id"));
  }

  /** A filter on `GET /todos` with two optional query parameters. */
  function FilterOperation(): Operation {
    Operation(Some("filter_todos"), Get, Some("Filter todos"), Option.None,
              [Parameter("tag", Query, StringSchema(), false), Parameter("completed", Query, Plain(Boolean, Blank), false)],
              Option.None)
  }

  /** As written, supplying one optional query argument and not the other fails on the other. */
  lemma FilterAsWritten()
    ensures BindAsWritten(PathItem("/todos", [FilterOperation()]), FilterOperation(), map["tag" := Text("home")]) ==
            Failure(MissingArgument("completed"))
  {
    var ps := FilterOperation().parameters;
    assert ps[1..][1..] == [];
  }

  function ApiServer(): Specification {
    Specification([Server(Url(Option.None, Option.None, "/api", Option.None, Option.None))], [])
  }

  function ExampleSpecUrl(): Url {
    Url(Some("https"), Some("example.com"), "/openapi.json", Option.None, Option.None)
  }

  /** A relative server "/api" against "https://example.com/openapi.json" keeps the host and takes the path. */
  lemma RelativeServer()
    ensures ExtractBaseUrl(ApiServer(), ExampleSpecUrl()) ==
            Success(Url(Some("https"), Some("example.com"), "/api", Option.None, Option.None))
  {
    ResolveAbsolutePath(ExampleSpecUrl(), ApiServer().servers[0].url);
  }

  function ApiV1Server(): Specification {
    Specification([Server(Url(Option.None, Option.None, "api/v1", Option.None, Option.None))], [])
  }

  /** A relative server "api/v1" against "https://example.com/openapi.json" lands in the base's directory. */
  lemma RelativePathServer()
    ensures ExtractBaseUrl(ApiV1Server(), ExampleSpecUrl()) ==
            Success(Url(Some("https"), Some("example.com"), "/api/v1", Option.None, Option.None))
  {
    var base := ExampleSpecUrl();
    assert base.path == "/" + "openapi.json";
    ResolveRelativePath(base, ApiV1Server().servers[0].url, "/", "openapi.json");
    assert "/" + "api/v1" == "/api/v1";
  }

  /** As text, the selected server URL is "https://example.com/api". */
  lemma RelativeServerText()
    ensures SelectServerUrl(ApiServer(), ExampleSpecUrl()) == Success("https://example.com/api")
  {
    RelativeServer();
    ExampleUrlText();
    ServerUrlAgreesWithClient(ApiServer(), ExampleSpecUrl());
  }

  /** As text, that URL is "https://example.com/api", which has no trailing "/" to strip. */
  lemma ExampleUrlText()
    ensures ToString(Url(Some("https"), Some("example.com"), "/api", Option.None, Option.None)) == "https://example.com/api"
    ensures RStrip("https://example.com/api", '/') == "https://example.com/api"
  {
  }
}
