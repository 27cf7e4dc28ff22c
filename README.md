# mcp-openapi core, modelled in Dafny

mcp-openapi exposes the operations of an OpenAPI specification as MCP tools.
Each operation becomes a tool. The tool is named by the operation id, and its
input schema flattens the operation's parameters and the properties of its
object request bodies into one namespace. A tool call binds the arguments
back into an HTTP request: path-template substitution, query parameters,
body parameters and a check that the required names are present. It then
sends the request to the API's first server.

The project models three source files:

- `mcp_openapi/spec_handlers.py` is the low-level MCP handler. It is the
  class `SpecHandlers.OpenAPISpecHandler`:
  - its constructor indexes the operations by id;
  - `list_tools` builds the catalog (module `Catalog`);
  - `call_tool` performs the binding, whose functions are in module `Binding`.
- `mcp_openapi/server.py` is the FastMCP server, in module `Server`:
  - the type mapper;
  - argument fields built from the parameters and body properties;
  - routes registered with the client;
  - tool registration under FastMCP's duplicate-name policy;
  - the choice of the server URL.
- `mcp_openapi/api_client.py` is module `ApiClient`: the base URL of the
  upstream API, and the client that issues requests.

Supporting modules:

- `Dicts` is a Python dict as an insertion-ordered key list plus a map.
  Assigning to an existing key keeps that key's position.
- `Text` holds `str.replace`, `split`, `join`, `rstrip` and `str()` of integers.
- `Urls` models `URL.join` as the reference resolution of RFC 3986,
  sections 5.2.2 to 5.3.
- `OpenApi` holds the specification's entities and the errors the core raises.
- `Scenarios` holds the cross-module properties and concrete operations of
  the Todo test API (`tests/todos.py`).

Code that runs a loop over mutable state is a `method`. Each such method is
proved equal to a function, and the properties are lemmas about those
functions. `call_tool` in the class models the code as written.
`Binding.Bind` is the corrected binding described under "## Findings". The
lemma `Binding.CorrectionAgreesWhereAsWrittenSucceeds` relates the two.

Where the program's own evidence shows an intent that the code misses, the
model follows the code and records the gap under "## Findings":

- The Todo test API declares the route `GET /todos/tags/{tag}`
  (tests/todos.py:73-81). As written, `call_tool` refuses every call of it
  (finding 1).
- Its `Todo` body has the optional fields `id` and `tags`
  (tests/todos.py:28-32). The body loop's message "Missing required body
  parameter" (mcp_openapi/spec_handlers.py:168) names only required
  properties. As written, leaving out `id` still fails (finding 2).

A repeated operation id is resolved in two different ways:

- The handler's index keeps the last operation
  (`SpecHandlers.LaterDuplicateWins`).
- FastMCP's registry keeps the first tool when duplicates only warn
  (`Scenarios.DuplicateIdPolicies`).

## Model

| member | source | states |
|---|---|---|
| SpecHandlers.OpenAPISpecHandler.New | mcp_openapi/spec_handlers.py:27-39 | Construction fails exactly when an operation has no id (`MissingOperationId`) or, failing that, when the specification has no server (`NoServers`). On success the handler's index is the operation index, and the client is fresh with the extracted base URL and no requests issued. |
| SpecHandlers.OpenAPISpecHandler.Init | mcp_openapi/spec_handlers.py:27-39 | The handler keeps the specification, its URL, the index and the client it is given. |
| SpecHandlers.BuildOperations | mcp_openapi/spec_handlers.py:31-37 | The nested loops over paths and operations compute the operation index, raising on the first operation without an id. |
| SpecHandlers.IndexFromOutcome | mcp_openapi/spec_handlers.py:31-37 | Indexing succeeds iff every operation has an id. A failure names the first operation without one, and all operations before it have ids. |
| SpecHandlers.IndexFromValue | mcp_openapi/spec_handlers.py:31-37 | A successful index is the successive dict assignments `operations[id] = (path, op)`. |
| SpecHandlers.OperationIndexSpec | mcp_openapi/spec_handlers.py:31-37 | The index exists iff every operation has an id. Its keys are the ids in order of first appearance, without repeats. It contains exactly the ids, and each id maps to the last (path, operation) pair that declares it. |
| SpecHandlers.LaterDuplicateWins | mcp_openapi/spec_handlers.py:37 | When two operations share an id, the later one replaces the earlier one in the index. |
| SpecHandlers.OpenAPISpecHandler.ListTools | mcp_openapi/spec_handlers.py:43-108 | Listing produces one tool per index key, in key order, or fails with the first operation's duplicate-name error. |
| SpecHandlers.OpenAPISpecHandler.ToolFor | mcp_openapi/spec_handlers.py:52-106 | The loop body of `list_tools` for one operation builds exactly the catalog tool of that operation. |
| Catalog.ToolsFromOutcome | mcp_openapi/spec_handlers.py:51-106 | Listing succeeds iff every indexed operation has an input schema. |
| Catalog.ToolsFromValue | mcp_openapi/spec_handlers.py:51-106 | There is one tool per key, in key order. The tool at position i is the one built for key i and its operation. |
| Catalog.ToolOfNaming | mcp_openapi/spec_handlers.py:92-106 | A listed tool is named by its key, described by its summary and description, and carries its operation's input schema. |
| Catalog.InputSchemaSpec | mcp_openapi/spec_handlers.py:60-90 | The input schema exists iff the parameter names and the object-body property names are pairwise distinct; otherwise `DuplicateParameterName`. The keys are those names, parameters first, each mapped to its own schema. `required` names exactly the required parameters and the required properties, and contains only keys. |
| Catalog.CollectOutcome | mcp_openapi/spec_handlers.py:64-88 | Collecting fails iff a name repeats, and then it reports a repeated name. |
| OpenApi.ToolDescription | mcp_openapi/spec_handlers.py:92 | The description is "summary - description" when both are non-empty, the single present non-empty one otherwise, and "" when neither is. |
| Text.JoinNonEmptyPair | mcp_openapi/spec_handlers.py:92 | `" - ".join(filter(None, [a, b]))` skips absent and empty strings. |
| SpecHandlers.OpenAPISpecHandler.CallTool | mcp_openapi/spec_handlers.py:110-141 | Unknown names, missing path arguments, extraction errors and missing required names fail without issuing a request. Otherwise exactly one request is appended: the upper-case verb, the substituted path, and the query and body the code extracts. The upstream text is returned. |
| Binding.SubstitutePathOutcome | mcp_openapi/spec_handlers.py:116-121 | Path substitution fails iff some path parameter has no argument, and then names such a parameter (`KeyError`). |
| Binding.OnlyPathParametersSubstitute | mcp_openapi/spec_handlers.py:116-121 | Parameters that are not in the path never change the URL. |
| Binding.NoPathParametersKeepTemplate | mcp_openapi/spec_handlers.py:116-121 | An operation without path parameters sends its template unchanged. |
| Binding.OnePathParameter | mcp_openapi/spec_handlers.py:118-121 | Substitution cuts the template at every occurrence of `{name}` into pieces that avoid it, and joins the pieces with `str` of the argument. |
| Binding.TrailingPlaceholder | mcp_openapi/spec_handlers.py:118-121 | A template ending in its only placeholder gets the argument's `str` in its place. |
| Text.ReplaceRewritesEveryOccurrence | mcp_openapi/spec_handlers.py:121 | `str.replace` rewrites every non-overlapping occurrence. The pieces between occurrences avoid the pattern, and joining them with the pattern gives the string back. |
| Text.ReplaceAbsent | mcp_openapi/spec_handlers.py:121 | A string without the pattern is left unchanged. |
| Text.ReplaceBySelf | mcp_openapi/spec_handlers.py:121 | Replacing the pattern by itself is the identity. |
| SpecHandlers.OpenAPISpecHandler.ExtractQueryParams | mcp_openapi/spec_handlers.py:143-153 | The method computes the query extraction as written. |
| Binding.ExtractQueryAsWritten | mcp_openapi/spec_handlers.py:143-153 | With no arguments there is no query. Otherwise extraction succeeds iff every query parameter has an argument, and the query keys are then exactly the query parameter names. |
| Binding.QueryFromOutcome | mcp_openapi/spec_handlers.py:147-152 | When every argument is demanded, extraction fails iff a query parameter has no argument, and then names it. |
| Binding.QueryFromContents | mcp_openapi/spec_handlers.py:147-152 | A successful extraction adds exactly the query parameters that have arguments, each as `str(value)`, and keeps the accumulator's other entries. |
| SpecHandlers.OpenAPISpecHandler.ExtractBodyParams | mcp_openapi/spec_handlers.py:155-174 | The method computes the body extraction as written. |
| SpecHandlers.OpenAPISpecHandler.AddBodyProperties | mcp_openapi/spec_handlers.py:164-172 | The property loop over one object schema is the body extraction of those properties. |
| Binding.ExtractBodyAsWritten | mcp_openapi/spec_handlers.py:155-174 | With no arguments or no request body there is no body. Otherwise every property of every object content must have an argument, required or not, and the body keys are then exactly the property names. |
| Binding.BodyFromOutcome | mcp_openapi/spec_handlers.py:164-172 | Body extraction fails iff a property it demands has no argument, and then names such a property. |
| Binding.BodyFromContents | mcp_openapi/spec_handlers.py:164-172 | A successful extraction adds exactly the properties that have arguments, each as `str(value)`, and keeps the other entries. |
| SpecHandlers.OpenAPISpecHandler.GetRequiredParams | mcp_openapi/spec_handlers.py:176-192 | The method computes the required names: the required parameters plus the required properties of each object body. |
| SpecHandlers.OpenAPISpecHandler.AddRequiredProperties | mcp_openapi/spec_handlers.py:185-190 | The loop over one object schema adds exactly its required property names. |
| Binding.RequiredSetNames | mcp_openapi/spec_handlers.py:176-192 | Every required name is a required parameter or a required body property. |
| Binding.ParamRequiredInRequiredSet | mcp_openapi/spec_handlers.py:180-182 | Every required parameter is in the required set. |
| Binding.BodyRequiredInRequiredSet | mcp_openapi/spec_handlers.py:185-190 | Every required body property is in the required set. |
| Binding.AsWrittenKeys | mcp_openapi/spec_handlers.py:124-132 | The keys the as-written check consults are argument names. |
| Binding.RequiredPathParameterAlwaysRejected | mcp_openapi/spec_handlers.py:116-132 | As written, a required path parameter whose name is neither a query parameter nor a body property makes every call fail; with all else supplied, the error is `MissingRequiredParameters` naming it. |
| Binding.OptionalBodyPropertyRejected | mcp_openapi/spec_handlers.py:164-170 | As written, with some argument supplied, an optional body property without an argument raises "Missing required body parameter". |
| Binding.OmittedQueryParameterRejected | mcp_openapi/spec_handlers.py:147-152 | As written, with some argument supplied, any query parameter without an argument fails, while the corrected extraction succeeds. |
| Binding.BindOutcome | mcp_openapi/spec_handlers.py:110-141 | The corrected binding succeeds iff every path parameter and every required name has an argument. A missing path argument is reported as such; otherwise a missing required name is reported either by the body loop or as the set of missing required names. |
| Binding.ExtractBodyCorrectedOutcome | mcp_openapi/spec_handlers.py:155-174 | The corrected body extraction fails only on a required property without an argument. |
| Binding.ExtractQueryCorrected | mcp_openapi/spec_handlers.py:143-153 | The corrected query extraction never fails, and holds `str` of exactly the supplied query arguments. |
| Binding.ExtractBodyCorrected | mcp_openapi/spec_handlers.py:155-174 | A successful corrected body extraction holds `str` of exactly the supplied body-property arguments. |
| Binding.BindRequest | mcp_openapi/spec_handlers.py:116-137 | The corrected request carries the upper-case verb, the substituted path, and `str` of exactly the supplied query and body arguments. |
| Binding.RequiredPathParameterAccepted | mcp_openapi/spec_handlers.py:116-132 | Corrected, an operation with a required path parameter is accepted once every path and required name is supplied. |
| Binding.OptionalBodyPropertySkipped | mcp_openapi/spec_handlers.py:164-170 | Corrected, a body with only optional properties never fails, and carries exactly the supplied ones. |
| Binding.CorrectionAgreesWhereAsWrittenSucceeds | mcp_openapi/spec_handlers.py:110-141 | Every call the code accepts is accepted by the corrected binding with the same request. |
| Binding.ExtractValid | mcp_openapi/spec_handlers.py:143-174 | Both extractions build well-formed dicts. |
| ApiClient.ExtractBaseUrl | mcp_openapi/api_client.py:42-55 | Fails with `NoServers` iff there is no server. An absolute first server URL is taken as is. A relative one is `Resolve` of the specification URL and the server URL: it takes the scheme and host of the specification URL, and stays absolute when that URL is absolute. |
| ApiClient.OnlyFirstServerCounts | mcp_openapi/api_client.py:48 | Only the first server entry matters. |
| ApiClient.AbsoluteServerIgnoresSpecUrl | mcp_openapi/api_client.py:49-53 | An absolute first server makes the specification URL irrelevant. |
| ApiClient.APIClient.Create | mcp_openapi/api_client.py:22-26 | The client fails iff there is no server. Otherwise it is fresh, keeps the specification, opens on the extracted base URL, and has issued nothing. |
| ApiClient.APIClient.Init | mcp_openapi/api_client.py:22-26 | The session is opened on the text of the base URL. |
| ApiClient.APIClient.Call | mcp_openapi/api_client.py:28-39 | One call issues exactly one request, with the given verb, path, query and JSON body, and returns the response text. |
| Urls.Resolve | mcp_openapi/api_client.py:49-53 | Joining follows section 5.2.2 of RFC 3986. Scheme and authority come from the reference or the base as that section prescribes. The path and query are, by case: the reference's, dots removed, when it has a scheme, an authority or an absolute path; the base's path, and the reference's query or else the base's, when its path is empty; otherwise the reference path merged onto the base's directory, dots removed, with the reference's query. The fragment is the reference's. |
| Urls.ResolveKeepsHost | mcp_openapi/api_client.py:49-53 | A relative server resolved against a base with a host has a host. |
| Urls.ResolveAbsolutePath | mcp_openapi/api_client.py:49-53 | An absolute-path server such as "/api" keeps the base's scheme and host and takes its own path and query. |
| Urls.ResolveRelativePath | mcp_openapi/api_client.py:49-53 | A relative server path without dots, such as "api/v1", resolved against a base whose path is an absolute dot-free directory ending in "/" followed by a last segment, is that directory followed by the reference path, with the base's scheme and host and the reference's query. |
| Urls.RemoveDotsWithoutDots | mcp_openapi/api_client.py:51-53 | Dot-segment removal (section 5.2.4 of RFC 3986) leaves a path without "." unchanged. |
| Server.PythonType | mcp_openapi/server.py:86-106 | The mapper fails with `UnsupportedType` exactly on tags outside the seven JSON Schema types. |
| Server.PythonTypeBijective | mcp_openapi/server.py:86-106 | The mapper is a bijection between the seven JSON Schema types and the seven Python types. |
| Server.PythonTypeInjective | mcp_openapi/server.py:86-106 | Distinct supported types map to distinct Python types. |
| Server.CreateParam | mcp_openapi/server.py:119-154 | A field fails iff its type is unsupported. Otherwise its annotation stands for its schema type. Its fragment carries the name as title, the type's JSON spelling, the required flag, and the schema's default, description, enum, example (as `examples`), deprecated, readOnly and writeOnly. Its pydantic default is set iff the schema default is truthy. |
| Server.ToolParamsFromOperation | mcp_openapi/server.py:109-178 | The parameter and body-property loops compute the operation's fields. |
| Server.ToolParamsSpec | mcp_openapi/server.py:156-168 | The fields fail only on an unsupported type; a repeated name is no error. The keys are the distinct names in order of first appearance, and each name holds the field of its last occurrence. |
| Server.FieldsFromOutcome | mcp_openapi/server.py:156-168 | Field building fails iff some argument has an unsupported type, and reports such a type. |
| Server.FieldsFromValue | mcp_openapi/server.py:156-168 | Successful field building is the successive dict assignments of `create_param` results. |
| Server.FieldOfName | mcp_openapi/server.py:156-168 | Each field is the one built for the last argument of its name. |
| Server.ServerToolOf | mcp_openapi/server.py:198-209 | The tool exists iff its fields do. It is named by the operation id and described by summary and description. |
| Server.ToolFromPath | mcp_openapi/server.py:181-209 | An operation without an id fails before anything is registered. Otherwise the route (upper-case verb, unsubstituted template, operation) is registered first, and then the tool is built or its error returned. |
| Server.RoutingClient.AddRequest | mcp_openapi/server.py:193-195 | Registering a route sets that id's route and no other. |
| Server.RoutingClient.Init | mcp_openapi/server.py:56 | A new client has its base URL and no routes. |
| Server.ToolManager.Init | mcp_openapi/server.py:63 | A new registry is empty and has the given duplicate policy. |
| Server.ToolManager.RegisterTool | mcp_openapi/server.py:72-83 | Registering updates the registry as `Register` says. |
| Server.RegisterSpec | mcp_openapi/server.py:72-83 | A new name is appended and nothing else changes. An existing name keeps the registry when duplicates only warn, and otherwise is replaced in place. Other entries never change. |
| Server.SelectServerUrl | mcp_openapi/server.py:45-56 | Fails with `NoServers` iff there is no server; the chosen URL never ends in "/". |
| Server.ServerUrlAgreesWithClient | mcp_openapi/server.py:48-56 | The server's URL is the client's base URL with trailing slashes stripped. |
| Text.RStrip | mcp_openapi/server.py:56 | `rstrip("/")` gives a prefix without a trailing "/", and removes only "/" characters. |
| Text.NatToString | mcp_openapi/spec_handlers.py:120 | `str(n)` of a non-negative integer is a non-empty string of decimal digits, without a leading zero, that spells `n`. |
| Text.IntToString | mcp_openapi/spec_handlers.py:120 | `str(i)` is "-" for a negative `i`, followed by the canonical decimal digits of its magnitude. |
| Server.BuildServer | mcp_openapi/server.py:38-69 | Building the server succeeds iff `Build` does and reports its error. On success the registry, the routes and the client URL are those of `Build`. |
| Server.AddSpecTools | mcp_openapi/server.py:64-67 | The loop over the path items registers the tools and routes of every operation, or stops at the first error. |
| Server.AddPathTools | mcp_openapi/server.py:65-67 | The loop over one path item's operations does the same for that item. |
| Server.BuildFromOutcome | mcp_openapi/server.py:64-67 | Building succeeds iff every operation has an id and only supported argument types. |
| Server.BuildFromError | mcp_openapi/server.py:64-67 | A failure is a missing id or an unsupported type, and nothing else. |
| Server.BuildFromTools | mcp_openapi/server.py:64-67 | The registry keeps the first tool per id when duplicates only warn, and the last one otherwise. |
| Server.BuildKeepsFirst | mcp_openapi/server.py:64-83 | When duplicates only warn, each id is registered with the tool of its first operation. |
| Server.BuildKeepsLast | mcp_openapi/server.py:64-83 | When duplicates replace, each id is registered with the tool of its last operation. |
| Server.BuildFromRoutes | mcp_openapi/server.py:64-67 | Every id is routed to its last operation, and other routes stay. |
| Dicts.PutAllSpec | mcp_openapi/spec_handlers.py:37 | Successive dict assignments key the dict by the distinct keys in first-appearance order, each holding its last value. |
| Dicts.PutAllAbsentSpec | mcp_openapi/server.py:77-81 | Assignments that skip existing keys keep each key's first value. |
| Scenarios.CatalogKeysMatchFields | mcp_openapi/server.py:156-168 | When no name repeats, the server's fields and the catalog's input schema have the same keys in the same order. |
| Scenarios.CatalogRequiredMatchesBinder | mcp_openapi/spec_handlers.py:176-192 | The catalog's required list names exactly what `call_tool` checks for. |
| Scenarios.RequiredFlagsAgree | mcp_openapi/server.py:125-126 | When no name repeats, a server field is marked required iff its name is required. |
| Scenarios.DuplicateIdPolicies | mcp_openapi/server.py:72-83 | For a repeated id, the handler's index holds the last operation. The FastMCP registry holds the first tool when duplicates only warn, and the last tool otherwise. |
| Scenarios.TagLookupAsWritten | tests/todos.py:73-81 | As written, the tag lookup with `{"tag": "work"}` fails with `MissingRequiredParameters({"tag"})`. |
| Scenarios.TagLookupCorrected | tests/todos.py:73-81 | Corrected, the same call sends `GET /todos/tags/work` with no query and no body. |
| Scenarios.CreateTodoAsWritten | tests/todos.py:28-32 | As written, `POST /todos` with only `title` and `completed` fails on the optional property `id`. |
| Scenarios.FilterAsWritten | mcp_openapi/spec_handlers.py:147-152 | As written, supplying one of two optional query parameters fails on the other. |
| Scenarios.RelativeServer | mcp_openapi/api_client.py:49-53 | The relative server "/api" resolved against "https://example.com/openapi.json" is "https://example.com/api" as parsed components. |
| Scenarios.RelativePathServer | mcp_openapi/api_client.py:49-53 | The relative server "api/v1" resolved against "https://example.com/openapi.json" is "https://example.com/api/v1" as parsed components. |
| Scenarios.RelativeServerText | mcp_openapi/server.py:48-56 | The same server gives the server URL text "https://example.com/api". |

## Left out

- Parsing a URL or a specification document is not modelled. Both are given
  already parsed, because that work is done by the `yarl` and `openapi_parser`
  libraries, whose code is not part of this model. `load_openapi_spec`
  (fetching and parsing) is left out for the same reason.
- The network and the event loop are left out. `APIClient.call` records the
  request it would send. The upstream's reply text is the parameter `response`.
  `async`/`await` has no counterpart.
- The aiohttp session is represented only by the text of its base URL.
- Pydantic and FastMCP internals are left out. A field is a record of its
  annotation, JSON schema fragment and default. `arg_model`,
  `model_json_schema()`, `FuncMetadata` and the `fn` closure are not modelled.
  The registered tool keeps its name, description and fields.
- server.py constructs `APIClient` with one argument and calls
  `add_request`, which `api_client.py` does not define. `Server.RoutingClient`
  models what that call site needs: the base URL and one route per
  operation id.
- FastMCP's `warn_on_duplicate_tools` is a parameter of `Server.BuildServer`.
  `if existing:` is modelled as "the name is registered", because a `Tool`
  object is always truthy.
- `URL.join` is taken to agree with RFC 3986 section 5.2.2 on the references
  a server entry uses: no scheme, no authority. On references with their
  own scheme, or with an empty query `?`, the join of the URL library may
  differ from the RFC (no dot removal, no query). The model follows the RFC
  there too.
- Float, list and dict argument values are opaque. Their `str()` is not
  modelled, because no property depends on it.
- `arguments` of `None` is not modelled; the arguments are always a map.
  With `None`, an operation that has a path parameter raises `TypeError` in
  the path loop (mcp_openapi/spec_handlers.py:117-121). Any other operation
  behaves as with an empty map, because both extraction helpers return `{}`
  first (mcp_openapi/spec_handlers.py:146-147, 158-159); that is how the
  model treats it. An argument whose value is `None` is modelled, as
  `Value.None`, whose `str` is "None".
- The model assumes the parser's parameter location compares equal to its
  string, so that `param.location == "path"` and `== "query"`
  (mcp_openapi/spec_handlers.py:118, 151) hold exactly for path and query
  parameters. `OpenApi.Location` builds this in. The parser's code is not
  part of this model. The source reads the parser's other enumerations
  through `.value` (mcp_openapi/server.py:134, 194). If the location is a
  plain `Enum` member, neither comparison ever holds: no placeholder is
  substituted and no query parameter is sent. Finding 3 depends on this
  assumption; findings 1 and 2 do not.
- `Plain(Object, _)` schemas: the parser yields an `Object` instance for
  every object schema. A `Plain` schema of type object, which parsing does
  not produce, is treated as having no properties, as the `isinstance`
  tests of the core treat it.
- `tool_from_path` checks the operation id with `assert` (an
  `AssertionError`, skipped under `python -O`). The model reports it as the
  error `MissingOperationId` in every case.
- Logging, `cli.py` and `settings.py` (command line and settings) are left out.
  They are not part of the core.
- The operation ids of all scenarios are illustrative. The routes of
  `tests/todos.py` set no `operation_id`, so the framework that serves them
  derives longer ids; no scenario's outcome depends on the id. The filter operation with two optional query parameters is not
  in `tests/todos.py`. The corrected counterparts of `CreateTodoAsWritten` and
  `FilterAsWritten` are covered by the general lemmas
  `Binding.OptionalBodyPropertySkipped`, `Binding.ExtractQueryCorrected` and
  `Binding.BindOutcome`, not by concrete instances.
- Server.SelectServerUrl: its own contract states only the failure case and
  the missing trailing "/". The URL itself is tied to the client's choice by
  `Server.ServerUrlAgreesWithClient`.

## Findings

| source | as written | input that shows it | evidently intended | confidence | as-written member | corrected member |
|---|---|---|---|---|---|---|
| mcp_openapi/spec_handlers.py:124-132 | The required check compares the required names with the query and body keys only. A required path parameter, which is in the required set, is therefore always reported missing. | the tag lookup `GET /todos/tags/{tag}` (tests/todos.py:73-81) called with `{"tag": "work"}` | A path argument that was supplied counts as present, and the call sends `GET /todos/tags/work` | high, not executed | Binding.RequiredPathParameterAlwaysRejected | Binding.RequiredPathParameterAccepted |
| mcp_openapi/spec_handlers.py:164-170 | Every object-body property without an argument raises "Missing required body parameter", whether or not the schema requires it | `POST /todos` with the `Todo` body (tests/todos.py:28-32, 50-59) called with only `title` and `completed` | Only a property in the schema's `required` list is demanded; an optional one is skipped | high, not executed | Binding.OptionalBodyPropertyRejected | Binding.OptionalBodyPropertySkipped |
| mcp_openapi/spec_handlers.py:147-152 | Once any argument is given, every query parameter is read from the arguments, so an omitted optional one raises `KeyError` | a `GET /todos` operation with optional query parameters `tag` and `completed` called with `{"tag": "home"}` | Only supplied query arguments are sent | medium, not executed; holds only if the parser's location compares equal to "query" (see "## Left out") | Binding.OmittedQueryParameterRejected | Binding.ExtractQueryCorrected |

The concrete instances are `Scenarios.TagLookupAsWritten` with
`Scenarios.TagLookupCorrected`, `Scenarios.CreateTodoAsWritten` and
`Scenarios.FilterAsWritten`. `Binding.Bind`, with `Binding.BindOutcome` and
`Binding.BindRequest`, combines the three corrections.
