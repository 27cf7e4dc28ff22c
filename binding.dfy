/**
 * The request binding of `OpenAPISpecHandler.call_tool` in
 * mcp_openapi/spec_handlers.py, as functions: path-template substitution,
 * query and body extraction, and the aggregate required check.
 *
 * `BindAsWritten` is the binding the code performs.  `Bind` is the corrected
 * binding: it takes only the arguments that were supplied, demands the
 * required body properties only, and checks the required names against the
 * supplied argument names.
 */
module Binding {

  import opened Wrappers
  import opened Dicts
  import opened Text
  import opened OpenApi
  import opened ApiClient

  /** `"{" + name + "}"` */
  function Placeholder(name: string): (p: string)
    ensures |p| == |name| + 2
  {
    "{" + name + "}"
  }

  /** The `url_path` loop: each path parameter's placeholder replaced by `str` of its argument. */
  function SubstitutePath(url: string, params: seq<Parameter>, args: map<string, Value>): Result<string, Error>
    decreases |params|
  {
    if params == [] then Success(url)
    else if params[0].location != Path then SubstitutePath(url, params[1..], args)
    else if params[0].name !in args then Failure(MissingArgument(params[0].name))
    else SubstitutePath(Replace(url, Placeholder(params[0].name), Str(args[params[0].name])), params[1..], args)
  }

  /** The names of the query parameters. */
  function QueryNames(params: seq<Parameter>): set<string> {
    set i | 0 <= i < |params| && params[i].location == Query :: params[i].name
  }

  /**
   * The `_extract_query_params` loop from `acc`.  With `demandAll` an absent
   * query argument raises `KeyError`, as the code does; without it the
   * parameter is skipped.
   */
  function QueryFrom(params: seq<Parameter>, args: map<string, Value>, acc: Dict<string, string>, demandAll: bool)
    : Result<Dict<string, string>, Error>
    decreases |params|
  {
    if params == [] then Success(acc)
    else if params[0].location != Query then QueryFrom(params[1..], args, acc, demandAll)
    else if params[0].name !in args then
      if demandAll then Failure(MissingArgument(params[0].name)) else QueryFrom(params[1..], args, acc, demandAll)
    else QueryFrom(params[1..], args, acc.Put(params[0].name, Str(args[params[0].name])), demandAll)
  }

  /** `_extract_query_params`: no arguments at all give no query parameters. */
  function ExtractQuery(op: Operation, args: map<string, Value>, demandAll: bool): Result<Dict<string, string>, Error> {
    if |args| == 0 then Success(Empty()) else QueryFrom(op.parameters, args, Empty(), demandAll)
  }

  /**
   * The `_extract_body_params` loop over the object-body properties from
   * `acc`.  With `demandAll` every absent property raises "Missing required
   * body parameter", as the code does; without it only a required one does and
   * an optional one is skipped.
   */
  function BodyFrom(props: seq<ArgSource>, args: map<string, Value>, acc: Dict<string, string>, demandAll: bool)
    : Result<Dict<string, string>, Error>
    decreases |props|
  {
    if props == [] then Success(acc)
    else
      var name := ArgName(props[0]);
      if name !in args then
        if demandAll || ArgRequired(props[0]) then Failure(MissingBodyParameter(name))
        else BodyFrom(props[1..], args, acc, demandAll)
      else BodyFrom(props[1..], args, acc.Put(name, Str(args[name])), demandAll)
  }

  /** `_extract_body_params`: no arguments or no request body give no body parameters. */
  function ExtractBody(op: Operation, args: map<string, Value>, demandAll: bool): Result<Dict<string, string>, Error> {
    if |args| == 0 || op.requestBody.None? then Success(Empty())
    else BodyFrom(BodyArgs(op.requestBody.value.content), args, Empty(), demandAll)
  }

  /** `_get_required_params` */
  function RequiredSet(op: Operation): set<string> {
    RequiredNames(OperationArgs(op))
  }

  /** What `call_tool` does before calling the API, as written. */
  function BindAsWritten(path: PathItem, op: Operation, args: map<string, Value>): Result<HttpRequest, Error> {
    var urlPath :- SubstitutePath(path.url, op.parameters, args);
    var query :- ExtractQuery(op, args, true);
    var body :- ExtractBody(op, args, true);
    var missing := RequiredSet(op) - (query.entries.Keys + body.entries.Keys);
    if missing != {} then Failure(MissingRequiredParameters(missing))
    else Success(HttpRequest(Verb(op.verb), urlPath, query, body))
  }

  /** The corrected binding. */
  function Bind(path: PathItem, op: Operation, args: map<string, Value>): Result<HttpRequest, Error> {
    var urlPath :- SubstitutePath(path.url, op.parameters, args);
    var query :- ExtractQuery(op, args, false);
    var body :- ExtractBody(op, args, false);
    var missing := RequiredSet(op) - args.Keys;
    if missing != {} then Failure(MissingRequiredParameters(missing))
    else Success(HttpRequest(Verb(op.verb), urlPath, query, body))
  }

  // ---------------------------------------------------------------- path

  predicate PathArgsSupplied(params: seq<Parameter>, args: map<string, Value>) {
    forall i :: 0 <= i < |params| && params[i].location == Path ==> params[i].name in args
  }

  /** Substitution fails exactly when a path parameter has no argument, and then names it. */
  lemma {:induction false} SubstitutePathOutcome(url: string, params: seq<Parameter>, args: map<string, Value>)
    ensures SubstitutePath(url, params, args).Success? <==> PathArgsSupplied(params, args)
    ensures SubstitutePath(url, params, args).Failure? ==>
      exists i :: 0 <= i < |params| && params[i].location == Path && params[i].name !in args &&
                  SubstitutePath(url, params, args).error == MissingArgument(params[i].name)
    decreases |params|
  {
    if params != [] {
      var url' := if params[0].location == Path && params[0].name in args
                  then Replace(url, Placeholder(params[0].name), Str(args[params[0].name])) else url;
      SubstitutePathOutcome(url', params[1..], args);
      assert forall i :: 1 <= i < |params| ==> params[i] == params[1..][i - 1];
    }
  }

  function PathParams(params: seq<Parameter>): seq<Parameter>
    decreases |params|
  {
    if params == [] then []
    else (if params[0].location == Path then [params[0]] else []) + PathParams(params[1..])
  }

  /** Parameters in other locations never alter the path. */
  lemma {:induction false} OnlyPathParametersSubstitute(url: string, params: seq<Parameter>, args: map<string, Value>)
    ensures SubstitutePath(url, params, args) == SubstitutePath(url, PathParams(params), args)
    decreases |params|
  {
    if params != [] {
      var rest := PathParams(params[1..]);
      if params[0].location == Path {
        assert ([params[0]] + rest)[1..] == rest;
        if params[0].name in args {
          OnlyPathParametersSubstitute(Replace(url, Placeholder(params[0].name), Str(args[params[0].name])), params[1..], args);
        }
      } else {
        assert PathParams(params) == rest;
        OnlyPathParametersSubstitute(url, params[1..], args);
      }
    }
  }

  /** An operation without path parameters keeps the template as it is. */
  lemma NoPathParametersKeepTemplate(url: string, params: seq<Parameter>, args: map<string, Value>)
    requires forall i :: 0 <= i < |params| ==> params[i].location != Path
    ensures SubstitutePath(url, params, args) == Success(url)
  {
    OnlyPathParametersSubstitute(url, params, args);
    NoPathParamsEmpty(params);
  }

  lemma {:induction false} NoPathParamsEmpty(params: seq<Parameter>)
    requires forall i :: 0 <= i < |params| ==> params[i].location != Path
    ensures PathParams(params) == []
    decreases |params|
  {
    if params != [] {
      NoPathParamsEmpty(params[1..]);
    }
  }

  /**
   * For a single path parameter, the template is cut at every occurrence of
   * its placeholder into placeholder-free pieces, and the pieces are joined
   * with the argument's `str`.
   */
  lemma OnePathParameter(url: string, p: Parameter, args: map<string, Value>)
    requires p.location == Path && p.name in args
    ensures SubstitutePath(url, [p], args) == Success(Join(Str(args[p.name]), Split(url, Placeholder(p.name))))
    ensures Join(Placeholder(p.name), Split(url, Placeholder(p.name))) == url
    ensures forall k :: 0 <= k < |Split(url, Placeholder(p.name))| ==>
              !Contains(Split(url, Placeholder(p.name))[k], Placeholder(p.name))
  {
    ReplaceRewritesEveryOccurrence(url, Placeholder(p.name), Str(args[p.name]));
    assert [p][1..] == [];
  }

  /** A template ending in the placeholder of its one path parameter, with no "{" before it. */
  lemma TrailingPlaceholder(pre: string, p: Parameter, args: map<string, Value>)
    requires p.location == Path && p.name in args && '{' !in pre
    ensures SubstitutePath(pre + Placeholder(p.name), [p], args) == Success(pre + Str(args[p.name]))
  {
    ReplaceAtEnd(pre, Placeholder(p.name), Str(args[p.name]));
    assert [p][1..] == [];
  }

  // ---------------------------------------------------------------- query

  /**
   * Query extraction fails only when demanding every argument and a query
   * parameter has none, and then it names that parameter.
   */
  lemma {:induction false} QueryFromOutcome(params: seq<Parameter>, args: map<string, Value>, acc: Dict<string, string>, demandAll: bool)
    ensures QueryFrom(params, args, acc, demandAll).Success? <==> !demandAll || QueryNames(params) <= args.Keys
    ensures QueryFrom(params, args, acc, demandAll).Failure? ==>
      QueryFrom(params, args, acc, demandAll).error.MissingArgument? &&
      QueryFrom(params, args, acc, demandAll).error.name in QueryNames(params) - args.Keys
    decreases |params|
  {
    if params != [] {
      var p := params[0];
      var acc' := if p.location == Query && p.name in args then acc.Put(p.name, Str(args[p.name])) else acc;
      QueryNamesStep(params);
      if p.location != Query || p.name in args || !demandAll {
        QueryFromOutcome(params[1..], args, acc', demandAll);
      }
    }
  }

  /**
   * A successful query extraction adds to `acc` exactly the query parameters
   * whose argument is present, each with `str` of its argument, and keeps the
   * rest of `acc`.
   */
  lemma {:induction false} QueryFromContents(params: seq<Parameter>, args: map<string, Value>, acc: Dict<string, string>, demandAll: bool)
    requires acc.Valid()
    requires QueryFrom(params, args, acc, demandAll).Success?
    ensures
      var q := QueryFrom(params, args, acc, demandAll).value;
      && q.Valid()
      && q.entries.Keys == acc.entries.Keys + (QueryNames(params) * args.Keys)
      && (forall n :: n in acc.entries && n !in QueryNames(params) ==> q.entries[n] == acc.entries[n])
      && (forall n :: n in QueryNames(params) && n in args ==> q.entries[n] == Str(args[n]))
    decreases |params|
  {
    if params != [] {
      QueryFromKeys(params, args, acc, demandAll);
      QueryFromKept(params, args, acc, demandAll);
      QueryFromValues(params, args, acc, demandAll);
    }
  }

  /** The key-set bookkeeping of one extraction step that adds `x`. */
  lemma KeysAdded<T>(a: set<T>, x: T, later: set<T>, present: set<T>)
    requires x in present
    ensures (a + {x}) + (later * present) == a + (({x} + later) * present)
  {
  }

  /** The key-set bookkeeping of one extraction step that adds nothing. */
  lemma KeysSkipped<T>(a: set<T>, here: set<T>, later: set<T>, present: set<T>)
    requires forall x :: x in here ==> x !in present
    ensures a + (later * present) == a + ((here + later) * present)
  {
  }

  lemma {:induction false} QueryFromKeys(params: seq<Parameter>, args: map<string, Value>, acc: Dict<string, string>, demandAll: bool)
    requires acc.Valid()
    requires QueryFrom(params, args, acc, demandAll).Success?
    ensures QueryFrom(params, args, acc, demandAll).value.Valid()
    ensures QueryFrom(params, args, acc, demandAll).value.entries.Keys == acc.entries.Keys + (QueryNames(params) * args.Keys)
    decreases |params|
  {
    if params != [] {
      var p := params[0];
      QueryNamesStep(params);
      if p.location == Query && p.name in args {
        var acc' := acc.Put(p.name, Str(args[p.name]));
        assert QueryFrom(params, args, acc, demandAll) == QueryFrom(params[1..], args, acc', demandAll);
        QueryFromKeys(params[1..], args, acc', demandAll);
        assert acc'.entries.Keys == acc.entries.Keys + {p.name};
        KeysAdded(acc.entries.Keys, p.name, QueryNames(params[1..]), args.Keys);
      } else {
        assert QueryFrom(params, args, acc, demandAll) == QueryFrom(params[1..], args, acc, demandAll);
        QueryFromKeys(params[1..], args, acc, demandAll);
        var here: set<string> := if p.location == Query then {p.name} else {};
        KeysSkipped(acc.entries.Keys, here, QueryNames(params[1..]), args.Keys);
      }
    }
  }

  lemma {:induction false} QueryFromKept(params: seq<Parameter>, args: map<string, Value>, acc: Dict<string, string>, demandAll: bool)
    requires QueryFrom(params, args, acc, demandAll).Success?
    ensures forall n :: n in acc.entries && n !in QueryNames(params) ==>
      n in QueryFrom(params, args, acc, demandAll).value.entries &&
      QueryFrom(params, args, acc, demandAll).value.entries[n] == acc.entries[n]
    decreases |params|
  {
    if params != [] {
      var p := params[0];
      QueryNamesStep(params);
      var acc' := if p.location == Query && p.name in args then acc.Put(p.name, Str(args[p.name])) else acc;
      assert QueryFrom(params, args, acc, demandAll) == QueryFrom(params[1..], args, acc', demandAll);
      QueryFromKept(params[1..], args, acc', demandAll);
    }
  }

  lemma {:induction false} QueryFromValues(params: seq<Parameter>, args: map<string, Value>, acc: Dict<string, string>, demandAll: bool)
    requires QueryFrom(params, args, acc, demandAll).Success?
    ensures forall n :: n in QueryNames(params) && n in args ==>
      n in QueryFrom(params, args, acc, demandAll).value.entries &&
      QueryFrom(params, args, acc, demandAll).value.entries[n] == Str(args[n])
    decreases |params|
  {
    if params != [] {
      var p := params[0];
      QueryNamesStep(params);
      var acc' := if p.location == Query && p.name in args then acc.Put(p.name, Str(args[p.name])) else acc;
      assert QueryFrom(params, args, acc, demandAll) == QueryFrom(params[1..], args, acc', demandAll);
      QueryFromValues(params[1..], args, acc', demandAll);
      QueryFromKept(params[1..], args, acc', demandAll);
    }
  }

  lemma QueryNamesStep(params: seq<Parameter>)
    requires params != []
    ensures QueryNames(params) == (if params[0].location == Query then {params[0].name} else {}) + QueryNames(params[1..])
  {
    assert forall i :: 1 <= i < |params| ==> params[i] == params[1..][i - 1];
    assert forall i :: 0 <= i < |params[1..]| ==> params[1..][i] == params[i + 1];
  }

  /**
   * With no arguments there are no query parameters.  Otherwise, as written,
   * every query parameter needs an argument, and the query keys are then
   * exactly the query parameter names.
   */
  lemma ExtractQueryAsWritten(op: Operation, args: map<string, Value>)
    ensures |args| == 0 ==> ExtractQuery(op, args, true) == Success(Empty())
    ensures |args| > 0 ==> (ExtractQuery(op, args, true).Success? <==> QueryNames(op.parameters) <= args.Keys)
    ensures |args| > 0 && ExtractQuery(op, args, true).Success? ==>
      ExtractQuery(op, args, true).value.entries.Keys == QueryNames(op.parameters)
  {
    if |args| > 0 {
      QueryFromOutcome(op.parameters, args, Empty(), true);
      if QueryFrom(op.parameters, args, Empty(), true).Success? {
        QueryFromContents(op.parameters, args, Empty(), true);
      }
    }
  }

  // ---------------------------------------------------------------- body

  /** Whether the body loop runs into property `a` without an argument and raises. */
  predicate BodyArgMissing(a: ArgSource, args: map<string, Value>, demandAll: bool) {
    ArgName(a) !in args && (demandAll || ArgRequired(a))
  }

  /**
   * Body extraction fails exactly when some property is missing in the sense
   * of `BodyArgMissing`, and then it names such a property.
   */
  lemma {:induction false} BodyFromOutcome(props: seq<ArgSource>, args: map<string, Value>, acc: Dict<string, string>, demandAll: bool)
    ensures BodyFrom(props, args, acc, demandAll).Success? <==>
      forall i :: 0 <= i < |props| ==> !BodyArgMissing(props[i], args, demandAll)
    ensures BodyFrom(props, args, acc, demandAll).Failure? ==>
      exists i :: 0 <= i < |props| && BodyArgMissing(props[i], args, demandAll) &&
                  BodyFrom(props, args, acc, demandAll).error == MissingBodyParameter(ArgName(props[i]))
    decreases |props|
  {
    if props != [] {
      var a := props[0];
      assert forall i :: 1 <= i < |props| ==> props[i] == props[1..][i - 1];
      if ArgName(a) in args {
        BodyFromOutcome(props[1..], args, acc.Put(ArgName(a), Str(args[ArgName(a)])), demandAll);
      } else if !(demandAll || ArgRequired(a)) {
        BodyFromOutcome(props[1..], args, acc, demandAll);
      } else {
        assert BodyArgMissing(props[0], args, demandAll);
      }
    }
  }

  /**
   * A successful body extraction adds to `acc` exactly the properties whose
   * argument is present, each with `str` of its argument, and keeps the rest
   * of `acc`.
   */
  lemma {:induction false} BodyFromContents(props: seq<ArgSource>, args: map<string, Value>, acc: Dict<string, string>, demandAll: bool)
    requires acc.Valid()
    requires BodyFrom(props, args, acc, demandAll).Success?
    ensures
      var b := BodyFrom(props, args, acc, demandAll).value;
      && b.Valid()
      && b.entries.Keys == acc.entries.Keys + (NameSet(props) * args.Keys)
      && (forall n :: n in acc.entries && n !in NameSet(props) ==> b.entries[n] == acc.entries[n])
      && (forall n :: n in NameSet(props) && n in args ==> b.entries[n] == Str(args[n]))
    decreases |props|
  {
    if props != [] {
      BodyFromKeys(props, args, acc, demandAll);
      BodyFromKept(props, args, acc, demandAll);
      BodyFromValues(props, args, acc, demandAll);
    }
  }

  lemma {:induction false} BodyFromKeys(props: seq<ArgSource>, args: map<string, Value>, acc: Dict<string, string>, demandAll: bool)
    requires acc.Valid()
    requires BodyFrom(props, args, acc, demandAll).Success?
    ensures BodyFrom(props, args, acc, demandAll).value.Valid()
    ensures BodyFrom(props, args, acc, demandAll).value.entries.Keys == acc.entries.Keys + (NameSet(props) * args.Keys)
    decreases |props|
  {
    if props != [] {
      var name := ArgName(props[0]);
      NameSetStep(props);
      if name in args {
        var acc' := acc.Put(name, Str(args[name]));
        assert BodyFrom(props, args, acc, demandAll) == BodyFrom(props[1..], args, acc', demandAll);
        BodyFromKeys(props[1..], args, acc', demandAll);
        assert acc'.entries.Keys == acc.entries.Keys + {name};
        KeysAdded(acc.entries.Keys, name, NameSet(props[1..]), args.Keys);
      } else {
        assert BodyFrom(props, args, acc, demandAll) == BodyFrom(props[1..], args, acc, demandAll);
        BodyFromKeys(props[1..], args, acc, demandAll);
        KeysSkipped(acc.entries.Keys, {name}, NameSet(props[1..]), args.Keys);
      }
    }
  }

  lemma {:induction false} BodyFromKept(props: seq<ArgSource>, args: map<string, Value>, acc: Dict<string, string>, demandAll: bool)
    requires BodyFrom(props, args, acc, demandAll).Success?
    ensures forall n :: n in acc.entries && n !in NameSet(props) ==>
      n in BodyFrom(props, args, acc, demandAll).value.entries &&
      BodyFrom(props, args, acc, demandAll).value.entries[n] == acc.entries[n]
    decreases |props|
  {
    if props != [] {
      var name := ArgName(props[0]);
      NameSetStep(props);
      var acc' := if name in args then acc.Put(name, Str(args[name])) else acc;
      assert BodyFrom(props, args, acc, demandAll) == BodyFrom(props[1..], args, acc', demandAll);
      BodyFromKept(props[1..], args, acc', demandAll);
    }
  }

  lemma {:induction false} BodyFromValues(props: seq<ArgSource>, args: map<string, Value>, acc: Dict<string, string>, demandAll: bool)
    requires BodyFrom(props, args, acc, demandAll).Success?
    ensures forall n :: n in NameSet(props) && n in args ==>
      n in BodyFrom(props, args, acc, demandAll).value.entries &&
      BodyFrom(props, args, acc, demandAll).value.entries[n] == Str(args[n])
    decreases |props|
  {
    if props != [] {
      var name := ArgName(props[0]);
      NameSetStep(props);
      var acc' := if name in args then acc.Put(name, Str(args[name])) else acc;
      assert BodyFrom(props, args, acc, demandAll) == BodyFrom(props[1..], args, acc', demandAll);
      BodyFromValues(props[1..], args, acc', demandAll);
      BodyFromKept(props[1..], args, acc', demandAll);
    }
  }

  lemma NameSetStep(props: seq<ArgSource>)
    requires props != []
    ensures NameSet(props) == {ArgName(props[0])} + NameSet(props[1..])
  {
    assert forall i :: 1 <= i < |props| ==> props[i] == props[1..][i - 1];
    assert forall i :: 0 <= i < |props[1..]| ==> props[1..][i] == props[i + 1];
  }

  /**
   * As written, with some argument and a request body, every property of an
   * object body content must be supplied, required or not.
   */
  lemma ExtractBodyAsWritten(op: Operation, args: map<string, Value>)
    ensures |args| == 0 || op.requestBody.None? ==> ExtractBody(op, args, true) == Success(Empty())
    ensures |args| > 0 && op.requestBody.Some? ==>
      (ExtractBody(op, args, true).Success? <==> NameSet(RequestBodyArgs(op)) <= args.Keys)
  {
    if |args| > 0 && op.requestBody.Some? {
      var props := RequestBodyArgs(op);
      BodyFromOutcome(props, args, Empty(), true);
      if ExtractBody(op, args, true).Success? {
        forall n | n in NameSet(props) ensures n in args {
          var i :| 0 <= i < |props| && ArgName(props[i]) == n;
          assert !BodyArgMissing(props[i], args, true);
        }
      }
    }
  }

  // ---------------------------------------------------------------- required names

  lemma ParamRequiredInRequiredSet(op: Operation, i: nat)
    requires i < |op.parameters| && op.parameters[i].required
    ensures op.parameters[i].name in RequiredSet(op)
  {
    assert OperationArgs(op)[i] == ParamArg(op.parameters[i]);
  }

  lemma BodyRequiredInRequiredSet(op: Operation, i: nat)
    requires i < |RequestBodyArgs(op)| && ArgRequired(RequestBodyArgs(op)[i])
    ensures ArgName(RequestBodyArgs(op)[i]) in RequiredSet(op)
  {
    assert OperationArgs(op)[|op.parameters| + i] == RequestBodyArgs(op)[i];
  }

  /** Every required name is a parameter name or a body property name. */
  lemma RequiredSetNames(op: Operation)
    ensures forall n :: n in RequiredSet(op) ==>
      (exists i :: 0 <= i < |op.parameters| && op.parameters[i].required && op.parameters[i].name == n) ||
      n in NameSet(RequestBodyArgs(op))
  {
    forall n | n in RequiredSet(op)
      ensures (exists i :: 0 <= i < |op.parameters| && op.parameters[i].required && op.parameters[i].name == n) ||
              n in NameSet(RequestBodyArgs(op))
    {
      var k :| 0 <= k < |OperationArgs(op)| && ArgRequired(OperationArgs(op)[k]) && ArgName(OperationArgs(op)[k]) == n;
      if k < |op.parameters| {
        assert OperationArgs(op)[k] == ParamArg(op.parameters[k]);
      } else {
        assert OperationArgs(op)[k] == RequestBodyArgs(op)[k - |op.parameters|];
      }
    }
  }

  // ---------------------------------------------------------------- the corrected binding

  /**
   * The corrected body extraction fails only on a required property without
   * an argument, and names it.
   */
  lemma ExtractBodyCorrectedOutcome(op: Operation, args: map<string, Value>)
    ensures ExtractBody(op, args, false).Failure? ==>
      ExtractBody(op, args, false).error.MissingBodyParameter? &&
      ExtractBody(op, args, false).error.name in RequiredSet(op) - args.Keys
  {
    if |args| > 0 && op.requestBody.Some? {
      var props := RequestBodyArgs(op);
      BodyFromOutcome(props, args, Empty(), false);
      if BodyFrom(props, args, Empty(), false).Failure? {
        var i :| 0 <= i < |props| && BodyArgMissing(props[i], args, false) &&
                 BodyFrom(props, args, Empty(), false).error == MissingBodyParameter(ArgName(props[i]));
        BodyRequiredInRequiredSet(op, i);
      }
    }
  }

  /**
   * The corrected binding succeeds exactly when every path parameter and every
   * required name has an argument.  A missing path argument is reported
   * first; a missing required name is reported by the body loop or by the
   * aggregate check, and it is then one of the missing required names.
   */
  lemma BindOutcome(path: PathItem, op: Operation, args: map<string, Value>)
    ensures Bind(path, op, args).Success? <==> PathArgsSupplied(op.parameters, args) && RequiredSet(op) <= args.Keys
    ensures !PathArgsSupplied(op.parameters, args) ==> Bind(path, op, args).Failure? && Bind(path, op, args).error.MissingArgument?
    ensures PathArgsSupplied(op.parameters, args) && !(RequiredSet(op) <= args.Keys) ==>
      Bind(path, op, args).error == MissingRequiredParameters(RequiredSet(op) - args.Keys) ||
      (Bind(path, op, args).error.MissingBodyParameter? && Bind(path, op, args).error.name in RequiredSet(op) - args.Keys)
  {
    SubstitutePathOutcome(path.url, op.parameters, args);
    QueryFromOutcome(op.parameters, args, Empty(), false);
    ExtractBodyCorrectedOutcome(op, args);
    var s := SubstitutePath(path.url, op.parameters, args);
    var q := ExtractQuery(op, args, false);
    var b := ExtractBody(op, args, false);
    var missing := RequiredSet(op) - args.Keys;
    assert q.Success?;
    if s.Failure? {
      assert Bind(path, op, args) == Failure(s.error);
    } else if b.Failure? {
      assert b.error.name in missing;
      assert Bind(path, op, args) == Failure(b.error);
    } else if missing != {} {
      var n :| n in missing;
      assert n in RequiredSet(op) && n !in args;
      assert Bind(path, op, args) == Failure(MissingRequiredParameters(missing));
    } else {
      forall n | n in RequiredSet(op)
        ensures n in args
      {
        assert n !in missing;
      }
      assert Bind(path, op, args) == Success(HttpRequest(Verb(op.verb), s.value, q.value, b.value));
    }
  }

  /** The names of the body properties of `op` that have an argument. */
  function BodyKeys(op: Operation, args: map<string, Value>): set<string> {
    NameSet(RequestBodyArgs(op)) * args.Keys
  }

  /** The corrected query extraction: `str` of exactly the supplied query arguments. */
  lemma ExtractQueryCorrected(op: Operation, args: map<string, Value>)
    ensures ExtractQuery(op, args, false).Success?
    ensures
      var q := ExtractQuery(op, args, false).value;
      && q.Valid()
      && q.entries.Keys == QueryNames(op.parameters) * args.Keys
      && (forall n :: n in q.entries ==> q.entries[n] == Str(args[n]))
  {
    QueryFromOutcome(op.parameters, args, Empty(), false);
    if |args| > 0 {
      QueryFromContents(op.parameters, args, Empty(), false);
    }
  }

  /** The corrected body extraction, when it succeeds: `str` of exactly the supplied body properties. */
  lemma ExtractBodyCorrected(op: Operation, args: map<string, Value>)
    requires ExtractBody(op, args, false).Success?
    ensures
      var b := ExtractBody(op, args, false).value;
      && b.Valid()
      && b.entries.Keys == BodyKeys(op, args)
      && (forall n :: n in b.entries ==> b.entries[n] == Str(args[n]))
  {
    if |args| > 0 && op.requestBody.Some? {
      BodyFromContents(RequestBodyArgs(op), args, Empty(), false);
    }
  }

  /**
   * The request the corrected binding issues: the operation's upper-case
   * verb, the substituted path, `str` of the supplied query arguments and of
   * the supplied body-property arguments.
   */
  lemma BindRequest(path: PathItem, op: Operation, args: map<string, Value>)
    requires Bind(path, op, args).Success?
    ensures
      var r := Bind(path, op, args).value;
      && r.verb == Verb(op.verb)
      && SubstitutePath(path.url, op.parameters, args) == Success(r.path)
      && r.query.Valid() && r.body.Valid()
      && r.query.entries.Keys == QueryNames(op.parameters) * args.Keys
      && (forall n :: n in r.query.entries ==> r.query.entries[n] == Str(args[n]))
      && r.body.entries.Keys == BodyKeys(op, args)
      && (forall n :: n in r.body.entries ==> r.body.entries[n] == Str(args[n]))
  {
    ExtractQueryCorrected(op, args);
    ExtractBodyCorrected(op, args);
  }

  /** Both extractions, when they succeed, build well-formed dicts. */
  lemma ExtractValid(op: Operation, args: map<string, Value>, demandAll: bool)
    ensures ExtractQuery(op, args, demandAll).Success? ==> ExtractQuery(op, args, demandAll).value.Valid()
    ensures ExtractBody(op, args, demandAll).Success? ==> ExtractBody(op, args, demandAll).value.Valid()
  {
    if |args| > 0 {
      if QueryFrom(op.parameters, args, Empty(), demandAll).Success? {
        QueryFromContents(op.parameters, args, Empty(), demandAll);
      }
      if op.requestBody.Some? && BodyFrom(RequestBodyArgs(op), args, Empty(), demandAll).Success? {
        BodyFromContents(RequestBodyArgs(op), args, Empty(), demandAll);
      }
    }
  }

  // ---------------------------------------------------------------- the binding as written

  lemma {:induction false} QueryFromAgree(params: seq<Parameter>, args: map<string, Value>, acc: Dict<string, string>)
    requires QueryNames(params) <= args.Keys
    ensures QueryFrom(params, args, acc, true) == QueryFrom(params, args, acc, false)
    decreases |params|
  {
    if params != [] {
      QueryNamesStep(params);
      var acc' := if params[0].location == Query then acc.Put(params[0].name, Str(args[params[0].name])) else acc;
      QueryFromAgree(params[1..], args, acc');
    }
  }

  lemma {:induction false} BodyFromAgree(props: seq<ArgSource>, args: map<string, Value>, acc: Dict<string, string>)
    requires NameSet(props) <= args.Keys
    ensures BodyFrom(props, args, acc, true) == BodyFrom(props, args, acc, false)
    decreases |props|
  {
    if props != [] {
      NameSetStep(props);
      BodyFromAgree(props[1..], args, acc.Put(ArgName(props[0]), Str(args[ArgName(props[0])])));
    }
  }

  /** The keys the binding as written puts in the query and the body are argument names. */
  lemma AsWrittenKeys(op: Operation, args: map<string, Value>)
    ensures ExtractQuery(op, args, true).Success? ==>
      ExtractQuery(op, args, true).value.entries.Keys <= QueryNames(op.parameters) * args.Keys
    ensures ExtractBody(op, args, true).Success? ==>
      ExtractBody(op, args, true).value.entries.Keys <= BodyKeys(op, args)
  {
    if |args| > 0 {
      if QueryFrom(op.parameters, args, Empty(), true).Success? {
        QueryFromContents(op.parameters, args, Empty(), true);
      }
      if op.requestBody.Some? && BodyFrom(RequestBodyArgs(op), args, Empty(), true).Success? {
        BodyFromContents(RequestBodyArgs(op), args, Empty(), true);
      }
    }
  }

  /**
   * The correction only widens what is accepted: whatever the binding as
   * written accepts, the corrected binding accepts with the same request.
   */
  lemma CorrectionAgreesWhereAsWrittenSucceeds(path: PathItem, op: Operation, args: map<string, Value>)
    requires BindAsWritten(path, op, args).Success?
    ensures Bind(path, op, args) == BindAsWritten(path, op, args)
  {
    AsWrittenKeys(op, args);
    if |args| > 0 {
      ExtractQueryAsWritten(op, args);
      QueryFromAgree(op.parameters, args, Empty());
      if op.requestBody.Some? {
        ExtractBodyAsWritten(op, args);
        BodyFromAgree(RequestBodyArgs(op), args, Empty());
      }
    }
  }

  /**
   * As written, a required path parameter whose name is neither a query
   * parameter nor a body property is never in the keys the aggregate check
   * consults, so every call fails, whatever the arguments.
   */
  lemma RequiredPathParameterAlwaysRejected(path: PathItem, op: Operation, args: map<string, Value>, i: nat)
    requires i < |op.parameters| && op.parameters[i].location == Path && op.parameters[i].required
    requires op.parameters[i].name !in QueryNames(op.parameters) && op.parameters[i].name !in NameSet(RequestBodyArgs(op))
    ensures BindAsWritten(path, op, args).Failure?
    ensures PathArgsSupplied(op.parameters, args) && ExtractQuery(op, args, true).Success? && ExtractBody(op, args, true).Success? ==>
      BindAsWritten(path, op, args).error.MissingRequiredParameters? &&
      op.parameters[i].name in BindAsWritten(path, op, args).error.names
  {
    var n := op.parameters[i].name;
    ParamRequiredInRequiredSet(op, i);
    SubstitutePathOutcome(path.url, op.parameters, args);
    var s := SubstitutePath(path.url, op.parameters, args);
    var q := ExtractQuery(op, args, true);
    var b := ExtractBody(op, args, true);
    if s.Success? && q.Success? && b.Success? {
      AsWrittenKeys(op, args);
      var missing := RequiredSet(op) - (q.value.entries.Keys + b.value.entries.Keys);
      assert n in missing;
      assert BindAsWritten(path, op, args) == Failure(MissingRequiredParameters(missing));
    }
  }

  /**
   * The corrected binding accepts such an operation as soon as every path
   * parameter and every required name has an argument.
   */
  lemma RequiredPathParameterAccepted(path: PathItem, op: Operation, args: map<string, Value>, i: nat)
    requires i < |op.parameters| && op.parameters[i].location == Path && op.parameters[i].required
    requires PathArgsSupplied(op.parameters, args) && RequiredSet(op) <= args.Keys
    ensures Bind(path, op, args).Success?
    ensures op.parameters[i].name in args
  {
    BindOutcome(path, op, args);
  }

  /**
   * As written, with some argument supplied, an optional body property
   * without an argument makes the body loop raise, although it is not
   * required; the corrected binding skips it.
   */
  lemma OptionalBodyPropertyRejected(op: Operation, args: map<string, Value>, i: nat)
    requires |args| > 0 && op.requestBody.Some?
    requires i < |RequestBodyArgs(op)| && !ArgRequired(RequestBodyArgs(op)[i]) && ArgName(RequestBodyArgs(op)[i]) !in args
    ensures ExtractBody(op, args, true).Failure? && ExtractBody(op, args, true).error.MissingBodyParameter?
  {
    ExtractBodyAsWritten(op, args);
    BodyFromOutcome(RequestBodyArgs(op), args, Empty(), true);
  }

  /** The corrected body extraction never fails on an optional property. */
  lemma OptionalBodyPropertySkipped(op: Operation, args: map<string, Value>)
    requires forall i :: 0 <= i < |RequestBodyArgs(op)| ==> !ArgRequired(RequestBodyArgs(op)[i])
    ensures ExtractBody(op, args, false).Success?
    ensures ExtractBody(op, args, false).value.entries.Keys == BodyKeys(op, args)
  {
    if |args| > 0 && op.requestBody.Some? {
      BodyFromOutcome(RequestBodyArgs(op), args, Empty(), false);
      BodyFromContents(RequestBodyArgs(op), args, Empty(), false);
    }
  }

  /**
   * As written, with some argument supplied, a query parameter without an
   * argument makes the query loop fail with a missing argument, although the
   * parameter may be optional; the corrected extraction skips it.
   */
  lemma OmittedQueryParameterRejected(op: Operation, args: map<string, Value>, i: nat)
    requires |args| > 0 && i < |op.parameters| && op.parameters[i].location == Query && op.parameters[i].name !in args
    ensures ExtractQuery(op, args, true).Failure? && ExtractQuery(op, args, true).error.MissingArgument?
    ensures ExtractQuery(op, args, false).Success?
  {
    QueryFromOutcome(op.parameters, args, Empty(), true);
    QueryFromOutcome(op.parameters, args, Empty(), false);
    assert op.parameters[i].name in QueryNames(op.parameters);
  }
}
