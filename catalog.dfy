/**
 * The tool catalog of mcp_openapi/spec_handlers.py (`list_tools`): one tool
 * per indexed operation, whose input schema flattens the parameters and the
 * object-body properties into one namespace and refuses a repeated name.
 */
module Catalog {

  import opened Wrappers
  import opened Dicts
  import opened OpenApi

  /** `{"type": "object", "properties": ..., "required": ...}` */
  datatype InputSchema = InputSchema(properties: Dict<string, Schema>, required: seq<string>)

  datatype Tool = Tool(name: string, description: string, inputSchema: InputSchema)

  function NoInput(): InputSchema {
    InputSchema(Empty(), [])
  }

  /** The loops over `op.parameters` and the object-body properties, from `acc`. */
  function Collect(args: seq<ArgSource>, acc: InputSchema): Result<InputSchema, Error>
    decreases |args|
  {
    if args == [] then Success(acc)
    else
      var name := ArgName(args[0]);
      if name in acc.properties.entries then Failure(DuplicateParameterName(name))
      else
        var required := if ArgRequired(args[0]) then acc.required + [name] else acc.required;
        Collect(args[1..], InputSchema(acc.properties.Put(name, ArgSchema(args[0])), required))
  }

  /** The input schema of one operation. */
  function InputSchemaOf(op: Operation): Result<InputSchema, Error> {
    Collect(OperationArgs(op), NoInput())
  }

  /** The tool built for operation `op` under the key `opId`. */
  function ToolOf(opId: string, op: Operation): Result<Tool, Error> {
    var schema :- InputSchemaOf(op);
    Success(Tool(opId, ToolDescription(op), schema))
  }

  /** The loop over `self.operations.items()`, from the tools `acc` already built. */
  function ToolsFrom(ids: seq<string>, ops: map<string, (PathItem, Operation)>, acc: seq<Tool>): Result<seq<Tool>, Error>
    requires forall i :: 0 <= i < |ids| ==> ids[i] in ops
    decreases |ids|
  {
    if ids == [] then Success(acc)
    else
      var tool :- ToolOf(ids[0], ops[ids[0]].1);
      ToolsFrom(ids[1..], ops, acc + [tool])
  }

  /** Collecting succeeds exactly when no name repeats, and otherwise reports a repeated name. */
  lemma {:induction false} CollectOutcome(args: seq<ArgSource>, acc: InputSchema)
    requires acc.properties.Valid()
    ensures Collect(args, acc).Success? <==> Distinct(acc.properties.keys + Names(args))
    ensures Collect(args, acc).Failure? ==>
      && Collect(args, acc).error.DuplicateParameterName?
      && Collect(args, acc).error.name in Names(args)
    decreases |args|
  {
    var keys := acc.properties.keys;
    if args == [] {
      assert keys + Names(args) == keys;
    } else {
      var name := ArgName(args[0]);
      if name in acc.properties.entries {
        assert Names(args)[0] == name;
        assert name in keys;
        var j :| 0 <= j < |keys| && keys[j] == name;
        assert (keys + Names(args))[j] == (keys + Names(args))[|keys|];
      } else {
        CollectStep(args, acc);
        var acc' := StepInput(acc, args[0]);
        CollectOutcome(args[1..], acc');
        ConcatAssociative(keys, [name], Names(args[1..]));
      }
    }
  }

  /** Collecting from `args` is one step on the head, then collecting from the rest. */
  lemma CollectStep(args: seq<ArgSource>, acc: InputSchema)
    requires args != [] && ArgName(args[0]) !in acc.properties.entries
    ensures Collect(args, acc) == Collect(args[1..], StepInput(acc, args[0]))
    ensures Names(args) == [ArgName(args[0])] + Names(args[1..])
  {
  }

  function StepInput(acc: InputSchema, a: ArgSource): InputSchema {
    var name := ArgName(a);
    InputSchema(acc.properties.Put(name, ArgSchema(a)), if ArgRequired(a) then acc.required + [name] else acc.required)
  }

  /** A successful collection lists the names in order after the keys of `acc`. */
  lemma {:induction false} CollectKeys(args: seq<ArgSource>, acc: InputSchema)
    requires acc.properties.Valid()
    requires Collect(args, acc).Success?
    ensures Collect(args, acc).value.properties.Valid()
    ensures Collect(args, acc).value.properties.keys == acc.properties.keys + Names(args)
    decreases |args|
  {
    if args == [] {
      assert acc.properties.keys + Names(args) == acc.properties.keys;
    } else {
      CollectStep(args, acc);
      var acc' := StepInput(acc, args[0]);
      CollectKeys(args[1..], acc');
      ConcatAssociative(acc.properties.keys, [ArgName(args[0])], Names(args[1..]));
    }
  }

  /** A successful collection gives each name its own schema and keeps what `acc` had. */
  lemma {:induction false} CollectEntries(args: seq<ArgSource>, acc: InputSchema)
    requires Collect(args, acc).Success?
    ensures forall k :: k in acc.properties.entries ==>
      k in Collect(args, acc).value.properties.entries &&
      Collect(args, acc).value.properties.entries[k] == acc.properties.entries[k]
    ensures forall i :: 0 <= i < |args| ==>
      ArgName(args[i]) in Collect(args, acc).value.properties.entries &&
      Collect(args, acc).value.properties.entries[ArgName(args[i])] == ArgSchema(args[i])
    ensures forall k :: k in Collect(args, acc).value.properties.entries ==> k in acc.properties.entries || k in Names(args)
    decreases |args|
  {
    if args != [] {
      CollectStep(args, acc);
      var name := ArgName(args[0]);
      var acc' := StepInput(acc, args[0]);
      CollectEntries(args[1..], acc');
      var s := Collect(args, acc).value;
      forall i | 0 <= i < |args|
        ensures ArgName(args[i]) in s.properties.entries
        ensures s.properties.entries[ArgName(args[i])] == ArgSchema(args[i])
      {
        if i == 0 {
          assert name in acc'.properties.entries;
        } else {
          var j := i - 1;
          assert args[1..][j] == args[i];
        }
      }
    }
  }

  /** A successful collection appends the required names, in order. */
  lemma {:induction false} CollectRequired(args: seq<ArgSource>, acc: InputSchema)
    requires Collect(args, acc).Success?
    ensures Collect(args, acc).value.required == acc.required + RequiredList(args)
    decreases |args|
  {
    if args == [] {
      assert acc.required + RequiredList(args) == acc.required;
    } else {
      CollectStep(args, acc);
      var acc' := StepInput(acc, args[0]);
      CollectRequired(args[1..], acc');
      var head := if ArgRequired(args[0]) then [ArgName(args[0])] else [];
      assert RequiredList(args) == head + RequiredList(args[1..]);
      ConcatAssociative(acc.required, head, RequiredList(args[1..]));
    }
  }

  /**
   * An operation's input schema exists exactly when the parameter names and
   * the object-body property names are pairwise different.  Its keys are those
   * names, parameters first; its required list names exactly the required
   * parameters and the body properties their schema lists as required, and is
   * contained in the keys.
   */
  lemma InputSchemaSpec(op: Operation)
    ensures InputSchemaOf(op).Success? <==> Distinct(Names(OperationArgs(op)))
    ensures InputSchemaOf(op).Failure? ==> InputSchemaOf(op).error.DuplicateParameterName?
    ensures InputSchemaOf(op).Success? ==>
      var s := InputSchemaOf(op).value;
      && s.properties.Valid()
      && s.properties.keys == Names(ParamArgs(op.parameters)) + Names(RequestBodyArgs(op))
      && (forall k :: k in s.properties.entries <==> k in Names(OperationArgs(op)))
      && (forall i :: 0 <= i < |OperationArgs(op)| ==>
            ArgName(OperationArgs(op)[i]) in s.properties.entries &&
            s.properties.entries[ArgName(OperationArgs(op)[i])] == ArgSchema(OperationArgs(op)[i]))
      && (forall n :: n in s.required <==> n in RequiredNames(OperationArgs(op)))
      && (forall n :: n in s.required ==> n in s.properties.entries)
  {
    var args := OperationArgs(op);
    CollectOutcome(args, NoInput());
    if InputSchemaOf(op).Success? {
      CollectKeys(args, NoInput());
      CollectEntries(args, NoInput());
      CollectRequired(args, NoInput());
    }
    assert NoInput().properties.keys + Names(args) == Names(args);
    NamesAppend(ParamArgs(op.parameters), RequestBodyArgs(op));
    RequiredListElements(args);
    if InputSchemaOf(op).Success? {
      var s := InputSchemaOf(op).value;
      assert s.required == RequiredList(args);
      forall n | n in s.required
        ensures n in s.properties.entries
      {
        var i :| 0 <= i < |args| && ArgRequired(args[i]) && ArgName(args[i]) == n;
        assert Names(args)[i] == n;
      }
    }
  }

  /** Listing fails exactly when the input schema of some operation does. */
  lemma {:induction false} ToolsFromOutcome(ids: seq<string>, ops: map<string, (PathItem, Operation)>, acc: seq<Tool>)
    requires forall i :: 0 <= i < |ids| ==> ids[i] in ops
    ensures ToolsFrom(ids, ops, acc).Success? <==> forall i :: 0 <= i < |ids| ==> ToolOf(ids[i], ops[ids[i]].1).Success?
    decreases |ids|
  {
    if ids != [] {
      var first := ToolOf(ids[0], ops[ids[0]].1);
      if first.Success? {
        var later := ids[1..];
        assert ToolsFrom(ids, ops, acc) == ToolsFrom(later, ops, acc + [first.value]);
        ToolsFromOutcome(later, ops, acc + [first.value]);
        if forall i :: 0 <= i < |later| ==> ToolOf(later[i], ops[later[i]].1).Success? {
          forall i | 0 <= i < |ids|
            ensures ToolOf(ids[i], ops[ids[i]].1).Success?
          {
            if i > 0 {
              assert ids[i] == later[i - 1];
            }
          }
        } else {
          var k :| 0 <= k < |later| && !ToolOf(later[k], ops[later[k]].1).Success?;
          assert ids[k + 1] == later[k];
        }
      }
    }
  }

  /**
   * One tool per key, in key order: the tool for key `ids[i]` is named by the
   * key and built from that key's operation.
   */
  lemma {:induction false} ToolsFromValue(ids: seq<string>, ops: map<string, (PathItem, Operation)>, acc: seq<Tool>)
    requires forall i :: 0 <= i < |ids| ==> ids[i] in ops
    requires ToolsFrom(ids, ops, acc).Success?
    ensures |ToolsFrom(ids, ops, acc).value| == |acc| + |ids|
    ensures ToolsFrom(ids, ops, acc).value[..|acc|] == acc
    ensures forall i :: 0 <= i < |ids| ==> ToolOf(ids[i], ops[ids[i]].1).Success?
    ensures forall i :: 0 <= i < |ids| ==> ToolsFrom(ids, ops, acc).value[|acc| + i] == ToolOf(ids[i], ops[ids[i]].1).value
    decreases |ids|
  {
    if ids != [] {
      var first := ToolOf(ids[0], ops[ids[0]].1);
      var acc' := acc + [first.value];
      assert ToolsFrom(ids, ops, acc) == ToolsFrom(ids[1..], ops, acc');
      ToolsFromValue(ids[1..], ops, acc');
      var tools := ToolsFrom(ids, ops, acc).value;
      assert tools[..|acc|] == tools[..|acc'|][..|acc|];
      forall i | 0 <= i < |ids|
        ensures ToolOf(ids[i], ops[ids[i]].1).Success?
        ensures tools[|acc| + i] == ToolOf(ids[i], ops[ids[i]].1).value
      {
        if i == 0 {
          assert tools[|acc|] == tools[..|acc'|][|acc|];
        } else {
          assert ids[i] == ids[1..][i - 1];
          assert |acc| + i == |acc'| + (i - 1);
        }
      }
    }
  }

  /** A listed tool is named by its key and described by its operation's summary and description. */
  lemma ToolOfNaming(opId: string, op: Operation)
    requires ToolOf(opId, op).Success?
    ensures ToolOf(opId, op).value.name == opId
    ensures ToolOf(opId, op).value.description == ToolDescription(op)
    ensures Success(ToolOf(opId, op).value.inputSchema) == InputSchemaOf(op)
  {
  }
}
