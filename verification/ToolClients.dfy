/**
  What a tool client lets through: hidden arguments and disabled tools, when listing (`_process_hide_args`,
  `_filter_tools`) and when calling (`_sanitize_input_args_for_tool`, `_assert_tool_allowed`).
*/
module ToolClients {
  import opened Wrappers
  import opened ToolSchemas

  datatype ClientError = EnabledNotFound | NotAllowed

  /** What the server receives. */
  datatype ServerCall = ServerCall(tool: string, args: Args)

  /** Per tool, the arguments the model must not see. */
  type Hidden = map<string, seq<string>>

  // ---------------------------------------------------------------------------
  // Hiding arguments
  // ---------------------------------------------------------------------------

  function Without(names: seq<string>, name: string): (r: seq<string>)
    ensures forall n :: n in r <==> n in names && n != name
  {
    if names == [] then []
    else if names[0] == name then Without(names[1..], name)
    else [names[0]] + Without(names[1..], name)
  }

  function RemoveFirst(names: seq<string>, name: string): (r: seq<string>)
    ensures forall n :: n in r ==> n in names
    ensures forall n :: n in names && n != name ==> n in r
  {
    if names == [] then [] else if names[0] == name then names[1..] else [names[0]] + RemoveFirst(names[1..], name)
  }

  /** The first `k` of these arguments have been removed; a repeated entry of `required` goes only once. */
  function Pruned(s: Schema, hidden: seq<string>, k: nat): Schema
    requires k <= |hidden|
  {
    if k == 0 then s
    else
      var t := Pruned(s, hidden, k - 1);
      Schema(Without(t.order, hidden[k - 1]), t.props - {hidden[k - 1]}, RemoveFirst(t.required, hidden[k - 1]))
  }

  function Masked(tool: Tool, mask: Hidden): Tool {
    if tool.name in mask then tool.(schema := Pruned(tool.schema, mask[tool.name], |mask[tool.name]|)) else tool
  }

  function HiddenOf(mask: Hidden, tool: string): seq<string> {
    GetOr(mask, tool, [])
  }

  ghost predicate NoRepeats(names: seq<string>) {
    forall i, j :: 0 <= i < j < |names| ==> names[i] != names[j]
  }

  lemma {:induction false} WithoutDistinct(names: seq<string>, name: string)
    requires NoRepeats(names)
    ensures NoRepeats(Without(names, name))
  {
    if names != [] {
      WithoutDistinct(names[1..], name);
      assert names[0] !in names[1..];
    }
  }

  lemma {:induction false} RemoveFirstDistinct(names: seq<string>, name: string)
    requires NoRepeats(names)
    ensures NoRepeats(RemoveFirst(names, name)) && name !in RemoveFirst(names, name)
  {
    if names != [] && names[0] == name {
      assert name !in names[1..];
    } else if names != [] {
      RemoveFirstDistinct(names[1..], name);
      assert names[0] !in names[1..];
    }
  }

  /** Exactly the hidden arguments are gone from the parameters. */
  lemma {:induction false} PrunedProps(s: Schema, hidden: seq<string>, k: nat)
    requires k <= |hidden|
    ensures Pruned(s, hidden, k).props == s.props - (set n | n in hidden[..k])
  {
    if k > 0 {
      PrunedProps(s, hidden, k - 1);
      assert hidden[..k] == hidden[..k - 1] + [hidden[k - 1]];
    }
  }

  lemma {:induction false} PrunedValid(s: Schema, hidden: seq<string>, k: nat)
    requires s.Valid() && k <= |hidden|
    ensures Pruned(s, hidden, k).Valid()
  {
    if k > 0 {
      PrunedValid(s, hidden, k - 1);
      var t := Pruned(s, hidden, k - 1);
      assert NoRepeats(t.order);
      WithoutDistinct(t.order, hidden[k - 1]);
    }
  }

  /** The other required parameters stay required, and no hidden one does unless it was written down twice. */
  lemma {:induction false} PrunedRequired(s: Schema, hidden: seq<string>, k: nat, n: string)
    requires k <= |hidden|
    ensures n !in hidden[..k] ==> (n in Pruned(s, hidden, k).required <==> n in s.required)
    ensures NoRepeats(s.required) ==> NoRepeats(Pruned(s, hidden, k).required)
    ensures NoRepeats(s.required) && n in hidden[..k] ==> n !in Pruned(s, hidden, k).required
  {
    if k > 0 {
      PrunedRequired(s, hidden, k - 1, n);
      assert hidden[..k] == hidden[..k - 1] + [hidden[k - 1]];
      if NoRepeats(s.required) {
        RemoveFirstDistinct(Pruned(s, hidden, k - 1).required, hidden[k - 1]);
      }
    }
  }

  /** `_sanitize_input_args_for_tool`. */
  function Sanitized(args: Args, tool: string, mask: Hidden): (r: Args)
    ensures forall n :: n in r <==> n in args && (tool in mask && n in mask[tool] ==> tool == "")
    ensures forall n :: n in r ==> r[n] == args[n]
  {
    if tool == "" then args
    else
      var hiddenKeys := set n | n in HiddenOf(mask, tool);
      map n | n in args && n !in hiddenKeys :: args[n]
  }

  /** Sanitising does nothing to a call that uses only arguments the client listed. */
  lemma SanitisingListedIsNoOp(tool: Tool, mask: Hidden, args: Args)
    requires tool.schema.Valid()
    requires args.Keys <= Masked(tool, mask).schema.props.Keys
    ensures Sanitized(args, tool.name, mask) == args
  {
    if tool.name in mask {
      PrunedProps(tool.schema, mask[tool.name], |mask[tool.name]|);
      assert mask[tool.name][..|mask[tool.name]|] == mask[tool.name];
    }
    forall n | n in args
      ensures n !in HiddenOf(mask, tool.name)
    {
      assert n in Masked(tool, mask).schema.props;
    }
  }

  // ---------------------------------------------------------------------------
  // The client
  // ---------------------------------------------------------------------------

  /** The names among the first `k` tools. */
  function Names(tools: seq<Tool>, k: nat): set<string>
    requires k <= |tools|
  {
    set i | 0 <= i < k :: tools[i].name
  }

  class Client {
    const hideArgs: Hidden
    const disabled: set<string>
    const enabled: set<string>

    constructor (hideArgs: Hidden, disabled: set<string>, enabled: set<string>)
      ensures this.hideArgs == hideArgs && this.disabled == disabled && this.enabled == enabled
    {
      this.hideArgs, this.disabled, this.enabled := hideArgs, disabled, enabled;
    }

    /** `_assert_tool_allowed` raises nothing. */
    predicate Allowed(tool: string) {
      tool !in disabled && (enabled == {} || tool in enabled)
    }

    method ProcessHideArgs(result: seq<Tool>) returns (output: seq<Tool>)
      ensures |output| == |result|
      ensures forall i :: 0 <= i < |result| ==> output[i] == Masked(result[i], hideArgs)
    {
      output := [];
      for i := 0 to |result|
        invariant |output| == i
        invariant forall j :: 0 <= j < i ==> output[j] == Masked(result[j], hideArgs)
      {
        var schema := result[i].schema;
        if result[i].name in hideArgs {
          var hidden := hideArgs[result[i].name];
          for k := 0 to |hidden|
            invariant schema == Pruned(result[i].schema, hidden, k)
          {
            schema := Schema(Without(schema.order, hidden[k]), schema.props - {hidden[k]},
                             RemoveFirst(schema.required, hidden[k]));
          }
        }
        output := output + [result[i].(schema := schema)];
      }
    }

    /** The tools among the first `k` that may be listed. */
    function Permitted(tools: seq<Tool>, k: nat): seq<Tool>
      requires k <= |tools|
    {
      if k == 0 then []
      else Permitted(tools, k - 1) + if Allowed(tools[k - 1].name) then [tools[k - 1]] else []
    }

    method FilterTools(result: seq<Tool>) returns (r: Result<seq<Tool>, ClientError>)
      ensures r.Ok? <==> enabled <= Names(result, |result|)
      ensures r.Ok? ==> r.value == Permitted(result, |result|)
    {
      var filtered, seen := [], {};
      for i := 0 to |result|
        invariant filtered == Permitted(result, i)
        invariant seen == Names(result, i)
      {
        var name := result[i].name;
        assert Names(result, i + 1) == Names(result, i) + {name};
        seen := seen + {name};
        if name in disabled {
          continue;
        }
        if enabled != {} && name !in enabled {
          continue;
        }
        filtered := filtered + [result[i]];
      }
      if enabled != {} && !(enabled <= seen) {
        return Err(EnabledNotFound);
      }
      r := Ok(filtered);
    }

    /** The tools of the server as `list_tools` returns them. */
    function Listing(server: seq<Tool>): (r: seq<Tool>) {
      var masked := seq(|server|, i requires 0 <= i < |server| => Masked(server[i], hideArgs));
      Permitted(masked, |masked|)
    }

    method ListTools(server: seq<Tool>) returns (r: Result<seq<Tool>, ClientError>)
      ensures r.Ok? <==> enabled <= Names(server, |server|)
      ensures r.Ok? ==> r.value == Listing(server)
    {
      var masked := ProcessHideArgs(server);
      assert masked == seq(|server|, i requires 0 <= i < |server| => Masked(server[i], hideArgs));
      assert forall i :: 0 <= i < |server| ==> masked[i].name == server[i].name;
      assert Names(masked, |masked|) == Names(server, |server|);
      r := FilterTools(masked);
    }

    /** Hidden arguments can only come from `extra`, never from the model. */
    method CallTool(tool: string, args: Args, extra: Args) returns (r: Result<ServerCall, ClientError>)
      ensures r.Ok? <==> tool !in disabled && (enabled == {} || tool in enabled)
      ensures r.Ok? ==> r.value == ServerCall(tool, Sanitized(args, tool, hideArgs) + extra)
    {
      var merged := Sanitized(args, tool, hideArgs) + extra;
      if tool in disabled {
        return Err(NotAllowed);
      }
      if enabled != {} && tool !in enabled {
        return Err(NotAllowed);
      }
      r := Ok(ServerCall(tool, merged));
    }

    lemma {:induction false} PermittedMembers(tools: seq<Tool>, k: nat, tool: Tool)
      requires k <= |tools|
      ensures tool in Permitted(tools, k) <==> Allowed(tool.name) && tool in tools[..k]
    {
      if k > 0 {
        PermittedMembers(tools, k - 1, tool);
        assert tools[..k] == tools[..k - 1] + [tools[k - 1]];
      }
    }

    /** Permitted tools keep their order. */
    lemma {:induction false} PermittedAt(tools: seq<Tool>, k: nat, i: nat)
      requires i < k <= |tools| && Allowed(tools[i].name)
      ensures |Permitted(tools, i)| < |Permitted(tools, k)| && Permitted(tools, k)[|Permitted(tools, i)|] == tools[i]
    {
      if i < k - 1 {
        PermittedAt(tools, k - 1, i);
      }
    }

    /** A tool of the server is listed, with its hidden arguments masked, exactly when calling it is allowed. */
    lemma ListedIffAllowed(server: seq<Tool>, i: nat)
      requires i < |server|
      ensures (Masked(server[i], hideArgs) in Listing(server)
               <==> server[i].name !in disabled && (enabled == {} || server[i].name in enabled))
    {
      var masked := seq(|server|, i requires 0 <= i < |server| => Masked(server[i], hideArgs));
      PermittedMembers(masked, |masked|, Masked(server[i], hideArgs));
      assert masked[..|masked|][i] == Masked(server[i], hideArgs);
    }

    /** Everything listed is a tool of the server, and allowed. */
    lemma ListedFromServer(server: seq<Tool>, tool: Tool) returns (i: nat)
      requires tool in Listing(server)
      ensures i < |server| && tool == Masked(server[i], hideArgs) && Allowed(tool.name)
    {
      var masked := seq(|server|, i requires 0 <= i < |server| => Masked(server[i], hideArgs));
      PermittedMembers(masked, |masked|, tool);
      i :| 0 <= i < |masked| && masked[i] == tool;
    }
  }
}
