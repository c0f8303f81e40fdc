/**
  Tool schemas as the model sees them: renaming tools and their parameters (`apply_schema_overrides`,
  `format_tool_list_by_endpoint_type`) and renaming a call back (`remap_tool_call`).
*/
module ToolSchemas {
  import opened Wrappers

  /** JSON values are kept as their text. */
  type Value = string
  type Param = map<string, Value>
  type Args = map<string, Value>

  /** An input schema; `order` is the iteration order of the dictionary `props`. */
  datatype Schema = Schema(order: seq<string>, props: map<string, Param>, required: seq<string>)
  {
    ghost predicate Valid() {
      && (forall i, j :: 0 <= i < j < |order| ==> order[i] != order[j])
      && (forall name :: name in order <==> name in props)
    }
  }

  /** `server` is the provider that listed the tool. */
  datatype Tool = Tool(name: string, description: string, schema: Schema, server: string)

  /** `Malformed` is an override that is no dictionary. */
  datatype ParamOverride = ParamOverride(name: Option<string>, updates: Param) | Malformed
  datatype ToolOverride = ToolOverride(name: Option<string>, description: Option<string>, params: map<string, ParamOverride>)

  /** What the model is shown, and how its parameter names map back. */
  datatype Transformed = Transformed(tool: Tool, mapping: map<string, string>)

  datatype SchemaError = ValueError

  function GetOr<V>(m: map<string, V>, key: string, default: V): V {
    if key in m then m[key] else default
  }

  function ValueOr<V>(o: Option<V>, default: V): V {
    match o case Some(v) => v case None => default
  }

  // ---------------------------------------------------------------------------
  // One tool
  // ---------------------------------------------------------------------------

  function OverrideOf(params: map<string, ParamOverride>, orig: string): (o: ParamOverride)
    ensures o.ParamOverride?
  {
    match GetOr(params, orig, Malformed)
    case ParamOverride(name, updates) => ParamOverride(name, updates)
    case Malformed => ParamOverride(None, map[])
  }

  /** Every override names a parameter of the tool and is a dictionary. */
  predicate WellFormed(params: map<string, ParamOverride>, s: Schema) {
    forall name :: name in params ==> name in s.props && params[name].ParamOverride?
  }

  /** The name under which the model sees parameter `orig`. */
  function NewName(params: map<string, ParamOverride>, orig: string): string {
    ValueOr(OverrideOf(params, orig).name, orig)
  }

  /** One parameter carried over under `name`; one that is already there is overwritten in its place. */
  function WithParam(done: Schema, name: string, param: Param, required: bool): Schema {
    Schema(if name in done.props then done.order else done.order + [name],
           done.props[name := param],
           if required then done.required + [name] else done.required)
  }

  /** The first `k` parameters have been carried over. */
  function NewSchema(s: Schema, params: map<string, ParamOverride>, k: nat): Schema
    requires k <= |s.order| && forall i :: 0 <= i < |s.order| ==> s.order[i] in s.props
  {
    if k == 0 then Schema([], map[], [])
    else
      var orig := s.order[k - 1];
      WithParam(NewSchema(s, params, k - 1), NewName(params, orig), s.props[orig] + OverrideOf(params, orig).updates,
                orig in s.required)
  }

  function NewMapping(order: seq<string>, params: map<string, ParamOverride>, k: nat): map<string, string>
    requires k <= |order|
  {
    if k == 0 then map[]
    else
      var orig := order[k - 1];
      var name := NewName(params, orig);
      var done := NewMapping(order, params, k - 1);
      if name == orig then done else done[name := orig]
  }

  ghost function Overridden(tool: Tool, config: Option<ToolOverride>): Result<Transformed, SchemaError>
    requires tool.schema.Valid()
  {
    match config
    case None => Ok(Transformed(tool, map[]))
    case Some(o) =>
      var renamed := tool.(name := ValueOr(o.name, tool.name), description := ValueOr(o.description, tool.description));
      if o.params == map[] then Ok(Transformed(renamed, map[]))
      else if !WellFormed(o.params, tool.schema) then Err(ValueError)
      else Ok(Transformed(renamed.(schema := NewSchema(tool.schema, o.params, |tool.schema.order|)),
                          NewMapping(tool.schema.order, o.params, |tool.schema.order|)))
  }

  /** The loop over the parameters. */
  method RenameParams(s: Schema, params: map<string, ParamOverride>) returns (schema: Schema, mapping: map<string, string>)
    requires s.Valid()
    ensures schema == NewSchema(s, params, |s.order|) && mapping == NewMapping(s.order, params, |s.order|)
  {
    schema, mapping := Schema([], map[], []), map[];
    for k := 0 to |s.order|
      invariant schema == NewSchema(s, params, k) && mapping == NewMapping(s.order, params, k)
    {
      var orig := s.order[k];
      var name := NewName(params, orig);
      schema := WithParam(schema, name, s.props[orig] + OverrideOf(params, orig).updates, orig in s.required);
      if name != orig {
        mapping := mapping[name := orig];
      }
    }
  }

  method ApplySchemaOverrides(tool: Tool, config: Option<ToolOverride>) returns (r: Result<Transformed, SchemaError>)
    requires tool.schema.Valid()
    ensures r == Overridden(tool, config)
  {
    if config == None {
      return Ok(Transformed(tool, map[]));
    }
    var o, transformed := config.value, tool;
    if o.name.Some? {
      transformed := transformed.(name := o.name.value);
    }
    if o.description.Some? {
      transformed := transformed.(description := o.description.value);
    }
    if o.params == map[] {
      return Ok(Transformed(transformed, map[]));
    }
    if !WellFormed(o.params, tool.schema) {
      return Err(ValueError);
    }
    var schema, mapping := RenameParams(tool.schema, o.params);
    r := Ok(Transformed(transformed.(schema := schema), mapping));
  }

  /** No two of these parameters get the same name. */
  ghost predicate Injective(order: seq<string>, params: map<string, ParamOverride>) {
    forall i, j :: 0 <= i < j < |order| ==> NewName(params, order[i]) != NewName(params, order[j])
  }

  /** The exposed names are the new names. */
  lemma {:induction false} NewNamesAt(s: Schema, params: map<string, ParamOverride>, k: nat, name: string)
    requires s.Valid() && k <= |s.order|
    ensures name in NewSchema(s, params, k).props <==> exists i :: 0 <= i < k && NewName(params, s.order[i]) == name
  {
    if k > 0 {
      NewNamesAt(s, params, k - 1, name);
    }
  }

  /** Every renamed parameter has an entry in the mapping, which leads to some parameter of that new name. */
  lemma {:induction false} NewMappingAt(order: seq<string>, params: map<string, ParamOverride>, k: nat, name: string)
    requires k <= |order|
    ensures (name in NewMapping(order, params, k)
             <==> exists i :: 0 <= i < k && NewName(params, order[i]) == name && order[i] != name)
    ensures (name in NewMapping(order, params, k)
             ==> exists i :: 0 <= i < k && NewName(params, order[i]) == name && order[i] == NewMapping(order, params, k)[name])
  {
    if k > 0 {
      NewMappingAt(order, params, k - 1, name);
    }
  }

  lemma WithParamKeeps(done: Schema, name: string, param: Param, required: bool, other: string)
    ensures var t := WithParam(done, name, param, required);
      && name in t.props && t.props[name] == param
      && (other != name ==> (other in done.props <==> other in t.props) && (other in t.required <==> other in done.required))
      && (other != name && other in done.props ==> t.props[other] == done.props[other])
      && (name !in done.required ==> (name in t.required <==> required))
  {
  }

  /** With injective renames nothing is overwritten: every parameter keeps its schema and whether it is required. */
  lemma {:induction false} NewSchemaAt(s: Schema, params: map<string, ParamOverride>, k: nat, i: nat)
    requires s.Valid() && i < k <= |s.order| && Injective(s.order, params)
    ensures var t, name := NewSchema(s, params, k), NewName(params, s.order[i]);
            && name in t.props && t.props[name] == s.props[s.order[i]] + OverrideOf(params, s.order[i]).updates
            && (name in t.required <==> s.order[i] in s.required)
  {
    var last := s.order[k - 1];
    var before, name := NewSchema(s, params, k - 1), NewName(params, last);
    WithParamKeeps(before, name, s.props[last] + OverrideOf(params, last).updates, last in s.required, NewName(params, s.order[i]));
    if i < k - 1 {
      NewSchemaAt(s, params, k - 1, i);
    } else {
      RequiredAreNew(s, params, i, NewName(params, s.order[i]));
    }
  }

  /** They are shown in the order in which the tool lists them. */
  lemma {:induction false} NewOrderAt(s: Schema, params: map<string, ParamOverride>, k: nat, i: nat)
    requires s.Valid() && i < k <= |s.order| && Injective(s.order, params)
    ensures |NewSchema(s, params, k).order| == k && NewSchema(s, params, k).order[i] == NewName(params, s.order[i])
  {
    NewOrderStep(s, params, k);
    if k > 1 {
      NewOrderAt(s, params, k - 1, if i < k - 1 then i else 0);
    }
  }

  lemma NewOrderStep(s: Schema, params: map<string, ParamOverride>, k: nat)
    requires s.Valid() && 0 < k <= |s.order| && Injective(s.order, params)
    ensures NewSchema(s, params, k).order == NewSchema(s, params, k - 1).order + [NewName(params, s.order[k - 1])]
  {
    NewNamesAt(s, params, k - 1, NewName(params, s.order[k - 1]));
  }

  lemma {:induction false} RequiredAreNew(s: Schema, params: map<string, ParamOverride>, k: nat, name: string)
    requires s.Valid() && k <= |s.order|
    ensures name in NewSchema(s, params, k).required ==> exists i :: 0 <= i < k && NewName(params, s.order[i]) == name
  {
    if k > 0 {
      RequiredAreNew(s, params, k - 1, name);
    }
  }

  /** Following the mapping from a new name leads back to its parameter. */
  predicate MapsBack(order: seq<string>, params: map<string, ParamOverride>) {
    var mapping := NewMapping(order, params, |order|);
    forall i :: 0 <= i < |order| ==> GetOr(mapping, NewName(params, order[i]), NewName(params, order[i])) == order[i]
  }

  /** The mapping inverts the renaming exactly when no two parameters get the same name. */
  lemma MappingInvertsIff(s: Schema, params: map<string, ParamOverride>)
    requires s.Valid()
    ensures MapsBack(s.order, params) <==> Injective(s.order, params)
  {
    var n := |s.order|;
    var mapping := NewMapping(s.order, params, n);
    if Injective(s.order, params) {
      forall i | 0 <= i < n
        ensures GetOr(mapping, NewName(params, s.order[i]), NewName(params, s.order[i])) == s.order[i]
      {
        NewMappingAt(s.order, params, n, NewName(params, s.order[i]));
      }
    } else {
      var i, j :| 0 <= i < j < n && NewName(params, s.order[i]) == NewName(params, s.order[j]);
    }
  }

  // ---------------------------------------------------------------------------
  // The whole list, and calls
  // ---------------------------------------------------------------------------

  datatype Mappings = Mappings(toolNames: map<string, string>, parameters: map<string, map<string, string>>)

  datatype Endpoint = Chat | Responses | OtherEndpoint

  /** One entry of the list a model is given. */
  datatype Entry =
    | ChatEntry(name: string, description: string, parameters: Schema)
    | ResponsesEntry(name: string, description: string, parameters: Schema, strict: bool)

  datatype Formatted = Formatted(entries: seq<Entry>, mappings: Mappings)

  function EntryFor(endpoint: Endpoint, t: Tool): Entry {
    if endpoint == Chat then ChatEntry(t.name, t.description, t.schema) else ResponsesEntry(t.name, t.description, t.schema, true)
  }

  /** The entry tells the model the tool's name, description and schema; the second form asks for structured output. */
  predicate Describes(e: Entry, t: Tool) {
    e.name == t.name && e.description == t.description && e.parameters == t.schema && (e.ResponsesEntry? ==> e.strict)
  }

  /** Overrides by provider, then by the tool's own name. */
  type Overrides = map<string, map<string, ToolOverride>>

  function ConfigOf(overrides: Overrides, tool: Tool): Option<ToolOverride> {
    var provider := GetOr(overrides, tool.server, map[]);
    if tool.name in provider then Some(provider[tool.name]) else None
  }

  ghost predicate ValidTools(tools: seq<Tool>) {
    forall i :: 0 <= i < |tools| ==> tools[i].schema.Valid()
  }

  /** The overrides of the first `k` tools name only parameters that exist. */
  ghost predicate KnownUpTo(tools: seq<Tool>, overrides: Overrides, k: nat)
    requires ValidTools(tools) && k <= |tools|
  {
    forall i :: 0 <= i < k ==> Overridden(tools[i], ConfigOf(overrides, tools[i])).Ok?
  }

  ghost predicate AllKnown(tools: seq<Tool>, overrides: Overrides)
    requires ValidTools(tools)
  {
    KnownUpTo(tools, overrides, |tools|)
  }

  /** Tool `i` as the model sees it, and how its parameters map back. */
  ghost function Shown(tools: seq<Tool>, overrides: Overrides, i: nat): Transformed
    requires ValidTools(tools) && i < |tools| && Overridden(tools[i], ConfigOf(overrides, tools[i])).Ok?
  {
    Overridden(tools[i], ConfigOf(overrides, tools[i])).value
  }

  function Recorded(m: Mappings, name: string, t: Transformed): Mappings {
    Mappings(if t.tool.name != name then m.toolNames[t.tool.name := name] else m.toolNames,
             if t.mapping != map[] then m.parameters[t.tool.name := t.mapping] else m.parameters)
  }

  ghost function MappingsOf(tools: seq<Tool>, overrides: Overrides, k: nat): Mappings
    requires ValidTools(tools) && k <= |tools| && KnownUpTo(tools, overrides, k)
  {
    if k == 0 then Mappings(map[], map[])
    else Recorded(MappingsOf(tools, overrides, k - 1), tools[k - 1].name, Shown(tools, overrides, k - 1))
  }

  /** The first `k` tools have been formatted. */
  ghost predicate FormattedUpTo(tools: seq<Tool>, overrides: Overrides, k: nat, shown: seq<Tool>, mappings: Mappings)
    requires ValidTools(tools) && k <= |tools|
  {
    && KnownUpTo(tools, overrides, k) && |shown| == k && mappings == MappingsOf(tools, overrides, k)
    && forall j :: 0 <= j < k ==> shown[j] == Shown(tools, overrides, j).tool
  }

  lemma FormatOneMore(tools: seq<Tool>, overrides: Overrides, k: nat, shown: seq<Tool>, mappings: Mappings)
    requires ValidTools(tools) && k < |tools| && FormattedUpTo(tools, overrides, k, shown, mappings)
    requires Overridden(tools[k], ConfigOf(overrides, tools[k])).Ok?
    ensures FormattedUpTo(tools, overrides, k + 1, shown + [Shown(tools, overrides, k).tool],
                          Recorded(mappings, tools[k].name, Shown(tools, overrides, k)))
  {
    assert KnownUpTo(tools, overrides, k + 1);
  }

  /** The transformed tools and how names map back; one bad override spoils the list. */
  method TransformTools(tools: seq<Tool>, overrides: Overrides)
    returns (r: Result<seq<Tool>, SchemaError>, mappings: Mappings)
    requires ValidTools(tools)
    ensures r.Ok? <==> AllKnown(tools, overrides)
    ensures r.Ok? ==> FormattedUpTo(tools, overrides, |tools|, r.value, mappings)
  {
    var shown: seq<Tool> := [];
    mappings := Mappings(map[], map[]);
    for i := 0 to |tools|
      invariant FormattedUpTo(tools, overrides, i, shown, mappings)
    {
      var one := ApplySchemaOverrides(tools[i], ConfigOf(overrides, tools[i]));
      if one.Err? {
        return Err(one.error), mappings;
      }
      FormatOneMore(tools, overrides, i, shown, mappings);
      shown := shown + [one.value.tool];
      mappings := Recorded(mappings, tools[i].name, one.value);
    }
    r := Ok(shown);
  }

  method FormatToolList(tools: seq<Tool>, endpoint: Endpoint, overrides: Overrides) returns (r: Result<Formatted, SchemaError>)
    requires ValidTools(tools)
    ensures r.Ok? <==> AllKnown(tools, overrides) && endpoint != OtherEndpoint
    ensures r.Ok? ==> |r.value.entries| == |tools| && r.value.mappings == MappingsOf(tools, overrides, |tools|)
    ensures r.Ok? ==> forall i :: 0 <= i < |tools| ==>
      Describes(r.value.entries[i], Shown(tools, overrides, i).tool) && r.value.entries[i].ChatEntry? == (endpoint == Chat)
  {
    var transformed, mappings := TransformTools(tools, overrides);
    if transformed.Err? {
      return Err(transformed.error);
    }
    if endpoint == OtherEndpoint {
      return Err(ValueError);
    }
    var shown := transformed.value;
    r := Ok(Formatted(seq(|shown|, i requires 0 <= i < |shown| => EntryFor(endpoint, shown[i])), mappings));
  }

  function RemappedName(name: string, m: Mappings): string {
    GetOr(m.toolNames, name, name)
  }

  function OriginalParam(name: string, m: Mappings, key: string): string {
    GetOr(GetOr(m.parameters, name, map[]), key, key)
  }

  /** The first `k` arguments renamed with `back`; `order` is the iteration order of `args`. */
  function Remapped(back: string -> string, args: Args, order: seq<string>, k: nat): Args
    requires k <= |order| && forall i :: 0 <= i < |order| ==> order[i] in args
  {
    if k == 0 then map[] else Remapped(back, args, order, k - 1)[back(order[k - 1]) := args[order[k - 1]]]
  }

  /** The arguments as `remap_tool_call` returns them. */
  function RemappedArgs(name: string, m: Mappings, args: Args, order: seq<string>): Args
    requires forall i :: 0 <= i < |order| ==> order[i] in args
  {
    Remapped(key => OriginalParam(name, m, key), args, order, |order|)
  }

  lemma {:induction false} RemappedAt(back: string -> string, args: Args, order: seq<string>, k: nat, orig: string)
    requires k <= |order| && forall i :: 0 <= i < |order| ==> order[i] in args
    ensures orig in Remapped(back, args, order, k) <==> exists i :: 0 <= i < k && back(order[i]) == orig
    ensures (orig in Remapped(back, args, order, k)
             ==> exists i :: 0 <= i < k && back(order[i]) == orig && Remapped(back, args, order, k)[orig] == args[order[i]])
  {
    if k > 0 {
      RemappedAt(back, args, order, k - 1, orig);
    }
  }

  /** The call as the original tool should get it: the same values under the original names, and nothing else. */
  ghost predicate SameCall(names: set<string>, newName: string -> string, args: Args, original: Args) {
    && original.Keys <= names
    && (forall orig :: orig in names ==> (orig in original <==> newName(orig) in args))
    && (forall orig :: orig in names && orig in original ==>
          newName(orig) in args && original[orig] == args[newName(orig)])
  }

  /** Renaming with the inverse of `newName` keeps the meaning of a call. */
  lemma InverseKeepsCall(names: set<string>, newName: string -> string, back: string -> string, args: Args, order: seq<string>)
    requires forall key :: key in order <==> key in args
    requires forall key :: key in args ==> back(key) in names && newName(back(key)) == key
    requires forall orig :: orig in names ==> back(newName(orig)) == orig
    ensures SameCall(names, newName, args, Remapped(back, args, order, |order|))
  {
    var original := Remapped(back, args, order, |order|);
    forall orig | orig in original
      ensures orig in names && newName(orig) in args && original[orig] == args[newName(orig)]
    {
      RemappedAt(back, args, order, |order|, orig);
    }
    forall orig | orig in names && newName(orig) in args
      ensures orig in original
    {
      RemappedAt(back, args, order, |order|, orig);
    }
  }

  // ---------------------------------------------------------------------------
  // Names lead back
  // ---------------------------------------------------------------------------

  ghost predicate DistinctNames(tools: seq<Tool>) {
    forall i, j :: 0 <= i < j < |tools| ==> tools[i].name != tools[j].name
  }

  /** No two tools are shown under the same name. */
  ghost predicate ShownDistinct(tools: seq<Tool>, overrides: Overrides)
    requires ValidTools(tools) && AllKnown(tools, overrides)
  {
    forall i, j :: 0 <= i < j < |tools| ==> Shown(tools, overrides, i).tool.name != Shown(tools, overrides, j).tool.name
  }

  /** Tool `i`, called under its shown name, is remapped to itself. */
  ghost predicate LeadsBack(tools: seq<Tool>, overrides: Overrides, i: nat)
    requires ValidTools(tools) && AllKnown(tools, overrides) && i < |tools|
  {
    RemappedName(Shown(tools, overrides, i).tool.name, MappingsOf(tools, overrides, |tools|)) == tools[i].name
  }

  lemma {:induction false} NotRecorded(tools: seq<Tool>, overrides: Overrides, k: nat, name: string)
    requires ValidTools(tools) && AllKnown(tools, overrides) && k <= |tools|
    requires forall j :: 0 <= j < k ==> Shown(tools, overrides, j).tool.name != name
    ensures name !in MappingsOf(tools, overrides, k).toolNames && name !in MappingsOf(tools, overrides, k).parameters
  {
    if k > 0 {
      NotRecorded(tools, overrides, k - 1, name);
    }
  }

  /** Only real renames are recorded. */
  lemma {:induction false} RecordedRenames(tools: seq<Tool>, overrides: Overrides, k: nat, name: string)
    requires ValidTools(tools) && AllKnown(tools, overrides) && k <= |tools|
    ensures var m := MappingsOf(tools, overrides, k);
      && (name in m.toolNames ==> m.toolNames[name] != name)
      && (name in m.parameters ==> m.parameters[name] != map[])
  {
    if k > 0 {
      RecordedRenames(tools, overrides, k - 1, name);
    }
  }

  lemma {:induction false} RecordedAt(tools: seq<Tool>, overrides: Overrides, k: nat, i: nat)
    requires ValidTools(tools) && AllKnown(tools, overrides) && i < k <= |tools| && ShownDistinct(tools, overrides)
    ensures var m, name := MappingsOf(tools, overrides, k), Shown(tools, overrides, i).tool.name;
            && RemappedName(name, m) == tools[i].name
            && GetOr(m.parameters, name, map[]) == Shown(tools, overrides, i).mapping
  {
    if i < k - 1 {
      RecordedAt(tools, overrides, k - 1, i);
    } else {
      NotRecorded(tools, overrides, i, Shown(tools, overrides, i).tool.name);
    }
  }

  /** Every tool's shown name leads back to it exactly when the shown names are distinct. */
  lemma ToolNamesLeadBackIff(tools: seq<Tool>, overrides: Overrides)
    requires ValidTools(tools) && AllKnown(tools, overrides) && DistinctNames(tools)
    ensures (forall i :: 0 <= i < |tools| ==> LeadsBack(tools, overrides, i)) <==> ShownDistinct(tools, overrides)
  {
    if ShownDistinct(tools, overrides) {
      forall i | 0 <= i < |tools|
        ensures LeadsBack(tools, overrides, i)
      {
        RecordedAt(tools, overrides, |tools|, i);
      }
    } else {
      var i, j :| 0 <= i < j < |tools| && Shown(tools, overrides, i).tool.name == Shown(tools, overrides, j).tool.name;
      assert tools[i].name != tools[j].name;
      assert !LeadsBack(tools, overrides, i) || !LeadsBack(tools, overrides, j);
    }
  }

  // ---------------------------------------------------------------------------
  // What the overrides say is what the model sees
  // ---------------------------------------------------------------------------

  /** The override that is written down for a tool of this name of this provider. */
  predicate HasOverride(overrides: Overrides, tool: Tool) {
    tool.server in overrides && tool.name in overrides[tool.server]
  }

  /** The override written down for parameter `orig` of a tool. */
  predicate HasParamOverride(overrides: Overrides, tool: Tool, orig: string) {
    HasOverride(overrides, tool) && orig in overrides[tool.server][tool.name].params
  }

  /** The list is formatted exactly if every parameter override, of a tool that is listed, is a dictionary for a
      parameter that the tool has. */
  lemma AllKnownIff(tools: seq<Tool>, overrides: Overrides)
    requires ValidTools(tools)
    ensures AllKnown(tools, overrides) <==>
      forall i, orig :: 0 <= i < |tools| && HasParamOverride(overrides, tools[i], orig) ==>
        orig in tools[i].schema.props && overrides[tools[i].server][tools[i].name].params[orig].ParamOverride?
  {
    if AllKnown(tools, overrides) {
      forall i, orig | 0 <= i < |tools| && HasParamOverride(overrides, tools[i], orig)
        ensures orig in tools[i].schema.props && overrides[tools[i].server][tools[i].name].params[orig].ParamOverride?
      {
        assert Overridden(tools[i], ConfigOf(overrides, tools[i])).Ok?;
      }
    } else {
      var i :| 0 <= i < |tools| && Overridden(tools[i], ConfigOf(overrides, tools[i])).Err?;
      var params := overrides[tools[i].server][tools[i].name].params;
      var orig :| orig in params && !(orig in tools[i].schema.props && params[orig].ParamOverride?);
      assert HasParamOverride(overrides, tools[i], orig);
    }
  }

  /** A tool is shown with the name and the description that its override gives, and otherwise with its own. */
  lemma ShownTool(tools: seq<Tool>, overrides: Overrides, i: nat)
    requires ValidTools(tools) && AllKnown(tools, overrides) && i < |tools|
    ensures var tool, shown := tools[i], Shown(tools, overrides, i).tool;
      if HasOverride(overrides, tool) then
        var o := overrides[tool.server][tool.name];
        && shown.server == tool.server
        && shown.name == (if o.name.Some? then o.name.value else tool.name)
        && shown.description == (if o.description.Some? then o.description.value else tool.description)
      else shown == tool
  {
  }

  /** The name that the override gives to parameter `orig`, and otherwise its own. */
  function GivenName(overrides: Overrides, tool: Tool, orig: string): string {
    if HasParamOverride(overrides, tool, orig)
       && overrides[tool.server][tool.name].params[orig].ParamOverride?
       && overrides[tool.server][tool.name].params[orig].name.Some?
    then overrides[tool.server][tool.name].params[orig].name.value
    else orig
  }

  lemma GivenNameIsNew(overrides: Overrides, tool: Tool, orig: string)
    ensures GivenName(overrides, tool, orig) == NewName(ParamsOf(ConfigOf(overrides, tool)), orig)
  {
  }

  /** If no two parameters are given the same name, each is shown under the name it is given, with what its override
      says put over its own schema, and it is required exactly if it was. */
  lemma ShownParam(tools: seq<Tool>, overrides: Overrides, i: nat, orig: string)
    requires ValidTools(tools) && AllKnown(tools, overrides) && i < |tools| && orig in tools[i].schema.props
    requires Injective(tools[i].schema.order, ParamsOf(ConfigOf(overrides, tools[i])))
    ensures var tool, shown := tools[i], Shown(tools, overrides, i).tool.schema;
      var name := GivenName(overrides, tool, orig);
      && name in shown.props && (name in shown.required <==> orig in tool.schema.required)
      && (if HasParamOverride(overrides, tool, orig) then
            var o := overrides[tool.server][tool.name].params[orig];
            o.ParamOverride? && shown.props[name] == tool.schema.props[orig] + o.updates
          else shown.props[name] == tool.schema.props[orig])
  {
    var tool, s := tools[i], tools[i].schema;
    var params := ParamsOf(ConfigOf(overrides, tool));
    GivenNameIsNew(overrides, tool, orig);
    if params != map[] {
      var k :| 0 <= k < |s.order| && s.order[k] == orig;
      NewSchemaAt(s, params, |s.order|, k);
    }
  }

  // ---------------------------------------------------------------------------
  // Calls keep their meaning
  // ---------------------------------------------------------------------------

  function ParamsOf(config: Option<ToolOverride>): map<string, ParamOverride> {
    match config case Some(o) => o.params case None => map[]
  }

  lemma {:induction false} NoRenames(order: seq<string>, k: nat)
    requires k <= |order|
    ensures NewMapping(order, map[], k) == map[]
  {
    if k > 0 {
      NoRenames(order, k - 1);
    }
  }

  /** The names a tool is shown with, whether or not it has overrides. */
  lemma ShownParams(tool: Tool, config: Option<ToolOverride>, name: string)
    requires tool.schema.Valid() && Overridden(tool, config).Ok?
    ensures var t, s := Overridden(tool, config).value, tool.schema;
            && t.mapping == NewMapping(s.order, ParamsOf(config), |s.order|)
            && (name in t.tool.schema.props ==> exists i :: 0 <= i < |s.order| && NewName(ParamsOf(config), s.order[i]) == name)
            && (forall i :: 0 <= i < |s.order| && NewName(ParamsOf(config), s.order[i]) == name ==> name in t.tool.schema.props)
  {
    var s := tool.schema;
    NewNamesAt(s, ParamsOf(config), |s.order|, name);
    if ParamsOf(config) == map[] {
      NoRenames(s.order, |s.order|);
      assert forall i :: 0 <= i < |s.order| ==> NewName(map[], s.order[i]) == s.order[i];
      if name in s.props {
        var i :| 0 <= i < |s.order| && s.order[i] == name;
        assert NewName(map[], s.order[i]) == name;
      }
    }
  }

  /** How the parameters of a tool are renamed. */
  function NewNames(overrides: Overrides, tool: Tool): string -> string {
    orig => NewName(ParamsOf(ConfigOf(overrides, tool)), orig)
  }

  /** One argument of a call, renamed back: it is the parameter of that new name. */
  lemma OriginalOfExposed(tools: seq<Tool>, overrides: Overrides, t: nat, key: string)
    requires ValidTools(tools) && AllKnown(tools, overrides) && ShownDistinct(tools, overrides) && t < |tools|
    requires Injective(tools[t].schema.order, ParamsOf(ConfigOf(overrides, tools[t])))
    ensures var s, params := tools[t].schema, ParamsOf(ConfigOf(overrides, tools[t]));
            var shown, m := Shown(tools, overrides, t).tool, MappingsOf(tools, overrides, |tools|);
            && (forall i :: 0 <= i < |s.order| && NewName(params, s.order[i]) == key ==>
                  OriginalParam(shown.name, m, key) == s.order[i])
            && (key in shown.schema.props ==>
                  OriginalParam(shown.name, m, key) in s.props && NewName(params, OriginalParam(shown.name, m, key)) == key)
  {
    var s, config := tools[t].schema, ConfigOf(overrides, tools[t]);
    RecordedAt(tools, overrides, |tools|, t);
    ShownParams(tools[t], config, key);
    MappingInvertsIff(s, ParamsOf(config));
  }

  /** A call that uses only shown names reaches the original tool and parameters with the same values. */
  lemma CallKeepsMeaning(tools: seq<Tool>, overrides: Overrides, t: nat, args: Args, order: seq<string>)
    requires ValidTools(tools) && AllKnown(tools, overrides) && ShownDistinct(tools, overrides) && t < |tools|
    requires Injective(tools[t].schema.order, ParamsOf(ConfigOf(overrides, tools[t])))
    requires forall key :: key in order <==> key in args
    requires args.Keys <= Shown(tools, overrides, t).tool.schema.props.Keys
    ensures var name, m := Shown(tools, overrides, t).tool.name, MappingsOf(tools, overrides, |tools|);
            && RemappedName(name, m) == tools[t].name
            && SameCall(tools[t].schema.props.Keys, NewNames(overrides, tools[t]), args, RemappedArgs(name, m, args, order))
  {
    var s, newName := tools[t].schema, NewNames(overrides, tools[t]);
    var name, m := Shown(tools, overrides, t).tool.name, MappingsOf(tools, overrides, |tools|);
    var back := key => OriginalParam(name, m, key);
    RecordedAt(tools, overrides, |tools|, t);
    forall key | key in args
      ensures back(key) in s.props && newName(back(key)) == key
    {
      OriginalOfExposed(tools, overrides, t, key);
    }
    forall orig | orig in s.props
      ensures back(newName(orig)) == orig
    {
      var i :| 0 <= i < |s.order| && s.order[i] == orig;
      OriginalOfExposed(tools, overrides, t, newName(orig));
    }
    InverseKeepsCall(s.props.Keys, newName, back, args, order);
  }
}
