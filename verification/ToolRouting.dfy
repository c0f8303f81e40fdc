/**
  Merging the tools of all providers under their raw names and sending a call back to the provider that listed
  the tool (`ToolManager`), up to the call a server finally receives.
*/
module ToolRouting {
  import opened Wrappers
  import opened ToolSchemas
  import opened ToolClients

  datatype RoutingError = DuplicateTool | UnknownTool | NotQualified | UnknownProvider

  /** The provider and the name it knows the tool by. */
  datatype Route = Route(provider: string, bare: string)

  function Qualified(provider: string, name: string): string {
    provider + "." + name
  }

  /** The position of the first dot, or the length of the text. */
  function FirstDot(s: string): (r: nat)
    ensures r <= |s| && (forall i :: 0 <= i < r ==> s[i] != '.') && (r < |s| ==> s[r] == '.')
  {
    if s == [] || s[0] == '.' then 0 else FirstDot(s[1..]) + 1
  }

  function Resolve(qualified: string, providers: set<string>): Result<Route, RoutingError> {
    var dot := FirstDot(qualified);
    if dot == |qualified| then Err(NotQualified)
    else if qualified[..dot] !in providers then Err(UnknownProvider)
    else Ok(Route(qualified[..dot], qualified[dot + 1..]))
  }

  /** Resolving is the inverse of qualifying for provider names without a dot, whatever the tool is called. */
  lemma ResolveQualified(provider: string, name: string, providers: set<string>)
    requires '.' !in provider && provider in providers
    ensures Resolve(Qualified(provider, name), providers) == Ok(Route(provider, name))
  {
    var q := Qualified(provider, name);
    var dot := FirstDot(q);
    assert q[|provider|] == '.';
    assert forall i :: 0 <= i < |provider| ==> q[i] == provider[i];
    assert q[..dot] == provider && q[dot + 1..] == name;
  }

  lemma QualifiedInjective(p: string, m: string, q: string, n: string)
    requires '.' !in p && '.' !in q && Qualified(p, m) == Qualified(q, n)
    ensures p == q && m == n
  {
    ResolveQualified(p, m, {p, q});
    ResolveQualified(q, n, {p, q});
  }

  /** Resolving fails exactly for a name without a dot or with an unknown provider before its first one. */
  lemma ResolveIff(qualified: string, providers: set<string>)
    ensures Resolve(qualified, providers) == Err(NotQualified) <==> '.' !in qualified
    ensures Resolve(qualified, providers).Ok? <==>
      exists provider: string, bare: string :: provider in providers && '.' !in provider && qualified == Qualified(provider, bare)
  {
    var dot := FirstDot(qualified);
    if dot < |qualified| {
      assert qualified == Qualified(qualified[..dot], qualified[dot + 1..]);
    }
    if provider: string, bare: string :| provider in providers && '.' !in provider && qualified == Qualified(provider, bare) {
      ResolveQualified(provider, bare, providers);
    }
  }

  // ---------------------------------------------------------------------------
  // Merging the listings
  // ---------------------------------------------------------------------------

  /** The entries kept of one listing: the first one of each non-empty name. */
  function Kept(entries: seq<Tool>, k: nat): seq<Tool>
    requires k <= |entries|
  {
    if k == 0 then []
    else
      var name := entries[k - 1].name;
      Kept(entries, k - 1) + if name == "" || name in Names(entries, k - 1) then [] else [entries[k - 1]]
  }

  function WithoutTitles(s: Schema): Schema {
    s.(props := map name | name in s.props :: s.props[name] - {"title"})
  }

  function Tag(tool: Tool, provider: string): Tool {
    tool.(schema := WithoutTitles(tool.schema), server := provider)
  }

  function Tagged(tools: seq<Tool>, provider: string): (r: seq<Tool>)
    ensures |r| == |tools|
  {
    seq(|tools|, i requires 0 <= i < |tools| => Tag(tools[i], provider))
  }

  /** What the first `k` providers contribute. */
  function Merged(ids: seq<string>, listings: seq<seq<Tool>>, k: nat): seq<Tool>
    requires k <= |ids| == |listings|
  {
    if k == 0 then []
    else Merged(ids, listings, k - 1) + Tagged(Kept(listings[k - 1], |listings[k - 1]|), ids[k - 1])
  }

  /** The routing table, and whether every name so far was new. */
  datatype Registered = Registered(raw: map<string, string>, ok: bool)

  /** Recording tools one by one until the first name that is already there. */
  function Register(raw: map<string, string>, tools: seq<Tool>): Registered {
    if tools == [] then Registered(raw, true)
    else
      var before, tool := Register(raw, tools[..|tools| - 1]), tools[|tools| - 1];
      if !before.ok || tool.name in before.raw then Registered(before.raw, false)
      else Registered(before.raw[tool.name := Qualified(tool.server, tool.name)], true)
  }

  lemma {:induction false} RegisterAppend(raw: map<string, string>, xs: seq<Tool>, ys: seq<Tool>)
    ensures var first := Register(raw, xs);
            Register(raw, xs + ys) == if first.ok then Register(first.raw, ys) else first
  {
    if ys == [] {
      assert xs + ys == xs;
    } else {
      RegisterAppend(raw, xs, ys[..|ys| - 1]);
      assert (xs + ys)[..|xs + ys| - 1] == xs + ys[..|ys| - 1];
    }
  }

  /** Every local qualified name belongs to a recorded raw name. */
  ghost predicate Covered(local: map<string, string>, raw: map<string, string>) {
    forall q :: q in local ==> exists name: string :: name in raw && '.' !in local[q] && q == Qualified(local[q], name)
  }

  /** Both duplicate checks mean the same: the raw name is taken. */
  lemma AlreadyThere(local: map<string, string>, raw: map<string, string>, id: string, name: string)
    requires Covered(local, raw) && '.' !in id
    ensures Qualified(id, name) in local ==> name in raw
  {
    var q := Qualified(id, name);
    if q in local {
      var other: string :| other in raw && '.' !in local[q] && q == Qualified(local[q], other);
      QualifiedInjective(id, name, local[q], other);
    }
  }

  lemma CoverOne(local: map<string, string>, raw: map<string, string>, id: string, name: string)
    requires Covered(local, raw) && '.' !in id
    ensures Covered(local[Qualified(id, name) := id], raw[name := Qualified(id, name)])
  {
    var after := raw[name := Qualified(id, name)];
    forall q | q in local
      ensures exists other: string :: other in after && '.' !in local[q] && q == Qualified(local[q], other)
    {
      var other: string :| other in raw && '.' !in local[q] && q == Qualified(local[q], other);
      assert other in after;
    }
    assert name in after;
  }

  /** Where loading the first `i` entries of one provider leads. */
  ghost predicate Loaded(raw0: map<string, string>, entries: seq<Tool>, id: string, i: nat, out: seq<Tool>,
                         seen: set<string>, local: map<string, string>, raw: map<string, string>)
    requires i <= |entries|
  {
    && out == Tagged(Kept(entries, i), id)
    && seen == Names(entries, i) - {""}
    && Covered(local, raw)
    && Register(raw0, out) == Registered(raw, true)
  }

  lemma LoadedNothing(raw: map<string, string>, entries: seq<Tool>, id: string, local: map<string, string>)
    requires Covered(local, raw)
    ensures Loaded(raw, entries, id, 0, [], {}, local, raw)
  {
    assert Tagged([], id) == [];
  }

  lemma LoadSkips(raw0: map<string, string>, entries: seq<Tool>, id: string, i: nat, out: seq<Tool>,
                  seen: set<string>, local: map<string, string>, raw: map<string, string>)
    requires i < |entries| && Loaded(raw0, entries, id, i, out, seen, local, raw)
    requires entries[i].name == "" || entries[i].name in seen
    ensures Loaded(raw0, entries, id, i + 1, out, seen, local, raw)
  {
    assert Names(entries, i + 1) == Names(entries, i) + {entries[i].name};
  }

  lemma KeepOne(raw0: map<string, string>, entries: seq<Tool>, id: string, i: nat)
    requires i < |entries| && entries[i].name != "" && entries[i].name !in Names(entries, i)
    ensures Tagged(Kept(entries, i + 1), id) == Tagged(Kept(entries, i), id) + [Tag(entries[i], id)]
    ensures var before, name := Register(raw0, Tagged(Kept(entries, i), id)), entries[i].name;
            Register(raw0, Tagged(Kept(entries, i + 1), id)) ==
              if !before.ok || name in before.raw then Registered(before.raw, false)
              else Registered(before.raw[name := Qualified(id, name)], true)
  {
    var out := Tagged(Kept(entries, i), id);
    assert (out + [Tag(entries[i], id)])[..|out|] == out;
    assert Tagged(Kept(entries, i + 1), id) == out + [Tag(entries[i], id)];
  }

  lemma LoadAdds(raw0: map<string, string>, entries: seq<Tool>, id: string, i: nat, out: seq<Tool>,
                 seen: set<string>, local: map<string, string>, raw: map<string, string>)
    requires i < |entries| && Loaded(raw0, entries, id, i, out, seen, local, raw) && '.' !in id
    requires entries[i].name != "" && entries[i].name !in seen && entries[i].name !in raw
    ensures var name, q := entries[i].name, Qualified(id, entries[i].name);
            Loaded(raw0, entries, id, i + 1, out + [Tag(entries[i], id)], seen + {name}, local[q := id], raw[name := q])
  {
    KeepOne(raw0, entries, id, i);
    CoverOne(local, raw, id, entries[i].name);
    assert Names(entries, i + 1) == Names(entries, i) + {entries[i].name};
  }

  lemma LoadClashes(raw0: map<string, string>, entries: seq<Tool>, id: string, i: nat, out: seq<Tool>,
                    seen: set<string>, local: map<string, string>, raw: map<string, string>)
    requires i < |entries| && Loaded(raw0, entries, id, i, out, seen, local, raw) && '.' !in id
    requires entries[i].name != "" && entries[i].name !in seen
    requires Qualified(id, entries[i].name) in local || entries[i].name in raw
    ensures Register(raw0, Tagged(Kept(entries, |entries|), id)) == Registered(raw, false)
  {
    AlreadyThere(local, raw, id, entries[i].name);
    KeepOne(raw0, entries, id, i);
    ClashIsFinal(raw0, entries, id, i + 1);
  }

  lemma {:induction false} KeptPrefix(entries: seq<Tool>, k: nat, n: nat)
    requires k <= n <= |entries|
    ensures |Kept(entries, k)| <= |Kept(entries, n)| && Kept(entries, n)[..|Kept(entries, k)|] == Kept(entries, k)
  {
    if k < n {
      KeptPrefix(entries, k, n - 1);
    }
  }

  /** After a clash nothing more is recorded. */
  lemma ClashIsFinal(raw: map<string, string>, entries: seq<Tool>, id: string, k: nat)
    requires k <= |entries| && !Register(raw, Tagged(Kept(entries, k), id)).ok
    ensures Register(raw, Tagged(Kept(entries, |entries|), id)) == Register(raw, Tagged(Kept(entries, k), id))
  {
    KeptPrefix(entries, k, |entries|);
    var all, part := Tagged(Kept(entries, |entries|), id), Tagged(Kept(entries, k), id);
    assert all == part + all[|part|..];
    RegisterAppend(raw, part, all[|part|..]);
  }

  lemma {:induction false} MergedPrefix(ids: seq<string>, listings: seq<seq<Tool>>, k: nat, n: nat)
    requires k <= n <= |ids| == |listings|
    ensures |Merged(ids, listings, k)| <= |Merged(ids, listings, n)|
    ensures Merged(ids, listings, n)[..|Merged(ids, listings, k)|] == Merged(ids, listings, k)
  {
    if k < n {
      MergedPrefix(ids, listings, k, n - 1);
    }
  }

  lemma ClashEndsListing(raw: map<string, string>, ids: seq<string>, listings: seq<seq<Tool>>, k: nat)
    requires k <= |ids| == |listings| && !Register(raw, Merged(ids, listings, k)).ok
    ensures Register(raw, Merged(ids, listings, |ids|)) == Register(raw, Merged(ids, listings, k))
  {
    MergedPrefix(ids, listings, k, |ids|);
    var all, part := Merged(ids, listings, |ids|), Merged(ids, listings, k);
    assert all == part + all[|part|..];
    RegisterAppend(raw, part, all[|part|..]);
  }

  /** What one more provider does to the routing table. */
  lemma ProviderMerges(raw0: map<string, string>, ids: seq<string>, listings: seq<seq<Tool>>, p: nat,
                       before: map<string, string>, after: map<string, string>, ok: bool)
    requires p < |ids| == |listings| && Register(raw0, Merged(ids, listings, p)) == Registered(before, true)
    requires Registered(after, ok) == Register(before, Tagged(Kept(listings[p], |listings[p]|), ids[p]))
    ensures ok ==> Register(raw0, Merged(ids, listings, p + 1)) == Registered(after, true)
    ensures !ok ==> Register(raw0, Merged(ids, listings, |ids|)) == Registered(after, false)
  {
    RegisterAppend(raw0, Merged(ids, listings, p), Tagged(Kept(listings[p], |listings[p]|), ids[p]));
    if !ok {
      ClashEndsListing(raw0, ids, listings, p + 1);
    }
  }

  class ToolManager {
    const ids: seq<string>
    var rawToQualified: map<string, string>
    var qualifiedTools: map<string, string>
    var cache: Option<seq<Tool>>

    /** Provider ids are class names, so they hold no dot.  Every name in the table is
        qualified by one of them, and the cached tools are in the table. */
    ghost predicate Valid()
      reads this
    {
      ProperIds(ids) && TableValid(ids, rawToQualified, cache)
    }

    constructor (ids: seq<string>)
      requires ProperIds(ids)
      ensures Valid() && this.ids == ids && rawToQualified == map[] && cache == None
    {
      this.ids := ids;
      rawToQualified, qualifiedTools, cache := map[], map[], None;
    }

    /** Record the kept tools of one provider, up to the first name that is taken. */
    method LoadProvider(id: string, entries: seq<Tool>, local: map<string, string>)
      returns (r: Result<seq<Tool>, RoutingError>, localAfter: map<string, string>)
      requires '.' !in id && Covered(local, rawToQualified)
      modifies this`rawToQualified
      ensures Registered(rawToQualified, r.Ok?) == Register(old(rawToQualified), Tagged(Kept(entries, |entries|), id))
      ensures r.Ok? ==> r.value == Tagged(Kept(entries, |entries|), id) && Covered(localAfter, rawToQualified)
      ensures r.Err? ==> r.error == DuplicateTool
    {
      var out: seq<Tool>, seen: set<string> := [], {};
      localAfter := local;
      LoadedNothing(rawToQualified, entries, id, local);
      for i := 0 to |entries|
        invariant Loaded(old(rawToQualified), entries, id, i, out, seen, localAfter, rawToQualified)
      {
        var name := entries[i].name;
        if name == "" || name in seen {
          LoadSkips(old(rawToQualified), entries, id, i, out, seen, localAfter, rawToQualified);
          continue;
        }
        var qualified := Qualified(id, name);
        if qualified in localAfter || name in rawToQualified {
          LoadClashes(old(rawToQualified), entries, id, i, out, seen, localAfter, rawToQualified);
          return Err(DuplicateTool), localAfter;
        }
        LoadAdds(old(rawToQualified), entries, id, i, out, seen, localAfter, rawToQualified);
        seen := seen + {name};
        localAfter := localAfter[qualified := id];
        rawToQualified := rawToQualified[name := qualified];
        out := out + [Tag(entries[i], id)];
      }
      r := Ok(out);
    }

    /** The loop over the providers. */
    method LoadProviders(listings: seq<seq<Tool>>) returns (r: Result<seq<Tool>, RoutingError>, local: map<string, string>)
      requires ProperIds(ids) && |listings| == |ids|
      modifies this`rawToQualified
      ensures Registered(rawToQualified, r.Ok?) == Register(old(rawToQualified), Merged(ids, listings, |ids|))
      ensures r.Ok? ==> r.value == Merged(ids, listings, |ids|)
      ensures r.Err? ==> r.error == DuplicateTool
    {
      var merged: seq<Tool> := [];
      local := map[];
      for p := 0 to |ids|
        invariant MergedUpTo(old(rawToQualified), ids, listings, p, merged, local, rawToQualified)
      {
        ghost var before := rawToQualified;
        var loaded;
        loaded, local := LoadProvider(ids[p], listings[p], local);
        ProviderMerges(old(rawToQualified), ids, listings, p, before, rawToQualified, loaded.Ok?);
        if loaded.Err? {
          return Err(loaded.error), local;
        }
        merged := merged + loaded.value;
      }
      r := Ok(merged);
    }

    /** The merged list, from the cache or from what the providers list now. */
    method ListAllTools(useCache: bool, listings: seq<seq<Tool>>) returns (r: Result<seq<Tool>, RoutingError>)
      requires Valid() && |listings| == |ids|
      modifies this
      ensures Valid() && (r.Ok? ==> Routed(rawToQualified, r.value))
      ensures (if useCache && old(cache).Some? then
                 r == Ok(old(cache).value) && cache == old(cache) && rawToQualified == old(rawToQualified)
               else
                 var merged := Merged(ids, listings, |ids|);
                 && Registered(rawToQualified, r.Ok?) == Register(old(rawToQualified), merged)
                 && (r.Ok? ==> r.value == merged && cache == Some(merged))
                 && (r.Err? ==> r.error == DuplicateTool && cache == old(cache)))
    {
      if useCache && cache.Some? {
        return Ok(cache.value);
      }
      var local;
      r, local := LoadProviders(listings);
      AfterListing(old(rawToQualified), rawToQualified, ids, listings, if r.Ok? then Some(r.value) else cache, r.Ok?);
      if r.Ok? {
        qualifiedTools, cache := local, Some(r.value);
      }
    }

    /** A known name goes to the provider that recorded it, under that name; the other errors of `_resolve` never occur. */
    method ExecuteTool(rawName: string) returns (r: Result<Route, RoutingError>)
      requires Valid()
      ensures rawName !in rawToQualified ==> r == Err(UnknownTool)
      ensures rawName in rawToQualified ==>
        && r.Ok? && r.value.bare == rawName && r.value.provider in ids
        && rawToQualified[rawName] == Qualified(r.value.provider, rawName)
      ensures cache.Some? ==>
        forall tool :: tool in cache.value && tool.name == rawName ==> r == Ok(Route(tool.server, rawName))
    {
      if rawName !in rawToQualified {
        return Err(UnknownTool);
      }
      ghost var i :| 0 <= i < |ids| && rawToQualified[rawName] == Qualified(ids[i], rawName);
      ResolveQualified(ids[i], rawName, set id | id in ids);
      if cache.Some? {
        forall tool | tool in cache.value && tool.name == rawName
          ensures tool.server == ids[i]
        {
          SameQualifier(tool.server, ids[i], rawName);
        }
      }
      r := Resolve(rawToQualified[rawName], set id | id in ids);
    }
  }

  ghost predicate ProperIds(ids: seq<string>) {
    forall id :: id in ids ==> '.' !in id
  }

  /** Every recorded name belongs to a provider, and the cached tools are recorded. */
  ghost predicate TableValid(ids: seq<string>, raw: map<string, string>, cache: Option<seq<Tool>>) {
    Sound(raw, ids) && (cache.Some? ==> Routed(raw, cache.value))
  }

  /** What the first `p` providers have left behind, without a clash so far. */
  ghost predicate MergedUpTo(raw0: map<string, string>, ids: seq<string>, listings: seq<seq<Tool>>, p: nat,
                             merged: seq<Tool>, local: map<string, string>, raw: map<string, string>)
    requires p <= |ids| == |listings|
  {
    merged == Merged(ids, listings, p) && Covered(local, raw) && Register(raw0, merged) == Registered(raw, true)
  }

  /** A listing, finished or not, leaves a sound table; the cache stays in it. */
  lemma AfterListing(raw0: map<string, string>, raw: map<string, string>, ids: seq<string>, listings: seq<seq<Tool>>,
                     cache: Option<seq<Tool>>, ok: bool)
    requires |ids| == |listings| && Sound(raw0, ids)
    requires Register(raw0, Merged(ids, listings, |ids|)) == Registered(raw, ok)
    requires cache.Some? ==> (if ok then cache.value == Merged(ids, listings, |ids|) else Routed(raw0, cache.value))
    ensures TableValid(ids, raw, cache)
  {
    ListingSound(raw0, ids, listings);
  }

  /** Every name is qualified by one of the providers. */
  ghost predicate Sound(raw: map<string, string>, ids: seq<string>) {
    forall name :: name in raw ==> exists i :: 0 <= i < |ids| && raw[name] == Qualified(ids[i], name)
  }

  /** Every tool's name leads to the provider that listed it. */
  ghost predicate Routed(raw: map<string, string>, tools: seq<Tool>) {
    forall tool :: tool in tools ==> tool.name in raw && raw[tool.name] == Qualified(tool.server, tool.name)
  }

  lemma SameQualifier(p: string, q: string, name: string)
    requires Qualified(p, name) == Qualified(q, name)
    ensures p == q
  {
    assert |p| == |q|;
    assert p == Qualified(p, name)[..|p|] && q == Qualified(q, name)[..|q|];
  }

  lemma {:induction false} RegisterSound(raw: map<string, string>, ids: seq<string>, tools: seq<Tool>)
    requires Sound(raw, ids) && forall i :: 0 <= i < |tools| ==> tools[i].server in ids
    ensures Sound(Register(raw, tools).raw, ids)
    ensures forall name :: name in raw ==> name in Register(raw, tools).raw && Register(raw, tools).raw[name] == raw[name]
  {
    if tools != [] {
      RegisterSound(raw, ids, tools[..|tools| - 1]);
    }
  }

  lemma ListingSound(raw: map<string, string>, ids: seq<string>, listings: seq<seq<Tool>>)
    requires |ids| == |listings| && Sound(raw, ids)
    ensures var merged := Merged(ids, listings, |ids|);
            var done := Register(raw, merged);
            && Sound(done.raw, ids) && (done.ok ==> Routed(done.raw, merged))
            && (forall name :: name in raw ==> name in done.raw && done.raw[name] == raw[name])
  {
    var merged := Merged(ids, listings, |ids|);
    forall t | 0 <= t < |merged|
      ensures merged[t].server in ids
      ensures Register(raw, merged).ok ==> Routed(Register(raw, merged).raw, [merged[t]])
    {
      var p, i := MergedFrom(ids, listings, |ids|, t);
      if Register(raw, merged).ok {
        RegisteredAt(raw, merged, t);
      }
    }
    forall tool | tool in merged && Register(raw, merged).ok
      ensures tool.name in Register(raw, merged).raw
      ensures Register(raw, merged).raw[tool.name] == Qualified(tool.server, tool.name)
    {
      var t :| 0 <= t < |merged| && merged[t] == tool;
      assert tool in [merged[t]];
    }
    RegisterSound(raw, ids, merged);
  }

  // ---------------------------------------------------------------------------
  // What routing promises
  // ---------------------------------------------------------------------------

  ghost predicate AllNew(raw: map<string, string>, tools: seq<Tool>) {
    DistinctNames(tools) && forall i :: 0 <= i < |tools| ==> tools[i].name !in raw
  }

  lemma {:induction false} RegisteredKeys(raw: map<string, string>, tools: seq<Tool>, name: string)
    requires Register(raw, tools).ok
    ensures name in Register(raw, tools).raw <==> name in raw || exists i :: 0 <= i < |tools| && tools[i].name == name
  {
    if tools != [] {
      RegisteredKeys(raw, tools[..|tools| - 1], name);
      assert tools == tools[..|tools| - 1] + [tools[|tools| - 1]];
    }
  }

  /** Each name is recorded with its provider. */
  lemma {:induction false} RegisteredAt(raw: map<string, string>, tools: seq<Tool>, i: nat)
    requires Register(raw, tools).ok && i < |tools|
    ensures tools[i].name in Register(raw, tools).raw
    ensures Register(raw, tools).raw[tools[i].name] == Qualified(tools[i].server, tools[i].name)
  {
    if i < |tools| - 1 {
      RegisteredAt(raw, tools[..|tools| - 1], i);
    }
  }

  /** Listing succeeds exactly when every raw name is new and none is listed twice. */
  lemma {:induction false} RegisterIff(raw: map<string, string>, tools: seq<Tool>)
    ensures Register(raw, tools).ok <==> AllNew(raw, tools)
  {
    if tools != [] {
      var front, last := tools[..|tools| - 1], tools[|tools| - 1];
      RegisterIff(raw, front);
      assert forall i :: 0 <= i < |front| ==> front[i] == tools[i];
      if Register(raw, front).ok {
        RegisteredKeys(raw, front, last.name);
      } else {
        if AllNew(raw, tools) {
          AllNewOfFront(raw, tools);
        }
      }
    }
  }

  lemma AllNewOfFront(raw: map<string, string>, tools: seq<Tool>)
    requires tools != [] && AllNew(raw, tools)
    ensures AllNew(raw, tools[..|tools| - 1])
  {
  }

  /** Listing again without the cache fails unless there is nothing to list: the routing table is never cleared. */
  lemma RelistingIff(raw: map<string, string>, tools: seq<Tool>)
    requires Register(raw, tools).ok
    ensures Register(Register(raw, tools).raw, tools).ok <==> tools == []
  {
    RegisterIff(raw, tools);
    RegisterIff(Register(raw, tools).raw, tools);
    if tools != [] {
      RegisteredAt(raw, tools, 0);
    }
  }

  /** Where the `t`-th merged tool comes from. */
  lemma {:induction false} MergedFrom(ids: seq<string>, listings: seq<seq<Tool>>, k: nat, t: nat) returns (p: nat, i: nat)
    requires k <= |ids| == |listings| && t < |Merged(ids, listings, k)|
    ensures p < k && i < |listings[p]| && FirstOfName(listings[p], i)
    ensures var tool := listings[p][i];
            Merged(ids, listings, k)[t] == Tag(tool, ids[p])
  {
    var before := Merged(ids, listings, k - 1);
    if t < |before| {
      p, i := MergedFrom(ids, listings, k - 1, t);
    } else {
      p := k - 1;
      i := KeptIsFirst(listings[p], |listings[p]|, t - |before|);
    }
  }

  /** `entries[i]` has a name, and no earlier entry has the same. */
  predicate FirstOfName(entries: seq<Tool>, i: nat)
    requires i < |entries|
  {
    entries[i].name != "" && forall j :: 0 <= j < i ==> entries[j].name != entries[i].name
  }

  /** Exactly the first entry of each name is kept, in order. */
  lemma {:induction false} KeptAt(entries: seq<Tool>, k: nat, i: nat)
    requires i < k <= |entries| && FirstOfName(entries, i)
    ensures |Kept(entries, i)| < |Kept(entries, k)| && Kept(entries, k)[|Kept(entries, i)|] == entries[i]
  {
    if i < k - 1 {
      KeptAt(entries, k - 1, i);
    }
  }

  lemma {:induction false} KeptIsFirst(entries: seq<Tool>, k: nat, t: nat) returns (i: nat)
    requires k <= |entries| && t < |Kept(entries, k)|
    ensures i < k && FirstOfName(entries, i) && Kept(entries, k)[t] == entries[i]
  {
    if t < |Kept(entries, k - 1)| {
      i := KeptIsFirst(entries, k - 1, t);
    } else {
      i := k - 1;
    }
  }

  /** Every kept entry of every provider is among the merged tools, tagged with its provider. */
  lemma {:induction false} MergedAt(ids: seq<string>, listings: seq<seq<Tool>>, k: nat, p: nat, i: nat) returns (t: nat)
    requires p < k <= |ids| == |listings| && i < |listings[p]| && FirstOfName(listings[p], i)
    ensures t < |Merged(ids, listings, k)| && Merged(ids, listings, k)[t] == Tag(listings[p][i], ids[p])
  {
    if p < k - 1 {
      t := MergedAt(ids, listings, k - 1, p, i);
    } else {
      KeptAt(listings[p], |listings[p]|, i);
      t := |Merged(ids, listings, k - 1)| + |Kept(listings[p], i)|;
    }
  }

  /** Tagging changes the provider and takes every parameter's title away, and nothing else. */
  lemma TagKeeps(tool: Tool, provider: string, param: string)
    ensures var tagged := Tag(tool, provider);
      && tagged.name == tool.name && tagged.description == tool.description && tagged.server == provider
      && tagged.schema.order == tool.schema.order && tagged.schema.required == tool.schema.required
      && (param in tagged.schema.props <==> param in tool.schema.props)
      && (param in tool.schema.props ==>
            "title" !in tagged.schema.props[param] &&
            forall key :: key in tool.schema.props[param] && key != "title" ==>
              key in tagged.schema.props[param] && tagged.schema.props[param][key] == tool.schema.props[param][key])
  {
  }

  /** A named tool is offered by provider `id` exactly if its client lists one of that name. */
  lemma OfferedIff(ids: seq<string>, listings: seq<seq<Tool>>, p: nat, name: string)
    requires p < |ids| == |listings| && (forall i, j :: 0 <= i < j < |ids| ==> ids[i] != ids[j])
    ensures (exists t :: 0 <= t < |Merged(ids, listings, |ids|)| && Merged(ids, listings, |ids|)[t].name == name
                         && Merged(ids, listings, |ids|)[t].server == ids[p])
       <==> name != "" && exists i :: 0 <= i < |listings[p]| && listings[p][i].name == name
  {
    var merged := Merged(ids, listings, |ids|);
    if t :| 0 <= t < |merged| && merged[t].name == name && merged[t].server == ids[p] {
      var q, i := MergedFrom(ids, listings, |ids|, t);
      assert listings[p][i].name == name;
    }
    if k :| 0 <= k < |listings[p]| && listings[p][k].name == name && name != "" {
      var i := FirstNamed(listings[p], name, k);
      var t := MergedAt(ids, listings, |ids|, p, i);
      assert merged[t].name == name;
    }
  }

  lemma {:induction false} FirstNamed(entries: seq<Tool>, name: string, k: nat) returns (i: nat)
    requires name != "" && k < |entries| && entries[k].name == name
    ensures i < |entries| && entries[i].name == name && FirstOfName(entries, i)
    decreases k
  {
    if j :| 0 <= j < k && entries[j].name == name {
      i := FirstNamed(entries, name, j);
    } else {
      i := k;
    }
  }

  /** Each provider with its client and the tools of its server. */
  datatype Deployment = Deployment(ids: seq<string>, clients: seq<Client>, servers: seq<seq<Tool>>)
  {
    ghost predicate Valid() {
      && |clients| == |servers| == |ids|
      && (forall p :: 0 <= p < |ids| ==> '.' !in ids[p])
      && (forall p :: 0 <= p < |ids| ==> ValidTools(servers[p]))
    }

    function Listings(): (r: seq<seq<Tool>>)
      requires |clients| == |servers|
      ensures |r| == |clients|
    {
      seq(|clients|, p requires 0 <= p < |clients| => clients[p].Listing(servers[p]))
    }

    /** The merged list of all tools. */
    function Tools(): (r: seq<Tool>)
      requires Valid()
      ensures ValidTools(r)
    {
      ToolsValid(this);
      Merged(ids, Listings(), |ids|)
    }
  }

  /** The merged tool `t` is tool `i` of the server of provider `p`, without what its client hides. */
  ghost predicate ComesFrom(d: Deployment, t: nat, p: nat, i: nat)
    requires d.Valid() && t < |d.Tools()|
  {
    && p < |d.ids| && i < |d.servers[p]|
    && d.Tools()[t].name == d.servers[p][i].name
    && d.Tools()[t].server == d.ids[p]
    && d.Tools()[t].schema == WithoutTitles(Masked(d.servers[p][i], d.clients[p].hideArgs).schema)
    && d.clients[p].Allowed(d.servers[p][i].name)
  }

  lemma MergedToolFrom(d: Deployment, t: nat) returns (p: nat, i: nat)
    requires d.Valid() && t < |Merged(d.ids, d.Listings(), |d.ids|)|
    ensures p < |d.ids| && i < |d.servers[p]| && d.clients[p].Allowed(d.servers[p][i].name)
    ensures Merged(d.ids, d.Listings(), |d.ids|)[t] == Tag(Masked(d.servers[p][i], d.clients[p].hideArgs), d.ids[p])
  {
    var j;
    p, j := MergedFrom(d.ids, d.Listings(), |d.ids|, t);
    i := d.clients[p].ListedFromServer(d.servers[p], d.Listings()[p][j]);
  }

  lemma ToolComesFrom(d: Deployment, t: nat) returns (p: nat, i: nat)
    requires d.Valid() && t < |d.Tools()|
    ensures ComesFrom(d, t, p, i)
  {
    p, i := MergedToolFrom(d, t);
  }

  /** A provider offers a tool under some name exactly if its server has one and its client allows it. */
  lemma DeploymentOffersIff(d: Deployment, p: nat, name: string)
    requires d.Valid() && p < |d.ids| && (forall i, j :: 0 <= i < j < |d.ids| ==> d.ids[i] != d.ids[j])
    ensures (exists t :: 0 <= t < |d.Tools()| && d.Tools()[t].name == name && d.Tools()[t].server == d.ids[p])
       <==> name != "" && d.clients[p].Allowed(name) && exists i :: 0 <= i < |d.servers[p]| && d.servers[p][i].name == name
  {
    OfferedIff(d.ids, d.Listings(), p, name);
    assert d.Tools() == Merged(d.ids, d.Listings(), |d.ids|);
    ListedNames(d, p, name);
  }

  /** A client lists a tool under some name exactly if its server has one and the client allows it. */
  lemma ListedNames(d: Deployment, p: nat, name: string)
    requires d.Valid() && p < |d.ids|
    ensures (exists i :: 0 <= i < |d.Listings()[p]| && d.Listings()[p][i].name == name)
       <==> d.clients[p].Allowed(name) && exists i :: 0 <= i < |d.servers[p]| && d.servers[p][i].name == name
  {
    var client, server, listing := d.clients[p], d.servers[p], d.Listings()[p];
    assert listing == client.Listing(server);
    if k :| 0 <= k < |listing| && listing[k].name == name {
      var i := client.ListedFromServer(server, listing[k]);
      assert server[i].name == name;
    }
    if i :| 0 <= i < |server| && server[i].name == name && client.Allowed(name) {
      client.ListedIffAllowed(server, i);
      var k :| 0 <= k < |listing| && listing[k] == Masked(server[i], client.hideArgs);
      assert listing[k].name == name;
    }
  }

  lemma MaskedValid(tool: Tool, mask: Hidden)
    requires tool.schema.Valid()
    ensures Masked(tool, mask).schema.Valid() && WithoutTitles(Masked(tool, mask).schema).Valid()
  {
    if tool.name in mask {
      PrunedValid(tool.schema, mask[tool.name], |mask[tool.name]|);
    }
  }

  /** Masking and merging keep schemas well formed. */
  lemma ToolsValid(d: Deployment)
    requires d.Valid()
    ensures ValidTools(Merged(d.ids, d.Listings(), |d.ids|))
  {
    forall t | 0 <= t < |Merged(d.ids, d.Listings(), |d.ids|)|
      ensures Merged(d.ids, d.Listings(), |d.ids|)[t].schema.Valid()
    {
      var p, i := MergedToolFrom(d, t);
      MaskedValid(d.servers[p][i], d.clients[p].hideArgs);
    }
  }

  /** A listed tool's raw name routes to the provider that listed it, under that name. */
  lemma ListedIsRouted(d: Deployment, raw: map<string, string>, t: nat)
    requires d.Valid() && Register(raw, d.Tools()).ok && t < |d.Tools()|
    ensures var table, tool := Register(raw, d.Tools()).raw, d.Tools()[t];
            && tool.name in table
            && Resolve(table[tool.name], set id | id in d.ids) == Ok(Route(tool.server, tool.name))
  {
    RegisteredAt(raw, d.Tools(), t);
    var p, i := ToolComesFrom(d, t);
    ResolveQualified(d.ids[p], d.Tools()[t].name, set id | id in d.ids);
  }

  /** From the model to the server: a call of a shown tool with shown arguments is renamed back, routed to the provider
      that listed the tool, allowed by its client and sanitised without loss; the server gets the same values under
      its own names and none of the hidden arguments. */
  lemma CallReachesServer(d: Deployment, overrides: Overrides, t: nat, args: Args, order: seq<string>)
    returns (p: nat, i: nat)
    requires d.Valid() && AllKnown(d.Tools(), overrides) && t < |d.Tools()|
    requires Register(map[], d.Tools()).ok && ShownDistinct(d.Tools(), overrides)
    requires Injective(d.Tools()[t].schema.order, ParamsOf(ConfigOf(overrides, d.Tools()[t])))
    requires forall key :: key in order <==> key in args
    requires args.Keys <= Shown(d.Tools(), overrides, t).tool.schema.props.Keys
    ensures ComesFrom(d, t, p, i)
    ensures var tools, name := d.Tools(), Shown(d.Tools(), overrides, t).tool.name;
            var mappings := MappingsOf(tools, overrides, |tools|);
            var original, bare := RemappedArgs(name, mappings, args, order), RemappedName(name, mappings);
            var table := Register(map[], tools).raw;
            && bare == d.servers[p][i].name && bare in table
            && Resolve(table[bare], set id | id in d.ids) == Ok(Route(d.ids[p], bare))
            && d.clients[p].Allowed(bare)
            && Sanitized(original, bare, d.clients[p].hideArgs) == original
            && SameCall(tools[t].schema.props.Keys, NewNames(overrides, tools[t]), args, original)
  {
    p, i := ToolComesFrom(d, t);
    var tools, name := d.Tools(), Shown(d.Tools(), overrides, t).tool.name;
    var mappings := MappingsOf(tools, overrides, |tools|);
    CallKeepsMeaning(tools, overrides, t, args, order);
    ListedIsRouted(d, map[], t);
    SanitisingListedIsNoOp(d.servers[p][i], d.clients[p].hideArgs, RemappedArgs(name, mappings, args, order));
  }
}
