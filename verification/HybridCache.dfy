/**
  The in-memory cache with periodic persistence (`HybridCache`).  A save has two phases: a shallow snapshot
  under the lock, then, outside the lock, a dump to a temporary file and its atomic replacement of the cache
  file.  Mutations interleave freely; sets are mutable objects that snapshots share.
*/
module HybridCaches {
  import opened Wrappers

  type Key = string

  /** A cached value; a set is a reference to a mutable object. */
  datatype Value = Number(n: int) | Text(s: string) | SetRef(ref: nat)

  /** What pickling writes for a value. */
  datatype Plain = PlainNumber(n: int) | PlainText(s: string) | PlainSet(elems: set<string>)

  type Dict = map<Key, Value>
  type Content = map<Key, Plain>

  /** A saving thread after its snapshot, and after its dump. */
  datatype Saver = Taken(data: Dict) | Dumped

  datatype CacheError = TtlNotSupported | TypeError | AttributeError

  datatype State = State(dict: Dict, sets: seq<set<string>>, dirty: bool, savers: map<nat, Saver>,
                         tmp: Option<Content>, disk: Option<Content>)

  function Pickle(v: Value, sets: seq<set<string>>): Plain {
    match v
    case Number(n) => PlainNumber(n)
    case Text(s) => PlainText(s)
    case SetRef(r) => PlainSet(if r < |sets| then sets[r] else {})
  }

  function Pickled(dict: Dict, sets: seq<set<string>>): Content {
    map k | k in dict :: Pickle(dict[k], sets)
  }

  /** What the cache holds, as a reader or the pickler sees it. */
  function Memory(s: State): Content {
    Pickled(s.dict, s.sets)
  }

  function OnDisk(s: State): Content {
    match s.disk case Some(c) => c case None => map[]
  }

  /** Reading decodes a text that is a JSON number; other texts are left as they are. */
  type Decoder = string -> Option<int>

  function Fetched(v: Value, json: Decoder): Value {
    if v.Text? && json(v.s).Some? then Number(json(v.s).value) else v
  }

  predicate Falsy(v: Value, sets: seq<set<string>>) {
    match v
    case Number(n) => n == 0
    case Text(s) => s == []
    case SetRef(r) => r < |sets| && sets[r] == {}
  }

  predicate RefsValid(dict: Dict, sets: seq<set<string>>) {
    forall k :: k in dict && dict[k].SetRef? ==> dict[k].ref < |sets|
  }

  /** The number stored under a key, 0 without one. */
  function Amount(dict: Dict, key: Key, json: Decoder): int {
    if key in dict && Fetched(dict[key], json).Number? then Fetched(dict[key], json).n else 0
  }

  /** Something is stored under the key that is truthy and no number. */
  predicate HoldsNoNumber(s: State, key: Key, json: Decoder) {
    key in s.dict && !Fetched(s.dict[key], json).Number? && !Falsy(Fetched(s.dict[key], json), s.sets)
  }

  // ---------------------------------------------------------------------------
  // The effect of each operation
  // ---------------------------------------------------------------------------

  function AfterSet(s: State, k: Key, v: Value): State {
    s.(dict := s.dict[k := v], dirty := true)
  }

  function AfterDelete(s: State, k: Key): State {
    s.(dict := s.dict - {k}, dirty := true)
  }

  function AfterFlush(s: State): State {
    s.(dict := map[], dirty := true)
  }

  /** Does adding to the set under `k` change an existing object? */
  predicate AddsInPlace(s: State, k: Key) {
    k in s.dict && s.dict[k].SetRef? && !Falsy(s.dict[k], s.sets)
  }

  /** Does it store a new set?  (Any other value has no `add`, which shows only if there is something to add.) */
  predicate AddsAnew(s: State, k: Key, json: Decoder) {
    k !in s.dict || Falsy(Fetched(s.dict[k], json), s.sets)
  }

  function AfterAdd(s: State, k: Key, values: set<string>, json: Decoder): State
    requires RefsValid(s.dict, s.sets)
  {
    if AddsInPlace(s, k) then
      var r := s.dict[k].ref;
      s.(sets := s.sets[r := s.sets[r] + values], dirty := true)
    else if AddsAnew(s, k, json) then
      s.(sets := s.sets + [values], dict := s.dict[k := SetRef(|s.sets|)], dirty := true)
    else if values == {} then AfterSet(s, k, Fetched(s.dict[k], json))
    else s
  }

  function AfterIncrement(s: State, k: Key, delta: int, json: Decoder): State {
    if HoldsNoNumber(s, k, json) then s else AfterSet(s, k, Number(Amount(s.dict, k, json) + delta))
  }

  function AfterBegin(s: State, thread: nat): State {
    if s.dirty then s.(savers := s.savers[thread := Taken(s.dict)], dirty := false) else s
  }

  function AfterDump(s: State, thread: nat): State {
    if thread in s.savers && s.savers[thread].Taken? then
      s.(tmp := Some(Pickled(s.savers[thread].data, s.sets)), savers := s.savers[thread := Dumped])
    else s
  }

  function AfterReplace(s: State, thread: nat): State {
    if thread in s.savers && s.savers[thread].Dumped? then
      if s.tmp.Some? then s.(disk := s.tmp, tmp := None, savers := s.savers - {thread})
      else s.(savers := s.savers - {thread})
    else s
  }

  /** The pickled sets become fresh objects. */
  function Restored(keys: seq<Key>, c: Content): (r: (Dict, seq<set<string>>))
    requires forall k :: k in keys ==> k in c
  {
    if keys == [] then (map[], [])
    else
      var last := |keys| - 1;
      var (dict, sets) := Restored(keys[..last], c);
      match c[keys[last]]
      case PlainNumber(n) => (dict[keys[last] := Number(n)], sets)
      case PlainText(t) => (dict[keys[last] := Text(t)], sets)
      case PlainSet(e) => (dict[keys[last] := SetRef(|sets|)], sets + [e])
  }

  /** The process dies at any point and a new one loads the file; a leftover temporary file is ignored. */
  function AfterRestart(s: State, keys: seq<Key>): State
    requires forall k :: k in keys ==> k in OnDisk(s)
  {
    var (dict, sets) := Restored(keys, OnDisk(s));
    State(dict, sets, false, map[], s.tmp, s.disk)
  }

  class HybridCache {
    var cacheDict: Dict
    var sets: seq<set<string>>
    var dirty: bool
    var savers: map<nat, Saver>
    var tmpFile: Option<Content>
    var cacheFile: Option<Content>
    const json: Decoder

    function Abstract(): State
      reads this
    {
      State(cacheDict, sets, dirty, savers, tmpFile, cacheFile)
    }

    predicate Valid()
      reads this
    {
      RefsValid(cacheDict, sets)
    }

    /** `_load_from_disk`; `keys` lists the keys of the file. */
    constructor (file: Option<Content>, keys: seq<Key>, json: Decoder)
      requires Lists(keys, match file case Some(c) => c case None => map[])
      ensures Valid() && Memory(Abstract()) == OnDisk(Abstract()) && Abstract() == Loaded(file, keys)
      ensures !dirty && savers == map[] && cacheFile == file && this.json == json
    {
      var content := match file case Some(c) => c case None => map[];
      RestoredIsContent(keys, content);
      this.json := json;
      cacheDict, sets := Restored(keys, content).0, Restored(keys, content).1;
      dirty, savers, tmpFile, cacheFile := false, map[], None, file;
    }

    method SetCache(key: Key, value: Value, ttl: Option<int>) returns (r: Result<(), CacheError>)
      requires Valid() && !value.SetRef?
      modifies this
      ensures Valid() && (r.Err? <==> ttl.Some?)
      ensures Abstract() == if ttl.Some? then old(Abstract()) else AfterSet(old(Abstract()), key, value)
    {
      if ttl.Some? {
        return Err(TtlNotSupported);
      }
      cacheDict := cacheDict[key := value];
      dirty := true;
      r := Ok(());
    }

    method GetCache(key: Key) returns (r: Option<Value>)
      requires Valid()
      ensures r.Some? <==> key in cacheDict
      ensures r.Some? ==> r.value == Fetched(cacheDict[key], json)
      ensures r.Some? ==> Pickle(r.value, sets) == Decoded(Memory(Abstract())[key], json)
    {
      if key !in cacheDict {
        return None;
      }
      FetchedIsDecoded(cacheDict[key], sets, json);
      var cached := cacheDict[key];
      if cached.Text? {
        match json(cached.s) {
          case Some(n) => cached := Number(n);
          case None =>
        }
      }
      r := Some(cached);
    }

    method IncrementCache(key: Key, delta: int, ttl: Option<int>) returns (r: Result<int, CacheError>)
      requires Valid()
      modifies this
      ensures Valid()
      ensures Abstract() == if ttl.Some? then old(Abstract()) else AfterIncrement(old(Abstract()), key, delta, json)
      ensures r.Ok? ==> key in cacheDict && cacheDict[key] == Number(r.value)
      ensures r.Err? <==> ttl.Some? || old(HoldsNoNumber(Abstract(), key, json))
    {
      var fetched := GetCache(key);
      var init := 0;
      if fetched.Some? && !Falsy(fetched.value, sets) {
        if !fetched.value.Number? {
          return Err(TypeError);
        }
        init := fetched.value.n;
      }
      var stored := SetCache(key, Number(init + delta), ttl);
      if stored.Err? {
        return Err(stored.error);
      }
      r := Ok(init + delta);
    }

    method FlushCache()
      modifies this
      ensures Abstract() == AfterFlush(old(Abstract())) && Valid()
    {
      cacheDict := map[];
      dirty := true;
    }

    method DeleteCache(key: Key)
      requires Valid()
      modifies this
      ensures Abstract() == AfterDelete(old(Abstract()), key) && Valid()
    {
      cacheDict := cacheDict - {key};
      dirty := true;
    }

    method SetAdd(key: Key, values: set<string>) returns (r: Result<(), CacheError>)
      requires Valid()
      modifies this
      ensures Abstract() == AfterAdd(old(Abstract()), key, values, json) && Valid()
      ensures r.Err? <==> values != {} && old(!AddsInPlace(Abstract(), key) && !AddsAnew(Abstract(), key, json))
      ensures old(AddsInPlace(Abstract(), key)) ==>
        key in cacheDict && Memory(Abstract())[key] == PlainSet(old(Memory(Abstract()))[key].elems + values)
      ensures old(AddsAnew(Abstract(), key, json)) ==> key in cacheDict && Memory(Abstract())[key] == PlainSet(values)
    {
      ghost var before := Abstract();
      if AddsInPlace(before, key) || AddsAnew(before, key, json) {
        AddedIsUnion(before, key, values, json);
      }
      var fetched := GetCache(key);
      if fetched.None? || Falsy(fetched.value, sets) {
        sets := sets + [values];
        cacheDict := cacheDict[key := SetRef(|sets| - 1)];
      } else if fetched.value.SetRef? {
        sets := sets[fetched.value.ref := sets[fetched.value.ref] + values];
        cacheDict := cacheDict[key := fetched.value];
        assert cacheDict == old(cacheDict);
      } else if values == {} {
        // Nothing is added, but the value that was read is stored again.
        cacheDict := cacheDict[key := fetched.value];
      } else {
        return Err(AttributeError);
      }
      dirty := true;
      r := Ok(());
    }

    /** The locked part of `_save_to_disk`. */
    method BeginSave(thread: nat)
      requires Valid()
      modifies this
      ensures Abstract() == AfterBegin(old(Abstract()), thread) && Valid()
    {
      if !dirty {
        return;
      }
      savers := savers[thread := Taken(cacheDict)];
      dirty := false;
    }

    /** Pickling to the temporary file, which all threads share. */
    method Dump(thread: nat)
      requires Valid() && thread in savers && savers[thread].Taken?
      modifies this
      ensures Abstract() == AfterDump(old(Abstract()), thread) && Valid()
    {
      tmpFile := Some(Pickled(savers[thread].data, sets));
      savers := savers[thread := Dumped];
    }

    /** `os.replace`; it raises when another thread has moved the file away. */
    method Replace(thread: nat) returns (ok: bool)
      requires Valid() && thread in savers && savers[thread].Dumped?
      modifies this
      ensures Abstract() == AfterReplace(old(Abstract()), thread) && Valid()
      ensures ok <==> old(tmpFile).Some?
    {
      savers := savers - {thread};
      if tmpFile.None? {
        return false;
      }
      cacheFile := tmpFile;
      tmpFile := None;
      ok := true;
    }

    method ForceSave(thread: nat)
      requires Valid() && thread !in savers
      modifies this
      ensures Abstract() == ForcedSave(old(Abstract()), thread) && Valid()
      ensures cacheFile == Some(Memory(old(Abstract())))
    {
      dirty := true;
      BeginSave(thread);
      Dump(thread);
      var ok := Replace(thread);
    }
  }

  function ForcedSave(s: State, thread: nat): State {
    AfterReplace(AfterDump(AfterBegin(s.(dirty := true), thread), thread), thread)
  }

  // ---------------------------------------------------------------------------
  // Reloading
  // ---------------------------------------------------------------------------

  ghost predicate Lists(keys: seq<Key>, c: Content) {
    forall k :: k in keys <==> k in c
  }

  lemma {:induction false} RestoredKeys(keys: seq<Key>, c: Content, k: Key)
    requires forall x :: x in keys ==> x in c
    ensures k in Restored(keys, c).0 <==> k in keys
  {
    if keys != [] {
      RestoredKeys(keys[..|keys| - 1], c, k);
      assert keys == keys[..|keys| - 1] + [keys[|keys| - 1]];
    }
  }

  /** Restored references point to objects, and later keys only add objects. */
  lemma {:induction false} RestoredRefs(keys: seq<Key>, c: Content)
    requires forall x :: x in keys ==> x in c
    ensures RefsValid(Restored(keys, c).0, Restored(keys, c).1)
  {
    if keys != [] {
      RestoredRefs(keys[..|keys| - 1], c);
    }
  }

  lemma {:induction false} RestoredAt(keys: seq<Key>, c: Content, k: Key)
    requires (forall x :: x in keys ==> x in c) && k in keys
    ensures k in Restored(keys, c).0 && Pickle(Restored(keys, c).0[k], Restored(keys, c).1) == c[k]
  {
    var front, last := keys[..|keys| - 1], keys[|keys| - 1];
    assert keys == front + [last];
    RestoredRefs(front, c);
    if k != last {
      RestoredAt(front, c, k);
    }
  }

  /** A saved content is read back as itself. */
  lemma RestoredIsContent(keys: seq<Key>, c: Content)
    requires Lists(keys, c)
    ensures var (dict, sets) := Restored(keys, c);
      RefsValid(dict, sets) && Pickled(dict, sets) == c
  {
    var (dict, sets) := Restored(keys, c);
    RestoredRefs(keys, c);
    forall k: Key
      ensures k in dict <==> k in c
      ensures k in c ==> Pickle(dict[k], sets) == c[k]
    {
      RestoredKeys(keys, c, k);
      if k in c {
        RestoredAt(keys, c, k);
      }
    }
  }

  // ---------------------------------------------------------------------------
  // Runs
  // ---------------------------------------------------------------------------

  /** `Mark` is the unlocked half of `force_save`. */
  datatype Event =
    | Set(key: Key, value: Value)
    | Delete(key: Key)
    | Flush
    | Add(key: Key, values: set<string>)
    | Increment(key: Key, delta: int)
    | Mark
    | Begin(thread: nat)
    | Dump(thread: nat)
    | Replace(thread: nat)
    | Restart(keys: seq<Key>)

  function Next(s: State, e: Event, json: Decoder): State
    requires RefsValid(s.dict, s.sets)
    requires e.Restart? ==> forall k :: k in e.keys ==> k in OnDisk(s)
  {
    match e
    case Set(k, v) => AfterSet(s, k, v)
    case Delete(k) => AfterDelete(s, k)
    case Flush => AfterFlush(s)
    case Add(k, values) => AfterAdd(s, k, values, json)
    case Increment(k, delta) => AfterIncrement(s, k, delta, json)
    case Mark => s.(dirty := true)
    case Begin(t) => AfterBegin(s, t)
    case Dump(t) => AfterDump(s, t)
    case Replace(t) => AfterReplace(s, t)
    case Restart(keys) => AfterRestart(s, keys)
  }

  /** The event concerns memory only. */
  predicate Mutates(e: Event) {
    e.Set? || e.Delete? || e.Flush? || e.Add? || e.Increment? || e.Mark?
  }

  predicate Idle(s: State) {
    s.savers == map[]
  }

  // ---------------------------------------------------------------------------
  // The cache as its callers see it: a map from keys to values
  // ---------------------------------------------------------------------------

  /** A text that is JSON reads as what it decodes to. */
  function Decoded(p: Plain, json: Decoder): Plain {
    match p
    case PlainText(text) => (match json(text) case Some(n) => PlainNumber(n) case None => p)
    case _ => p
  }

  /** What an update builds on: the decoded value, or nothing if that is falsy (`get_cache(key) or ...`). */
  function Present(c: Content, k: Key, json: Decoder): Option<Plain> {
    if k in c && Decoded(c[k], json) !in {PlainNumber(0), PlainText(""), PlainSet({})} then Some(Decoded(c[k], json)) else None
  }

  /** The effect of an event on a plain map; no objects, no references. */
  function Updated(c: Content, e: Event, json: Decoder, onDisk: Content): Content
    requires e.Set? ==> !e.value.SetRef?
  {
    match e
    case Set(k, Number(n)) => c[k := PlainNumber(n)]
    case Set(k, Text(text)) => c[k := PlainText(text)]
    case Delete(k) => c - {k}
    case Flush => map[]
    case Add(k, values) => (
      match Present(c, k, json)
      case None => c[k := PlainSet(values)]
      case Some(PlainSet(elems)) => c[k := PlainSet(elems + values)]
      case Some(other) => if values == {} then c[k := other] else c)
    case Increment(k, delta) => (
      match Present(c, k, json)
      case None => c[k := PlainNumber(delta)]
      case Some(PlainNumber(n)) => c[k := PlainNumber(n + delta)]
      case Some(other) => c)
    case Restart(_) => onDisk
    case _ => c
  }

  /** No two keys refer to the same set. */
  ghost predicate Unshared(dict: Dict) {
    forall j, k :: j in dict && k in dict && j != k && dict[j].SetRef? ==> dict[j] != dict[k]
  }

  lemma PickledPut(dict: Dict, sets: seq<set<string>>, k: Key, v: Value)
    ensures Pickled(dict[k := v], sets) == Pickled(dict, sets)[k := Pickle(v, sets)]
  {
  }

  lemma PickledRemove(dict: Dict, sets: seq<set<string>>, k: Key)
    ensures Pickled(dict - {k}, sets) == Pickled(dict, sets) - {k}
  {
  }

  /** A new object changes nothing for those who do not refer to it. */
  lemma PickledWithMore(dict: Dict, sets: seq<set<string>>, elems: set<string>)
    requires RefsValid(dict, sets)
    ensures Pickled(dict, sets + [elems]) == Pickled(dict, sets)
  {
    forall k | k in dict
      ensures Pickle(dict[k], sets + [elems]) == Pickle(dict[k], sets)
    {
    }
  }

  /** Changing an object that only `k` refers to changes only what is stored under `k`. */
  lemma PickledInPlace(dict: Dict, sets: seq<set<string>>, k: Key, elems: set<string>)
    requires RefsValid(dict, sets) && Unshared(dict) && k in dict && dict[k].SetRef?
    ensures Pickled(dict, sets[dict[k].ref := elems]) == Pickled(dict, sets)[k := PlainSet(elems)]
  {
    var changed := sets[dict[k].ref := elems];
    forall j | j in dict
      ensures Pickle(dict[j], changed) == if j == k then PlainSet(elems) else Pickle(dict[j], sets)
    {
    }
  }

  lemma FetchedIsDecoded(v: Value, sets: seq<set<string>>, json: Decoder)
    requires v.SetRef? ==> v.ref < |sets|
    ensures Pickle(Fetched(v, json), sets) == Decoded(Pickle(v, sets), json)
    ensures Falsy(Fetched(v, json), sets) <==> Pickle(Fetched(v, json), sets) in {PlainNumber(0), PlainText(""), PlainSet({})}
  {
  }

  lemma AddRefines(s: State, k: Key, values: set<string>, json: Decoder)
    requires RefsValid(s.dict, s.sets) && Unshared(s.dict)
    ensures var s' := AfterAdd(s, k, values, json);
      Memory(s') == Updated(Memory(s), Add(k, values), json, map[]) && Unshared(s'.dict)
  {
    if k in s.dict {
      FetchedIsDecoded(s.dict[k], s.sets, json);
    }
    if AddsInPlace(s, k) {
      PickledInPlace(s.dict, s.sets, k, s.sets[s.dict[k].ref] + values);
    } else if AddsAnew(s, k, json) {
      PickledPut(s.dict, s.sets + [values], k, SetRef(|s.sets|));
      PickledWithMore(s.dict, s.sets, values);
    } else {
      PickledPut(s.dict, s.sets, k, Fetched(s.dict[k], json));
    }
  }

  lemma IncrementRefines(s: State, k: Key, delta: int, json: Decoder)
    requires RefsValid(s.dict, s.sets) && Unshared(s.dict)
    ensures var s' := AfterIncrement(s, k, delta, json);
      Memory(s') == Updated(Memory(s), Increment(k, delta), json, map[]) && Unshared(s'.dict)
  {
    if k in s.dict {
      FetchedIsDecoded(s.dict[k], s.sets, json);
    }
    PickledPut(s.dict, s.sets, k, Number(Amount(s.dict, k, json) + delta));
  }

  lemma {:induction false} RestoredUnshared(keys: seq<Key>, c: Content)
    requires forall x :: x in keys ==> x in c
    ensures Unshared(Restored(keys, c).0)
  {
    if keys != [] {
      RestoredUnshared(keys[..|keys| - 1], c);
      RestoredRefs(keys[..|keys| - 1], c);
    }
  }

  lemma RestartRefines(s: State, keys: seq<Key>)
    requires Lists(keys, OnDisk(s))
    ensures var s' := AfterRestart(s, keys);
      && Memory(s') == OnDisk(s) == OnDisk(s') && Unshared(s'.dict) && RefsValid(s'.dict, s'.sets)
      && !s'.dirty && s'.savers == map[]
  {
    RestoredIsContent(keys, OnDisk(s));
    RestoredUnshared(keys, OnDisk(s));
  }

  /** Values are set by value, and a restart reads the file. */
  ghost predicate Possible(s: State, e: Event) {
    (e.Set? ==> !e.value.SetRef?) && (e.Restart? ==> Lists(e.keys, OnDisk(s)))
  }

  lemma MutationRefines(s: State, e: Event, json: Decoder)
    requires RefsValid(s.dict, s.sets) && Unshared(s.dict) && Mutates(e) && Possible(s, e)
    ensures var s' := Next(s, e, json);
      Memory(s') == Updated(Memory(s), e, json, OnDisk(s)) && Unshared(s'.dict)
  {
    match e
    case Set(k, v) => PickledPut(s.dict, s.sets, k, v);
    case Delete(k) => PickledRemove(s.dict, s.sets, k);
    case Add(k, values) => AddRefines(s, k, values, json);
    case Increment(k, delta) => IncrementRefines(s, k, delta, json);
    case _ =>
  }

  lemma NextRefines(s: State, e: Event, json: Decoder)
    requires RefsValid(s.dict, s.sets) && Unshared(s.dict) && Possible(s, e)
    ensures var s' := Next(s, e, json);
      Memory(s') == Updated(Memory(s), e, json, OnDisk(s)) && Unshared(s'.dict) && RefsValid(s'.dict, s'.sets)
  {
    if Mutates(e) {
      MutationRefines(s, e, json);
      EventGrows(s, e, json);
    } else if e.Restart? {
      RestartRefines(s, e.keys);
    }
  }

  ghost predicate PossibleRun(s: State, es: seq<Event>, json: Decoder)
    decreases |es|
  {
    es != [] ==> RefsValid(s.dict, s.sets) && Possible(s, es[0]) && PossibleRun(Next(s, es[0], json), es[1..], json)
  }

  ghost function Ran(s: State, es: seq<Event>, json: Decoder): State
    requires PossibleRun(s, es, json)
    decreases |es|
  {
    if es == [] then s else Ran(Next(s, es[0], json), es[1..], json)
  }

  /** What a plain map holds after the events of a run; only a restart needs the file. */
  ghost function Replayed(s: State, c: Content, es: seq<Event>, json: Decoder): Content
    requires PossibleRun(s, es, json)
    decreases |es|
  {
    if es == [] then c else Replayed(Next(s, es[0], json), Updated(c, es[0], json, OnDisk(s)), es[1..], json)
  }

  lemma {:induction false} RunRefines(s: State, es: seq<Event>, json: Decoder)
    requires RefsValid(s.dict, s.sets) && Unshared(s.dict) && PossibleRun(s, es, json)
    ensures Memory(Ran(s, es, json)) == Replayed(s, Memory(s), es, json)
    decreases |es|
  {
    if es != [] {
      NextRefines(s, es[0], json);
      RunRefines(Next(s, es[0], json), es[1..], json);
    }
  }

  /**
    In every run from a freshly loaded cache the objects do not show: memory holds what a plain map would hold after the
    same events, in which sadd is a union, an increment a sum, and a restart brings back what the file held.
  */
  lemma CacheIsPlainMap(file: Option<Content>, keys: seq<Key>, es: seq<Event>, json: Decoder)
    requires Lists(keys, match file case Some(c) => c case None => map[])
    requires PossibleRun(Loaded(file, keys), es, json)
    ensures Memory(Ran(Loaded(file, keys), es, json))
         == Replayed(Loaded(file, keys), match file case Some(c) => c case None => map[], es, json)
  {
    RestartRefines(State(map[], [], false, map[], None, file), keys);
    RunRefines(Loaded(file, keys), es, json);
  }

  /** Does another key refer to the set under `k`? */
  predicate SharesSet(dict: Dict, j: Key, k: Key) {
    j in dict && k in dict && dict[k].SetRef? && dict[j] == dict[k]
  }

  /** A new or a changed set holds exactly what it held plus the values added; keys that do not share it keep theirs. */
  lemma AddedIsUnion(s: State, k: Key, values: set<string>, json: Decoder)
    requires RefsValid(s.dict, s.sets) && (AddsInPlace(s, k) || AddsAnew(s, k, json))
    ensures var s' := AfterAdd(s, k, values, json);
      && k in s'.dict
      && Memory(s')[k] == PlainSet((if AddsInPlace(s, k) then Memory(s)[k].elems else {}) + values)
      && (forall j :: j != k && !SharesSet(s.dict, j, k) ==>
            (j in Memory(s') <==> j in Memory(s)) && (j in Memory(s) ==> Memory(s')[j] == Memory(s)[j]))
  {
    assert {} + values == values;
  }

  // ---------------------------------------------------------------------------
  // When a dump writes its snapshot
  // ---------------------------------------------------------------------------

  predicate RefersTo(data: Dict, ref: nat) {
    exists k :: k in data && data[k] == SetRef(ref)
  }

  /** The event puts something new into a set that the snapshot `data` shares. */
  predicate Enlarges(s: State, e: Event, data: Dict) {
    && e.Add? && AddsInPlace(s, e.key) && s.dict[e.key].ref < |s.sets|
    && RefersTo(data, s.dict[e.key].ref) && !(e.values <= s.sets[s.dict[e.key].ref])
  }

  /** No set has lost anything. */
  ghost predicate Grown(before: seq<set<string>>, after: seq<set<string>>) {
    |before| <= |after| && forall r :: 0 <= r < |before| ==> before[r] <= after[r]
  }

  lemma EventGrows(s: State, e: Event, json: Decoder)
    requires RefsValid(s.dict, s.sets) && !e.Restart? && (e.Set? ==> !e.value.SetRef?)
    ensures RefsValid(Next(s, e, json).dict, Next(s, e, json).sets) && Grown(s.sets, Next(s, e, json).sets)
  {
  }

  /** One event changes what a snapshot would pickle to exactly if it enlarges a set of it. */
  lemma EventKeepsIff(s: State, e: Event, json: Decoder, data: Dict)
    requires RefsValid(s.dict, s.sets) && RefsValid(data, s.sets) && !e.Restart? && (e.Set? ==> !e.value.SetRef?)
    ensures Pickled(data, Next(s, e, json).sets) == Pickled(data, s.sets) <==> !Enlarges(s, e, data)
  {
    var s' := Next(s, e, json);
    if Enlarges(s, e, data) {
      var r := s.dict[e.key].ref;
      var k :| k in data && data[k] == SetRef(r);
      assert Pickled(data, s.sets)[k] == PlainSet(s.sets[r]);
      assert Pickled(data, s'.sets)[k] == PlainSet(s.sets[r] + e.values);
    } else {
      forall k | k in data
        ensures Pickle(data[k], s'.sets) == Pickle(data[k], s.sets)
      {
        if data[k].SetRef? && e.Add? && AddsInPlace(s, e.key) && data[k].ref == s.dict[e.key].ref {
          assert RefersTo(data, s.dict[e.key].ref);
          assert s.sets[data[k].ref] + e.values == s.sets[data[k].ref];
        }
      }
    }
  }

  /** A snapshot that has changed never pickles to its old content again. */
  lemma PickledDiffers(data: Dict, a: seq<set<string>>, b: seq<set<string>>, c: seq<set<string>>)
    requires RefsValid(data, a) && Grown(a, b) && Grown(b, c)
    ensures Pickled(data, c) == Pickled(data, a) ==> Pickled(data, b) == Pickled(data, a)
  {
    if Pickled(data, c) == Pickled(data, a) {
      forall k | k in data
        ensures Pickle(data[k], b) == Pickle(data[k], a)
      {
        assert Pickled(data, c)[k] == Pickled(data, a)[k];
        if data[k].SetRef? {
          assert a[data[k].ref] <= b[data[k].ref] <= c[data[k].ref];
        }
      }
    }
  }

  /** Events between a snapshot and its dump: anything but a restart. */
  ghost predicate Between(es: seq<Event>) {
    forall i :: 0 <= i < |es| ==> !es[i].Restart? && (es[i].Set? ==> !es[i].value.SetRef?)
  }

  function AfterAll(s: State, es: seq<Event>, json: Decoder): State
    requires RefsValid(s.dict, s.sets) && Between(es)
    decreases |es|
  {
    if es == [] then s
    else
      EventGrows(s, es[0], json);
      AfterAll(Next(s, es[0], json), es[1..], json)
  }

  /** Some event on the way enlarges a set of the snapshot. */
  predicate EnlargedBy(s: State, es: seq<Event>, json: Decoder, data: Dict)
    requires RefsValid(s.dict, s.sets) && Between(es)
    decreases |es|
  {
    es != [] &&
      (EventGrows(s, es[0], json);
       Enlarges(s, es[0], data) || EnlargedBy(Next(s, es[0], json), es[1..], json, data))
  }

  lemma {:induction false} AllGrow(s: State, es: seq<Event>, json: Decoder)
    requires RefsValid(s.dict, s.sets) && Between(es)
    ensures Grown(s.sets, AfterAll(s, es, json).sets)
    decreases |es|
  {
    if es != [] {
      EventGrows(s, es[0], json);
      AllGrow(Next(s, es[0], json), es[1..], json);
    }
  }

  /** What a save dumps is what it snapshot, if and only if nothing in between enlarged a set that the snapshot shares. */
  lemma {:induction false} DumpIsSnapshotIff(s: State, es: seq<Event>, json: Decoder, data: Dict)
    requires RefsValid(s.dict, s.sets) && RefsValid(data, s.sets) && Between(es)
    ensures Pickled(data, AfterAll(s, es, json).sets) == Pickled(data, s.sets) <==> !EnlargedBy(s, es, json, data)
    decreases |es|
  {
    if es != [] {
      var s1 := Next(s, es[0], json);
      EventGrows(s, es[0], json);
      EventKeepsIff(s, es[0], json, data);
      AllGrow(s1, es[1..], json);
      PickledDiffers(data, s.sets, s1.sets, AfterAll(s, es, json).sets);
      DumpIsSnapshotIff(s1, es[1..], json, data);
    }
  }

  // ---------------------------------------------------------------------------
  // Durability, with any number of saves in flight
  // ---------------------------------------------------------------------------

  /**
    Everything memory ever held (`states`), which of it was snapshot, in order (`snaps`; what was loaded counts as a
    snapshot), which snapshot each save in flight took, which one was dumped last and which one is in the file.
  */
  datatype History = History(states: seq<Content>, snaps: seq<nat>, taken: map<nat, nat>, dumped: nat, installed: nat)
  {
    ghost predicate Valid() {
      && |states| > 0 && |snaps| > 0 && dumped < |snaps| && installed < |snaps|
      && (forall v :: 0 <= v < |snaps| ==> snaps[v] < |states|)
      && (forall t :: t in taken ==> taken[t] < |snaps|)
    }

    function Snapshot(v: nat): Content
      requires v < |snaps| && snaps[v] < |states|
    {
      states[snaps[v]]
    }

    function Newest(): int { |snaps| - 1 }
  }

  /** The environment: values are set by value, a thread runs one save at a time, and no set that a snapshot shares is
      enlarged before its dump. */
  ghost predicate Allowed(s: State, e: Event) {
    match e
    case Set(k, v) => !v.SetRef?
    case Add(_, _) => forall t :: t in s.savers && s.savers[t].Taken? ==> !Enlarges(s, e, s.savers[t].data)
    case Begin(t) => t !in s.savers
    case Restart(keys) => Lists(keys, OnDisk(s))
    case _ => true
  }

  /** A dump is waiting to be moved: the newest dump is in the temporary file and its thread has yet to move it. */
  ghost predicate Waiting(s: State, h: History)
    requires h.Valid()
  {
    && s.tmp == Some(h.Snapshot(h.dumped))
    && exists t :: t in s.savers && s.savers[t].Dumped? && t in h.taken && h.taken[t] == h.dumped
  }

  /** The newest dump is in the file, and no thread will move anything else there. */
  ghost predicate Moved(s: State, h: History) {
    h.installed == h.dumped && (s.tmp.None? || forall t :: t in s.savers ==> s.savers[t].Taken?)
  }

  ghost predicate SaverHolds(s: State, h: History, t: nat)
    requires h.Valid()
  {
    t in s.savers && t in h.taken &&
    match s.savers[t]
    case Taken(data) => RefsValid(data, s.sets) && Pickled(data, s.sets) == h.Snapshot(h.taken[t])
    case Dumped => true
  }

  /** Memory is the newest state, and the newest snapshot if nothing is dirty. */
  ghost predicate MemoryKept(s: State, h: History)
    requires h.Valid()
  {
    && RefsValid(s.dict, s.sets) && h.states[|h.states| - 1] == Memory(s)
    && (!s.dirty ==> h.Snapshot(h.Newest()) == Memory(s))
  }

  ghost predicate SaversHold(s: State, h: History)
    requires h.Valid()
  {
    h.taken.Keys == s.savers.Keys && forall t :: t in s.savers ==> SaverHolds(s, h, t)
  }

  ghost predicate FileKept(s: State, h: History)
    requires h.Valid()
  {
    OnDisk(s) == h.Snapshot(h.installed) && (Waiting(s, h) || Moved(s, h))
  }

  ghost predicate Durable(s: State, h: History) {
    h.Valid() && MemoryKept(s, h) && SaversHold(s, h) && FileKept(s, h)
  }

  /** How an event extends the history. */
  function Extended(s: State, e: Event, s': State, h: History): History {
    var h1 := h.(states := h.states + [Memory(s')]);
    match e
    case Begin(t) => if s.dirty then h1.(snaps := h.snaps + [|h.states|], taken := h.taken[t := |h.snaps|]) else h1
    case Dump(t) => if t in s.savers && s.savers[t].Taken? && t in h.taken then h1.(dumped := h.taken[t]) else h1
    case Replace(t) =>
      if t in s.savers && s.savers[t].Dumped? then
        h1.(taken := h.taken - {t}, installed := if s.tmp.Some? then h.dumped else h.installed)
      else h1
    case Restart(_) => History(h1.states, h.snaps + [|h.states|], map[], |h.snaps|, |h.snaps|)
    case _ => h1
  }

  /** More states and snapshots leave the old ones where they are. */
  ghost predicate Extends(h: History, h': History) {
    h.Valid() && h'.Valid() && h.states <= h'.states && h.snaps <= h'.snaps
  }

  lemma SameSnapshot(h: History, h': History, v: nat)
    requires Extends(h, h') && v < |h.snaps|
    ensures h'.Snapshot(v) == h.Snapshot(v)
  {
  }

  lemma ExtendedValid(s: State, e: Event, s': State, h: History)
    requires h.Valid()
    ensures Extends(h, Extended(s, e, s', h))
    ensures Extended(s, e, s', h).states == h.states + [Memory(s')]
  {
  }

  /** A save in flight that neither starts nor ends here keeps its snapshot, if its sets are not enlarged. */
  lemma StillHolds(s: State, h: History, s': State, h': History, t: nat)
    requires h.Valid() && SaverHolds(s, h, t) && Extends(h, h')
    requires t in s'.savers && s'.savers[t] == s.savers[t] && t in h'.taken && h'.taken[t] == h.taken[t]
    requires Grown(s.sets, s'.sets)
    requires s.savers[t].Taken? ==> Pickled(s.savers[t].data, s'.sets) == Pickled(s.savers[t].data, s.sets)
    ensures SaverHolds(s', h', t)
  {
    SameSnapshot(h, h', h.taken[t]);
  }

  lemma StillWaiting(s: State, h: History, s': State, h': History)
    requires h.Valid() && Waiting(s, h) && Extends(h, h') && h'.dumped == h.dumped && s'.tmp == s.tmp
    requires forall t :: t in s.savers && s.savers[t].Dumped? ==> t in s'.savers && s'.savers[t].Dumped?
    requires forall t :: t in h.taken && t in s.savers ==> t in h'.taken && h'.taken[t] == h.taken[t]
    ensures Waiting(s', h')
  {
    var t :| t in s.savers && s.savers[t].Dumped? && t in h.taken && h.taken[t] == h.dumped;
    SameSnapshot(h, h', h.dumped);
    assert t in s'.savers && s'.savers[t].Dumped? && t in h'.taken && h'.taken[t] == h'.dumped;
  }

  /** Nothing happens to the files. */
  lemma SameFile(s: State, h: History, s': State, h': History)
    requires h.Valid() && FileKept(s, h) && Extends(h, h') && h'.dumped == h.dumped && h'.installed == h.installed
    requires s'.tmp == s.tmp && s'.disk == s.disk
    requires forall t :: t in s.savers && s.savers[t].Dumped? ==> t in s'.savers && s'.savers[t].Dumped?
    requires forall t :: t in s'.savers && s'.savers[t].Dumped? ==> t in s.savers && s.savers[t].Dumped?
    requires forall t :: t in h.taken && t in s.savers ==> t in h'.taken && h'.taken[t] == h.taken[t]
    ensures FileKept(s', h')
  {
    SameSnapshot(h, h', h.installed);
    if Waiting(s, h) {
      StillWaiting(s, h, s', h');
    }
  }

  lemma MutationFrame(s: State, e: Event, json: Decoder)
    requires RefsValid(s.dict, s.sets) && Mutates(e)
    ensures var s' := Next(s, e, json);
      && s'.savers == s.savers && s'.tmp == s.tmp && s'.disk == s.disk
      && (!s'.dirty ==> s' == s)
  {
  }

  lemma MutationMemory(s: State, e: Event, s': State, h: History)
    requires h.Valid() && MemoryKept(s, h) && RefsValid(s'.dict, s'.sets) && (!s'.dirty ==> s' == s)
    requires Mutates(e)
    ensures Extended(s, e, s', h).Valid() && MemoryKept(s', Extended(s, e, s', h))
  {
    ExtendedValid(s, e, s', h);
    SameSnapshot(h, Extended(s, e, s', h), h.Newest());
  }

  /** Memory changes, the files and the saves do not. */
  lemma MutationDurable(s: State, e: Event, json: Decoder, h: History)
    requires Durable(s, h) && Allowed(s, e) && Mutates(e)
    ensures Durable(Next(s, e, json), Extended(s, e, Next(s, e, json), h))
  {
    var s' := Next(s, e, json);
    var h' := Extended(s, e, s', h);
    EventGrows(s, e, json);
    MutationFrame(s, e, json);
    ExtendedValid(s, e, s', h);
    MutationMemory(s, e, s', h);
    forall t | t in s'.savers
      ensures SaverHolds(s', h', t)
    {
      if s.savers[t].Taken? {
        assert SaverHolds(s, h, t);
        EventKeepsIff(s, e, json, s.savers[t].data);
      }
      StillHolds(s, h, s', h', t);
    }
    SameFile(s, h, s', h');
  }

  lemma BeginDurable(s: State, t: nat, h: History)
    requires Durable(s, h) && Allowed(s, Begin(t))
    ensures Durable(AfterBegin(s, t), Extended(s, Begin(t), AfterBegin(s, t), h))
  {
    var s' := AfterBegin(s, t);
    var h' := Extended(s, Begin(t), s', h);
    ExtendedValid(s, Begin(t), s', h);
    SameSnapshot(h, h', h.Newest());
    forall u | u in s'.savers
      ensures SaverHolds(s', h', u)
    {
      if u != t {
        StillHolds(s, h, s', h', u);
      }
    }
    SameFile(s, h, s', h');
  }

  lemma DumpDurable(s: State, t: nat, h: History)
    requires Durable(s, h) && t in s.savers && s.savers[t].Taken?
    ensures Durable(AfterDump(s, t), Extended(s, Dump(t), AfterDump(s, t), h))
  {
    var s' := AfterDump(s, t);
    var h' := Extended(s, Dump(t), s', h);
    assert SaverHolds(s, h, t);
    ExtendedValid(s, Dump(t), s', h);
    SameSnapshot(h, h', h.Newest());
    SameSnapshot(h, h', h.installed);
    SameSnapshot(h, h', h.taken[t]);
    forall u | u in s'.savers
      ensures SaverHolds(s', h', u)
    {
      if u != t {
        StillHolds(s, h, s', h', u);
      }
    }
    assert s'.savers[t].Dumped? && h'.taken[t] == h'.dumped;
    assert Waiting(s', h');
  }

  lemma ReplaceDurable(s: State, t: nat, h: History)
    requires Durable(s, h) && t in s.savers && s.savers[t].Dumped?
    ensures Durable(AfterReplace(s, t), Extended(s, Replace(t), AfterReplace(s, t), h))
  {
    var s' := AfterReplace(s, t);
    var h' := Extended(s, Replace(t), s', h);
    ExtendedValid(s, Replace(t), s', h);
    SameSnapshot(h, h', h.Newest());
    SameSnapshot(h, h', h'.installed);
    forall u | u in s'.savers
      ensures SaverHolds(s', h', u)
    {
      StillHolds(s, h, s', h', u);
    }
    assert Moved(s', h');
  }

  /** A thread that is not where the event needs it does nothing. */
  lemma IdleStepDurable(s: State, e: Event, h: History)
    requires Durable(s, h) && (e.Dump? || e.Replace?)
    requires !(e.thread in s.savers && (e.Dump? <==> s.savers[e.thread].Taken?))
    ensures Durable(s, Extended(s, e, s, h))
  {
    var h' := Extended(s, e, s, h);
    ExtendedValid(s, e, s, h);
    SameSnapshot(h, h', h.Newest());
    forall u | u in s.savers
      ensures SaverHolds(s, h', u)
    {
      StillHolds(s, h, s, h', u);
    }
    SameFile(s, h, s, h');
  }

  lemma RestartDurable(s: State, keys: seq<Key>, h: History)
    requires Durable(s, h) && Lists(keys, OnDisk(s))
    ensures Durable(AfterRestart(s, keys), Extended(s, Restart(keys), AfterRestart(s, keys), h))
  {
    RestoredIsContent(keys, OnDisk(s));
    ExtendedValid(s, Restart(keys), AfterRestart(s, keys), h);
  }

  lemma NextDurable(s: State, e: Event, json: Decoder, h: History)
    requires Durable(s, h) && Allowed(s, e)
    ensures Durable(Next(s, e, json), Extended(s, e, Next(s, e, json), h))
  {
    match e
    case Begin(t) => BeginDurable(s, t, h);
    case Dump(t) => if t in s.savers && s.savers[t].Taken? { DumpDurable(s, t, h); } else { IdleStepDurable(s, e, h); }
    case Replace(t) => if t in s.savers && s.savers[t].Dumped? { ReplaceDurable(s, t, h); } else { IdleStepDurable(s, e, h); }
    case Restart(keys) => RestartDurable(s, keys, h);
    case _ => MutationDurable(s, e, json, h);
  }

  ghost predicate AllowedRun(s: State, es: seq<Event>, json: Decoder)
    decreases |es|
  {
    es != [] ==>
      && RefsValid(s.dict, s.sets) && Allowed(s, es[0])
      && AllowedRun(Next(s, es[0], json), es[1..], json)
  }

  /** The state and history at the end of a run. */
  ghost function After(s: State, es: seq<Event>, json: Decoder, h: History): (State, History)
    requires AllowedRun(s, es, json)
    decreases |es|
  {
    if es == [] then (s, h)
    else
      var s' := Next(s, es[0], json);
      After(s', es[1..], json, Extended(s, es[0], s', h))
  }

  lemma {:induction false} RunDurable(s: State, es: seq<Event>, json: Decoder, h: History)
    requires Durable(s, h) && AllowedRun(s, es, json)
    ensures var (s', h') := After(s, es, json, h); Durable(s', h') && Extends(h, h')
    decreases |es|
  {
    if es != [] {
      var s1 := Next(s, es[0], json);
      NextDurable(s, es[0], json, h);
      ExtendedValid(s, es[0], s1, h);
      RunDurable(s1, es[1..], json, Extended(s, es[0], s1, h));
    }
  }

  /** The cache as a new process finds it, and the history that begins there. */
  function Loaded(file: Option<Content>, keys: seq<Key>): State
    requires Lists(keys, match file case Some(c) => c case None => map[])
  {
    AfterRestart(State(map[], [], false, map[], None, file), keys)
  }

  function Beginning(s: State): History {
    History([Memory(s)], [0], map[], 0, 0)
  }

  lemma FreshlyLoaded(file: Option<Content>, keys: seq<Key>)
    requires Lists(keys, match file case Some(c) => c case None => map[])
    ensures Durable(Loaded(file, keys), Beginning(Loaded(file, keys))) && Idle(Loaded(file, keys))
  {
    RestoredIsContent(keys, match file case Some(c) => c case None => map[]);
  }

  /**
    In every run from a freshly loaded cache, with any number of saves in flight and crashes anywhere: the file always
    holds a state memory was in.  Once no save is in flight it holds the snapshot that was dumped last; so it is the
    newest snapshot exactly if the save that took it was the last to dump, and then, with nothing dirty, what memory holds.
  */
  lemma CacheDurability(file: Option<Content>, keys: seq<Key>, es: seq<Event>, json: Decoder)
    requires Lists(keys, match file case Some(c) => c case None => map[])
    requires AllowedRun(Loaded(file, keys), es, json)
    ensures var (s, h) := After(Loaded(file, keys), es, json, Beginning(Loaded(file, keys)));
      && h.Valid() && OnDisk(s) in h.states
      && (Idle(s) ==> OnDisk(s) == h.Snapshot(h.dumped) && (h.installed == h.Newest() <==> h.dumped == h.Newest()))
      && (Idle(s) && !s.dirty && h.dumped == h.Newest() ==> OnDisk(s) == Memory(s))
  {
    FreshlyLoaded(file, keys);
    RunDurable(Loaded(file, keys), es, json, Beginning(Loaded(file, keys)));
    var (s, h) := After(Loaded(file, keys), es, json, Beginning(Loaded(file, keys)));
    assert OnDisk(s) == h.states[h.snaps[h.installed]];
  }

  // ---------------------------------------------------------------------------
  // One save at a time
  // ---------------------------------------------------------------------------

  ghost predicate Serial(s: State, es: seq<Event>, json: Decoder)
    requires AllowedRun(s, es, json)
    decreases |es|
  {
    es != [] ==> (es[0].Begin? ==> Idle(s)) && Serial(Next(s, es[0], json), es[1..], json)
  }

  /** The one save in flight took the newest snapshot. */
  predicate Lone(s: State, h: History, t: nat) {
    && s.savers.Keys == {t} && t in h.taken && h.taken[t] == h.Newest()
    && (s.savers[t].Dumped? ==> h.dumped == h.Newest())
  }

  /** The save in flight, if any, took the newest snapshot; without one the newest snapshot was dumped. */
  ghost predicate InOrder(s: State, h: History) {
    && h.installed <= h.dumped <= h.Newest()
    && (if Idle(s) then h.dumped == h.Newest() else exists t: nat :: Lone(s, h, t))
  }

  lemma BeginInOrder(s: State, t: nat, h: History)
    requires Durable(s, h) && InOrder(s, h) && Idle(s)
    ensures InOrder(AfterBegin(s, t), Extended(s, Begin(t), AfterBegin(s, t), h))
  {
    if s.dirty {
      assert Lone(AfterBegin(s, t), Extended(s, Begin(t), AfterBegin(s, t), h), t);
    }
  }

  lemma DumpInOrder(s: State, t: nat, h: History)
    requires Durable(s, h) && InOrder(s, h)
    ensures InOrder(AfterDump(s, t), Extended(s, Dump(t), AfterDump(s, t), h))
  {
    if !Idle(s) {
      var x: nat :| Lone(s, h, x);
      assert AfterDump(s, t).savers.Keys == {x};
      assert Lone(AfterDump(s, t), Extended(s, Dump(t), AfterDump(s, t), h), x);
    }
  }

  lemma ReplaceInOrder(s: State, t: nat, h: History)
    requires Durable(s, h) && InOrder(s, h)
    ensures InOrder(AfterReplace(s, t), Extended(s, Replace(t), AfterReplace(s, t), h))
    ensures h.installed <= Extended(s, Replace(t), AfterReplace(s, t), h).installed
  {
    if !Idle(s) {
      var x: nat :| Lone(s, h, x);
      if t == x && s.savers[t].Dumped? {
        assert AfterReplace(s, t).savers.Keys == {};
      } else {
        assert AfterReplace(s, t) == s && Lone(s, Extended(s, Replace(t), s, h), x);
      }
    }
  }

  lemma MutationInOrder(s: State, e: Event, json: Decoder, h: History)
    requires Durable(s, h) && InOrder(s, h) && Mutates(e)
    ensures InOrder(Next(s, e, json), Extended(s, e, Next(s, e, json), h))
  {
    MutationFrame(s, e, json);
    if !Idle(s) {
      var x: nat :| Lone(s, h, x);
      assert Lone(Next(s, e, json), Extended(s, e, Next(s, e, json), h), x);
    }
  }

  lemma NextInOrder(s: State, e: Event, json: Decoder, h: History)
    requires Durable(s, h) && Allowed(s, e) && InOrder(s, h) && (e.Begin? ==> Idle(s))
    ensures var s' := Next(s, e, json);
      InOrder(s', Extended(s, e, s', h)) && h.installed <= Extended(s, e, s', h).installed
  {
    match e
    case Begin(t) => BeginInOrder(s, t, h);
    case Dump(t) => DumpInOrder(s, t, h);
    case Replace(t) => ReplaceInOrder(s, t, h);
    case Restart(keys) =>
    case _ => MutationInOrder(s, e, json, h);
  }

  lemma {:induction false} RunInOrder(s: State, es: seq<Event>, json: Decoder, h: History)
    requires Durable(s, h) && AllowedRun(s, es, json) && Serial(s, es, json) && InOrder(s, h)
    ensures var (s', h') := After(s, es, json, h); InOrder(s', h') && h.installed <= h'.installed
    decreases |es|
  {
    if es != [] {
      NextDurable(s, es[0], json, h);
      NextInOrder(s, es[0], json, h);
      RunInOrder(Next(s, es[0], json), es[1..], json, Extended(s, es[0], Next(s, es[0], json), h));
    }
  }

  /**
    With one save at a time, continuing any run: later saves never put an earlier snapshot back, and whenever nothing is
    dirty and no save is in flight the file is what memory holds; a clean shutdown loses nothing.
  */
  lemma SerialDurability(file: Option<Content>, keys: seq<Key>, es: seq<Event>, more: seq<Event>, json: Decoder)
    requires Lists(keys, match file case Some(c) => c case None => map[])
    requires AllowedRun(Loaded(file, keys), es, json) && Serial(Loaded(file, keys), es, json)
    requires var (s, h) := After(Loaded(file, keys), es, json, Beginning(Loaded(file, keys)));
      AllowedRun(s, more, json) && Serial(s, more, json)
    ensures var (s, h) := After(Loaded(file, keys), es, json, Beginning(Loaded(file, keys)));
      var (s', h') := After(s, more, json, h);
      && Extends(h, h') && h.installed <= h'.installed && OnDisk(s') == h'.Snapshot(h'.installed)
      && (!s'.dirty && Idle(s') ==> OnDisk(s') == Memory(s'))
  {
    var s0 := Loaded(file, keys);
    FreshlyLoaded(file, keys);
    RunDurable(s0, es, json, Beginning(s0));
    RunInOrder(s0, es, json, Beginning(s0));
    var (s, h) := After(s0, es, json, Beginning(s0));
    RunDurable(s, more, json, h);
    RunInOrder(s, more, json, h);
  }

  // ---------------------------------------------------------------------------
  // Both failures happen
  // ---------------------------------------------------------------------------

  /** With two saves in flight the older snapshot can win: nothing is dirty or in flight, yet the file is stale. */
  lemma OverlappingSavesLose(k: Key, json: Decoder)
    ensures var s0 := State(map[k := Number(1)], [], true, map[], None, None);
      var s1 := AfterSet(AfterBegin(s0, 1), k, Number(2));
      var s2 := AfterReplace(AfterDump(AfterBegin(s1, 2), 2), 2);
      var s3 := AfterReplace(AfterDump(s2, 1), 1);
      Idle(s3) && !s3.dirty && OnDisk(s3) != Memory(s3)
  {
    var s0 := State(map[k := Number(1)], [], true, map[], None, None);
    var s1 := AfterSet(AfterBegin(s0, 1), k, Number(2));
    var s2 := AfterReplace(AfterDump(AfterBegin(s1, 2), 2), 2);
    assert s2.savers.Keys == {1};
    var s3 := AfterReplace(AfterDump(s2, 1), 1);
    assert s3.savers.Keys == {};
    assert OnDisk(s3)[k] == PlainNumber(1) && Memory(s3)[k] == PlainNumber(2);
  }

  /** A set changed in place between snapshot and dump puts a state on disk that memory was never in. */
  lemma AddInFlightTears(k: Key, other: Key, json: Decoder)
    requires k != other
    ensures var s0 := State(map[k := SetRef(0)], [{"a"}], true, map[], None, None);
      var s1 := AfterBegin(s0, 1);
      var s2 := AfterSet(s1, other, Number(1));
      var s3 := AfterAdd(s2, k, {"b"}, json);
      var s4 := AfterReplace(AfterDump(s3, 1), 1);
      OnDisk(s4) !in {Memory(s0), Memory(s1), Memory(s2), Memory(s3), Memory(s4)}
  {
    var s0 := State(map[k := SetRef(0)], [{"a"}], true, map[], None, None);
    var s1 := AfterBegin(s0, 1);
    var s2 := AfterSet(s1, other, Number(1));
    var s3 := AfterAdd(s2, k, {"b"}, json);
    var s4 := AfterReplace(AfterDump(s3, 1), 1);
    assert "b" in s3.sets[0] && "b" !in s0.sets[0];
    assert OnDisk(s4)[k] == PlainSet(s3.sets[0]) && other !in OnDisk(s4);
    assert Memory(s0)[k] == PlainSet(s0.sets[0]) && Memory(s1)[k] == PlainSet(s0.sets[0]);
    assert other in Memory(s2) && other in Memory(s3) && other in Memory(s4);
  }
}
