/**
 * The configuration manager: a tree of settings looked up by dotted paths
 * through a cache, merged from loaded documents after `${VAR}` placeholders
 * are replaced from the environment, updated along a path, and the change
 * events a reload of a YAML file sends to the registered listeners.
 */
module Config {
  import opened Wrappers
  import opened Text
  import opened PyValue

  /** A registered listener callable, by identity. */
  type ListenerId = nat

  datatype ChangeEvent = ChangeEvent(key: string, oldValue: Value, newValue: Value)

  const NotInitialised := "配置尚未初始化，请先调用init方法"

  // ----- lookup by dotted path -----

  /** Indexing `v[k0][k1]...`; `None` is the KeyError or TypeError the walk raises. */
  function Lookup(v: Value, keys: seq<string>): Option<Value>
  {
    if keys == [] then Some(v)
    else if v.Dict? && keys[0] in v.fields then Lookup(v.fields[keys[0]], keys[1..])
    else None
  }

  /** Looking up `a + b` is looking up `a` and then `b` from what it found. */
  lemma {:induction false} LookupAppend(v: Value, a: seq<string>, b: seq<string>)
    ensures Lookup(v, a + b) == (match Lookup(v, a) case Some(w) => Lookup(w, b) case None => None)
  {
    if a == [] {
      assert a + b == b;
    } else {
      assert (a + b)[0] == a[0];
      assert (a + b)[1..] == a[1..] + b;
      if v.Dict? && a[0] in v.fields {
        LookupAppend(v.fields[a[0]], a[1..], b);
      }
    }
  }

  /** The `for k in keys: value = value[k]` walk of `get`. */
  method Walk(root: Value, keys: seq<string>) returns (r: Option<Value>)
    ensures r == Lookup(root, keys)
  {
    var value := root;
    var i := 0;
    while i < |keys|
      invariant 0 <= i <= |keys|
      invariant Lookup(root, keys) == Lookup(value, keys[i..])
    {
      var k := keys[i];
      assert keys[i..][0] == k;
      if !(value.Dict? && k in value.fields) {
        return None;
      }
      assert keys[i..][1..] == keys[i + 1..];
      value := value.fields[k];
      i := i + 1;
    }
    assert keys[i..] == [];
    return Some(value);
  }

  /** What `get(key)` finds before falling back to the default: the cached value, else the value at the path. */
  function Fetch(cache: map<string, Value>, config: map<string, Value>, key: string): Option<Value>
  {
    if key in cache then Some(cache[key]) else Lookup(Dict(config), Split(key, '.'))
  }

  /** The cache after `get(key)`: a successful lookup is stored, a miss is not. */
  function CacheAfterGet(cache: map<string, Value>, config: map<string, Value>, key: string): map<string, Value>
  {
    if key in cache then cache
    else match Lookup(Dict(config), Split(key, '.'))
      case Some(v) => cache[key := v]
      case None => cache
  }

  /** Every cached entry is what its path holds in the configuration now. */
  ghost predicate CacheSound(cache: map<string, Value>, config: map<string, Value>)
  {
    forall k :: k in cache ==> Lookup(Dict(config), Split(k, '.')) == Some(cache[k])
  }

  /** With a sound cache, `get` answers what the path holds, and its cache stays sound. */
  lemma GetThroughSoundCache(cache: map<string, Value>, config: map<string, Value>, key: string)
    requires CacheSound(cache, config)
    ensures Fetch(cache, config, key) == Lookup(Dict(config), Split(key, '.'))
    ensures CacheSound(CacheAfterGet(cache, config, key), config)
  {
  }

  /** Once `get(key)` has found a value, later calls answer it from the cache, whatever the configuration holds then. */
  lemma GetIsCached(cache: map<string, Value>, config: map<string, Value>, later: map<string, Value>, key: string)
    requires Fetch(cache, config, key).Some?
    ensures key in CacheAfterGet(cache, config, key)
    ensures Fetch(CacheAfterGet(cache, config, key), later, key) == Fetch(cache, config, key)
  {
  }

  // ----- typed getters -----

  /** `get_int`'s conversion: `int(value)`, or the default when that raises. */
  function IntSetting(v: Value, default: int): int
  {
    ToInt(v).GetOr(default)
  }

  /** Integers, and strings holding their decimal form, read as themselves; `None`, lists and dicts give the default. */
  lemma IntSettingFacts(i: int, default: int, v: Value)
    ensures IntSetting(Int(i), default) == i
    ensures IntSetting(Str(IntToString(i)), default) == i
    ensures v.Null? || v.List? || v.Dict? ==> IntSetting(v, default) == default
  {
    IntLiteralRoundTrip(i);
  }

  const TrueWords: set<string> := {"true", "1", "yes", "on"}

  /** `get_boolean`'s conversion: a string is true iff lower-cased it is one of the true words; anything else by truthiness. */
  function BoolSetting(v: Value): bool
  {
    if v.Str? then Lower(v.s) in TrueWords else Truthy(v)
  }

  /** String settings are read without regard to case, and a non-empty string outside the true words is false. */
  lemma BoolSettingFacts(s: string)
    ensures BoolSetting(Str(s)) == BoolSetting(Str(Lower(s)))
    ensures BoolSetting(Str(s)) ==> Truthy(Str(s))
    ensures !BoolSetting(Str("no")) && Truthy(Str("no"))
  {
    LowerIdempotent(s);
    assert Lower("no") == "no";
  }

  // ----- merging and environment placeholders -----

  /** `_merge_direct_config`: nothing for an empty document, else a shallow update of the top-level keys. */
  function MergedConfig(config: map<string, Value>, data: map<string, Value>): map<string, Value>
  {
    if data == map[] then config else config + data
  }

  /** The merge takes every key of the document with its new value and keeps the other keys; merging again changes nothing. */
  lemma MergeFacts(config: map<string, Value>, data: map<string, Value>)
    ensures MergedConfig(config, data).Keys == config.Keys + data.Keys
    ensures forall k :: k in data ==> MergedConfig(config, data)[k] == data[k]
    ensures forall k :: k in config && k !in data ==> MergedConfig(config, data)[k] == config[k]
    ensures MergedConfig(MergedConfig(config, data), data) == MergedConfig(config, data)
  {
  }

  /** A `${NAME}` placeholder: a string that starts with `${` and ends with `}`. */
  predicate IsPlaceholder(s: string)
  {
    StartsWith(s, "${") && EndsWith(s, "}")
  }

  /** `data[2:-1]`: the variable a placeholder names. */
  function PlaceholderName(s: string): (name: string)
    requires IsPlaceholder(s)
    ensures s == "${" + name + "}"
  {
    assert s[1] == '{';
    assert s[|s| - 1] == '}';
    assert s == s[..2] + s[2..|s| - 1] + s[|s| - 1..];
    s[2..|s| - 1]
  }

  /** `_replace_env_vars`: every placeholder whose variable is set becomes its value; keys, order and everything else stay. */
  function ReplaceEnv(v: Value, env: map<string, string>): Value
  {
    match v
    case Dict(m) => Dict(map k | k in m :: ReplaceEnv(m[k], env))
    case List(xs) => List(seq(|xs|, i requires 0 <= i < |xs| => ReplaceEnv(xs[i], env)))
    case Str(s) => if IsPlaceholder(s) && PlaceholderName(s) in env then Str(env[PlaceholderName(s)]) else v
    case _ => v
  }

  /** Dicts keep their keys, lists their length and order, and only placeholder strings of set variables change. */
  lemma ReplaceEnvShape(v: Value, env: map<string, string>)
    ensures v.Dict? <==> ReplaceEnv(v, env).Dict?
    ensures v.Dict? ==> (ReplaceEnv(v, env).fields.Keys == v.fields.Keys
      && forall k :: k in v.fields ==> ReplaceEnv(v, env).fields[k] == ReplaceEnv(v.fields[k], env))
    ensures v.List? <==> ReplaceEnv(v, env).List?
    ensures v.List? ==> (|ReplaceEnv(v, env).items| == |v.items|
      && forall i :: 0 <= i < |v.items| ==> ReplaceEnv(v, env).items[i] == ReplaceEnv(v.items[i], env))
    ensures v.Str? && IsPlaceholder(v.s) && PlaceholderName(v.s) in env ==> ReplaceEnv(v, env) == Str(env[PlaceholderName(v.s)])
    ensures !(v.Str? && IsPlaceholder(v.s) && PlaceholderName(v.s) in env) && !v.Dict? && !v.List? ==> ReplaceEnv(v, env) == v
  {
  }

  /** With no variable set, nothing is replaced. */
  lemma {:induction false} ReplaceEnvUnset(v: Value)
    ensures ReplaceEnv(v, map[]) == v
  {
    match v
    case Dict(m) =>
      forall k | k in m ensures ReplaceEnv(m[k], map[]) == m[k] {
        ReplaceEnvUnset(m[k]);
      }
      assert ReplaceEnv(v, map[]).fields == m;
    case List(xs) =>
      forall i | 0 <= i < |xs| ensures ReplaceEnv(xs[i], map[]) == xs[i] {
        ReplaceEnvUnset(xs[i]);
      }
      assert ReplaceEnv(v, map[]).items == xs;
    case _ =>
  }

  /** When no variable's value is itself a placeholder, replacing twice is replacing once. */
  lemma {:induction false} ReplaceEnvIdempotent(v: Value, env: map<string, string>)
    requires forall n :: n in env ==> !IsPlaceholder(env[n])
    ensures ReplaceEnv(ReplaceEnv(v, env), env) == ReplaceEnv(v, env)
  {
    var once := ReplaceEnv(v, env);
    match v
    case Dict(m) =>
      forall k | k in m ensures ReplaceEnv(once.fields[k], env) == once.fields[k] {
        ReplaceEnvIdempotent(m[k], env);
      }
      assert ReplaceEnv(once, env).fields == once.fields;
    case List(xs) =>
      forall i | 0 <= i < |xs| ensures ReplaceEnv(once.items[i], env) == once.items[i] {
        ReplaceEnvIdempotent(xs[i], env);
      }
      assert ReplaceEnv(once, env).items == once.items;
    case _ =>
  }

  /** The configuration after `_merge_config` of a loaded document; `None` is the error `dict.update` raises on a non-mapping. */
  function Reloaded(config: map<string, Value>, doc: Value, env: map<string, string>): Option<map<string, Value>>
  {
    var data := ReplaceEnv(doc, env);
    if !Truthy(data) then Some(config)
    else if data.Dict? then Some(MergedConfig(config, data.fields))
    else None
  }

  // ----- update_config -----

  /**
   * `update_config`'s walk: a missing key on the way gets an empty dictionary and
   * the last key is set; `None` is the TypeError an existing non-dictionary on the
   * way raises.
   */
  function SetPath(m: map<string, Value>, keys: seq<string>, value: Value): Option<map<string, Value>>
    requires keys != []
    decreases |keys|
  {
    if |keys| == 1 then Some(m[keys[0] := value])
    else
      var child := if keys[0] in m then m[keys[0]] else Dict(map[]);
      if !child.Dict? then None
      else match SetPath(child.fields, keys[1..], value)
        case Some(c) => Some(m[keys[0] := Dict(c)])
        case None => None
  }

  /** After a successful update the path holds the value, and top-level keys other than the first segment are untouched. */
  lemma {:induction false} SetPathLands(m: map<string, Value>, keys: seq<string>, value: Value)
    requires keys != [] && SetPath(m, keys, value).Some?
    ensures Lookup(Dict(SetPath(m, keys, value).value), keys) == Some(value)
    ensures SetPath(m, keys, value).value.Keys == m.Keys + {keys[0]}
    ensures forall k :: k in m && k != keys[0] ==> SetPath(m, keys, value).value[k] == m[k]
    decreases |keys|
  {
    if |keys| > 1 {
      var child := if keys[0] in m then m[keys[0]] else Dict(map[]);
      SetPathLands(child.fields, keys[1..], value);
    }
  }

  /** The value at `keys[..i]` exists and is not a dictionary, so the walk cannot go on past it. */
  predicate Blocked(m: map<string, Value>, keys: seq<string>, i: nat)
    requires i <= |keys|
  {
    var found := Lookup(Dict(m), keys[..i]);
    found.Some? && !found.value.Dict?
  }

  /** The update fails exactly when some proper prefix of the path holds a non-dictionary. */
  lemma {:induction false} SetPathFails(m: map<string, Value>, keys: seq<string>, value: Value)
    requires keys != []
    ensures SetPath(m, keys, value).None? <==> exists i :: 1 <= i < |keys| && Blocked(m, keys, i)
    decreases |keys|
  {
    if |keys| > 1 {
      var k0, rest := keys[0], keys[1..];
      var child := if k0 in m then m[k0] else Dict(map[]);
      forall i | 1 <= i < |keys|
        ensures Lookup(Dict(m), keys[..i]) == (if k0 in m then Lookup(m[k0], rest[..i - 1]) else None)
      {
        assert keys[..i][0] == k0;
        assert keys[..i][1..] == rest[..i - 1];
      }
      if child.Dict? {
        SetPathFails(child.fields, rest, value);
        if k0 in m {
          forall i | 1 <= i < |keys| ensures Blocked(m, keys, i) <==> (i == 1 && !child.Dict?) || (i > 1 && Blocked(child.fields, rest, i - 1)) {
            if i == 1 {
              assert rest[..0] == [];
            }
          }
          if exists i :: 1 <= i < |rest| && Blocked(child.fields, rest, i) {
            var i :| 1 <= i < |rest| && Blocked(child.fields, rest, i);
            assert Blocked(m, keys, i + 1);
          }
        } else {
          forall i | 1 <= i < |rest| ensures !Blocked(map[], rest, i) {
            assert rest[..i][0] == rest[0];
          }
        }
      } else {
        assert keys[..1] == [k0];
        assert Blocked(m, keys, 1);
      }
    }
  }

  // ----- listeners and change events -----

  /** One listener call per registered listener, in registration order. */
  function Fanout(listeners: seq<ListenerId>, event: ChangeEvent): (calls: seq<(ListenerId, ChangeEvent)>)
    ensures |calls| == |listeners|
    ensures forall i :: 0 <= i < |listeners| ==> calls[i] == (listeners[i], event)
  {
    seq(|listeners|, i requires 0 <= i < |listeners| => (listeners[i], event))
  }

  /** The listeners whose call raises, in registration order. */
  function Raising(listeners: seq<ListenerId>, event: ChangeEvent, raises: (ListenerId, ChangeEvent) -> bool): seq<ListenerId>
  {
    if listeners == [] then []
    else
      var l := listeners[|listeners| - 1];
      Raising(listeners[..|listeners| - 1], event, raises) + (if raises(l, event) then [l] else [])
  }

  /** `_notify_listeners`: every listener is called in order; one that raises is logged and the loop goes on. */
  method Notify(listeners: seq<ListenerId>, event: ChangeEvent, raises: (ListenerId, ChangeEvent) -> bool)
    returns (calls: seq<(ListenerId, ChangeEvent)>, failed: seq<ListenerId>)
    ensures calls == Fanout(listeners, event)
    ensures failed == Raising(listeners, event, raises)
  {
    calls, failed := [], [];
    var i := 0;
    while i < |listeners|
      invariant 0 <= i <= |listeners|
      invariant calls == Fanout(listeners[..i], event)
      invariant failed == Raising(listeners[..i], event, raises)
    {
      var l := listeners[i];
      calls := calls + [(l, event)];
      if raises(l, event) {
        failed := failed + [l];
      }
      assert listeners[..i + 1][..i] == listeners[..i];
      i := i + 1;
    }
    assert listeners[..i] == listeners;
  }

  /** Whether the reload changed `key`: it was there before and its value is no longer `==` the old one. */
  predicate Changed(before: map<string, Value>, after: map<string, Value>, key: string)
  {
    key in before && key in after && !PyEq(after[key], before[key])
  }

  /** The events of `on_modified`, for the new configuration's keys listed in iteration order. */
  function ChangedEvents(before: map<string, Value>, after: map<string, Value>, keys: seq<string>): seq<ChangeEvent>
  {
    if keys == [] then []
    else
      var k := keys[|keys| - 1];
      ChangedEvents(before, after, keys[..|keys| - 1])
      + (if Changed(before, after, k) then [ChangeEvent(k, before[k], after[k])] else [])
  }

  /** An event is sent exactly for a listed key that was present before and whose value changed, with both values. */
  lemma {:induction false} ChangedEventsExact(before: map<string, Value>, after: map<string, Value>, keys: seq<string>, e: ChangeEvent)
    ensures e in ChangedEvents(before, after, keys) <==> (e.key in keys && Changed(before, after, e.key)
      && e == ChangeEvent(e.key, before[e.key], after[e.key]))
  {
    if keys != [] {
      ChangedEventsExact(before, after, keys[..|keys| - 1], e);
      assert keys == keys[..|keys| - 1] + [keys[|keys| - 1]];
    }
  }

  /** Over keys listed once each, every changed key is sent once: no two events share a key. */
  lemma {:induction false} ChangedEventsDistinct(before: map<string, Value>, after: map<string, Value>, keys: seq<string>)
    requires forall i, j :: 0 <= i < j < |keys| ==> keys[i] != keys[j]
    ensures var es := ChangedEvents(before, after, keys);
      forall i, j :: 0 <= i < j < |es| ==> es[i].key != es[j].key
  {
    if keys != [] {
      var init, k := keys[..|keys| - 1], keys[|keys| - 1];
      ChangedEventsDistinct(before, after, init);
      var es0 := ChangedEvents(before, after, init);
      forall i | 0 <= i < |es0|
        ensures es0[i].key != k
      {
        ChangedEventsExact(before, after, init, es0[i]);
      }
    }
  }

  /** No key of a configuration counts as changed against itself. */
  lemma NoneChanged(config: map<string, Value>)
    ensures forall k :: !Changed(config, config, k)
  {
    forall k | k in config
      ensures !Changed(config, config, k)
    {
      PyEqReflexive(config[k]);
    }
  }

  /** A reload that changes no value sends no event. */
  lemma {:induction false} UnchangedSendsNothing(config: map<string, Value>, keys: seq<string>)
    ensures ChangedEvents(config, config, keys) == []
  {
    if keys != [] {
      UnchangedSendsNothing(config, keys[..|keys| - 1]);
      var k := keys[|keys| - 1];
      if k in config {
        PyEqReflexive(config[k]);
      }
    }
  }

  /** Every event, in order, delivered to every listener in order. */
  function Deliveries(listeners: seq<ListenerId>, events: seq<ChangeEvent>): seq<(ListenerId, ChangeEvent)>
  {
    if events == [] then [] else Deliveries(listeners, events[..|events| - 1]) + Fanout(listeners, events[|events| - 1])
  }

  lemma {:induction false} DeliveriesCount(listeners: seq<ListenerId>, events: seq<ChangeEvent>)
    ensures |Deliveries(listeners, events)| == |listeners| * |events|
  {
    if events != [] {
      var n := |events| - 1;
      DeliveriesCount(listeners, events[..n]);
      assert |Deliveries(listeners, events)| == |listeners| * n + |listeners|;
      assert |listeners| * n + |listeners| == |listeners| * (n + 1);
    }
  }

  /** The event loop of `on_modified`, over the new configuration's keys in iteration order. */
  method EmitEvents(before: map<string, Value>, after: map<string, Value>, keys: seq<string>,
                    listeners: seq<ListenerId>, raises: (ListenerId, ChangeEvent) -> bool)
    returns (events: seq<ChangeEvent>, calls: seq<(ListenerId, ChangeEvent)>)
    ensures events == ChangedEvents(before, after, keys)
    ensures calls == Deliveries(listeners, events)
  {
    events, calls := [], [];
    var i := 0;
    while i < |keys|
      invariant 0 <= i <= |keys|
      invariant events == ChangedEvents(before, after, keys[..i])
      invariant calls == Deliveries(listeners, events)
    {
      var key := keys[i];
      assert keys[..i + 1][..i] == keys[..i];
      if key in before && key in after && !PyEq(after[key], before[key]) {
        var event := ChangeEvent(key, before[key], after[key]);
        var sent, failed := Notify(listeners, event, raises);
        assert (events + [event])[..|events|] == events;
        events := events + [event];
        calls := calls + sent;
      }
      i := i + 1;
    }
    assert keys[..i] == keys;
  }

  /** The source's singleton configuration manager, as one object. */
  class ConfigManager {
    var config: map<string, Value>
    var cache: map<string, Value>
    var listeners: seq<ListenerId>

    constructor()
      ensures config == map[] && cache == map[] && listeners == []
    {
      config := map[];
      cache := map[];
      listeners := [];
    }

    /** `get`: the cached value, else the value at the dotted path (then cached), else the default (not cached). */
    method Get(key: string, default: Value) returns (r: Value)
      modifies this`cache
      ensures r == Fetch(old(cache), config, key).GetOr(default)
      ensures cache == CacheAfterGet(old(cache), config, key)
    {
      if key in cache {
        return cache[key];
      }
      var found := Walk(Dict(config), Split(key, '.'));
      match found
      case Some(v) =>
        cache := cache[key := v];
        r := v;
      case None =>
        r := default;
    }

    method GetInt(key: string, default: int) returns (r: int)
      modifies this`cache
      ensures r == IntSetting(Fetch(old(cache), config, key).GetOr(Int(default)), default)
      ensures cache == CacheAfterGet(old(cache), config, key)
    {
      var v := Get(key, Int(default));
      r := match ToInt(v) case Some(n) => n case None => default;
    }

    method GetBoolean(key: string, default: bool) returns (r: bool)
      modifies this`cache
      ensures r == BoolSetting(Fetch(old(cache), config, key).GetOr(Bool(default)))
      ensures cache == CacheAfterGet(old(cache), config, key)
    {
      var v := Get(key, Bool(default));
      if v.Str? {
        r := Lower(v.s) in TrueWords;
      } else {
        r := Truthy(v);
      }
    }

    /** `_merge_direct_config`: a non-empty document's keys overwrite the top level and the cache is cleared. */
    method MergeDirect(data: map<string, Value>)
      modifies this`config, this`cache
      ensures config == MergedConfig(old(config), data)
      ensures cache == if data == map[] then old(cache) else map[]
    {
      if data == map[] {
        return;
      }
      config := config + data;
      cache := map[];
    }

    /** `_merge_config` of a loaded document: placeholders replaced, then the direct merge; `Err` when the document is no mapping. */
    method MergeDocument(doc: Value, env: map<string, string>) returns (r: Result<()>)
      modifies this`config, this`cache
      ensures Reloaded(old(config), doc, env).Some? <==> r.Ok?
      ensures r.Ok? ==> config == Reloaded(old(config), doc, env).value
      ensures r.Err? ==> config == old(config) && cache == old(cache)
      ensures r.Ok? && Truthy(ReplaceEnv(doc, env)) ==> cache == map[]
      ensures !Truthy(ReplaceEnv(doc, env)) ==> cache == old(cache)
    {
      var data := ReplaceEnv(doc, env);
      if !Truthy(data) {
        return Ok(());
      }
      if !data.Dict? {
        return Err("dictionary update sequence is not a mapping");
      }
      MergeDirect(data.fields);
      r := Ok(());
    }

    /**
     * `update_config`: refused on an empty configuration; otherwise the path is
     * walked, missing keys get empty dictionaries, and the last key is set. The
     * cache is left as it was.
     */
    method UpdateConfig(keyPath: string, value: Value) returns (r: Result<()>)
      modifies this`config
      ensures old(config) == map[] ==> r == Err(NotInitialised) && config == old(config)
      ensures old(config) != map[] ==> match SetPath(old(config), Split(keyPath, '.'), value)
        case Some(c) => r == Ok(()) && config == c
        case None => r.Err? && config == old(config)
    {
      if config == map[] {
        return Err(NotInitialised);
      }
      var updated := SetPath(config, Split(keyPath, '.'), value);
      match updated
      case Some(c) =>
        config := c;
        r := Ok(());
      case None =>
        r := Err("object does not support item assignment");
    }

    /** `update_config` as evidently intended: the same update, and the cache cleared as the merge clears it. */
    method UpdateConfigInvalidating(keyPath: string, value: Value) returns (r: Result<()>)
      modifies this`config, this`cache
      requires CacheSound(cache, config)
      ensures old(config) == map[] ==> r == Err(NotInitialised) && config == old(config)
      ensures old(config) != map[] ==> match SetPath(old(config), Split(keyPath, '.'), value)
        case Some(c) => r == Ok(()) && config == c && cache == map[]
        case None => r.Err? && config == old(config) && cache == old(cache)
      ensures CacheSound(cache, config)
    {
      r := UpdateConfig(keyPath, value);
      if r.Ok? {
        cache := map[];
      }
    }

    method AddListener(l: ListenerId)
      modifies this`listeners
      ensures listeners == old(listeners) + [l]
    {
      listeners := listeners + [l];
    }

    /** `remove_listener`: the first registration of `l` goes; `Err` is the ValueError `list.remove` raises when there is none. */
    method RemoveListener(l: ListenerId) returns (r: Result<()>)
      modifies this`listeners
      ensures l in old(listeners) <==> r.Ok?
      ensures r.Err? ==> listeners == old(listeners)
      ensures r.Ok? ==> exists i :: (0 <= i < |old(listeners)| && old(listeners)[i] == l && l !in old(listeners)[..i]
        && listeners == old(listeners)[..i] + old(listeners)[i + 1..])
    {
      var i := 0;
      while i < |listeners| && listeners[i] != l
        invariant 0 <= i <= |listeners|
        invariant l !in listeners[..i]
      {
        assert listeners[..i + 1] == listeners[..i] + [listeners[i]];
        i := i + 1;
      }
      if i == |listeners| {
        assert listeners[..i] == listeners;
        return Err("list.remove(x): x not in list");
      }
      listeners := listeners[..i] + listeners[i + 1..];
      r := Ok(());
    }

    method NotifyListeners(event: ChangeEvent, raises: (ListenerId, ChangeEvent) -> bool)
      returns (calls: seq<(ListenerId, ChangeEvent)>, failed: seq<ListenerId>)
      ensures calls == Fanout(listeners, event)
      ensures failed == Raising(listeners, event, raises)
    {
      calls, failed := Notify(listeners, event, raises);
    }

    /**
     * `ConfigFileHandler.on_modified` for a changed file whose loaded document is
     * `doc`: only `.yaml` paths are reloaded; after the merge, the keys of the new
     * configuration (`keys`, in iteration order) are compared with the copy taken
     * before, and each changed one is sent to every listener. A document the merge
     * refuses is logged and sends nothing.
     */
    method OnModified(path: string, doc: Value, env: map<string, string>, keys: seq<string>,
                      raises: (ListenerId, ChangeEvent) -> bool)
      returns (events: seq<ChangeEvent>, calls: seq<(ListenerId, ChangeEvent)>)
      requires EndsWith(path, ".yaml") ==>
        (forall k :: k in keys <==> k in Reloaded(config, doc, env).GetOr(config))
        && forall i, j :: 0 <= i < j < |keys| ==> keys[i] != keys[j]
      modifies this`config, this`cache
      ensures !EndsWith(path, ".yaml") ==> config == old(config) && cache == old(cache) && events == []
      ensures EndsWith(path, ".yaml") ==> config == Reloaded(old(config), doc, env).GetOr(old(config))
      ensures events == ChangedEvents(old(config), config, keys)
      ensures forall e :: e in events <==> (Changed(old(config), config, e.key)
        && e == ChangeEvent(e.key, old(config)[e.key], config[e.key]))
      ensures forall i, j :: 0 <= i < j < |events| ==> events[i].key != events[j].key
      ensures calls == Deliveries(listeners, events)
    {
      if !EndsWith(path, ".yaml") {
        UnchangedSendsNothing(config, keys);
        NoneChanged(config);
        return [], [];
      }
      var before := config;
      var merged := MergeDocument(doc, env);
      if merged.Err? {
        UnchangedSendsNothing(config, keys);
        NoneChanged(config);
        return [], [];
      }
      events, calls := EmitEvents(before, config, keys, listeners, raises);
      ChangedEventsDistinct(before, config, keys);
      forall e
        ensures e in events <==> (Changed(before, config, e.key) && e == ChangeEvent(e.key, before[e.key], config[e.key]))
      {
        ChangedEventsExact(before, config, keys, e);
      }
    }
  }

  /**
   * As written, `update_config` leaves the cache alone, so a path read before the
   * update keeps answering its old value: the cache is no longer sound.
   */
  lemma StaleReadAfterUpdate(config: map<string, Value>, key: string, before: Value, after: Value)
    requires Split(key, '.') != [] && Lookup(Dict(config), Split(key, '.')) == Some(before)
    requires SetPath(config, Split(key, '.'), after).Some? && before != after
    ensures var cache := CacheAfterGet(map[], config, key);
      var updated := SetPath(config, Split(key, '.'), after).value;
      && CacheSound(cache, config)
      && Lookup(Dict(updated), Split(key, '.')) == Some(after)
      && Fetch(cache, updated, key) == Some(before)
      && !CacheSound(cache, updated)
  {
    SetPathLands(config, Split(key, '.'), after);
  }

  /** For instance: `get("db.port")` answers 1, then `update_config("db.port", 2)` leaves the cached 1 in place. */
  lemma StaleReadExample()
    ensures var config := map["db" := Dict(map["port" := Int(1)])];
      var cache := CacheAfterGet(map[], config, "db.port");
      var updated := SetPath(config, ["db", "port"], Int(2));
      && updated.Some?
      && Lookup(Dict(updated.value), ["db", "port"]) == Some(Int(2))
      && Fetch(cache, updated.value, "db.port") == Some(Int(1))
  {
    var config := map["db" := Dict(map["port" := Int(1)])];
    DottedPath();
    assert Lookup(Dict(config), ["db", "port"]) == Some(Int(1));
    StaleReadAfterUpdate(config, "db.port", Int(1), Int(2));
  }

  lemma DottedPath()
    ensures Split("db.port", '.') == ["db", "port"]
  {
    var s := "db.port";
    assert IndexOf("t", '.') == 1;
    assert IndexOf("rt", '.') == 2;
    assert IndexOf("ort", '.') == 3;
    assert IndexOf("port", '.') == 4;
    assert Split("port", '.') == ["port"];
    assert IndexOf(".port", '.') == 0;
    assert IndexOf("b.port", '.') == 1;
    assert IndexOf(s, '.') == 2;
    assert s[..2] == "db" && s[3..] == "port";
  }

  /** After the invalidating update, the next `get` of the path answers the new value. */
  lemma InvalidatedReadIsFresh(config: map<string, Value>, keyPath: string, value: Value)
    requires SetPath(config, Split(keyPath, '.'), value).Some?
    ensures Fetch(map[], SetPath(config, Split(keyPath, '.'), value).value, keyPath) == Some(value)
  {
    SetPathLands(config, Split(keyPath, '.'), value);
  }
}
