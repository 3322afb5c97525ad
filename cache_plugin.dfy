/**
 * The cache middleware (mem0_mcp/plugins/cache_plugin.py): on the request
 * path it marks cacheable calls with their cache key and, when a young
 * enough entry exists, with the cached result; on the response path it
 * answers a cached result or stores a successful response, evicting the
 * oldest entry when the table is full.  Times are integer clock ticks and
 * the cache key is an abstract hash of the tool, the operation and the
 * parameters that identify a call.
 */
module CachePlugin {
  import opened Values
  import opened Lists
  import opened BasePlugin
  import BaseOperation

  /** `CachePlugin.metadata`, with its configuration schema. */
  const CacheMetadata: PluginMetadata :=
    PluginMetadata("cache_plugin", "1.0.0", "Provides caching for memory operations to improve performance",
                   Some("Mem0 Team"), [], ["caching", "performance"],
                   Some(map["ttl" := Dict(map["type" := Str("integer"), "default" := Int(300)]),
                            "max_size" := Dict(map["type" := Str("integer"), "default" := Int(1000)]),
                            "cacheable_operations" := Dict(map["type" := Str("array"),
                                                               "default" := List([Str("search"), Str("get"), Str("get_all")])])]))

  /** The cache plugin as the registry sees it: a middleware of priority 50. */
  const CacheClass: PluginClass := PluginClass("CachePlugin", CacheMetadata, {MiddlewareKind}, "", map[], 50, "", "")

  /** What `setup` reads from the plugin configuration. */
  datatype Settings = Settings(ttl: int, maxSize: int, cacheable: set<string>)

  /** The operation names in a configured list. */
  function Names(vs: seq<Value>): set<string>
  {
    set i | 0 <= i < |vs| && vs[i].Str? :: vs[i].s
  }

  /** `setup`'s reading of `ttl`, `max_size` and `cacheable_operations`;
      `None` for settings outside integer ticks and lists of names. */
  function SettingsOf(config: Params): Option<Settings>
  {
    match (GetOr(config, "ttl", Int(300)), GetOr(config, "max_size", Int(1000)),
           GetOr(config, "cacheable_operations", List([Str("search"), Str("get"), Str("get_all")])))
    case (Int(t), Int(m), List(ops)) => Some(Settings(t, m, Names(ops)))
    case _ => None
  }

  /** An empty configuration gives ttl 300, at most 1000 entries, and the
      search, get and get_all operations. */
  lemma DefaultSettings()
    ensures SettingsOf(map[]) == Some(Settings(300, 1000, {"search", "get", "get_all"}))
  {
    var ops := [Str("search"), Str("get"), Str("get_all")];
    assert ops[0].s == "search" && ops[1].s == "get" && ops[2].s == "get_all";
    assert Names(ops) == {"search", "get", "get_all"};
  }

  // ---------------------------------------------------------------------
  // Cache keys

  /** The parameters that identify a call: every key except those starting
      with `_` and `session_id`. */
  function KeyParams(params: Params): (r: Params)
    ensures forall k :: k in r <==> k in params && !StartsWith(k, "_") && k != "session_id"
  {
    map k | k in params && !StartsWith(k, "_") && k != "session_id" :: params[k]
  }

  /** The md5 of the sorted JSON dump of tool, operation and identifying
      parameters. */
  type KeyHash = (string, string, Params) -> string

  function CacheKey(hash: KeyHash, tool: string, op: string, params: Params): string
  {
    hash(tool, op, KeyParams(params))
  }

  /** Adding or changing a `_`-prefixed key or `session_id` never changes
      the cache key. */
  lemma KeyIgnoresMarkers(hash: KeyHash, tool: string, op: string, params: Params, k: string, v: Value)
    requires StartsWith(k, "_") || k == "session_id"
    ensures CacheKey(hash, tool, op, params[k := v]) == CacheKey(hash, tool, op, params)
  {
    assert KeyParams(params[k := v]) == KeyParams(params);
  }

  ghost predicate Injective(hash: KeyHash)
  {
    forall t, o, p, t', o', p' :: hash(t, o, p) == hash(t', o', p') ==> t == t' && o == o' && p == p'
  }

  /** With an injective hash, two calls share a cache key exactly when
      they agree on tool, operation and identifying parameters. */
  lemma KeyIdentifiesCall(hash: KeyHash, tool: string, op: string, params: Params,
                          tool': string, op': string, params': Params)
    requires Injective(hash)
    ensures CacheKey(hash, tool, op, params) == CacheKey(hash, tool', op', params')
        <==> tool == tool' && op == op' && KeyParams(params) == KeyParams(params')
  {
  }

  // ---------------------------------------------------------------------
  // The table

  /** A cached response under its key, with the time it was stored. */
  datatype Entry = Entry(key: string, time: int, result: Params)

  /** The table's keys in insertion order. */
  function KeysOf(es: seq<Entry>): (ks: seq<string>)
    ensures |ks| == |es| && forall i :: 0 <= i < |es| ==> ks[i] == es[i].key
  {
    seq(|es|, i requires 0 <= i < |es| => es[i].key)
  }

  /** `self.cache[k]`, if present. */
  function Find(es: seq<Entry>, k: string): (r: Option<Entry>)
    ensures r.Some? <==> k in KeysOf(es)
    ensures r.Some? ==> r.value in es && r.value.key == k
    decreases |es|
  {
    if |es| == 0 then None
    else if es[0].key == k then Some(es[0])
    else
      assert KeysOf(es) == [es[0].key] + KeysOf(es[1..]);
      Find(es[1..], k)
  }

  /** `min(self.cache.keys(), key=timestamp)`: the first entry of least
      time. */
  function Oldest(es: seq<Entry>): (i: nat)
    requires |es| > 0
    ensures i < |es|
    ensures forall j :: 0 <= j < |es| ==> es[i].time <= es[j].time
    ensures forall j :: 0 <= j < i ==> es[j].time > es[i].time
    decreases |es|
  {
    if |es| == 1 then 0
    else
      var k := Oldest(es[1..]);
      if es[0].time <= es[k + 1].time then 0 else k + 1
  }

  /** `self.cache[e.key] = ...`: an existing key keeps its place and takes
      the new entry, a new key goes last. */
  function Store(es: seq<Entry>, e: Entry): (r: seq<Entry>)
    requires Distinct(KeysOf(es))
    ensures Distinct(KeysOf(r))
    ensures KeysOf(r) == if e.key in KeysOf(es) then KeysOf(es) else KeysOf(es) + [e.key]
    ensures forall i :: 0 <= i < |r| ==> r[i] == if r[i].key == e.key then e else es[i]
  {
    if e.key in KeysOf(es) then
      var i := IndexOf(KeysOf(es), e.key);
      var r := es[i := e];
      assert KeysOf(r) == KeysOf(es);
      r
    else
      var r := es + [e];
      assert KeysOf(r) == KeysOf(es) + [e.key];
      r
  }

  /** A stored entry is what a later lookup of its key finds. */
  lemma FindStored(es: seq<Entry>, e: Entry)
    requires Distinct(KeysOf(es))
    ensures Find(Store(es, e), e.key) == Some(e)
  {
    var r := Store(es, e);
    var f := Find(r, e.key);
    assert e.key in KeysOf(r);
    var i :| 0 <= i < |r| && r[i] == f.value;
    assert r[i].key == e.key;
  }

  /** Distinct keys mean distinct entries, no two of which share a key. */
  lemma KeysUnique(es: seq<Entry>)
    ensures Distinct(KeysOf(es)) <==> Distinct(es) && forall x, y :: x in es && y in es && x.key == y.key ==> x == y
  {
    if Distinct(KeysOf(es)) {
      forall x, y | x in es && y in es && x.key == y.key ensures x == y {
        var i :| 0 <= i < |es| && es[i] == x;
        var j :| 0 <= j < |es| && es[j] == y;
        assert KeysOf(es)[i] == KeysOf(es)[j];
      }
      forall i, j | 0 <= i < j < |es| ensures es[i] != es[j] {
        assert KeysOf(es)[i] != KeysOf(es)[j];
      }
    }
    if Distinct(es) && forall x, y :: x in es && y in es && x.key == y.key ==> x == y {
      forall i, j | 0 <= i < j < |es| ensures KeysOf(es)[i] != KeysOf(es)[j] {
        assert es[i] in es && es[j] in es;
      }
    }
  }

  /** A key is in the table exactly when some entry carries it. */
  lemma KeyIn(es: seq<Entry>, k: string)
    ensures k in KeysOf(es) <==> exists x :: x in es && x.key == k
  {
    if k in KeysOf(es) {
      var i :| 0 <= i < |es| && KeysOf(es)[i] == k;
      assert es[i] in es;
    }
    if exists x :: x in es && x.key == k {
      var x :| x in es && x.key == k;
      var i :| 0 <= i < |es| && es[i] == x;
      assert KeysOf(es)[i] == k;
    }
  }

  /** Keys stay distinct in a filtered table. */
  lemma FilterKeysDistinct(es: seq<Entry>, p: Entry -> bool)
    requires Distinct(KeysOf(es))
    ensures Distinct(KeysOf(Filter(es, p)))
  {
    KeysUnique(es);
    FilterDistinct(es, p);
    FilterMembers(es, p);
    KeysUnique(Filter(es, p));
  }

  /** The entry with key `k` leaves the table. */
  function KeyIsNot(k: string): Entry -> bool
  {
    (e: Entry) => e.key != k
  }

  /** The entries whose key is none of `ks`. */
  function NotAmong(ks: seq<string>): Entry -> bool
  {
    (e: Entry) => e.key !in ks
  }

  /** The cleanup pass's test: an entry older than `ttl` ticks expires. */
  function Live(now: int, ttl: int): Entry -> bool
  {
    (e: Entry) => !(now - e.time > ttl)
  }

  function Expired(now: int, ttl: int): Entry -> bool
  {
    (e: Entry) => now - e.time > ttl
  }

  /** The table after making room for one more entry: the oldest entry
      goes when the table is full. */
  function Evicted(es: seq<Entry>, maxSize: int): seq<Entry>
    requires |es| > 0 || |es| < maxSize
  {
    if |es| >= maxSize then var i := Oldest(es); es[..i] + es[i + 1..] else es
  }

  /** Eviction removes one entry of least time, keeps the others in order,
      and keeps keys distinct. */
  lemma EvictedDrops(es: seq<Entry>, maxSize: int)
    requires Distinct(KeysOf(es)) && |es| > 0 && |es| >= maxSize
    ensures var i := Oldest(es);
      && Evicted(es, maxSize) == es[..i] + es[i + 1..]
      && (forall j :: 0 <= j < |es| ==> es[i].time <= es[j].time)
      && |Evicted(es, maxSize)| == |es| - 1
      && Distinct(KeysOf(Evicted(es, maxSize)))
  {
    var i := Oldest(es);
    RemoveAtDistinct(KeysOf(es), i);
    assert KeysOf(es[..i] + es[i + 1..]) == KeysOf(es)[..i] + KeysOf(es)[i + 1..];
  }

  /** The error of `min` over an empty table, which a `max_size` of zero or
      less reaches on the first store. */
  const EmptyMin := PyError("ValueError", "min() iterable argument is empty")

  /** `process_response` on a response flagged `_from_cache`: the cached
      result with `_cached` set. */
  function FromCache(response: Params): Result<Params>
  {
    if "_cached_result" !in response then Err(PyError("KeyError", "'_cached_result'"))
    else match response["_cached_result"]
      case Dict(c) => Ok(c["_cached" := Bool(true)])
      case _ => Err(PyError("TypeError", "object is not a mapping"))
  }

  /** The plugin's state from `setup` on: the table and its settings. */
  class CacheMiddleware {
    var entries: seq<Entry>
    var ttl: int
    var maxSize: int
    var cacheable: set<string>

    /** Keys are unique and the table holds at most `max_size` entries. */
    ghost predicate Valid()
      reads this`entries, this`maxSize
    {
      Distinct(KeysOf(entries)) && (|entries| == 0 || |entries| <= maxSize)
    }

    /** `setup`: an empty table with the configured settings. */
    constructor (s: Settings)
      ensures Valid()
      ensures entries == [] && ttl == s.ttl && maxSize == s.maxSize && cacheable == s.cacheable
    {
      entries := [];
      ttl := s.ttl;
      maxSize := s.maxSize;
      cacheable := s.cacheable;
    }

    /** The cached result under `k` if it is younger than `ttl` ticks. */
    function Hit(k: string, now: int): (r: Option<Params>)
      requires Valid()
      reads this`entries, this`maxSize, this`ttl
      ensures r.Some? <==> exists i :: 0 <= i < |entries| && entries[i].key == k && now - entries[i].time < ttl
      ensures forall i :: 0 <= i < |entries| && entries[i].key == k && now - entries[i].time < ttl ==>
        r == Some(entries[i].result)
    {
      match Find(entries, k)
      case Some(e) =>
        assert forall i :: 0 <= i < |entries| && entries[i].key == k ==> entries[i] == e by {
          var j :| 0 <= j < |entries| && entries[j] == e;
          assert KeysOf(entries)[j] == k;
        }
        if now - e.time < ttl then Some(e.result) else None
      case None => None
    }

    /** `process_request`: a call outside the cacheable operations passes
        unchanged; a cacheable one gets its `_cache_key`, and, only when a
        young enough entry exists, `_cached_result` and `_from_cache`. */
    function ProcessRequest(hash: KeyHash, tool: string, op: string, params: Params, now: int): (r: Params)
      requires Valid()
      reads this`entries, this`maxSize, this`ttl, this`cacheable
      ensures op !in cacheable ==> r == params
      ensures op in cacheable ==>
        var k := CacheKey(hash, tool, op, params);
        var hit := Hit(k, now);
        && r.Keys == params.Keys + {"_cache_key"} + (if hit.Some? then {"_cached_result", "_from_cache"} else {})
        && r["_cache_key"] == Str(k)
        && (hit.Some? ==> r["_cached_result"] == Dict(hit.value) && r["_from_cache"] == Bool(true))
        && (forall x :: x in params && x != "_cache_key" && x != "_cached_result" && x != "_from_cache" ==> r[x] == params[x])
    {
      if op !in cacheable then params
      else
        var k := CacheKey(hash, tool, op, params);
        var marked := match Hit(k, now)
          case Some(result) => params["_cached_result" := Dict(result)]["_from_cache" := Bool(true)]
          case None => params;
        marked["_cache_key" := Str(k)]
    }

    /** `process_response`. */
    method ProcessResponse(op: string, response: Params, now: int) returns (r: Result<Params>)
      requires Valid()
      modifies this`entries
      ensures Valid()
      ensures Truthy(Get(response, "_from_cache")) ==> r == FromCache(response) && entries == old(entries)
      ensures !Truthy(Get(response, "_from_cache")) && !(op in cacheable && Get(response, "status") == Str("success")) ==>
        r == Ok(response) && entries == old(entries)
      ensures !Truthy(Get(response, "_from_cache")) && op in cacheable && Get(response, "status") == Str("success") ==>
        var stripped := response - {"_cache_key"};
        var ck := Get(response, "_cache_key");
        && (!(Truthy(ck) && ck.Str?) ==> r == Ok(stripped) && entries == old(entries))
        && (Truthy(ck) && ck.Str? && |old(entries)| == 0 && maxSize <= 0 ==> r == Err(EmptyMin) && entries == old(entries))
        && (Truthy(ck) && ck.Str? && (|old(entries)| > 0 || maxSize > 0) ==>
              r == Ok(stripped) && entries == Store(Evicted(old(entries), maxSize), Entry(ck.s, now, stripped)))
    {
      if Truthy(Get(response, "_from_cache")) {
        return FromCache(response);
      }
      if op in cacheable && Get(response, "status") == Str("success") {
        var ck := Get(response, "_cache_key");
        var stripped := response - {"_cache_key"};
        if Truthy(ck) && ck.Str? {
          if |entries| >= maxSize {
            if |entries| == 0 {
              return Err(EmptyMin);
            }
            EvictedDrops(entries, maxSize);
          }
          entries := Store(Evicted(entries, maxSize), Entry(ck.s, now, stripped));
        }
        return Ok(stripped);
      }
      r := Ok(response);
    }

    /** A response that carries neither marker, as every operation result
        built from validated parameters does, passes through and leaves the
        table as it was: `process_response` as written never stores. */
    method ResponseNeverStored(op: string, response: Params, now: int) returns (r: Result<Params>)
      requires Valid()
      requires "_cache_key" !in response && "_from_cache" !in response
      modifies this`entries
      ensures Valid()
      ensures r == Ok(response) && entries == old(entries)
    {
      assert response - {"_cache_key"} == response;
      r := ProcessResponse(op, response, now);
    }

    /** `process_response` with the markers read from the request that
        `process_request` produced rather than from the response: a fresh
        successful response of a cacheable call is stored under the call's
        key, and a request for the same key in the same tick hits it. */
    method ProcessResponseFor(op: string, request: Params, response: Params, now: int) returns (r: Result<Params>)
      requires Valid()
      modifies this`entries
      ensures Valid()
      ensures Truthy(Get(request, "_from_cache")) ==> r == FromCache(request) && entries == old(entries)
      ensures !Truthy(Get(request, "_from_cache")) && !(op in cacheable && Get(response, "status") == Str("success")) ==>
        r == Ok(response) && entries == old(entries)
      ensures !Truthy(Get(request, "_from_cache")) && op in cacheable && Get(response, "status") == Str("success") ==>
        var ck := Get(request, "_cache_key");
        && (!(Truthy(ck) && ck.Str?) ==> r == Ok(response) && entries == old(entries))
        && (Truthy(ck) && ck.Str? && |old(entries)| == 0 && maxSize <= 0 ==> r == Err(EmptyMin) && entries == old(entries))
        && (Truthy(ck) && ck.Str? && (|old(entries)| > 0 || maxSize > 0) ==>
              && r == Ok(response)
              && entries == Store(Evicted(old(entries), maxSize), Entry(ck.s, now, response))
              && (ttl > 0 ==> Hit(ck.s, now) == Some(response)))
    {
      if Truthy(Get(request, "_from_cache")) {
        return FromCache(request);
      }
      if op in cacheable && Get(response, "status") == Str("success") {
        var ck := Get(request, "_cache_key");
        if Truthy(ck) && ck.Str? {
          if |entries| >= maxSize {
            if |entries| == 0 {
              return Err(EmptyMin);
            }
            EvictedDrops(entries, maxSize);
          }
          var e := Entry(ck.s, now, response);
          FindStored(Evicted(entries, maxSize), e);
          entries := Store(Evicted(entries, maxSize), e);
        }
      }
      r := Ok(response);
    }

    /** One pass of `_cleanup_loop`: collect the expired keys, then delete
        each; exactly the entries older than `ttl` ticks go. */
    method Cleanup(now: int)
      requires Valid()
      modifies this`entries
      ensures Valid()
      ensures entries == Filter(old(entries), Live(now, ttl))
    {
      var expired := KeysOf(Filter(entries, Expired(now, ttl)));
      var i := 0;
      FilterAll(entries, NotAmong([]));
      while i < |expired|
        invariant i <= |expired|
        invariant entries == Filter(old(entries), NotAmong(expired[..i]))
      {
        assert expired[..i + 1] == expired[..i] + [expired[i]];
        FilterFilter(old(entries), NotAmong(expired[..i]), KeyIsNot(expired[i]), NotAmong(expired[..i + 1]));
        entries := Filter(entries, KeyIsNot(expired[i]));
        i := i + 1;
      }
      assert expired[..i] == expired;
      DeleteExpired(old(entries), now, ttl);
    }
  }

  /** `process_request` marks a cacheable call with `_cache_key`, but
      `validate_parameters` keeps only declared names, so neither that key
      nor `_from_cache` reaches the operation, whose result therefore never
      carries them back to `process_response`. */
  lemma MarkersDropped(c: CacheMiddleware, defs: seq<BaseOperation.ParameterDefinition>, hash: KeyHash,
                       tool: string, op: string, params: Params, now: int)
    requires c.Valid() && op in c.cacheable
    requires "_cache_key" !in BaseOperation.Names(defs) && "_from_cache" !in BaseOperation.Names(defs)
    ensures var request := c.ProcessRequest(hash, tool, op, params, now);
      && "_cache_key" in request
      && "_cache_key" !in BaseOperation.Validated(defs, request)
      && "_from_cache" !in BaseOperation.Validated(defs, request)
  {
    BaseOperation.ValidatedKeys(defs, c.ProcessRequest(hash, tool, op, params, now));
  }

  /** In a table of distinct keys, an entry's key is among the expired keys
      exactly when the entry has expired. */
  lemma ExpiredKeysExact(es: seq<Entry>, now: int, ttl: int, j: nat)
    requires Distinct(KeysOf(es)) && j < |es|
    ensures NotAmong(KeysOf(Filter(es, Expired(now, ttl))))(es[j]) == Live(now, ttl)(es[j])
  {
    var f := Filter(es, Expired(now, ttl));
    var k := es[j].key;
    FilterMembers(es, Expired(now, ttl));
    KeyIn(f, k);
    assert es[j] in es;
    if now - es[j].time > ttl {
      assert es[j] in f;
    } else {
      forall x | x in f && x.key == k ensures x == es[j] {
        KeyDetermines(es, x, es[j]);
      }
    }
  }

  /** In a table of distinct keys, the key determines the entry. */
  lemma KeyDetermines(es: seq<Entry>, x: Entry, y: Entry)
    requires Distinct(KeysOf(es)) && x in es && y in es && x.key == y.key
    ensures x == y
  {
    var i :| 0 <= i < |es| && es[i] == x;
    var j :| 0 <= j < |es| && es[j] == y;
    assert KeysOf(es)[i] == KeysOf(es)[j];
  }

  /** Deleting the expired keys one by one keeps exactly the live entries. */
  lemma DeleteExpired(es: seq<Entry>, now: int, ttl: int)
    requires Distinct(KeysOf(es))
    ensures Filter(es, NotAmong(KeysOf(Filter(es, Expired(now, ttl))))) == Filter(es, Live(now, ttl))
    ensures Distinct(KeysOf(Filter(es, Live(now, ttl))))
  {
    forall j | 0 <= j < |es|
      ensures NotAmong(KeysOf(Filter(es, Expired(now, ttl))))(es[j]) == Live(now, ttl)(es[j])
    {
      ExpiredKeysExact(es, now, ttl, j);
    }
    FilterExtOn(es, NotAmong(KeysOf(Filter(es, Expired(now, ttl)))), Live(now, ttl));
    FilterKeysDistinct(es, Live(now, ttl));
  }
}
