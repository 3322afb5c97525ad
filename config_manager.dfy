/**
 * The configuration manager: configuration sources ordered by priority and
 * merged into one nested dictionary, dot-path reads and writes into that
 * dictionary, the environment source's key conversion and unflattening, and
 * the listener and secret tables.
 */
module ConfigManager {
  import opened Values
  import opened Sorting
  import opened Lists

  // ---------------------------------------------------------------------
  // Dot paths

  /** `s.split(".")`: never empty, no part holds a dot, and joining the
      parts with dots gives `s` back. */
  function Split(s: string): (r: seq<string>)
    ensures |r| >= 1
    ensures forall i :: 0 <= i < |r| ==> '.' !in r[i]
    ensures Join(".", r) == s
    decreases |s|
  {
    if |s| == 0 then [""]
    else
      var t := Split(s[1..]);
      if s[0] == '.' then
        var r := [""] + t;
        assert r[1..] == t;
        r
      else
        var r := [[s[0]] + t[0]] + t[1..];
        assert s == [s[0]] + s[1..];
        assert |t| > 1 ==> r[1..] == t[1..] && Join(".", t) == t[0] + "." + Join(".", t[1..]);
        r
  }

  /** `a` is an initial segment of `b`. */
  predicate IsPrefix<T(==)>(a: seq<T>, b: seq<T>)
  {
    |a| <= |b| && b[..|a|] == a
  }

  /** Following `path` through nested dictionaries: `None` as soon as a
      part is missing or a non-dictionary is reached. */
  function Walk(v: Value, path: seq<string>): Option<Value>
    decreases |path|
  {
    if |path| == 0 then Some(v)
    else if v.Dict? && path[0] in v.entries then Walk(v.entries[path[0]], path[1..])
    else None
  }

  /** Walking `p + q` is walking `p`, then `q` from where `p` ends. */
  lemma {:induction false} WalkAppend(v: Value, p: seq<string>, q: seq<string>)
    ensures Walk(v, p + q) == if Walk(v, p).Some? then Walk(Walk(v, p).value, q) else None
    decreases |p|
  {
    if |p| > 0 {
      assert (p + q)[0] == p[0];
      assert (p + q)[1..] == p[1..] + q;
      if v.Dict? && p[0] in v.entries {
        WalkAppend(v.entries[p[0]], p[1..], q);
      }
    } else {
      assert p + q == q;
    }
  }

  /** `ConfigManager.get(key, default)` on the configuration `config`. */
  function Lookup(config: Params, key: string, default: Value): Value
  {
    match Walk(Dict(config), Split(key))
    case Some(v) => v
    case None => default
  }

  /** `get` answers the default as soon as a part of the key is missing or
      the walk reaches a non-dictionary before the key ends. */
  lemma LookupStops(config: Params, key: string, default: Value, j: nat)
    requires j < |Split(key)| && Walk(Dict(config), Split(key)[..j]).Some?
    requires var w := Walk(Dict(config), Split(key)[..j]).value;
      !w.Dict? || Split(key)[j] !in w.entries
    ensures Lookup(config, key, default) == default
  {
    var p := Split(key);
    assert p == p[..j] + p[j..];
    WalkAppend(Dict(config), p[..j], p[j..]);
  }

  /** What `set` and `_unflatten_dict` raise when the path passes through a
      value that is not a dictionary. */
  const NotADict := PyError("TypeError", "object does not support item assignment")

  /** Assigning `v` at `path`, creating each missing intermediate
      dictionary on the way, as `set` and `_unflatten_dict` do. */
  function SetIn(m: Params, path: seq<string>, v: Value): Result<Params>
    requires |path| >= 1
    decreases |path|
  {
    if |path| == 1 then Ok(m[path[0] := v])
    else
      var inner := if path[0] in m then m[path[0]] else Dict(map[]);
      if inner.Dict? then
        var sub :- SetIn(inner.entries, path[1..], v);
        Ok(m[path[0] := Dict(sub)])
      else Err(NotADict)
  }

  /** Setting fails exactly when some proper prefix of the path leads to a
      value that is not a dictionary. */
  lemma {:induction false} SetInOk(m: Params, p: seq<string>, v: Value)
    requires |p| >= 1
    ensures SetIn(m, p, v).Ok? <==>
      forall j :: 1 <= j < |p| ==> Walk(Dict(m), p[..j]).None? || Walk(Dict(m), p[..j]).value.Dict?
    decreases |p|
  {
    if |p| > 1 {
      var inner := if p[0] in m then m[p[0]] else Dict(map[]);
      forall j | 1 <= j < |p|
        ensures Walk(Dict(m), p[..j]) == if p[0] in m then Walk(m[p[0]], p[1..][..j - 1]) else None
      {
        assert p[..j][0] == p[0];
        assert p[..j][1..] == p[1..][..j - 1];
      }
      if inner.Dict? {
        SetInOk(inner.entries, p[1..], v);
        if p[0] !in m {
          forall j | 1 <= j < |p| - 1 ensures Walk(Dict(map[]), p[1..][..j]).None? {
          }
        }
        if SetIn(m, p, v).Ok? {
          forall j | 1 <= j < |p|
            ensures Walk(Dict(m), p[..j]).None? || Walk(Dict(m), p[..j]).value.Dict?
          {
            if j > 1 && p[0] in m {
              assert Walk(Dict(m), p[..j]) == Walk(Dict(inner.entries), p[1..][..j - 1]);
            }
          }
        } else {
          var j :| 1 <= j < |p| - 1 && !(Walk(Dict(inner.entries), p[1..][..j]).None?
                                        || Walk(Dict(inner.entries), p[1..][..j]).value.Dict?);
          assert Walk(Dict(m), p[..j + 1]) == Walk(Dict(inner.entries), p[1..][..j]);
        }
      } else {
        assert Walk(Dict(m), p[..1]) == Some(inner);
      }
    }
  }

  /** `set(k, v)` followed by `get(k)` answers `v`. */
  lemma {:induction false} SetThenWalk(m: Params, p: seq<string>, v: Value)
    requires |p| >= 1 && SetIn(m, p, v).Ok?
    ensures Walk(Dict(SetIn(m, p, v).value), p) == Some(v)
    decreases |p|
  {
    if |p| > 1 {
      var inner := if p[0] in m then m[p[0]] else Dict(map[]);
      SetThenWalk(inner.entries, p[1..], v);
    }
  }

  /** Every proper prefix of the path leads to a dictionary after setting. */
  lemma {:induction false} SetInSpine(m: Params, p: seq<string>, v: Value, j: nat)
    requires |p| >= 1 && SetIn(m, p, v).Ok? && j < |p|
    ensures Walk(Dict(SetIn(m, p, v).value), p[..j]).Some?
    ensures Walk(Dict(SetIn(m, p, v).value), p[..j]).value.Dict?
    decreases |p|
  {
    if j > 0 {
      var inner := if p[0] in m then m[p[0]] else Dict(map[]);
      SetInSpine(inner.entries, p[1..], v, j - 1);
      assert p[..j][0] == p[0];
      assert p[..j][1..] == p[1..][..j - 1];
    }
  }

  /** Setting leaves every path that branches off before the end of the
      set path as it was. */
  lemma {:induction false} SetOffPath(m: Params, p: seq<string>, v: Value, q: seq<string>, j: nat)
    requires |p| >= 1 && SetIn(m, p, v).Ok?
    requires j < |p| && j < |q| && p[..j] == q[..j] && p[j] != q[j]
    ensures Walk(Dict(SetIn(m, p, v).value), q) == Walk(Dict(m), q)
    decreases |p|
  {
    if j > 0 {
      assert q[0] == q[..j][0] == p[0];
      var inner := if p[0] in m then m[p[0]] else Dict(map[]);
      assert p[1..][..j - 1] == p[..j][1..] == q[..j][1..] == q[1..][..j - 1];
      SetOffPath(inner.entries, p[1..], v, q[1..], j - 1);
    }
  }

  /** Two paths either extend one another or branch at some position. */
  lemma Branch(p: seq<string>, q: seq<string>) returns (j: nat)
    requires !IsPrefix(p, q) && !IsPrefix(q, p)
    ensures j < |p| && j < |q| && p[..j] == q[..j] && p[j] != q[j]
  {
    j := 0;
    while j < |p| && j < |q| && p[j] == q[j]
      invariant j <= |p| && j <= |q| && p[..j] == q[..j]
    {
      assert p[..j + 1] == p[..j] + [p[j]];
      assert q[..j + 1] == q[..j] + [q[j]];
      j := j + 1;
    }
  }

  // ---------------------------------------------------------------------
  // Unflattening

  /** `_unflatten_dict` over the flat entries in dictionary order. */
  function Unflatten(flat: seq<(string, Value)>): Result<Params>
    decreases |flat|
  {
    if |flat| == 0 then Ok(map[])
    else
      var m :- Unflatten(flat[..|flat| - 1]);
      SetIn(m, Split(flat[|flat| - 1].0), flat[|flat| - 1].1)
  }

  /** Once a prefix of the entries fails, the whole unflattening fails with
      the same error. */
  lemma {:induction false} UnflattenFails(flat: seq<(string, Value)>, i: nat)
    requires i <= |flat| && Unflatten(flat[..i]).Err?
    ensures Unflatten(flat) == Unflatten(flat[..i])
    decreases |flat| - i
  {
    if i < |flat| {
      assert flat[..i + 1][..i] == flat[..i];
      UnflattenFails(flat, i + 1);
    } else {
      assert flat[..i] == flat;
    }
  }

  /** No key's dotted path is an initial segment of another key's path (so
      in particular no key occurs twice). */
  ghost predicate Independent(flat: seq<(string, Value)>)
  {
    forall i, j :: 0 <= i < |flat| && 0 <= j < |flat| && i != j ==> !IsPrefix(Split(flat[i].0), Split(flat[j].0))
  }

  /** Every path that does not pass through one of `paths` leads nowhere or
      to a dictionary. */
  ghost predicate OnlyLeaves(m: Params, paths: seq<seq<string>>)
  {
    forall r :: (forall i :: 0 <= i < |paths| ==> !IsPrefix(paths[i], r)) ==>
      Walk(Dict(m), r).None? || Walk(Dict(m), r).value.Dict?
  }

  function Paths(flat: seq<(string, Value)>): (ps: seq<seq<string>>)
    ensures |ps| == |flat| && forall i :: 0 <= i < |flat| ==> ps[i] == Split(flat[i].0)
  {
    seq(|flat|, i requires 0 <= i < |flat| => Split(flat[i].0))
  }

  /** Setting at a path that no earlier leaf path is a prefix of succeeds. */
  lemma SetAvoidingLeaves(m: Params, paths: seq<seq<string>>, p: seq<string>, v: Value)
    requires |p| >= 1 && OnlyLeaves(m, paths)
    requires forall i :: 0 <= i < |paths| ==> !IsPrefix(paths[i], p)
    ensures SetIn(m, p, v).Ok?
  {
    SetInOk(m, p, v);
    forall j | 1 <= j < |p| ensures Walk(Dict(m), p[..j]).None? || Walk(Dict(m), p[..j]).value.Dict? {
      forall i | 0 <= i < |paths| ensures !IsPrefix(paths[i], p[..j]) {
        assert !IsPrefix(paths[i], p);
      }
    }
  }

  /** Setting at `p` keeps the only non-dictionaries at or below the leaf
      paths, now including `p`. */
  lemma SetKeepsLeaves(m: Params, paths: seq<seq<string>>, p: seq<string>, v: Value)
    requires |p| >= 1 && OnlyLeaves(m, paths) && SetIn(m, p, v).Ok?
    ensures OnlyLeaves(SetIn(m, p, v).value, paths + [p])
  {
    var m' := SetIn(m, p, v).value;
    var ps := paths + [p];
    forall r | (forall i :: 0 <= i < |ps| ==> !IsPrefix(ps[i], r))
      ensures Walk(Dict(m'), r).None? || Walk(Dict(m'), r).value.Dict?
    {
      assert !IsPrefix(ps[|paths|], r);
      if IsPrefix(r, p) {
        assert p[..|r|] == r;
        SetInSpine(m, p, v, |r|);
      } else {
        var j := Branch(p, r);
        SetOffPath(m, p, v, r, j);
        assert forall i :: 0 <= i < |paths| ==> ps[i] == paths[i];
      }
    }
  }

  /** For independent keys, unflattening succeeds and walking each key's
      dotted path through the result gives back that key's value. */
  lemma {:induction false} UnflattenRoundTrip(flat: seq<(string, Value)>)
    requires Independent(flat)
    ensures Unflatten(flat).Ok?
    ensures forall i :: 0 <= i < |flat| ==> Walk(Dict(Unflatten(flat).value), Split(flat[i].0)) == Some(flat[i].1)
    ensures OnlyLeaves(Unflatten(flat).value, Paths(flat))
    decreases |flat|
  {
    if |flat| > 0 {
      var n := |flat| - 1;
      var init := flat[..n];
      var (k, v) := flat[n];
      var p := Split(k);
      assert Independent(init) by {
        forall i, j | 0 <= i < n && 0 <= j < n && i != j ensures !IsPrefix(Split(init[i].0), Split(init[j].0)) {
          assert init[i] == flat[i] && init[j] == flat[j];
        }
      }
      UnflattenRoundTrip(init);
      var m := Unflatten(init).value;
      assert Paths(init) + [p] == Paths(flat);
      forall i | 0 <= i < n ensures !IsPrefix(Paths(init)[i], p) {
        assert init[i] == flat[i];
      }
      SetAvoidingLeaves(m, Paths(init), p, v);
      var m' := SetIn(m, p, v).value;
      assert Unflatten(flat) == Ok(m');
      SetKeepsLeaves(m, Paths(init), p, v);
      forall i | 0 <= i < |flat| ensures Walk(Dict(m'), Split(flat[i].0)) == Some(flat[i].1) {
        if i == n {
          SetThenWalk(m, p, v);
        } else {
          var q := Split(flat[i].0);
          assert init[i] == flat[i];
          var j := Branch(p, q);
          SetOffPath(m, p, v, q, j);
        }
      }
    }
  }

  /** Joining a concatenation puts one more dot between the two joins. */
  lemma {:induction false} JoinAppend(a: seq<string>, b: seq<string>)
    requires |a| >= 1 && |b| >= 1
    ensures Join(".", a + b) == Join(".", a) + "." + Join(".", b)
    decreases |a|
  {
    if |a| == 1 {
      assert (a + b)[1..] == b;
    } else {
      assert (a + b)[1..] == a[1..] + b;
      JoinAppend(a[1..], b);
    }
  }

  /** A key whose parts begin with another key's parts is that key or
      extends it after a dot. */
  lemma PrefixPartsDotted(k: string, k': string)
    requires IsPrefix(Split(k), Split(k'))
    ensures k == k' || StartsWith(k', k + ".")
  {
    var p, p' := Split(k), Split(k');
    assert Join(".", p) == k && Join(".", p') == k';
    var rest := p'[|p|..];
    assert p' == p + rest;
    if |rest| > 0 {
      JoinAppend(p, rest);
      var d := k + ".";
      assert k' == d + Join(".", rest);
      assert k'[..|d|] == d;
    } else {
      assert p' == p;
    }
  }

  /** The round trip for flat keys as the environment gives them: distinct,
      and none is another followed by a dot and more. */
  lemma UnflattenKeys(flat: seq<(string, Value)>)
    requires forall i, j :: 0 <= i < |flat| && 0 <= j < |flat| && i != j ==>
      flat[i].0 != flat[j].0 && !StartsWith(flat[j].0, flat[i].0 + ".")
    ensures Unflatten(flat).Ok?
    ensures forall i :: 0 <= i < |flat| ==> Walk(Dict(Unflatten(flat).value), Split(flat[i].0)) == Some(flat[i].1)
  {
    forall i, j | 0 <= i < |flat| && 0 <= j < |flat| && i != j
      ensures !IsPrefix(Split(flat[i].0), Split(flat[j].0))
    {
      if IsPrefix(Split(flat[i].0), Split(flat[j].0)) {
        PrefixPartsDotted(flat[i].0, flat[j].0);
      }
    }
    UnflattenRoundTrip(flat);
  }

  /** `_unflatten_dict`: the loop over the flat entries. */
  method UnflattenDict(flat: seq<(string, Value)>) returns (r: Result<Params>)
    ensures r == Unflatten(flat)
  {
    var result: Params := map[];
    var i := 0;
    while i < |flat|
      invariant i <= |flat|
      invariant Unflatten(flat[..i]) == Ok(result)
    {
      assert flat[..i + 1][..i] == flat[..i];
      var s := SetIn(result, Split(flat[i].0), flat[i].1);
      if s.Err? {
        UnflattenFails(flat, i + 1);
        return s;
      }
      result := s.value;
      i := i + 1;
    }
    assert flat[..i] == flat;
    r := Ok(result);
  }

  // ---------------------------------------------------------------------
  // Deep merge

  /** `_deep_merge(base, update)`: a new dictionary over both key sets where
      a key in both that holds a dictionary on both sides is merged
      recursively and any other key of `update` takes `update`'s value. */
  function DeepMerge(base: Params, update: Params): (r: Params)
    ensures r.Keys == base.Keys + update.Keys
    decreases Dict(update)
  {
    map k | k in base.Keys + update.Keys ::
      if k !in update then base[k]
      else if k in base && base[k].Dict? && update[k].Dict? then Dict(DeepMerge(base[k].entries, update[k].entries))
      else update[k]
  }

  /** Merging with an empty dictionary on either side changes nothing. */
  lemma DeepMergeEmpty(m: Params)
    ensures DeepMerge(m, map[]) == m
    ensures DeepMerge(map[], m) == m
  {
  }

  /** Merging a dictionary into itself gives it back. */
  lemma {:induction false} DeepMergeIdempotent(m: Params)
    ensures DeepMerge(m, m) == m
    decreases Dict(m)
  {
    forall k | k in m && m[k].Dict? ensures DeepMerge(m[k].entries, m[k].entries) == m[k].entries {
      DeepMergeIdempotent(m[k].entries);
    }
  }

  /** A value of the update that is not a dictionary wins at its path. */
  lemma {:induction false} UpdateWins(base: Params, update: Params, p: seq<string>, w: Value)
    requires Walk(Dict(update), p) == Some(w) && !w.Dict?
    ensures Walk(Dict(DeepMerge(base, update)), p) == Some(w)
    decreases |p|
  {
    if |p| > 1 {
      var k := p[0];
      if k in base && base[k].Dict? && update[k].Dict? {
        UpdateWins(base[k].entries, update[k].entries, p[1..], w);
      }
    }
  }

  /** Under a top-level key the update does not have, the base is kept. */
  lemma BaseKept(base: Params, update: Params, p: seq<string>)
    requires |p| >= 1 && p[0] !in update
    ensures Walk(Dict(DeepMerge(base, update)), p) == Walk(Dict(base), p)
  {
  }

  /** `m` has no value at `p`, and along the way only dictionaries or
      nothing: merging `m` as an update cannot reach what lies at `p`. */
  predicate PassesOver(m: Params, p: seq<string>)
  {
    && Walk(Dict(m), p).None?
    && forall j :: 1 <= j < |p| ==> Walk(Dict(m), p[..j]).None? || Walk(Dict(m), p[..j]).value.Dict?
  }

  /** At a path the update passes over, at any depth, the base is kept. */
  lemma {:induction false} BaseKeptDeep(base: Params, update: Params, p: seq<string>)
    requires PassesOver(update, p)
    ensures Walk(Dict(DeepMerge(base, update)), p) == Walk(Dict(base), p)
    decreases |p|
  {
    var k := p[0];
    if k in update {
      assert p[..1] == [k];
      assert Walk(Dict(update), p[..1]) == Some(update[k]);
      var sub := update[k].entries;
      forall j | 1 <= j < |p| - 1
        ensures Walk(Dict(sub), p[1..][..j]) == Walk(Dict(update), p[..j + 1])
      {
        assert p[..j + 1][0] == k && p[..j + 1][1..] == p[1..][..j];
      }
      if k in base && base[k].Dict? {
        BaseKeptDeep(base[k].entries, sub, p[1..]);
      }
    }
  }

  // ---------------------------------------------------------------------
  // Environment keys

  /** `str.lower()` on an ASCII letter; other characters are kept. */
  function Lower(c: char): char
  {
    if 'A' <= c <= 'Z' then (c as int - 'A' as int + 'a' as int) as char else c
  }

  /** A character of an environment key after `.lower().replace("_", ".")`. */
  function KeyChar(c: char): char
  {
    if c == '_' then '.' else Lower(c)
  }

  /** `EnvConfigSource` turns a variable name carrying the prefix into a
      configuration key by dropping the prefix, lowercasing and mapping
      every `_` to `.`; other names are not configuration. */
  function EnvKey(prefix: string, name: string): (r: Option<string>)
    ensures r.Some? <==> StartsWith(name, prefix)
    ensures r.Some? ==> |r.value| == |name| - |prefix|
    ensures r.Some? ==> forall i :: 0 <= i < |r.value| ==> r.value[i] == KeyChar(name[|prefix| + i])
    ensures r.Some? ==> forall i :: 0 <= i < |r.value| ==> r.value[i] != '_' && !('A' <= r.value[i] <= 'Z')
  {
    if StartsWith(name, prefix) then
      Some(seq(|name| - |prefix|, i requires 0 <= i < |name| - |prefix| => KeyChar(name[|prefix| + i])))
    else None
  }

  /** `MEM0_API_KEY` is configuration key `api.key`, the path `api` then
      `key`. */
  lemma EnvKeyExample()
    ensures EnvKey("MEM0_", "MEM0_API_KEY") == Some("api.key")
  {
    assert "MEM0_API_KEY"[..5] == "MEM0_";
    var r := EnvKey("MEM0_", "MEM0_API_KEY").value;
    assert r[0] == KeyChar('A') == 'a';
    assert r[1] == KeyChar('P') == 'p';
    assert r[2] == KeyChar('I') == 'i';
    assert r[3] == KeyChar('_') == '.';
    assert r[4] == KeyChar('K') == 'k';
    assert r[5] == KeyChar('E') == 'e';
    assert r[6] == KeyChar('Y') == 'y';
    assert |r| == 7;
    assert r == "api.key";
  }

  /** The keys of an association list, in order. */
  function KeysOf(entries: seq<(string, Value)>): (ks: seq<string>)
    ensures |ks| == |entries| && forall i :: 0 <= i < |entries| ==> ks[i] == entries[i].0
  {
    seq(|entries|, i requires 0 <= i < |entries| => entries[i].0)
  }

  /** `d[k] = v` on a dictionary kept as entries in insertion order: an
      existing key keeps its place and takes the new value, a new key goes
      last. */
  function Put(entries: seq<(string, Value)>, k: string, v: Value): (r: seq<(string, Value)>)
    requires Distinct(KeysOf(entries))
    ensures Distinct(KeysOf(r))
    ensures KeysOf(r) == if k in KeysOf(entries) then KeysOf(entries) else KeysOf(entries) + [k]
    ensures forall i :: 0 <= i < |r| ==> r[i] == (if r[i].0 == k then (k, v) else entries[i])
  {
    if k in KeysOf(entries) then
      var i := IndexOf(KeysOf(entries), k);
      var r := entries[i := (k, v)];
      assert KeysOf(r) == KeysOf(entries);
      r
    else
      var r := entries + [(k, v)];
      assert KeysOf(r) == KeysOf(entries) + [k];
      r
  }

  /** What `json.loads` makes of a variable's text, `None` where it raises
      `JSONDecodeError`. */
  type JsonParser = string -> Option<Value>

  /** The flat configuration `EnvConfigSource.load` builds from the
      environment: each prefixed variable under its converted key, parsed as
      JSON where that succeeds and kept as text otherwise. */
  function EnvEntries(prefix: string, environ: seq<(string, string)>, parse: JsonParser): (r: seq<(string, Value)>)
    ensures Distinct(KeysOf(r))
    decreases |environ|
  {
    if |environ| == 0 then []
    else
      var rest := EnvEntries(prefix, environ[..|environ| - 1], parse);
      var (name, text) := environ[|environ| - 1];
      match EnvKey(prefix, name)
      case None => rest
      case Some(k) => Put(rest, k, match parse(text) case Some(x) => x case None => Str(text))
  }

  /** `EnvConfigSource.load`. */
  method EnvLoad(prefix: string, environ: seq<(string, string)>, parse: JsonParser) returns (r: Result<Params>)
    ensures r == Unflatten(EnvEntries(prefix, environ, parse))
  {
    var config := [];
    var i := 0;
    while i < |environ|
      invariant i <= |environ|
      invariant config == EnvEntries(prefix, environ[..i], parse)
    {
      assert environ[..i + 1][..i] == environ[..i];
      var (name, text) := environ[i];
      var key := EnvKey(prefix, name);
      if key.Some? {
        var value := match parse(text) case Some(x) => x case None => Str(text);
        config := Put(config, key.value, value);
      }
      i := i + 1;
    }
    assert environ[..i] == environ;
    r := UnflattenDict(config);
  }

  // ---------------------------------------------------------------------
  // Sources

  /** The configuration sources: environment variables under a prefix, a
      JSON or YAML file, and a remote store. */
  datatype Source =
    | Env(prefix: string)
    | File(path: string, autoReload: bool)
    | Remote(url: string, authToken: Option<string>)

  /** `get_priority`: lower means more important. */
  function Priority(s: Source): int
  {
    match s
    case Env(_) => 10
    case Remote(_, _) => 30
    case File(_, _) => 50
  }

  /** The environment wins over the remote store, which wins over a file. */
  lemma PriorityOrder(prefix: string, path: string, auto: bool, url: string, token: Option<string>)
    ensures Priority(Env(prefix)) < Priority(Remote(url, token)) < Priority(File(path, auto))
  {
  }

  /** What the sources read and write outside the program: the process
      environment with the JSON decoder, and the configuration files. */
  datatype World = World(environ: seq<(string, string)>, parse: JsonParser,
                         readFile: string -> Result<Params>,
                         writeFile: (string, Params) -> Result<()>)

  /** `source.load()`: the remote store is a placeholder answering `{}`. */
  function SourceLoad(s: Source, w: World): Result<Params>
  {
    match s
    case Env(prefix) => Unflatten(EnvEntries(prefix, w.environ, w.parse))
    case File(path, _) => w.readFile(path)
    case Remote(_, _) => Ok(map[])
  }

  /** `source.load()`, running the environment source's loop. */
  method LoadSource(s: Source, w: World) returns (r: Result<Params>)
    ensures r == SourceLoad(s, w)
  {
    match s
    case Env(prefix) => r := EnvLoad(prefix, w.environ, w.parse);
    case File(path, _) => r := w.readFile(path);
    case Remote(_, _) => r := Ok(map[]);
  }

  /** `source.save(config)`: the environment cannot be written and the
      remote store accepts and drops it. */
  function SourceSave(s: Source, config: Params, w: World): Result<()>
  {
    match s
    case Env(_) => Err(PyError("NotImplementedError", "Cannot save configuration to environment variables"))
    case File(path, _) => w.writeFile(path, config)
    case Remote(_, _) => Ok(())
  }

  /** What loading each source gives, in source order. */
  function Loads(sources: seq<Source>, w: World): (rs: seq<Result<Params>>)
    ensures |rs| == |sources| && forall i :: 0 <= i < |sources| ==> rs[i] == SourceLoad(sources[i], w)
  {
    seq(|sources|, i requires 0 <= i < |sources| => SourceLoad(sources[i], w))
  }

  /** Merging load results from last to first, so each one's values
      override those of the results after it; a failed load adds nothing. */
  function MergeAll(rs: seq<Result<Params>>): Params
    decreases |rs|
  {
    if |rs| == 0 then map[]
    else
      var rest := MergeAll(rs[1..]);
      match rs[0]
      case Ok(c) => DeepMerge(rest, c)
      case Err(_) => rest
  }

  /** The configuration `load` merges from `sources`. */
  function Merged(sources: seq<Source>, w: World): Params
  {
    MergeAll(Loads(sources, w))
  }

  function IsOk(r: Result<Params>): bool
  {
    r.Ok?
  }

  /** A failing source is skipped: merging only the loads that succeed
      gives the same configuration. */
  lemma {:induction false} MergeSkipsFailures(rs: seq<Result<Params>>)
    ensures MergeAll(rs) == MergeAll(Filter(rs, IsOk))
    decreases |rs|
  {
    if |rs| > 0 {
      MergeSkipsFailures(rs[1..]);
      var f, rest := Filter(rs, IsOk), Filter(rs[1..], IsOk);
      if rs[0].Ok? {
        assert f == [rs[0]] + rest;
        assert f[0] == rs[0] && f[1..] == rest;
      } else {
        assert f == rest;
      }
    }
  }

  /** The first load that succeeds and has a non-dictionary value at a
      path, with every successful load before it passing over that path,
      decides the value at that path: the source of lowest priority number
      wins, at any depth. */
  lemma {:induction false} FirstSourceWins(rs: seq<Result<Params>>, i: nat, p: seq<string>, v: Value)
    requires i < |rs| && |p| >= 1
    requires rs[i].Ok? && Walk(Dict(rs[i].value), p) == Some(v) && !v.Dict?
    requires forall j :: 0 <= j < i ==> rs[j].Err? || PassesOver(rs[j].value, p)
    ensures Walk(Dict(MergeAll(rs)), p) == Some(v)
    decreases i
  {
    var rest := MergeAll(rs[1..]);
    if i == 0 {
      UpdateWins(rest, rs[0].value, p, v);
    } else {
      assert rs[1..][i - 1] == rs[i];
      assert forall j :: 0 <= j < i - 1 ==> rs[1..][j] == rs[j + 1];
      FirstSourceWins(rs[1..], i - 1, p, v);
      if rs[0].Ok? {
        BaseKeptDeep(rest, rs[0].value, p);
      }
    }
  }

  /** Environment `{"api": {"host": h}}`, then remote `{"api": {"key": k1}}`,
      then file `{"api": {"key": k2}}`: `api.key` is the remote's. */
  lemma NestedKeyFromFirstSource(h: string, k1: string, k2: string)
    ensures var env := map["api" := Dict(map["host" := Str(h)])];
      var remote := map["api" := Dict(map["key" := Str(k1)])];
      var file := map["api" := Dict(map["key" := Str(k2)])];
      Walk(Dict(MergeAll([Ok(env), Ok(remote), Ok(file)])), ["api", "key"]) == Some(Str(k1))
  {
    var env := map["api" := Dict(map["host" := Str(h)])];
    var remote := map["api" := Dict(map["key" := Str(k1)])];
    var file := map["api" := Dict(map["key" := Str(k2)])];
    var rs: seq<Result<Params>> := [Ok(env), Ok(remote), Ok(file)];
    var p := ["api", "key"];
    assert p[..1] == ["api"];
    assert Walk(Dict(env), p[..1]) == Some(env["api"]);
    assert PassesOver(env, p);
    assert Walk(Dict(remote), p) == Some(Str(k1));
    FirstSourceWins(rs, 1, p, Str(k1));
  }

  // ---------------------------------------------------------------------
  // The manager

  type ListenerId = nat

  /** `ConfigManager`: the sources ordered by priority and the merged
      configuration with its listeners and registered secrets. */
  class Manager {
    var sources: seq<Source>
    var config: Params
    var listeners: seq<ListenerId>
    var secrets: map<string, string>
    var loaded: bool

    /** The sources stay ordered by priority. */
    ghost predicate Valid()
      reads this`sources
    {
      SortedBy(sources, Priority)
    }

    constructor ()
      ensures Valid()
      ensures sources == [] && config == map[] && listeners == [] && secrets == map[] && !loaded
    {
      sources := [];
      config := map[];
      listeners := [];
      secrets := map[];
      loaded := false;
    }

    /** `add_source`: append, then the stable sort by priority; the new
        source lands after every source of smaller or equal priority. */
    method AddSource(s: Source)
      requires Valid()
      modifies this`sources
      ensures Valid()
      ensures sources == InsertByKey(old(sources), s, Priority)
    {
      sources := StableSort(sources + [s], Priority);
      assert (old(sources) + [s])[..|old(sources)|] == old(sources);
      StableSortOfSorted(old(sources), Priority);
      InsertByKeySorted(old(sources), s, Priority);
    }

    /** `load`: the sources merged from last to first, a failing source
        skipped, then the templates applied; `templates` stands for
        `_apply_templates`, which also reads the configuration as it was
        before the load. */
    method Load(w: World, templates: (Params, Params) -> Params)
      modifies this`config, this`loaded
      ensures config == templates(Merged(sources, w), old(config))
      ensures loaded
    {
      var previous := config;
      ghost var rs := Loads(sources, w);
      var merged: Params := map[];
      var i := |sources|;
      while i > 0
        invariant 0 <= i <= |sources|
        invariant merged == MergeAll(rs[i..])
      {
        i := i - 1;
        assert rs[i..][1..] == rs[i + 1..];
        var c := LoadSource(sources[i], w);
        if c.Ok? {
          merged := DeepMerge(merged, c.value);
        }
      }
      assert rs[0..] == rs;
      config := templates(merged, previous);
      loaded := true;
    }

    /** `get`: the walk along the key's dotted parts. */
    method Get(key: string, default: Value) returns (r: Value)
      ensures r == Lookup(config, key, default)
    {
      var parts := Split(key);
      var value := Dict(config);
      var i := 0;
      while i < |parts|
        invariant i <= |parts|
        invariant Walk(Dict(config), parts[..i]) == Some(value)
      {
        if value.Dict? && parts[i] in value.entries {
          WalkAppend(Dict(config), parts[..i], [parts[i]]);
          assert parts[..i + 1] == parts[..i] + [parts[i]];
          value := value.entries[parts[i]];
          i := i + 1;
        } else {
          LookupStops(config, key, default, i);
          return default;
        }
      }
      assert parts[..i] == parts;
      r := value;
    }

    /** `set`: the value at the key's dotted path, or the TypeError of a
        path through a non-dictionary, which leaves the configuration as it
        was. */
    method Set(key: string, value: Value) returns (r: Result<()>)
      modifies this`config
      ensures var s := SetIn(old(config), Split(key), value);
        && (s.Ok? ==> r == Ok(()) && config == s.value)
        && (s.Err? ==> r == Err(s.error) && config == old(config))
    {
      var s := SetIn(config, Split(key), value);
      if s.Err? {
        return Err(s.error);
      }
      config := s.value;
      r := Ok(());
    }

    /** The source `save(index)` writes to: a ValueError at or beyond the
        number of sources, Python's negative indexing below zero. */
    function SaveTarget(index: int): (r: Result<Source>)
      reads this`sources
      ensures index >= |sources| ==> r == Err(PyError("ValueError", "Invalid source index: " + PyStr(Int(index))))
      ensures 0 <= index < |sources| ==> r == Ok(sources[index])
      ensures -|sources| <= index < 0 ==> r == Ok(sources[|sources| + index])
      ensures index < -|sources| ==> r.Err? && r.error.kind == "IndexError"
    {
      if index >= |sources| then Err(PyError("ValueError", "Invalid source index: " + PyStr(Int(index))))
      else if index >= 0 then Ok(sources[index])
      else if -index <= |sources| then Ok(sources[|sources| + index])
      else Err(PyError("IndexError", "list index out of range"))
    }

    /** `save(index)`. */
    function Save(index: int, w: World): (r: Result<()>)
      reads this`sources, this`config
      ensures SaveTarget(index).Err? ==> r == Err(SaveTarget(index).error)
      ensures SaveTarget(index).Ok? ==> r == SourceSave(SaveTarget(index).value, config, w)
    {
      var s :- SaveTarget(index);
      SourceSave(s, config, w)
    }

    /** `add_listener`. */
    method AddListener(l: ListenerId)
      modifies this`listeners
      ensures listeners == old(listeners) + [l]
    {
      listeners := listeners + [l];
    }

    /** `remove_listener`: true iff the listener was there, and then its
        first occurrence is gone. */
    method RemoveListener(l: ListenerId) returns (b: bool)
      modifies this`listeners
      ensures b <==> l in old(listeners)
      ensures listeners == RemoveFirst(old(listeners), l)
    {
      b := l in listeners;
      listeners := RemoveFirst(listeners, l);
    }

    /** `register_secret`. */
    method RegisterSecret(k: string, v: string)
      modifies this`secrets
      ensures secrets == old(secrets)[k := v]
      ensures GetSecret(k) == Some(v)
    {
      secrets := secrets[k := v];
    }

    /** `get_secret`: the registered value, or None. */
    function GetSecret(k: string): (r: Option<string>)
      reads this`secrets
      ensures r.Some? <==> k in secrets
      ensures r.Some? ==> r.value == secrets[k]
    {
      if k in secrets then Some(secrets[k]) else None
    }
  }

  /** Removing a listener just added to a list without it restores the
      list. */
  lemma {:induction false} RemoveAdded(s: seq<ListenerId>, l: ListenerId)
    requires l !in s
    ensures RemoveFirst(s + [l], l) == s
  {
    assert l in s + [l];
    var i := IndexOf(s + [l], l);
    assert (s + [l])[|s|] == l;
    assert i == |s|;
    assert (s + [l])[..|s|] == s;
  }
}
