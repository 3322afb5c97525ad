/**
 * The plugin registry (mem0_mcp/core/plugin_registry.py): loading plugin
 * classes, ordering them by dependency, running their lifecycle hooks and
 * answering typed lookups.
 *
 * `_plugins` is ordered (its key order is the order of the dependency graph),
 * so it is modelled as the list of its keys beside the map.  Discovery by
 * import path is not part of this model: the plugin classes to load are
 * given as a list.
 */
module PluginRegistry {
  import opened Values
  import opened Sorting
  import opened Lists
  import opened BasePlugin

  /** The hook calls that raise: running hook `h` of the plugin named `n`
      raises `hooks[(n, h)]` when that key is present. */
  type Hooks = map<(string, Hook), PyError>

  /** The constructor calls `cls(config)` that raise. */
  type Construct = set<(PluginClass, Option<Params>)>

  /** The elements of `s`, as a set. */
  function Elems(s: seq<string>): set<string>
  {
    set x | x in s
  }

  /** Every dependency that is itself a node of the graph appears in `order`
      before its dependent. */
  predicate DepsBefore(deps: map<string, seq<string>>, order: seq<string>)
  {
    forall i, j :: 0 <= i < |order| && order[i] in deps && 0 <= j < |deps[order[i]]| && deps[order[i]][j] in deps
      ==> deps[order[i]][j] in order[..i]
  }

  /** `rank` strictly decreases along every dependency edge inside the graph. */
  ghost predicate Ranked(deps: map<string, seq<string>>, rank: string -> nat)
  {
    forall n, j :: n in deps && 0 <= j < |deps[n]| && deps[n][j] in deps ==> rank(deps[n][j]) < rank(n)
  }

  /** The graph has no cycle. */
  ghost predicate Acyclic(deps: map<string, seq<string>>)
  {
    exists rank: string -> nat :: Ranked(deps, rank)
  }

  lemma {:induction false} SubsetCard(a: set<string>, b: set<string>)
    requires a <= b
    ensures |a| <= |b|
    decreases |a|
  {
    if a != {} {
      var x :| x in a;
      SubsetCard(a - {x}, b - {x});
    }
  }

  /** The nested `visit` of `_topological_sort`.  A node already visited is
      skipped; otherwise it is marked, its dependencies that are nodes of the
      graph are visited in order, and it is pushed.  The nodes visited but not
      yet pushed are the ones whose visits are in progress; with a ranking,
      all of them rank above `n`. */
  method Visit(deps: map<string, seq<string>>, n: string, visited: set<string>, stack: seq<string>,
               ghost rank: string -> nat, ghost ranked: bool)
    returns (visited': set<string>, stack': seq<string>)
    requires n in deps && visited <= deps.Keys
    requires Distinct(stack) && Elems(stack) <= visited
    requires ranked ==> Ranked(deps, rank) && DepsBefore(deps, stack)
    requires ranked ==> forall m :: m in visited && m !in stack ==> rank(m) > rank(n)
    decreases |deps.Keys - visited|, 1
    ensures visited <= visited' <= deps.Keys && n in visited'
    ensures |stack| <= |stack'| && stack'[..|stack|] == stack
    ensures forall k :: |stack| <= k < |stack'| ==> stack'[k] !in visited
    ensures Distinct(stack') && Elems(stack') <= visited'
    ensures forall m :: (m in visited' && m !in stack') <==> (m in visited && m !in stack)
    ensures n in visited ==> visited' == visited && stack' == stack
    ensures n in stack' || (n in visited && n !in stack)
    ensures ranked ==> DepsBefore(deps, stack')
  {
    if n in visited {
      return visited, stack;
    }
    visited', stack' := VisitDeps(deps, n, visited + {n}, stack, rank, ranked);
    if ranked {
      PushNode(deps, stack', n);
    }
    PrefixKept(stack, stack', stack' + [n]);
    stack' := stack' + [n];
  }

  /** The loop of `visit` over the dependencies of `n`, entered with `n`
      marked and not pushed. */
  method VisitDeps(deps: map<string, seq<string>>, n: string, visited: set<string>, stack: seq<string>,
                   ghost rank: string -> nat, ghost ranked: bool)
    returns (visited': set<string>, stack': seq<string>)
    requires n in deps && n in visited && n !in stack && visited <= deps.Keys
    requires Distinct(stack) && Elems(stack) <= visited
    requires ranked ==> Ranked(deps, rank) && DepsBefore(deps, stack)
    requires ranked ==> forall m :: m in visited && m !in stack ==> rank(m) >= rank(n)
    decreases |deps.Keys - visited| + 1, 0
    ensures visited <= visited' <= deps.Keys
    ensures |stack| <= |stack'| && stack'[..|stack|] == stack
    ensures forall k :: |stack| <= k < |stack'| ==> stack'[k] !in visited
    ensures Distinct(stack') && Elems(stack') <= visited' && n !in stack'
    ensures forall m :: (m in visited' && m !in stack') <==> (m in visited && m !in stack)
    ensures ranked ==> DepsBefore(deps, stack')
    ensures ranked ==> forall k :: 0 <= k < |deps[n]| && deps[n][k] in deps ==> deps[n][k] in stack'
  {
    visited', stack' := visited, stack;
    var ds := deps[n];
    var j := 0;
    while j < |ds|
      invariant 0 <= j <= |ds|
      invariant visited <= visited' <= deps.Keys
      invariant |stack| <= |stack'| && stack'[..|stack|] == stack
      invariant forall k :: |stack| <= k < |stack'| ==> stack'[k] !in visited
      invariant Distinct(stack') && Elems(stack') <= visited'
      invariant forall m :: (m in visited' && m !in stack') <==> (m in visited && m !in stack)
      invariant ranked ==> DepsBefore(deps, stack')
      invariant ranked ==> forall k :: 0 <= k < j && ds[k] in deps ==> ds[k] in stack'
    {
      if ds[j] in deps {
        SubsetCard(deps.Keys - visited', deps.Keys - visited);
        ghost var s0 := stack';
        visited', stack' := Visit(deps, ds[j], visited', stack', rank, ranked);
        PrefixKept(stack, s0, stack');
      }
      j := j + 1;
    }
  }

  /** Extending a sequence keeps its prefixes and its elements. */
  lemma PrefixKept(a: seq<string>, b: seq<string>, c: seq<string>)
    requires |a| <= |b| <= |c| && b[..|a|] == a && c[..|b|] == b
    ensures c[..|a|] == a
    ensures forall x :: x in b ==> x in c
  {
    assert c[..|a|] == c[..|b|][..|a|];
    forall x | x in b ensures x in c {
      var k :| 0 <= k < |b| && b[k] == x;
      assert c[..|b|][k] == x;
    }
  }

  /** Pushing a node once all its in-graph dependencies are on the stack. */
  lemma PushNode(deps: map<string, seq<string>>, s: seq<string>, n: string)
    requires n in deps && DepsBefore(deps, s)
    requires forall k :: 0 <= k < |deps[n]| && deps[n][k] in deps ==> deps[n][k] in s
    ensures DepsBefore(deps, s + [n])
  {
    var t := s + [n];
    assert t[..|s|] == s;
    forall i | 0 <= i < |s| ensures t[..i] == s[..i] {
    }
  }

  /** `_topological_sort` over the graph whose nodes, in dictionary order, are
      `nodes`: every node comes out exactly once, on every graph; on a graph
      without cycles every dependency comes before its dependents. */
  method TopologicalSort(nodes: seq<string>, deps: map<string, seq<string>>) returns (order: seq<string>)
    requires Distinct(nodes) && deps.Keys == Elems(nodes)
    ensures Distinct(order) && Elems(order) == Elems(nodes)
    ensures Acyclic(deps) ==> DepsBefore(deps, order)
  {
    ghost var ranked := Acyclic(deps);
    ghost var rank: string -> nat := (x: string) => 0;
    if ranked {
      rank :| Ranked(deps, rank);
    }
    var visited: set<string> := {};
    order := [];
    var i := 0;
    while i < |nodes|
      invariant 0 <= i <= |nodes|
      invariant visited <= deps.Keys && Elems(nodes[..i]) <= visited
      invariant Distinct(order) && Elems(order) == visited
      invariant ranked ==> DepsBefore(deps, order)
    {
      visited, order := Visit(deps, nodes[i], visited, order, rank, ranked);
      assert nodes[..i + 1] == nodes[..i] + [nodes[i]];
      i := i + 1;
    }
    assert nodes[..i] == nodes;
  }

  /** `get_priority` of a middleware plugin. */
  function PriorityOf(p: Plugin): int
  {
    p.cls.priority
  }

  /** `handlers.update(plugin.get_operations())` over the plugins targeting
      `tool`, in order. */
  function MergeOperations(ps: seq<Plugin>, tool: string): (r: map<string, HandlerId>)
    ensures forall k :: k in r ==>
      exists i :: 0 <= i < |ps| && ps[i].cls.toolName == tool && k in ps[i].cls.operations
    decreases |ps|
  {
    if |ps| == 0 then map[]
    else
      var last := ps[|ps| - 1];
      MergeOperations(ps[..|ps| - 1], tool) + (if last.cls.toolName == tool then last.cls.operations else map[])
  }

  /** An operation name a plugin for `tool` provides is in the merged map, bound
      to the handler of the last such plugin that provides it. */
  lemma {:induction false} MergeOperationsLastWins(ps: seq<Plugin>, tool: string, i: nat, k: string)
    requires i < |ps| && ps[i].cls.toolName == tool && k in ps[i].cls.operations
    requires forall j :: i < j < |ps| && ps[j].cls.toolName == tool ==> k !in ps[j].cls.operations
    ensures k in MergeOperations(ps, tool) && MergeOperations(ps, tool)[k] == ps[i].cls.operations[k]
    decreases |ps|
  {
    if i < |ps| - 1 {
      var init := ps[..|ps| - 1];
      assert init[i] == ps[i];
      forall j | i < j < |init| && init[j].cls.toolName == tool ensures k !in init[j].cls.operations {
        assert init[j] == ps[j];
      }
      MergeOperationsLastWins(init, tool, i, k);
    }
  }

  /** The first plugin serving backend `backendType`/`backendName`. */
  function FirstBackend(ps: seq<Plugin>, backendType: string, backendName: string): (r: Option<Plugin>)
    ensures r.Some? ==>
      exists i :: 0 <= i < |ps| && ps[i] == r.value
        && r.value.cls.backendType == backendType && r.value.cls.backendName == backendName
        && forall j :: 0 <= j < i ==> !(ps[j].cls.backendType == backendType && ps[j].cls.backendName == backendName)
    ensures r.None? ==> forall j :: 0 <= j < |ps| ==> !(ps[j].cls.backendType == backendType && ps[j].cls.backendName == backendName)
    decreases |ps|
  {
    if |ps| == 0 then None
    else if ps[0].cls.backendType == backendType && ps[0].cls.backendName == backendName then Some(ps[0])
    else
      var r := FirstBackend(ps[1..], backendType, backendName);
      assert forall j :: 1 <= j < |ps| ==> ps[j] == ps[1..][j - 1];
      r
  }

  /** What running hook `h` of the plugin `n` raises, if anything. */
  function Run(hooks: Hooks, n: string, h: Hook): (r: Option<PyError>)
    ensures r.Some? <==> (n, h) in hooks
  {
    if (n, h) in hooks then Some(hooks[(n, h)]) else None
  }

  /** The hooks `unload_all` runs over the plugins `ns`: `on_unload`, then
      `teardown` unless `on_unload` raised. */
  function UnloadTrace(ns: seq<string>, hooks: Hooks): seq<(string, Hook)>
    decreases |ns|
  {
    if |ns| == 0 then []
    else
      var n := ns[|ns| - 1];
      UnloadTrace(ns[..|ns| - 1], hooks) + [(n, OnUnload)] + (if (n, OnUnload) !in hooks then [(n, Teardown)] else [])
  }

  /** Whether `initialize` followed by `on_load` raises for the plugin `n`,
      which was initialized already iff `wasInitialized`. */
  predicate InitFails(n: string, wasInitialized: bool, hooks: Hooks)
  {
    (!wasInitialized && (n, Setup) in hooks) || (n, OnLoad) in hooks
  }

  /** Every plugin of `plugins` is listed in `types` under each of its kinds. */
  ghost predicate Listed(plugins: map<string, Plugin>, types: map<Kind, seq<string>>)
  {
    forall n, k :: n in plugins && k in plugins[n].cls.kinds ==> k in types && n in types[k]
  }

  /** Adding plugin `p` under name `n` and appending `n` to the lists of its
      kinds keeps every plugin listed. */
  lemma ListedAfterAdd(plugins: map<string, Plugin>, types: map<Kind, seq<string>>, n: string, p: Plugin,
                       plugins': map<string, Plugin>, types': map<Kind, seq<string>>)
    requires Listed(plugins, types)
    requires plugins' == plugins[n := p]
    requires types'.Keys == types.Keys + p.cls.kinds
    requires forall k :: k in types' ==>
      types'[k] == (if k in types then types[k] else []) + (if k in p.cls.kinds then [n] else [])
    ensures Listed(plugins', types')
  {
    forall m, k | m in plugins' && k in plugins'[m].cls.kinds ensures k in types' && m in types'[k] {
      if m != n {
        assert m in types[k];
      }
    }
  }

  /** Removing `name` from the plugins and from each list of kinds keeps
      every other plugin listed. */
  lemma ListedAfterRemove(plugins: map<string, Plugin>, types: map<Kind, seq<string>>, name: string,
                          plugins': map<string, Plugin>, types': map<Kind, seq<string>>)
    requires Listed(plugins, types)
    requires plugins' == plugins - {name}
    requires types' == map k | k in types :: RemoveFirst(types[k], name)
    ensures Listed(plugins', types')
  {
    forall m, k | m in plugins' && k in plugins'[m].cls.kinds ensures k in types' && m in types'[k] {
      RemoveFirstKeeps(types[k], name, m);
    }
  }

  /** The kind lists after `name` is removed from each of them and, when it
      is loaded again (`built`), appended to the lists of its kinds
      `kinds`: a reloaded plugin moves to the end of every list it is in. */
  function Relisted(types: map<Kind, seq<string>>, name: string, kinds: set<Kind>, built: bool)
    : map<Kind, seq<string>>
  {
    map k | k in types.Keys + (if built then kinds else {}) ::
      (if k in types then RemoveFirst(types[k], name) else []) + (if built && k in kinds then [name] else [])
  }

  /** Forgetting `name` and then loading it again leaves the lists
      `Relisted` describes. */
  lemma RelistedSteps(types: map<Kind, seq<string>>, mid: map<Kind, seq<string>>, after: map<Kind, seq<string>>,
                      name: string, kinds: set<Kind>, built: bool)
    requires mid == map k | k in types :: RemoveFirst(types[k], name)
    requires built ==> after.Keys == mid.Keys + kinds
    requires built ==> forall k :: k in after ==>
      after[k] == (if k in mid then mid[k] else []) + (if k in kinds then [name] else [])
    requires !built ==> after == mid
    ensures after == Relisted(types, name, kinds, built)
  {
    var rel := Relisted(types, name, kinds, built);
    assert after.Keys == rel.Keys;
    forall k | k in after ensures after[k] == rel[k] {
      if !built {
        assert rel[k] == RemoveFirst(types[k], name) + [];
      }
    }
  }

  /** On a list without repeats, a reloaded plugin of kind `k` is listed
      exactly once under `k`, in last place. */
  lemma RelistedLast(types: map<Kind, seq<string>>, name: string, kinds: set<Kind>, k: Kind)
    requires k in kinds && (k in types ==> Distinct(types[k]))
    ensures var l := Relisted(types, name, kinds, true)[k];
      |l| > 0 && l[|l| - 1] == name && name !in l[..|l| - 1]
  {
    var l := Relisted(types, name, kinds, true)[k];
    var front := if k in types then RemoveFirst(types[k], name) else [];
    if k in types {
      RemoveFirstDistinct(types[k], name);
    }
    assert l[..|l| - 1] == front;
  }

  class Registry {
    /** The keys of `_plugins`, in dictionary order. */
    var names: seq<string>
    var plugins: map<string, Plugin>
    var pluginTypes: map<Kind, seq<string>>
    var loadOrder: seq<string>
    var initialized: bool

    /** `_plugins` is keyed by each plugin's own name and `names` is its key
        order. */
    ghost predicate Valid()
      reads this`names, this`plugins
    {
      && Distinct(names)
      && (forall n :: n in names <==> n in plugins)
      && (forall n :: n in plugins ==> plugins[n].Name() == n)
    }

    /** Every loaded plugin is listed under each of its kinds. */
    ghost predicate Typed()
      reads this`plugins, this`pluginTypes
    {
      Listed(plugins, pluginTypes)
    }

    constructor ()
      ensures Valid() && Typed()
      ensures names == [] && plugins == map[] && pluginTypes == map[] && loadOrder == [] && !initialized
    {
      names := [];
      plugins := map[];
      pluginTypes := map[];
      loadOrder := [];
      initialized := false;
    }

    /** `_load_plugin_class`: a constructor that raises, or a name already
        loaded, leaves the registry as it was; otherwise the new plugin is
        added under its name and listed under each of its kinds. */
    method LoadPluginClass(cls: PluginClass, config: Option<Params>, construct: Construct)
      requires Valid()
      modifies this`names, this`plugins, this`pluginTypes
      ensures Valid()
      ensures old(Typed()) ==> Typed()
      ensures (cls, config) in construct || cls.metadata.name in old(plugins) ==>
        names == old(names) && plugins == old(plugins) && pluginTypes == old(pluginTypes)
      ensures (cls, config) !in construct && cls.metadata.name !in old(plugins) ==>
        var n := cls.metadata.name;
        && names == old(names) + [n]
        && plugins.Keys == old(plugins).Keys + {n}
        && fresh(plugins[n]) && plugins[n].cls == cls && !plugins[n].initialized
        && plugins[n].config == (if config.Some? then config.value else map[])
        && (forall k :: k in old(plugins) ==> plugins[k] == old(plugins[k]))
        && pluginTypes.Keys == old(pluginTypes).Keys + cls.kinds
        && (forall k :: k in pluginTypes ==>
              pluginTypes[k] == (if k in old(pluginTypes) then old(pluginTypes)[k] else [])
                                + (if k in cls.kinds then [n] else []))
    {
      if (cls, config) in construct {
        return;
      }
      var p := new Plugin(cls, config);
      var n := cls.metadata.name;
      if n in plugins {
        return;
      }
      var plugins' := plugins[n := p];
      var types' := map k | k in pluginTypes.Keys + cls.kinds ::
        (if k in pluginTypes then pluginTypes[k] else []) + (if k in cls.kinds then [n] else []);
      if Typed() {
        ListedAfterAdd(plugins, pluginTypes, n, p, plugins', types');
      }
      names := names + [n];
      plugins := plugins';
      pluginTypes := types';
    }

    /** The dependency graph `_resolve_dependencies` builds. */
    function DependencyGraph(): map<string, seq<string>>
      reads this
    {
      map n | n in plugins :: plugins[n].cls.metadata.dependencies
    }

    /** `_resolve_dependencies`: the load order visits every plugin exactly
        once, dependencies first when there is no cycle. */
    method ResolveDependencies()
      requires Valid()
      modifies this`loadOrder
      ensures Distinct(loadOrder) && Elems(loadOrder) == plugins.Keys
      ensures Acyclic(DependencyGraph()) ==> DepsBefore(DependencyGraph(), loadOrder)
    {
      loadOrder := TopologicalSort(names, DependencyGraph());
    }

    /** The names of the plugins whose `initialize` has run. */
    ghost function InitializedNames(): set<string>
      reads this`plugins, plugins.Values
    {
      set n | n in plugins && plugins[n].initialized
    }

    /** How far `_initialize_plugins` has got, from the plugins `p0` with
        the names `init0` of those initialized already, once it has handled the names `done`. */
    ghost predicate Progress(p0: map<string, Plugin>, init0: set<string>, done: seq<string>, hooks: Hooks)
      reads this`plugins, p0.Values
    {
      && plugins.Keys <= p0.Keys
      && forall n :: n in p0 ==>
           && p0[n].Name() == n
           && (n in plugins <==> n !in done || !InitFails(n, n in init0, hooks))
           && (n in plugins ==> plugins[n] == p0[n])
           && p0[n].initialized == (n in init0 || (n in done && (n, Setup) !in hooks))
    }

    /** One step of `_initialize_plugins`: `initialize` and `on_load` of the
        plugin `n`, which is deleted when either raises. */
    method InitializeOne(n: string, hooks: Hooks, ghost p0: map<string, Plugin>, ghost init0: set<string>,
                         ghost done: seq<string>)
      returns (failed: bool)
      requires n in plugins && n !in done && Progress(p0, init0, done, hooks)
      modifies this`plugins, plugins[n]
      ensures Progress(p0, init0, done + [n], hooks)
      ensures failed == InitFails(n, old(plugins[n].initialized), hooks)
      ensures plugins == if failed then old(plugins) - {n} else old(plugins)
    {
      var p := plugins[n];
      var e := p.Initialize(Run(hooks, n, Setup));
      if e.None? {
        e := Run(hooks, n, OnLoad);
      }
      failed := e.Some?;
      if failed {
        plugins := plugins - {n};
      }
    }

    /** `_initialize_plugins`: each plugin of the load order is initialized
        and sent `on_load`; one that raises is deleted and the rest go on.
        The deleted names leave the key order of `_plugins` all at once at the
        end, which nothing in between observes. */
    method InitializePlugins(hooks: Hooks)
      requires Valid() && Distinct(loadOrder) && forall i :: 0 <= i < |loadOrder| ==> loadOrder[i] in plugins
      modifies this`names, this`plugins, plugins.Values
      ensures Valid()
      ensures names == Filter(old(names), InMap(plugins))
      ensures Progress(old(plugins), old(InitializedNames()), loadOrder, hooks)
    {
      ghost var p0 := plugins;
      ghost var init0 := InitializedNames();
      InitializeEach(hooks, p0, init0);
      ForgetDeleted();
    }

    /** The loop of `_initialize_plugins`. */
    method InitializeEach(hooks: Hooks, ghost p0: map<string, Plugin>, ghost init0: set<string>)
      requires Distinct(loadOrder) && forall i :: 0 <= i < |loadOrder| ==> loadOrder[i] in p0
      requires Progress(p0, init0, [], hooks)
      modifies this`plugins, p0.Values
      ensures Progress(p0, init0, loadOrder, hooks)
    {
      var i := 0;
      while i < |loadOrder|
        invariant 0 <= i <= |loadOrder|
        invariant Progress(p0, init0, loadOrder[..i], hooks)
      {
        var n := loadOrder[i];
        assert n !in loadOrder[..i];
        assert plugins[n] == p0[n] && p0[n] in p0.Values;
        assert loadOrder[..i + 1] == loadOrder[..i] + [n];
        var _ := InitializeOne(n, hooks, p0, init0, loadOrder[..i]);
        i := i + 1;
      }
      assert loadOrder[..i] == loadOrder;
    }

    /** Drops from the key order the names no longer in `_plugins`. */
    method ForgetDeleted()
      requires Distinct(names) && forall n :: n in plugins ==> n in names && plugins[n].Name() == n
      modifies this`names
      ensures Valid() && names == Filter(old(names), InMap(plugins))
    {
      FilterDistinct(names, InMap(plugins));
      FilterMembers(names, InMap(plugins));
      names := Filter(names, InMap(plugins));
    }

    /** `del self._plugins[name]` and the removal of `name` from every list
        of `_plugin_types`. */
    method Forget(name: string)
      requires Valid() && name in plugins
      modifies this`names, this`plugins, this`pluginTypes
      ensures Valid()
      ensures old(Typed()) ==> Typed()
      ensures names == RemoveFirst(old(names), name) && plugins == old(plugins) - {name}
      ensures pluginTypes == map k | k in old(pluginTypes) :: RemoveFirst(old(pluginTypes)[k], name)
    {
      RemoveFirstDistinct(names, name);
      var plugins' := plugins - {name};
      var types' := map k | k in pluginTypes :: RemoveFirst(pluginTypes[k], name);
      if Typed() {
        ListedAfterRemove(plugins, pluginTypes, name, plugins', types');
      }
      names := RemoveFirst(names, name);
      plugins := plugins';
      pluginTypes := types';
    }

    /** `reload_plugin`: an unknown name, or an `on_unload` or `teardown` that
        raises, changes nothing and answers false.  Otherwise the plugin is
        removed and its class loaded again with its config: if the constructor
        raises the name is gone; if the new instance's `initialize`,
        `on_load` or `on_start` raises it stays registered; the answer is true
        only when all of them succeed. */
    method ReloadPlugin(name: string, hooks: Hooks, construct: Construct) returns (ok: bool)
      requires Valid()
      modifies this`names, this`plugins, this`pluginTypes
      ensures Valid()
      ensures old(Typed()) ==> Typed()
      ensures name !in old(plugins) || (name, OnUnload) in hooks || (name, Teardown) in hooks ==>
        !ok && names == old(names) && plugins == old(plugins) && pluginTypes == old(pluginTypes)
      ensures name in old(plugins) && (name, OnUnload) !in hooks && (name, Teardown) !in hooks ==>
        var c, cfg := old(plugins[name].cls), old(plugins[name].config);
        var built := (c, Some(cfg)) !in construct;
        && names == RemoveFirst(old(names), name) + (if built then [name] else [])
        && (forall k :: k in old(plugins) && k != name ==> k in plugins && plugins[k] == old(plugins[k]))
        && (name in plugins <==> built)
        && (built ==> fresh(plugins[name]) && plugins[name].cls == c && plugins[name].config == cfg
                      && plugins[name].initialized == ((name, Setup) !in hooks))
        && (ok <==> built && (name, Setup) !in hooks && (name, OnLoad) !in hooks && (name, OnStart) !in hooks)
        && pluginTypes == Relisted(old(pluginTypes), name, c.kinds, built)
    {
      if name !in plugins {
        return false;
      }
      var p := plugins[name];
      if (name, OnUnload) in hooks || (name, Teardown) in hooks {
        return false;
      }
      var built := Reinstall(name, construct);
      if !built {
        return false;
      }
      var q := plugins[name];
      var e := q.Initialize(Run(hooks, name, Setup));
      if e.Some? || (name, OnLoad) in hooks || (name, OnStart) in hooks {
        return false;
      }
      return true;
    }

    /** The middle of `reload_plugin`: the plugin is forgotten and its class
        loaded again with its config, which fails only when the constructor
        raises. */
    method Reinstall(name: string, construct: Construct) returns (built: bool)
      requires Valid() && name in plugins
      modifies this`names, this`plugins, this`pluginTypes
      ensures Valid()
      ensures old(Typed()) ==> Typed()
      ensures var c, cfg := old(plugins[name].cls), old(plugins[name].config);
        && built == ((c, Some(cfg)) !in construct)
        && names == RemoveFirst(old(names), name) + (if built then [name] else [])
        && (forall k :: k in old(plugins) && k != name ==> k in plugins && plugins[k] == old(plugins[k]))
        && (name in plugins <==> built)
        && (built ==> fresh(plugins[name]) && plugins[name].cls == c && plugins[name].config == cfg
                      && !plugins[name].initialized)
        && pluginTypes == Relisted(old(pluginTypes), name, c.kinds, built)
    {
      var p := plugins[name];
      Forget(name);
      ghost var mid := pluginTypes;
      LoadPluginClass(p.cls, Some(p.config), construct);
      built := name in plugins;
      RelistedSteps(old(pluginTypes), mid, pluginTypes, name, p.cls.kinds, built);
    }

    /** `get_plugin`. */
    function GetPlugin(name: string): (r: Option<Plugin>)
      reads this
      ensures r.Some? <==> name in plugins
      ensures r.Some? ==> r.value == plugins[name]
      ensures Valid() && r.Some? ==> r.value.Name() == name
    {
      if name in plugins then Some(plugins[name]) else None
    }

    /** The names `get_plugins_by_type(kind)` looks up: those listed under
        `kind`, in order, skipping plugins deleted since. */
    function TypedNames(kind: Kind): (r: seq<string>)
      reads this
      ensures forall i :: 0 <= i < |r| ==> r[i] in plugins
    {
      Filter(if kind in pluginTypes then pluginTypes[kind] else [], InMap(plugins))
    }

    /** `get_plugins_by_type(kind)`: the live plugins listed under `kind`, in
        order of loading; every loaded plugin of that kind is among them. */
    function GetPluginsByType(kind: Kind): (r: seq<Plugin>)
      reads this
      ensures |r| == |TypedNames(kind)|
      ensures forall i :: 0 <= i < |r| ==> r[i] == plugins[TypedNames(kind)[i]]
    {
      Lookup(TypedNames(kind), plugins)
    }

    /** Every loaded plugin of a kind is among `get_plugins_by_type` of that
        kind. */
    lemma TypedListed(kind: Kind, n: string)
      requires Typed() && n in plugins && kind in plugins[n].cls.kinds
      ensures plugins[n] in GetPluginsByType(kind)
    {
      var all := pluginTypes[kind];
      FilterMembers(all, InMap(plugins));
      var j := IndexOf(TypedNames(kind), n);
      assert GetPluginsByType(kind)[j] == plugins[n];
    }

    /** `get_operation_handlers(tool)`: the operations of the operation
        plugins for `tool` merged in order, so a later plugin's handler for an
        operation name replaces an earlier one's. */
    function GetOperationHandlers(tool: string): (r: map<string, HandlerId>)
      reads this
    {
      MergeOperations(GetPluginsByType(OperationKind), tool)
    }

    /** `get_middleware_chain`: the middleware plugins sorted by priority,
        equal priorities in their order of loading. */
    function GetMiddlewareChain(): (r: seq<Plugin>)
      reads this
      ensures SortedBy(r, PriorityOf)
      ensures multiset(r) == multiset(GetPluginsByType(MiddlewareKind))
      ensures forall k :: WithKey(r, PriorityOf, k) == WithKey(GetPluginsByType(MiddlewareKind), PriorityOf, k)
    {
      StableSortCorrect(GetPluginsByType(MiddlewareKind), PriorityOf);
      StableSort(GetPluginsByType(MiddlewareKind), PriorityOf)
    }

    /** `get_backend`: the first backend plugin serving that type and name. */
    function GetBackend(backendType: string, backendName: string): (r: Option<Plugin>)
      reads this
    {
      FirstBackend(GetPluginsByType(BackendKind), backendType, backendName)
    }

    /** `start_all`: `on_start` runs for each plugin of the load order still
        loaded, in load order; one that raises does not stop the others.
        The result is the names whose `on_start` ran. */
    method StartAll() returns (started: seq<string>)
      ensures started == Filter(loadOrder, InMap(plugins))
    {
      started := [];
      var i := 0;
      while i < |loadOrder|
        invariant 0 <= i <= |loadOrder|
        invariant started == Filter(loadOrder[..i], InMap(plugins))
      {
        var n := loadOrder[i];
        FilterAppend(loadOrder[..i], [n], InMap(plugins));
        FilterSingle(n, InMap(plugins));
        assert loadOrder[..i + 1] == loadOrder[..i] + [n];
        if n in plugins {
          started := started + [n];
        }
        i := i + 1;
      }
      assert loadOrder[..i] == loadOrder;
    }

    /** `stop_all`: as `start_all` with `on_stop`, in reverse load order. */
    method StopAll() returns (stopped: seq<string>)
      ensures stopped == Filter(Reverse(loadOrder), InMap(plugins))
    {
      stopped := StillLoaded(Reverse(loadOrder), plugins);
    }

    /** `unload_all`: `on_unload` and then `teardown` for each plugin still
        loaded, in reverse load order, where a raising `on_unload` skips that
        plugin's `teardown` only; then everything is forgotten. */
    method UnloadAll(hooks: Hooks) returns (trace: seq<(string, Hook)>)
      requires Valid()
      modifies this`names, this`plugins, this`pluginTypes, this`loadOrder, this`initialized
      ensures trace == UnloadTrace(Filter(Reverse(old(loadOrder)), InMap(old(plugins))), hooks)
      ensures Valid()
      ensures names == [] && plugins == map[] && pluginTypes == map[] && loadOrder == [] && !initialized
    {
      var order := StillLoaded(Reverse(loadOrder), plugins);
      trace := UnloadHooks(order, hooks);
      names, plugins, pluginTypes, loadOrder, initialized := [], map[], map[], [], false;
    }
  }

  /** `[m[n] for n in ns]`. */
  function Lookup(ns: seq<string>, m: map<string, Plugin>): (r: seq<Plugin>)
    requires forall i :: 0 <= i < |ns| ==> ns[i] in m
    ensures |r| == |ns| && forall i :: 0 <= i < |ns| ==> r[i] == m[ns[i]]
    decreases |ns|
  {
    if |ns| == 0 then [] else [m[ns[0]]] + Lookup(ns[1..], m)
  }

  /** The names of `order` that are keys of `m`, collected by a loop. */
  method StillLoaded(order: seq<string>, m: map<string, Plugin>) returns (r: seq<string>)
    ensures r == Filter(order, InMap(m))
  {
    r := [];
    var i := 0;
    while i < |order|
      invariant 0 <= i <= |order|
      invariant r == Filter(order[..i], InMap(m))
    {
      var n := order[i];
      FilterAppend(order[..i], [n], InMap(m));
      FilterSingle(n, InMap(m));
      assert order[..i + 1] == order[..i] + [n];
      if n in m {
        r := r + [n];
      }
      i := i + 1;
    }
    assert order[..i] == order;
  }

  /** The hook calls of `unload_all` over `order`, by a loop. */
  method UnloadHooks(order: seq<string>, hooks: Hooks) returns (trace: seq<(string, Hook)>)
    ensures trace == UnloadTrace(order, hooks)
  {
    trace := [];
    var i := 0;
    while i < |order|
      invariant 0 <= i <= |order|
      invariant trace == UnloadTrace(order[..i], hooks)
    {
      var n := order[i];
      assert order[..i + 1] == order[..i] + [n];
      UnloadTraceSnoc(order[..i], n, hooks);
      trace := trace + [(n, OnUnload)];
      if (n, OnUnload) !in hooks {
        trace := trace + [(n, Teardown)];
      }
      i := i + 1;
    }
    assert order[..i] == order;
  }

  lemma UnloadTraceSnoc(ns: seq<string>, n: string, hooks: Hooks)
    ensures UnloadTrace(ns + [n], hooks)
         == UnloadTrace(ns, hooks) + [(n, OnUnload)] + (if (n, OnUnload) !in hooks then [(n, Teardown)] else [])
  {
    assert (ns + [n])[..|ns|] == ns;
  }

  /** `unload_all` runs `on_unload` for each plugin it visits, and `teardown`
      exactly for those whose `on_unload` did not raise. */
  lemma {:induction false} UnloadTraceMembers(ns: seq<string>, hooks: Hooks, n: string)
    ensures (n, OnUnload) in UnloadTrace(ns, hooks) <==> n in ns
    ensures (n, Teardown) in UnloadTrace(ns, hooks) <==> n in ns && (n, OnUnload) !in hooks
    ensures forall h :: h != OnUnload && h != Teardown ==> (n, h) !in UnloadTrace(ns, hooks)
    decreases |ns|
  {
    if |ns| > 0 {
      UnloadTraceMembers(ns[..|ns| - 1], hooks, n);
      assert ns == ns[..|ns| - 1] + [ns[|ns| - 1]];
    }
  }
}
