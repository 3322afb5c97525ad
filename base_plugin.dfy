/**
 * The plugin base classes (mem0_mcp/core/base_plugin.py).
 *
 * A plugin class is described by what the registry and the server ask of it:
 * its metadata, the plugin base classes in its method resolution order (its
 * kinds), and the answers of `get_tool_name`, `get_operations`,
 * `get_priority`, `get_backend_type` and `get_backend_name`.  What a hook
 * (`setup`, `on_load`, ...) does is code outside the base class; every
 * operation that runs one receives its outcome as a parameter.
 */
module BasePlugin {
  import opened Values
  import opened Lists

  /** `PluginMetadata` after `__post_init__`. */
  datatype PluginMetadata = PluginMetadata(name: string, version: string, description: string,
                                           author: Option<string>, dependencies: seq<string>,
                                           capabilities: seq<string>, configSchema: Option<Params>)

  /** `PluginMetadata(...)`: omitted dependency and capability lists become empty. */
  function NewMetadata(name: string, version: string, description: string, author: Option<string>,
                       dependencies: Option<seq<string>>, capabilities: Option<seq<string>>,
                       configSchema: Option<Params>): (m: PluginMetadata)
    ensures m.name == name && m.version == version && m.description == description
    ensures m.author == author && m.configSchema == configSchema
    ensures m.dependencies == (if dependencies.Some? then dependencies.value else [])
    ensures m.capabilities == (if capabilities.Some? then capabilities.value else [])
  {
    PluginMetadata(name, version, description, author,
                   if dependencies.None? then [] else dependencies.value,
                   if capabilities.None? then [] else capabilities.value,
                   configSchema)
  }

  /** The plugin base classes the registry classifies by. */
  datatype Kind = OperationKind | ToolKind | BackendKind | MiddlewareKind | ExtensionKind

  /** An operation handler object, by identity. */
  type HandlerId = nat

  /** What a plugin class declares. */
  datatype PluginClass = PluginClass(className: string, metadata: PluginMetadata, kinds: set<Kind>,
                                     toolName: string, operations: map<string, HandlerId>,
                                     priority: int, backendType: string, backendName: string)

  /** The lifecycle hooks a plugin runs. */
  datatype Hook = Setup | OnLoad | OnStart | OnStop | OnUnload | Teardown

  /** `get_capability`. */
  predicate GetCapability(m: PluginMetadata, c: string)
  {
    c in m.capabilities
  }

  /** A metadata built without capabilities has none, and one built with a
      list has exactly its members. */
  lemma CapabilityOfNew(name: string, version: string, description: string, author: Option<string>,
                        dependencies: Option<seq<string>>, capabilities: Option<seq<string>>,
                        configSchema: Option<Params>, c: string)
    ensures GetCapability(NewMetadata(name, version, description, author, dependencies, capabilities, configSchema), c)
        <==> capabilities.Some? && c in capabilities.value
  {
  }

  /** A plugin instance.  `setups` counts the runs of `setup` so far. */
  class Plugin {
    const cls: PluginClass
    /** `self.config = config or {}`. */
    const config: Params
    var initialized: bool
    ghost var setups: nat

    constructor (cls: PluginClass, config: Option<Params>)
      ensures this.cls == cls
      ensures this.config == (if config.Some? then config.value else map[])
      ensures !initialized && setups == 0
    {
      this.cls := cls;
      this.config := if config.Some? then config.value else map[];
      initialized := false;
      setups := 0;
    }

    function Name(): string
    {
      cls.metadata.name
    }

    /** `initialize`: once it has succeeded, neither `validate_config` (which
        checks nothing) nor `setup` runs again; when `setup` raises, the plugin
        stays uninitialized and the error propagates. */
    method Initialize(setup: Option<PyError>) returns (r: Option<PyError>)
      modifies this`initialized, this`setups
      ensures old(initialized) ==> r.None? && initialized && setups == old(setups)
      ensures !old(initialized) ==> r == setup && initialized == setup.None? && setups == old(setups) + 1
    {
      if initialized {
        return None;
      }
      setups := setups + 1;
      if setup.Some? {
        return setup;
      }
      initialized := true;
      return None;
    }
  }

  /** Two `initialize` calls in a row: the second never runs `setup`. */
  method InitializeTwice(p: Plugin, first: Option<PyError>, second: Option<PyError>)
    returns (r1: Option<PyError>, r2: Option<PyError>)
    modifies p`initialized, p`setups
    ensures r1.None? ==> r2.None? && p.setups == old(p.setups) + (if old(p.initialized) then 0 else 1)
    ensures r1.Some? ==> (!p.initialized <==> second.Some?)
  {
    r1 := p.Initialize(first);
    r2 := p.Initialize(second);
  }

  /** `isinstance(p, kind)`. */
  function OfKind(kind: Kind): Plugin -> bool
  {
    (p: Plugin) => kind in p.cls.kinds
  }

  /** `CompositePlugin`: a plugin made of sub-plugins. */
  class Composite {
    var plugins: seq<Plugin>
    var initialized: bool

    constructor ()
      ensures plugins == [] && !initialized
    {
      plugins := [];
      initialized := false;
    }

    /** `add_plugin`: the new plugin comes last, so it is listed after every
        earlier plugin of each kind it has. */
    method AddPlugin(p: Plugin)
      modifies this`plugins
      ensures plugins == old(plugins) + [p]
      ensures forall k :: GetPlugins(k) == old(GetPlugins(k)) + (if k in p.cls.kinds then [p] else [])
    {
      plugins := plugins + [p];
      forall k ensures GetPlugins(k) == old(GetPlugins(k)) + (if k in p.cls.kinds then [p] else []) {
        FilterAppend(old(plugins), [p], OfKind(k));
        FilterSingle(p, OfKind(k));
      }
    }

    /** `setup`: initializes the sub-plugins in the order they were added,
        stopping at the first that raises.  `visited` are the ones whose
        `initialize` ran; `outcome(p)` is what `p`'s own `setup` does. */
    method Setup(outcome: Plugin -> Option<PyError>) returns (visited: seq<Plugin>, r: Option<PyError>)
      modifies plugins
      ensures |visited| <= |plugins| && visited == plugins[..|visited|]
      ensures r.None? ==> |visited| == |plugins|
      ensures r.Some? ==> |visited| > 0
      ensures r.None? ==> forall i :: 0 <= i < |plugins| ==> plugins[i].initialized
      ensures r.Some? ==> r == outcome(visited[|visited| - 1]) && !visited[|visited| - 1].initialized
      ensures forall p :: p in plugins && p !in visited ==> p.initialized == old(p.initialized)
      ensures forall i :: 0 <= i < |visited| - 1 ==> visited[i].initialized
    {
      var i := 0;
      while i < |plugins|
        invariant 0 <= i <= |plugins|
        invariant forall j :: 0 <= j < i ==> plugins[j].initialized
        invariant forall p :: p in plugins && p !in plugins[..i] ==> p.initialized == old(p.initialized)
      {
        var p := plugins[i];
        var e := p.Initialize(outcome(p));
        if e.Some? {
          assert plugins[..i + 1][i] == p;
          return plugins[..i + 1], e;
        }
        i := i + 1;
      }
      return plugins, None;
    }

    /** `teardown`: tears the sub-plugins down in reverse order of addition,
        stopping at the first that raises. */
    method Teardown(outcome: Plugin -> Option<PyError>) returns (visited: seq<Plugin>, r: Option<PyError>)
      ensures |visited| <= |plugins| && visited == Reverse(plugins)[..|visited|]
      ensures r.None? ==> |visited| == |plugins|
      ensures r.Some? ==> |visited| > 0
      ensures r.Some? ==> r == outcome(visited[|visited| - 1])
      ensures forall i :: 0 <= i < |visited| - 1 ==> outcome(visited[i]).None?
      ensures r.None? ==> forall i :: 0 <= i < |plugins| ==> outcome(plugins[i]).None?
    {
      var i := |plugins|;
      visited := [];
      while i > 0
        invariant 0 <= i <= |plugins|
        invariant visited == Reverse(plugins)[..|plugins| - i]
        invariant forall j :: i <= j < |plugins| ==> outcome(plugins[j]).None?
      {
        i := i - 1;
        visited := visited + [plugins[i]];
        assert Reverse(plugins)[..|plugins| - i] == Reverse(plugins)[..|plugins| - i - 1] + [plugins[i]];
        var e := outcome(plugins[i]);
        if e.Some? {
          return visited, e;
        }
      }
      assert forall j :: 0 <= j < |visited| ==> visited[j] == plugins[|plugins| - 1 - j];
      return visited, None;
    }

    /** `get_plugins(kind)`: the sub-plugins of that kind, in the order they
        were added. */
    function GetPlugins(kind: Kind): (r: seq<Plugin>)
      reads this
      ensures r == Filter(plugins, OfKind(kind))
      ensures forall i :: 0 <= i < |r| ==> r[i] in plugins && kind in r[i].cls.kinds
      ensures forall i :: 0 <= i < |plugins| && kind in plugins[i].cls.kinds ==> plugins[i] in r
    {
      FilterSubset(plugins, OfKind(kind));
      FilterMembers(plugins, OfKind(kind));
      Filter(plugins, OfKind(kind))
    }

    /** `initialize` of the composite, whose `setup` is `Setup`. */
    method Initialize(outcome: Plugin -> Option<PyError>) returns (r: Option<PyError>)
      modifies this`initialized, plugins
      ensures old(initialized) ==> r.None? && initialized
      ensures !old(initialized) ==> (initialized <==> r.None?)
      ensures !old(initialized) && r.None? ==> forall i :: 0 <= i < |plugins| ==> plugins[i].initialized
      ensures old(initialized) ==> forall p :: p in plugins ==> p.initialized == old(p.initialized)
    {
      if initialized {
        return None;
      }
      var _, e := Setup(outcome);
      if e.Some? {
        return e;
      }
      initialized := true;
      return None;
    }
  }

  /** Two plugins of the same kind added one after the other come back from
      `get_plugins` in the order they were added. */
  method PluginsInOrder(a: Plugin, b: Plugin, kind: Kind) returns (c: Composite)
    requires kind in a.cls.kinds && kind in b.cls.kinds
    ensures c.GetPlugins(kind) == [a, b]
  {
    c := new Composite();
    c.AddPlugin(a);
    c.AddPlugin(b);
  }
}
