/**
 * The request path of the server (mem0_mcp/core/server.py): the operation
 * map a multi-operation tool is registered with, the `tool_handler` closure
 * that routes a call through the middleware chain to an operation handler
 * and announces it on the event bus, the handler of a `ToolPlugin` tool, and
 * the core services the server puts into its container.
 *
 * What a middleware plugin's `process_request` and `process_response` do is
 * code of the plugin; the dispatcher receives them as functions that may
 * raise.
 */
module Server {
  import opened Values
  import opened Lists
  import opened BasePlugin
  import opened PluginRegistry
  import opened BaseOperation
  import opened EventBus
  import opened DependencyInjection

  /** `process_request(tool_name, operation, params)` or
      `process_response(tool_name, operation, result)` of a middleware. */
  type MiddlewareStep = (Plugin, string, string, Params) -> Result<Params>

  /** Both halves of every middleware plugin. */
  datatype Middleware = Middleware(request: MiddlewareStep, response: MiddlewareStep)

  /** `x` threaded through `f` of each middleware of `chain` in turn; the
      first exception ends the walk. */
  function Fold(chain: seq<Plugin>, tool: string, op: string, x: Params, f: MiddlewareStep): Result<Params>
    decreases |chain|
  {
    if |chain| == 0 then Ok(x)
    else
      var y :- f(chain[0], tool, op, x);
      Fold(chain[1..], tool, op, y, f)
  }

  /** Continuing a walk that has not raised. */
  function Then(r: Result<Params>, chain: seq<Plugin>, tool: string, op: string, f: MiddlewareStep): Result<Params>
  {
    if r.Err? then r else Fold(chain, tool, op, r.value, f)
  }

  /** A walk splits at any point of the chain. */
  lemma {:induction false} FoldSplit(chain: seq<Plugin>, i: nat, tool: string, op: string, x: Params, f: MiddlewareStep)
    requires i <= |chain|
    ensures Fold(chain, tool, op, x, f) == Then(Fold(chain[..i], tool, op, x, f), chain[i..], tool, op, f)
    decreases i
  {
    if i > 0 {
      var y := f(chain[0], tool, op, x);
      assert chain[..i][0] == chain[0] && chain[..i][1..] == chain[1..][..i - 1];
      assert chain[i..] == chain[1..][i - 1..];
      if y.Ok? {
        FoldSplit(chain[1..], i - 1, tool, op, y.value, f);
      }
    }
  }

  /** The response path mirrors the request path: for any split of the chain
      into a front and a back, requests pass the front before the back and
      responses pass the back before the front. */
  lemma ResponseMirrorsRequest(chain: seq<Plugin>, i: nat, tool: string, op: string, x: Params, y: Params, mw: Middleware)
    requires i <= |chain|
    ensures Fold(chain, tool, op, x, mw.request)
         == Then(Fold(chain[..i], tool, op, x, mw.request), chain[i..], tool, op, mw.request)
    ensures Fold(Reverse(chain), tool, op, y, mw.response)
         == Then(Fold(Reverse(chain[i..]), tool, op, y, mw.response), Reverse(chain[..i]), tool, op, mw.response)
  {
    FoldSplit(chain, i, tool, op, x, mw.request);
    var r := Reverse(chain);
    var k := |chain| - i;
    assert r[..k] == Reverse(chain[i..]) && r[k..] == Reverse(chain[..i]) by {
      forall j | 0 <= j < k ensures r[..k][j] == Reverse(chain[i..])[j] {
      }
      forall j | 0 <= j < i ensures r[k..][j] == Reverse(chain[..i])[j] {
      }
    }
    FoldSplit(r, k, tool, op, y, mw.response);
  }

  /** A `for middleware in chain:` loop reassigning its payload. */
  method ApplyChain(chain: seq<Plugin>, tool: string, op: string, x: Params, f: MiddlewareStep) returns (r: Result<Params>)
    ensures r == Fold(chain, tool, op, x, f)
  {
    var acc := x;
    var i := 0;
    while i < |chain|
      invariant 0 <= i <= |chain|
      invariant Fold(chain, tool, op, x, f) == Fold(chain[i..], tool, op, acc, f)
    {
      assert chain[i..][1..] == chain[i + 1..];
      var y := f(chain[i], tool, op, acc);
      if y.Err? {
        return Err(y.error);
      }
      acc := y.value;
      i := i + 1;
    }
    return Ok(acc);
  }

  /** `operation_handlers.update(builtin_ops)` over the plugins' operations:
      a built-in wins on a name clash. */
  function OperationMap(pluginOps: map<string, HandlerId>, builtins: map<string, HandlerId>): (r: map<string, HandlerId>)
    ensures r.Keys == pluginOps.Keys + builtins.Keys
    ensures forall k :: k in builtins ==> r[k] == builtins[k]
    ensures forall k :: k in pluginOps && k !in builtins ==> r[k] == pluginOps[k]
  {
    pluginOps + builtins
  }

  /** Where `tool_handler` sends a call. */
  datatype Route =
    | Missing
    | Unhashable(kind: string)
    | Unknown(given: Value)
    | Found(op: string, handler: HandlerId)

  /** The two early checks of `tool_handler`: a missing or empty
      `operation`, and one absent from the map (looking up a list or dict in
      the map raises TypeError). */
  function RouteOf(ops: map<string, HandlerId>, kwargs: Params): (r: Route)
    ensures r == Missing <==> !Truthy(Get(kwargs, "operation"))
    ensures r.Found? <==> Get(kwargs, "operation").Str? && Get(kwargs, "operation").s != ""
                          && Get(kwargs, "operation").s in ops
    ensures r.Found? ==> Get(kwargs, "operation") == Str(r.op) && r.op in ops && r.handler == ops[r.op]
    ensures r.Unknown? ==> r.given == Get(kwargs, "operation") && !r.given.List? && !r.given.Dict?
  {
    var op := Get(kwargs, "operation");
    if !Truthy(op) then Missing
    else if op.List? then Unhashable("list")
    else if op.Dict? then Unhashable("dict")
    else if op.Str? && op.s in ops then Found(op.s, ops[op.s])
    else Unknown(op)
  }

  /** The answer of a call that never reaches a handler. */
  function EarlyAnswer(r: Route): (a: Result<Params>)
    requires !r.Found?
    ensures r.Missing? ==> a == Ok(map["error" := Str("Operation parameter is required")])
    ensures r.Unknown? ==> a == Ok(map["error" := Str("Unknown operation: " + PyStr(r.given))])
    ensures r.Unhashable? ==> a.Err? && a.error.kind == "TypeError"
  {
    match r
    case Missing => Ok(map["error" := Str("Operation parameter is required")])
    case Unhashable(kind) => Err(PyError("TypeError", "unhashable type: '" + kind + "'"))
    case Unknown(op) => Ok(map["error" := Str("Unknown operation: " + PyStr(op))])
  }

  /** The `OperationContext` of a call, built before any middleware runs. */
  function ContextFor(tool: string, op: string, kwargs: Params): OperationContext
  {
    OperationContext(tool, op, Get(kwargs, "user_id"), Get(kwargs, "session_id"), map[])
  }

  /** The context as the event carries it. */
  function ContextValue(ctx: OperationContext): (v: Value)
    ensures v.Dict? && v.entries.Keys == {"tool_name", "operation_name", "user_id", "session_id", "metadata"}
    ensures v.entries["tool_name"] == Str(ctx.toolName) && v.entries["operation_name"] == Str(ctx.operationName)
    ensures v.entries["user_id"] == ctx.userId && v.entries["session_id"] == ctx.sessionId
  {
    Dict(map["tool_name" := Str(ctx.toolName), "operation_name" := Str(ctx.operationName),
             "user_id" := ctx.userId, "session_id" := ctx.sessionId, "metadata" := Dict(ctx.metadata)])
  }

  /** What a routed call computes: the parameters after the request
      middleware, and the result after the handler and the response
      middleware in reverse order. */
  function Handled(chain: seq<Plugin>, tool: string, op: string, handler: BaseOperation.Handler, kwargs: Params, mw: Middleware)
    : Result<(Params, Params)>
  {
    var params :- Fold(chain, tool, op, kwargs, mw.request);
    var answer := Call(handler, ContextFor(tool, op, kwargs), params);
    var result :- Fold(Reverse(chain), tool, op, answer, mw.response);
    Ok((params, result))
  }

  /** The event name `tool.<tool>.<op>`. */
  function EventName(tool: string, op: string): string
  {
    "tool." + tool + "." + op
  }

  /** The event data: the post-middleware parameters, the final result and
      the context. */
  function EventData(params: Params, result: Params, ctx: OperationContext): (d: Params)
    ensures d.Keys == {"params", "result", "context"}
    ensures d["params"] == Dict(params) && d["result"] == Dict(result)
    ensures d["context"] == ContextValue(ctx)
  {
    map["params" := Dict(params), "result" := Dict(result), "context" := ContextValue(ctx)]
  }

  /** The event of a routed call carries the parameters as the request
      middleware left them and the result as the response middleware left
      it, but a context built from the call's own arguments: the tool, the
      operation, and the `user_id` and `session_id` given before any
      middleware ran. */
  lemma EventCarriesCall(chain: seq<Plugin>, tool: string, op: string, handler: BaseOperation.Handler,
                         kwargs: Params, mw: Middleware)
    requires Handled(chain, tool, op, handler, kwargs, mw).Ok?
    ensures var h := Handled(chain, tool, op, handler, kwargs, mw).value;
      var d := EventData(h.0, h.1, ContextFor(tool, op, kwargs));
      && Fold(chain, tool, op, kwargs, mw.request) == Ok(h.0)
      && d["params"] == Dict(h.0)
      && Fold(Reverse(chain), tool, op, Call(handler, ContextFor(tool, op, kwargs), h.0), mw.response) == Ok(h.1)
      && d["result"] == Dict(h.1)
      && d["context"].entries["tool_name"] == Str(tool) && d["context"].entries["operation_name"] == Str(op)
      && d["context"].entries["user_id"] == Get(kwargs, "user_id")
      && d["context"].entries["session_id"] == Get(kwargs, "session_id")
  {
  }

  /** A tool registered by `_register_tool_with_operations`: its operation
      map is fixed when the closure is made. */
  class OperationsTool {
    const name: string
    const operations: map<string, HandlerId>

    /** `_register_tool_with_operations`: the plugins' operations for the
        tool, with the module's built-ins laid over them. */
    constructor (name: string, registry: Registry, builtins: map<string, HandlerId>)
      ensures this.name == name
      ensures operations == OperationMap(registry.GetOperationHandlers(name), builtins)
    {
      this.name := name;
      operations := OperationMap(registry.GetOperationHandlers(name), builtins);
    }
  }

  class Mem0Server {
    const registry: Registry
    const bus: Bus
    const container: Container

    /** The objects `_register_core_services` puts into the container: the
        server, its registry, configuration manager, event bus and MCP
        object. */
    const selfObj: Instance
    const registryObj: Instance
    const configObj: Instance
    const busObj: Instance
    const mcpObj: Instance

    /** The components `Mem0MCPServer.__init__` creates: an empty plugin
        registry, an event bus with the default history size and an empty
        container. */
    constructor (selfObj: Instance, registryObj: Instance, configObj: Instance, busObj: Instance, mcpObj: Instance)
      ensures this.selfObj == selfObj && this.registryObj == registryObj && this.configObj == configObj
      ensures this.busObj == busObj && this.mcpObj == mcpObj
      ensures fresh(registry) && fresh(bus) && fresh(container)
      ensures bus.Valid() && bus.historySize == 1000 && bus.emitted == []
      ensures container.Valid() && container.definitions == map[] && container.resolving == {}
    {
      this.selfObj := selfObj;
      this.registryObj := registryObj;
      this.configObj := configObj;
      this.busObj := busObj;
      this.mcpObj := mcpObj;
      registry := new Registry();
      bus := new Bus(1000);
      container := new Container();
    }

    /** `Mem0MCPServer.__init__` as far as the core goes: the components,
        then `_register_core_services`. */
    static method New(selfObj: Instance, registryObj: Instance, configObj: Instance, busObj: Instance, mcpObj: Instance)
      returns (s: Mem0Server)
      ensures fresh(s) && fresh(s.bus) && fresh(s.container)
      ensures s.bus.Valid() && s.bus.historySize == 1000 && s.bus.emitted == []
      ensures s.container.Valid() && s.container.resolving == {}
      ensures s.CoreServices()
    {
      s := new Mem0Server(selfObj, registryObj, configObj, busObj, mcpObj);
      s.RegisterCoreServices();
    }

    /** The interface keys of the core services and their objects. */
    function Services(): (m: map<TypeKey, Instance>)
    {
      map["Mem0MCPServer" := selfObj, "PluginRegistry" := registryObj, "ConfigManager" := configObj,
          "EventBus" := busObj, "FastMCP" := mcpObj]
    }

    /** Every core service is registered as an instance under its interface. */
    ghost predicate CoreServices()
      reads this, container, container.Lists()
    {
      && container.HoldsInstance("Mem0MCPServer", selfObj)
      && container.HoldsInstance("PluginRegistry", registryObj)
      && container.HoldsInstance("ConfigManager", configObj)
      && container.HoldsInstance("EventBus", busObj)
      && container.HoldsInstance("FastMCP", mcpObj)
    }

    /** `_register_core_services`. */
    method RegisterCoreServices()
      requires container.Valid()
      modifies container, container.Lists()
      ensures container.Valid() && container.resolving == old(container.resolving)
      ensures CoreServices()
    {
      RegisterKeeping("Mem0MCPServer", selfObj, map[]);
      RegisterKeeping("PluginRegistry", registryObj, map["Mem0MCPServer" := selfObj]);
      RegisterKeeping("ConfigManager", configObj, map["Mem0MCPServer" := selfObj, "PluginRegistry" := registryObj]);
      RegisterKeeping("EventBus", busObj, map["Mem0MCPServer" := selfObj, "PluginRegistry" := registryObj,
                                             "ConfigManager" := configObj]);
      RegisterKeeping("FastMCP", mcpObj, map["Mem0MCPServer" := selfObj, "PluginRegistry" := registryObj,
                                            "ConfigManager" := configObj, "EventBus" := busObj]);
      assert Services() == map["Mem0MCPServer" := selfObj, "PluginRegistry" := registryObj,
                               "ConfigManager" := configObj, "EventBus" := busObj][ "FastMCP" := mcpObj];
      HoldsAllCore();
    }

    /** Every service in `held` is registered as an instance under its key. */
    ghost predicate HoldsAll(held: map<TypeKey, Instance>)
      reads this, container, container.Lists()
    {
      forall h :: h in held ==> container.HoldsInstance(h, held[h])
    }

    /** Holding all of `Services()` is `CoreServices()`. */
    lemma HoldsAllCore()
      requires HoldsAll(Services())
      ensures CoreServices()
    {
      var m := Services();
      assert "Mem0MCPServer" in m && "PluginRegistry" in m && "ConfigManager" in m && "EventBus" in m && "FastMCP" in m;
    }

    /** `register_instance` of one more service, keeping those registered
        before it. */
    method RegisterKeeping(k: TypeKey, x: Instance, ghost held: map<TypeKey, Instance>)
      requires container.Valid() && k !in held && HoldsAll(held)
      modifies container, container.Lists()
      ensures container.Valid() && container.resolving == old(container.resolving)
      ensures HoldsAll(held[k := x])
      ensures forall l :: l in container.Lists() ==> l in old(container.Lists()) || fresh(l)
    {
      container.RegisterInstance(k, x);
    }

    /** Resolving a core service answers the server's own object. */
    method ResolveService(k: TypeKey, sig: TypeKey -> seq<Param>, calls: (FnId, map<string, Instance>) -> Result<Instance>,
                          init: Init)
      returns (r: Result<Instance>)
      requires container.Valid() && CoreServices() && k in Services() && k !in container.resolving
      requires container.HoldsInstance(k, Services()[k])
      modifies container`singletons, container`requestScope, container`resolving, container`nextSerial
      ensures r == Ok(Services()[k])
    {
      var res, _ := container.Resolve(k, None, sig, calls, init);
      r := res;
    }

    /** The `tool_handler` closure of a multi-operation tool.  A call that
        is not routed runs no middleware, no handler and emits nothing;
        otherwise the parameters pass the request middleware in priority
        order, the handler runs, the result passes the response middleware
        in reverse order, and exactly one event `tool.<tool>.<op>` is
        emitted before that result is returned. */
    method Dispatch(tool: OperationsTool, kwargs: Params, handlerOf: HandlerId -> BaseOperation.Handler, mw: Middleware, now: int,
                    apply: (MiddlewareId, Event) -> Result<Option<Event>>,
                    filters: (FilterId, Event) -> Result<bool>,
                    calls: (CallbackId, Event) -> Result<Value>)
      returns (r: Result<Params>)
      requires bus.Valid()
      modifies bus`handlers, bus`history, bus`emitted, bus`nextId
      ensures bus.Valid()
      ensures var route := RouteOf(tool.operations, kwargs);
        !route.Found? ==> r == EarlyAnswer(route) && unchanged(bus)
      ensures var route := RouteOf(tool.operations, kwargs);
        route.Found? ==>
          var h := Handled(registry.GetMiddlewareChain(), tool.name, route.op, handlerOf(route.handler), kwargs, mw);
          && (h.Err? ==> r == Err(h.error) && unchanged(bus))
          && (h.Ok? ==>
                var ev := NewEvent(EventName(tool.name, route.op),
                                   EventData(h.value.0, h.value.1, ContextFor(tool.name, route.op, kwargs)),
                                   None, map[], now, old(bus.nextId));
                var out := EmitOutcome(old(bus.handlers), bus.middleware, EventName(tool.name, route.op), ev,
                                       apply, filters, calls);
                && bus.emitted == old(bus.emitted) + [ev]
                && (out.Ok? ==> r == Ok(h.value.1) && bus.handlers == out.value)
                && (out.Err? ==> r == Err(out.error) && bus.handlers == old(bus.handlers)))
    {
      var route := RouteOf(tool.operations, kwargs);
      if !route.Found? {
        return EarlyAnswer(route);
      }
      var op := route.op;
      var handled := Handle(tool.name, op, handlerOf(tool.operations[op]), kwargs, mw);
      if handled.Err? {
        return Err(handled.error);
      }
      var params, result := handled.value.0, handled.value.1;
      var context := ContextFor(tool.name, op, kwargs);
      var emitted := bus.Emit(EventName(tool.name, op), EventData(params, result, context), None, map[], now,
                              apply, filters, calls);
      if emitted.Err? {
        return Err(emitted.error);
      }
      return Ok(result);
    }

    /** The routed part of a call: the request middleware, the handler with
        its context and the response middleware in reverse order. */
    method Handle(tool: string, op: string, handler: BaseOperation.Handler, kwargs: Params, mw: Middleware)
      returns (h: Result<(Params, Params)>)
      ensures h == Handled(registry.GetMiddlewareChain(), tool, op, handler, kwargs, mw)
    {
      var context := ContextFor(tool, op, kwargs);
      var chain := registry.GetMiddlewareChain();
      var params := ApplyChain(chain, tool, op, kwargs, mw.request);
      if params.Err? {
        return Err(params.error);
      }
      var answer := Call(handler, context, params.value);
      var result := ApplyChain(Reverse(chain), tool, op, answer, mw.response);
      if result.Err? {
        return Err(result.error);
      }
      return Ok((params.value, result.value));
    }

    /** The handler of a `ToolPlugin` tool: the same middleware walk with
        operation "execute" around the plugin's `execute`, and no event. */
    method ToolPluginCall(toolName: string, execute: Params -> Result<Params>, kwargs: Params, mw: Middleware)
      returns (r: Result<Params>)
      ensures r == ToolPluginOutcome(registry.GetMiddlewareChain(), toolName, execute, kwargs, mw)
    {
      var chain := registry.GetMiddlewareChain();
      var params := ApplyChain(chain, toolName, "execute", kwargs, mw.request);
      if params.Err? {
        return Err(params.error);
      }
      var result := execute(params.value);
      if result.Err? {
        return result;
      }
      r := ApplyChain(Reverse(chain), toolName, "execute", result.value, mw.response);
    }
  }

  /** What the handler of a `ToolPlugin` tool returns or raises. */
  function ToolPluginOutcome(chain: seq<Plugin>, toolName: string, execute: Params -> Result<Params>, kwargs: Params,
                             mw: Middleware): Result<Params>
  {
    var params :- Fold(chain, toolName, "execute", kwargs, mw.request);
    var result :- execute(params);
    Fold(Reverse(chain), toolName, "execute", result, mw.response)
  }
}
