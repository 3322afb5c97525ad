# mem0-mcp core, modelled in Dafny

This project models the core of the mem0-mcp server. That server exposes the
Mem0 memory service as MCP tools, and its core has these parts:

- an asynchronous **event bus**. Handlers are kept in priority order and can
  be one-shot, filtered or weakly referenced. Middleware can cancel or rewrite
  an event. The bus also keeps a bounded history and can replay it.
- a **dependency-injection container**, with singleton, request and transient
  scopes, named registrations, constructor wiring, cycle detection and child
  containers.
- a **plugin registry**. It loads plugin classes, orders them by their
  dependencies (depth-first topological sort), initialises them, answers
  lookups and runs the start, stop, unload and reload lifecycles.
- the **plugin and operation bases**:
  - parameter validation;
  - the `__call__` pipeline (pre-process, execute, post-process, error
    mapping);
  - batch and composite handlers;
  - composite plugins.
- the **server dispatch**. It routes `operation=` calls to handlers. The
  middleware chain runs forward over requests and backward over responses,
  and a `tool.<tool>.<operation>` event is emitted afterwards.
- the **layered configuration manager**:
  - environment, file and remote sources with priorities;
  - dotted-path get and set;
  - unflattening of environment keys;
  - deep merge;
  - listeners and secrets.
- the **cache** and **logging** middleware plugins, and the **batch
  operations** plugin.
- the **config**, **export** and **graph** tools.

### How the model is built

- Each Python module is one Dafny module.
- Objects whose fields the source updates in place are classes, with a
  `Valid()` invariant and field-level frames. These are the bus, the
  container, the registry, plugins, the composite handler, the cache, the
  configuration manager and the server.
- Request and response dictionaries are values (`Values.Params`, a map to a
  JSON-like `Value`). Errors the source raises are `Result` values carrying
  the Python exception kind and message.
- The Python behaviours the code relies on are written out:
  - truthiness;
  - `dict.get` on a non-dict;
  - `len` and `str`;
  - `list.remove`;
  - stable `sort`;
  - negative slicing;
  - `int()` truncation.
- Loops in the source are methods with `while` loops, each proved equal to a
  specification function. Lemmas then state what the source promises about
  that function.
- Anything the core calls but does not define becomes a parameter: the Mem0
  clients, handler callbacks, middleware, factories, constructor signatures,
  file and network I/O, the clock and the hash. This applies to every
  operation modelled.

## Model

| member | source | states |
|---|---|---|
| `EventBus.PriorityOrder` | mem0_mcp/core/event_bus.py:19-25 | The five priorities are strictly increasing numbers, from 0 (HIGHEST) to 100 (LOWEST). |
| `EventBus.NewEvent` | mem0_mcp/core/event_bus.py:28-38 | A new event keeps its name, data, source and timestamp. Its metadata gains `event_id` and keeps every other entry. |
| `EventBus.RunHandlersOk` | mem0_mcp/core/event_bus.py:215-238 | When no live handler's filter raises, emit returns, in list order, the values of the handlers that ran and returned. A callback that raises is logged and skipped. Removal leaves exactly the handlers that are neither dead weak references nor once-handlers that returned, so a once-handler that was filtered out or raised stays. |
| `EventBus.RunHandlersErr` | mem0_mcp/core/event_bus.py:215-234 | The first live handler whose filter raises aborts the pass, and emit raises that error. A raising callback never does. |
| `EventBus.CancelStops` | mem0_mcp/core/event_bus.py:203-207 | A middleware that returns None cancels the event, whatever later middleware would do. |
| `EventBus.Recent` | mem0_mcp/core/event_bus.py:277-281 | The history is a suffix of everything emitted, of length min(count, max size), and empty for a non-positive size. |
| `EventBus.RecentStep` | mem0_mcp/core/event_bus.py:277-281 | Appending one event and dropping the oldest when over size gives the same window as recomputing it from all events. |
| `EventBus.Window` | mem0_mcp/core/event_bus.py:306-307 | `events[-limit:]` under Python slicing: a suffix whose length is set by positive, zero and negative limits. |
| `EventBus.History` | mem0_mcp/core/event_bus.py:283-308 | get_history filters by name and by time, then takes the limit window. |
| `EventBus.HistoryMatches` | mem0_mcp/core/event_bus.py:299-304 | Filtering by name and then by time equals one filter by the combined predicate. |
| `EventBus.Kill` | mem0_mcp/core/event_bus.py:50-52 | When a weak callback dies, each handler list keeps its length and its priorities. |
| `EventBus.Bus.constructor` | mem0_mcp/core/event_bus.py:84-91 | A new bus has no handlers, history, middleware or queue, and the given history size. |
| `EventBus.Bus.InsertIndex` | mem0_mcp/core/event_bus.py:128-135 | The insertion index is after every handler of lower or equal priority and before the first of higher priority. |
| `EventBus.Bus.Subscribe` | mem0_mcp/core/event_bus.py:94-138 | The new handler is inserted into its event's list by priority, stably. Other events' lists are unchanged and the callback is returned. |
| `EventBus.Bus.Unsubscribe` | mem0_mcp/core/event_bus.py:140-158 | Returns true exactly when a handler with that callback exists. Only the first such handler is removed. |
| `EventBus.Bus.UnsubscribeAll` | mem0_mcp/core/event_bus.py:160-178 | With a name, drops that event's handlers and returns how many there were. Without one, drops all handlers and returns the total. |
| `EventBus.Bus.AddToHistory` | mem0_mcp/core/event_bus.py:277-281 | The event is recorded, and the history never exceeds its maximum size. |
| `EventBus.Bus.Emit` | mem0_mcp/core/event_bus.py:180-240 | The event gets the next id and is recorded. A middleware error, a filter error or a cancellation leaves the handlers untouched; the errors propagate. Otherwise the result is the handlers' values, and one-shot and dead handlers are removed. The outcome and the new handler lists are those of `EmitOutcome`. |
| `EventBus.Bus.ApplyMiddleware` | mem0_mcp/core/event_bus.py:203-207 | The middleware loop equals the middleware fold. |
| `EventBus.Bus.CallHandlers` | mem0_mcp/core/event_bus.py:215-234 | The handler loop equals the handler fold. |
| `EventBus.Bus.RemoveAll` | mem0_mcp/core/event_bus.py:236-238 | Removing each handler from the list, one by one, equals `RemoveEach`. |
| `EventBus.Bus.EmitAsync` | mem0_mcp/core/event_bus.py:242-259 | The event is appended to the FIFO queue with the next id. |
| `EventBus.Bus.ProcessQueued` | mem0_mcp/core/event_bus.py:361-379 | The worker takes the oldest queued event and emits it under the next id, leaving the handler lists `EmitOutcome` gives, or the old ones when the emit raised. With an empty queue, nothing changes. |
| `EventBus.Bus.AddMiddleware` | mem0_mcp/core/event_bus.py:261-267 | The middleware is appended. |
| `EventBus.Bus.RemoveMiddleware` | mem0_mcp/core/event_bus.py:269-275 | Returns whether the middleware was present, and removes its first occurrence only. |
| `EventBus.Bus.GetHistory` | mem0_mcp/core/event_bus.py:283-308 | Every event returned matches the name and time filters, and a positive limit bounds the count. |
| `EventBus.Bus.Replay` | mem0_mcp/core/event_bus.py:310-341 | Each replayed event is re-emitted in order, with its name, data and source and a `replayed` flag. Earlier history is untouched. The handler lists, the error and the number of re-emitted events are those of `ReplayOutcome`: without an error every event is re-emitted; an error from event k stops the replay after k+1 emits, with the lists as they were before that emit. |
| `EventBus.Bus.ReplayStep` | mem0_mcp/core/event_bus.py:327-339 | One replayed event: the replay either stops there with the emit's error and unchanged handler lists, or continues from the lists that emit left. |
| `EventBus.Bus.EmitReplayed` | mem0_mcp/core/event_bus.py:334-339 | The event is emitted again with `replayed` set; the error and the handler lists are those of `EmitOutcome`. |
| `EventBus.ReplayOutcome` | mem0_mcp/core/event_bus.py:310-341 | A replay emits at most all its events: all of them when nothing raised, at least one when something did, none for an empty list. |
| `EventBus.ReplayAdvance` | mem0_mcp/core/event_bus.py:327-339 | An emit that raises ends the replay with the lists it started from. One that succeeds moves on to the next event over the lists it left. |
| `EventBus.ReplayedExtend` | mem0_mcp/core/event_bus.py:334-339 | Appending a replayed copy of the next event keeps the record a replay of a prefix of the events. |
| `EventBus.Bus.Collect` | mem0_mcp/core/event_bus.py:60-64 | Collecting a weakly held callback turns every handler of it into a dead one. |
| `Sorting.InsertByKeyStable` | mem0_mcp/core/event_bus.py:128-135 | Inserting by priority keeps subscription order among handlers of equal priority. |
| `Sorting.InsertPlacement` | mem0_mcp/core/event_bus.py:128-135 | The inserted handler sits after every lower-or-equal and before every higher priority, and the rest keep their order. |
| `Sorting.StableSortCorrect` | mem0_mcp/core/plugin_registry.py:219-222 | Python's key sort gives a sorted permutation that keeps the original order among equal keys. |
| `DependencyInjection.FirstNamed` | mem0_mcp/core/dependency_injection.py:160-163 | Finds the first definition with the requested name, or reports that none has it. |
| `DependencyInjection.Select` | mem0_mcp/core/dependency_injection.py:153-165 | An unnamed lookup takes the last registration. A named lookup takes the first with that name. Otherwise it raises ValueError with the source's message. |
| `DependencyInjection.MissingRequired` | mem0_mcp/core/dependency_injection.py:245-246 | Reports a parameter without a default that no argument supplies, or none when all are supplied. |
| `DependencyInjection.FilterCount` | mem0_mcp/core/dependency_injection.py:284-304 | Filtering out a name shortens the list exactly when that name was registered. |
| `DependencyInjection.Container.constructor` | mem0_mcp/core/dependency_injection.py:60-65 | A new container is empty. |
| `DependencyInjection.Container.Register` | mem0_mcp/core/dependency_injection.py:67-112 | The definition is appended, defaulting the implementation to the interface. A named registration replaces earlier ones of that name, in a new list. An unnamed one appends in place. Other interfaces and the caches are untouched. |
| `DependencyInjection.Container.RegisterSingleton` | mem0_mcp/core/dependency_injection.py:114-116 | Appends a singleton-scope definition to the interface's list, leaving every other list and both caches as they were. |
| `DependencyInjection.Container.RegisterTransient` | mem0_mcp/core/dependency_injection.py:118-120 | Appends a transient-scope definition to the interface's list, leaving every other list and both caches as they were. |
| `DependencyInjection.Container.RegisterRequest` | mem0_mcp/core/dependency_injection.py:122-124 | Appends a request-scope definition to the interface's list, leaving every other list and both caches as they were. |
| `DependencyInjection.Container.RegisterFactory` | mem0_mcp/core/dependency_injection.py:126-128 | The factory definition, with the class itself as implementation, is appended to the interface's list. Every other list, the key set apart from the new interface, and both caches are unchanged. |
| `DependencyInjection.Container.RegisterInstance` | mem0_mcp/core/dependency_injection.py:130-133 | The instance is cached as singleton and its definition appended to the interface's list, so resolving the interface returns it. Every other list and the key set apart from the new interface are unchanged. |
| `DependencyInjection.Container.Has` | mem0_mcp/core/dependency_injection.py:272-282 | True exactly when the interface has a registration, with the requested name when one is given. |
| `DependencyInjection.Container.Resolve` | mem0_mcp/core/dependency_injection.py:135-176 | An interface already being resolved, directly or through the chain of first injected constructor parameters, raises RuntimeError "Circular dependency detected for" that interface. A missing registration raises the selection error. Otherwise it returns per scope: cached singleton or request instance, or a new one as `CreateInstance` builds it (see `Created`). Caches only grow. |
| `DependencyInjection.Container.ResolveDefinition` | mem0_mcp/core/dependency_injection.py:167-198 | Singleton and request scopes build once and reuse the cache; transient scope builds each time. A build returns what `CreateInstance` gives: the instance, the factory's or function's result, or a class built from its wired arguments unless wiring, a missing argument or `__init__` fails. An uncached class whose injected parameters lead back to a resolving interface raises the circular-dependency error. |
| `DependencyInjection.Container.CreateInstance` | mem0_mcp/core/dependency_injection.py:200-252 | Instances are returned as is. Factories (async first) and functions are called with their kwargs. A class succeeds exactly when wiring succeeds, no required argument is missing and `__init__`/`__ainit__` does not raise; it is then built with its class and wired arguments and a fresh identity. A missing annotated parameter without a default fails. |
| `DependencyInjection.Container.WireArgs` | mem0_mcp/core/dependency_injection.py:219-243 | Every constructor parameter is taken from kwargs or resolved by its annotation, in order; a cycle through the first injected parameter raises RuntimeError. |
| `DependencyInjection.Container.WireParam` | mem0_mcp/core/dependency_injection.py:227-243 | A kwarg wins and an unannotated parameter is skipped, both without resolving. Otherwise the annotation is resolved: a success gives that instance; a ValueError gives the default when there is one; any other error, or a ValueError without a default, propagates. |
| `DependencyInjection.FirstInjected` | mem0_mcp/core/dependency_injection.py:227-237 | The first parameter that is neither passed nor unannotated, which is the first one resolved. |
| `DependencyInjection.CycleRaises` | mem0_mcp/core/dependency_injection.py:135-146 | Two classes whose constructors each take the other make resolving the first raise "Circular dependency detected for" it. |
| `DependencyInjection.ResolveInCycle` | mem0_mcp/core/dependency_injection.py:135-146 | An interface whose chain of first injected parameters leads back to itself raises "Circular dependency detected for" it, from an idle container. |
| `DependencyInjection.UncachedBuilds` | mem0_mcp/core/dependency_injection.py:167-252 | Resolving an uncached class with no constructor parameters and a quiet `__init__` gives a new instance of that class with no arguments. |
| `DependencyInjection.Container.ClearRequestScope` | mem0_mcp/core/dependency_injection.py:254-256 | The request cache is emptied. |
| `DependencyInjection.Container.Unregister` | mem0_mcp/core/dependency_injection.py:284-304 | A named call drops that name's definitions and reports whether any existed. An unnamed call drops the interface. Both drop its singleton. |
| `DependencyInjection.Container.CreateChild` | mem0_mcp/core/dependency_injection.py:306-311 | The child shares the parent's definition lists and has empty caches. |
| `DependencyInjection.ServiceScope.Exit` | mem0_mcp/core/dependency_injection.py:357-358 | Leaving a scope clears the request cache. |
| `DependencyInjection.ChildRegistrationIsShared` | mem0_mcp/core/dependency_injection.py:306-311 | An unnamed registration on a child is visible in the parent, because the lists are shared. |
| `DependencyInjection.InstanceThenResolve` | mem0_mcp/core/dependency_injection.py:130-133 | Resolving right after register_instance returns that instance. |
| `DependencyInjection.SingletonReused` | mem0_mcp/core/dependency_injection.py:178-185 | Two resolutions of a singleton interface return the same instance. |
| `DependencyInjection.TransientDistinct` | mem0_mcp/core/dependency_injection.py:196-198 | Two resolutions of a transient class return two distinct instances. |
| `PluginRegistry.TopologicalSort` | mem0_mcp/core/plugin_registry.py:166-185 | The order lists each plugin once. For an acyclic graph, every known dependency comes before its dependent. |
| `PluginRegistry.Visit` | mem0_mcp/core/plugin_registry.py:171-180 | The depth-first visit only appends unvisited nodes, and appends a node after its dependencies. |
| `PluginRegistry.MergeOperations` | mem0_mcp/core/plugin_registry.py:209-217 | Every merged operation comes from a plugin for that tool. |
| `PluginRegistry.MergeOperationsLastWins` | mem0_mcp/core/plugin_registry.py:209-217 | On a clash, the later plugin's handler wins. |
| `PluginRegistry.FirstBackend` | mem0_mcp/core/plugin_registry.py:224-230 | Returns the first backend with that type and name, or none when there is none. |
| `PluginRegistry.UnloadTraceMembers` | mem0_mcp/core/plugin_registry.py:252-266 | Unloading calls on_unload for every plugin, and teardown exactly for those whose on_unload did not raise. |
| `PluginRegistry.Registry.constructor` | mem0_mcp/core/plugin_registry.py:40-44 | A new registry is empty and uninitialised, and trivially lists every plugin under its kinds. |
| `PluginRegistry.Registry.LoadPluginClass` | mem0_mcp/core/plugin_registry.py:88-111 | A failed or duplicate load changes nothing. Otherwise a fresh plugin is registered under its name and appended to each of its kind lists. Every plugin listed under its kinds before stays so. |
| `PluginRegistry.Registry.ResolveDependencies` | mem0_mcp/core/plugin_registry.py:156-164 | The load order is a permutation of the plugins, dependencies first when acyclic. |
| `PluginRegistry.Registry.InitializeOne` | mem0_mcp/core/plugin_registry.py:189-198 | A plugin whose initialisation raises is removed. The others stay, initialised. |
| `PluginRegistry.Registry.InitializePlugins` | mem0_mcp/core/plugin_registry.py:187-198 | Plugins are initialised in load order, and the failing ones are removed from the registry. |
| `PluginRegistry.Registry.Forget` | mem0_mcp/core/plugin_registry.py:284-289 | The plugin is removed from the map and from every kind list; every remaining plugin stays listed under its kinds. |
| `PluginRegistry.ListedAfterAdd` | mem0_mcp/core/plugin_registry.py:99-106 | Registering a plugin and appending its name to the lists of its kinds keeps every plugin listed under each of its kinds. |
| `PluginRegistry.ListedAfterRemove` | mem0_mcp/core/plugin_registry.py:284-289 | Deleting a plugin and `remove`-ing its name from every kind list keeps every other plugin listed. |
| `PluginRegistry.Registry.ReloadPlugin` | mem0_mcp/core/plugin_registry.py:268-303 | An unknown name or a raising unload changes nothing and returns false. Otherwise a fresh instance replaces the old one, and the result is true exactly when every hook succeeds. Each kind list loses the name's first occurrence and, when the new instance was built, the lists of its kinds gain it at the end (see `Relisted`). |
| `PluginRegistry.Registry.Reinstall` | mem0_mcp/core/plugin_registry.py:284-292 | The old instance is dropped. A fresh one with the same class and config is registered when construction succeeds. The kind lists are `Relisted`: the name leaves each once and, when built, is appended to each of its kinds, creating missing kind keys. |
| `PluginRegistry.RelistedSteps` | mem0_mcp/core/plugin_registry.py:284-292 | Removing the name from every kind list and then appending it to the lists of its kinds gives `Relisted`. |
| `PluginRegistry.RelistedLast` | mem0_mcp/core/plugin_registry.py:284-292 | After a rebuild, a list with distinct names holds the reloaded plugin once, at its end. |
| `PluginRegistry.Registry.GetPlugin` | mem0_mcp/core/plugin_registry.py:200-202 | Returns the plugin registered under that name, or None. |
| `PluginRegistry.Registry.GetPluginsByType` | mem0_mcp/core/plugin_registry.py:204-207 | Returns the plugins of that kind in registration order. |
| `PluginRegistry.Registry.TypedListed` | mem0_mcp/core/plugin_registry.py:204-207 | Every loaded plugin of a kind is listed for it. |
| `PluginRegistry.Registry.GetMiddlewareChain` | mem0_mcp/core/plugin_registry.py:219-222 | The middleware sorted by priority, as a permutation that is stable among equal priorities. |
| `PluginRegistry.Registry.StartAll` | mem0_mcp/core/plugin_registry.py:232-240 | Starts the still-loaded plugins in load order. |
| `PluginRegistry.Registry.StopAll` | mem0_mcp/core/plugin_registry.py:242-250 | Stops them in reverse load order. |
| `PluginRegistry.Registry.UnloadAll` | mem0_mcp/core/plugin_registry.py:252-266 | Runs the unload hooks in reverse load order, then empties the registry. |
| `BasePlugin.NewMetadata` | mem0_mcp/core/base_plugin.py:19-34 | Missing dependencies and capabilities become empty lists. The other fields are kept. |
| `BasePlugin.CapabilityOfNew` | mem0_mcp/core/base_plugin.py:104-106 | A capability is reported exactly when it was declared. |
| `BasePlugin.Plugin.constructor` | mem0_mcp/core/base_plugin.py:69-72 | A missing config becomes an empty one, and the plugin starts uninitialised. |
| `BasePlugin.Plugin.Initialize` | mem0_mcp/core/base_plugin.py:80-87 | Setup runs once. The plugin is initialised exactly when setup succeeds, and a second call does nothing. |
| `BasePlugin.InitializeTwice` | mem0_mcp/core/base_plugin.py:80-87 | After a successful initialize, a second one neither fails nor reruns setup. |
| `BasePlugin.Composite.constructor` | mem0_mcp/core/base_plugin.py:190-192 | A new composite has no children and is uninitialised. |
| `BasePlugin.Composite.AddPlugin` | mem0_mcp/core/base_plugin.py:194-196 | Appends the child, so for each of its kinds `get_plugins` lists it after every earlier child of that kind and nothing else changes there. |
| `BasePlugin.Composite.Setup` | mem0_mcp/core/base_plugin.py:198-201 | Initialises children in order, and stops at the first failure with its error. |
| `BasePlugin.Composite.Teardown` | mem0_mcp/core/base_plugin.py:203-206 | Tears children down in reverse order, and stops at the first failure. |
| `BasePlugin.Composite.GetPlugins` | mem0_mcp/core/base_plugin.py:208-210 | Returns exactly the children of the requested kind, in the order they were added (the list comprehension over the children). |
| `BasePlugin.PluginsInOrder` | mem0_mcp/core/base_plugin.py:194-210 | Two children of a kind added one after the other come back from `get_plugins` in that order. |
| `BasePlugin.Composite.Initialize` | mem0_mcp/core/base_plugin.py:80-87 | The composite is initialised exactly when every child's setup succeeded. |
| `BaseOperation.ValidateNone` | mem0_mcp/core/base_operation.py:39-40 | A missing value is valid exactly when the parameter is optional. |
| `BaseOperation.ValidateCustom` | mem0_mcp/core/base_operation.py:42-46 | With a custom validator, a value is valid exactly when it is among the choices (if any) and the validator accepts it. |
| `BaseOperation.ValidateNumericTower` | mem0_mcp/core/base_operation.py:48-59 | `isinstance` lets a bool pass as an integer, and an int or bool pass as a float. |
| `BaseOperation.ValidateParameters` | mem0_mcp/core/base_operation.py:121-139 | The validation loop equals the specification: validated values, or one ValueError listing every invalid parameter. |
| `BaseOperation.ValidatedKeys` | mem0_mcp/core/base_operation.py:121-139 | Only declared parameters survive validation. |
| `BaseOperation.ValidatedEntry` | mem0_mcp/core/base_operation.py:127-134 | A valid parameter is kept with its given or default value unless it is missing and optional. |
| `BaseOperation.NotDeclared` | mem0_mcp/core/base_operation.py:121-139 | Undeclared keys are dropped. |
| `BaseOperation.ErrorsExact` | mem0_mcp/core/base_operation.py:121-139 | The error list names exactly the invalid parameters, and validation succeeds exactly when there are none. |
| `BaseOperation.HandleError` | mem0_mcp/core/base_operation.py:154-161 | The error answer has exactly error type, message, operation and tool. |
| `BaseOperation.Call` | mem0_mcp/core/base_operation.py:163-181 | `__call__` returns the pipeline's result, or the handle_error answer for any exception. |
| `BaseOperation.CallRejectsInvalid` | mem0_mcp/core/base_operation.py:163-181 | Invalid parameters give a ValueError answer before anything executes. |
| `BaseOperation.CallPipeline` | mem0_mcp/core/base_operation.py:163-181 | Valid parameters go through pre-process, execute and post-process in that order. |
| `BaseOperation.BatchCount` | mem0_mcp/core/base_operation.py:192-199 | With an `items` list, the answer is the batch results and their count. Otherwise execute_single runs. |
| `BaseOperation.CompositeRouting` | mem0_mcp/core/base_operation.py:286-292 | A known `sub_operation` is delegated to its handler's `__call__`. Any other value raises ValueError. |
| `BaseOperation.CompositeHandler.AddHandler` | mem0_mcp/core/base_operation.py:282-284 | The sub-handler is stored under its name, replacing any earlier one. |
| `ToolFilters.FiltersOverride` | mem0_mcp/tools/mem0_graph.py:85-91 | A truthy user or agent id overrides the caller's filters. Other filter keys are kept. Non-dict filters fail when an id must be written. |
| `ToolFilters.RebuildSame` | mem0_mcp/tools/mem0_export.py:91-97 | Building the filters again from the caller's updated arguments gives the same filters. |
| `ToolFilters.BuildFiltersLoop` | mem0_mcp/tools/mem0_graph.py:85-91 | The loop writes into the caller's filters dict, and its result equals the specification. |
| `Server.FoldSplit` | mem0_mcp/core/server.py:271-273 | Running the middleware chain over a prefix and then the rest equals running it whole. |
| `Server.ResponseMirrorsRequest` | mem0_mcp/core/server.py:271-282 | Responses pass through the chain in the reverse of the request order. |
| `Server.ApplyChain` | mem0_mcp/core/server.py:271-273 | The middleware loop equals the chain fold. |
| `Server.OperationMap` | mem0_mcp/core/server.py:245-251 | Plugin operations are merged with the built-in ones, and the built-ins win. |
| `Server.RouteOf` | mem0_mcp/core/server.py:255-260 | A missing or falsy operation is reported, a known one is routed to its handler, and any other is unknown. |
| `Server.EarlyAnswer` | mem0_mcp/core/server.py:255-260 | The two early error answers, with the source's messages. |
| `Server.EventData` | mem0_mcp/core/server.py:285-289 | The event data has exactly the keys `params`, `result` and `context`: the parameters as a dict, the result as a dict, and the context value. |
| `Server.ContextValue` | mem0_mcp/core/server.py:263-268 | The context as the event carries it holds the tool name, the operation name, `user_id`, `session_id` and the metadata. |
| `Server.EventCarriesCall` | mem0_mcp/core/server.py:262-290 | The event of a routed call carries the parameters after the request chain and the result after the response chain, but its context holds the tool, the operation and the `user_id`/`session_id` the call passed before any middleware ran. |
| `Server.OperationsTool.constructor` | mem0_mcp/core/server.py:239-251 | The tool's operation table is the merged map. |
| `Server.Mem0Server.New` | mem0_mcp/core/server.py:41-63 | A new server has a fresh bus, container and registry, with its core services registered. |
| `Server.Mem0Server.RegisterCoreServices` | mem0_mcp/core/server.py:80-86 | The server, registry, configuration and bus are registered as instances. |
| `Server.Mem0Server.ResolveService` | mem0_mcp/core/server.py:356-357 | A core service resolves to the instance registered for it. |
| `Server.Mem0Server.Dispatch` | mem0_mcp/core/server.py:254-291 | Early answers emit nothing. A routed call runs the request chain, the handler and the reversed response chain, then emits `tool.<tool>.<op>` with those params, that result and the context. The call returns the result exactly when the emit neither fails in a middleware nor raises in a handler's filter, and raises that error otherwise. The handler lists become those the emit leaves (`EventBus.EmitOutcome`). |
| `Server.Mem0Server.Handle` | mem0_mcp/core/server.py:262-282 | The routed call equals the middleware-handler-middleware specification. |
| `Server.Mem0Server.ToolPluginCall` | mem0_mcp/core/server.py:192-211 | A tool plugin's call is wrapped by the same request and reversed response chains. |
| `ConfigManager.Split` | mem0_mcp/core/config_manager.py:260 | Splitting a key on dots gives dot-free parts whose join is the key. |
| `ConfigManager.WalkAppend` | mem0_mcp/core/config_manager.py:263-267 | Walking a path in two pieces equals walking it at once. |
| `ConfigManager.LookupStops` | mem0_mcp/core/config_manager.py:254-269 | get returns the default as soon as a step is not a dict or lacks the key. |
| `ConfigManager.SetInOk` | mem0_mcp/core/config_manager.py:271-289 | set succeeds exactly when every existing intermediate value is a dict. |
| `ConfigManager.SetThenWalk` | mem0_mcp/core/config_manager.py:271-289 | After a successful set, get on the same key returns the value. |
| `ConfigManager.SetInSpine` | mem0_mcp/core/config_manager.py:281-284 | After set, every proper prefix of the path is a dict. |
| `ConfigManager.SetOffPath` | mem0_mcp/core/config_manager.py:271-289 | set changes nothing off its own path. |
| `ConfigManager.Branch` | mem0_mcp/core/config_manager.py:271-289 | Two paths, neither a prefix of the other, part at some position. |
| `ConfigManager.UnflattenFails` | mem0_mcp/core/config_manager.py:75-90 | Once a key's path runs into a non-dict, the rest of the unflattening cannot rescue it. |
| `ConfigManager.UnflattenRoundTrip` | mem0_mcp/core/config_manager.py:75-90 | Independent dotted keys unflatten to a tree in which each key's path leads back to its value. |
| `ConfigManager.UnflattenKeys` | mem0_mcp/core/config_manager.py:75-90 | Distinct keys, none a dotted prefix of another, always unflatten and round-trip. |
| `ConfigManager.UnflattenDict` | mem0_mcp/core/config_manager.py:75-90 | The loop equals the unflattening specification. |
| `ConfigManager.DeepMerge` | mem0_mcp/core/config_manager.py:326-336 | The merge has the keys of both. |
| `ConfigManager.DeepMergeEmpty` | mem0_mcp/core/config_manager.py:326-336 | Merging with an empty dict on either side is the identity. |
| `ConfigManager.DeepMergeIdempotent` | mem0_mcp/core/config_manager.py:326-336 | Merging a configuration into itself leaves it unchanged. |
| `ConfigManager.UpdateWins` | mem0_mcp/core/config_manager.py:326-336 | Every non-dict leaf of the update appears in the merge. |
| `ConfigManager.BaseKept` | mem0_mcp/core/config_manager.py:326-336 | Top-level keys absent from the update keep the base's subtree. |
| `ConfigManager.BaseKeptDeep` | mem0_mcp/core/config_manager.py:326-336 | At any path where the update has no value and only dicts or nothing along the way, the merge keeps the base's value. |
| `ConfigManager.EnvKey` | mem0_mcp/core/config_manager.py:56-58 | Only prefixed variables count. The rest of the name is lower-cased, with `_` turned into `.`. |
| `ConfigManager.EnvKeyExample` | mem0_mcp/core/config_manager.py:57-58 | `MEM0_API_KEY` becomes `api.key`. |
| `ConfigManager.Put` | mem0_mcp/core/config_manager.py:60-64 | A later variable mapping to the same key overwrites it in place, keeping insertion order. |
| `ConfigManager.EnvEntries` | mem0_mcp/core/config_manager.py:51-66 | The flat environment config has distinct keys. |
| `ConfigManager.EnvLoad` | mem0_mcp/core/config_manager.py:51-66 | Loading the environment source unflattens the entries collected by the loop. |
| `ConfigManager.PriorityOrder` | mem0_mcp/core/config_manager.py:133-134 | The priority numbers are environment 10, remote 30 and file 50, in that increasing order. |
| `ConfigManager.LoadSource` | mem0_mcp/core/config_manager.py:102-119 | Loading a source equals the per-kind load specification. |
| `ConfigManager.Loads` | mem0_mcp/core/config_manager.py:227-229 | Every source is loaded, in order. |
| `ConfigManager.MergeSkipsFailures` | mem0_mcp/core/config_manager.py:222-231 | A failing source is skipped: merging without it gives the same result. |
| `ConfigManager.FirstSourceWins` | mem0_mcp/core/config_manager.py:222-231 | Sources are merged from the highest priority number down, so the lowest number wins at any depth: a leaf of a successful load is kept unless a load before it in priority order has a value at that path or a non-dict on the way to it. |
| `ConfigManager.NestedKeyFromFirstSource` | mem0_mcp/core/config_manager.py:222-231 | With `api.host` from the environment, `api.key` from the remote source and from the file, the remote source's `api.key` wins. |
| `ConfigManager.RemoveAdded` | mem0_mcp/core/config_manager.py:303-313 | Removing a listener just added undoes the addition. |
| `ConfigManager.Manager.constructor` | mem0_mcp/core/config_manager.py:199-205 | A new manager has no sources, config, listeners or secrets. |
| `ConfigManager.Manager.AddSource` | mem0_mcp/core/config_manager.py:207-211 | Sources stay sorted by priority, stably. |
| `ConfigManager.Manager.Load` | mem0_mcp/core/config_manager.py:217-248 | The configuration becomes the templated merge of all loaded sources. |
| `ConfigManager.Manager.Get` | mem0_mcp/core/config_manager.py:254-269 | Returns the value at the dotted key, or the default. |
| `ConfigManager.Manager.Set` | mem0_mcp/core/config_manager.py:271-289 | On success, the configuration is the set result. On error, it is unchanged and the error is raised. |
| `ConfigManager.Manager.SaveTarget` | mem0_mcp/core/config_manager.py:291-297 | Selects a source by index, with Python's negative indexing. Too large an index raises ValueError, too negative an IndexError. |
| `ConfigManager.Manager.Save` | mem0_mcp/core/config_manager.py:291-297 | Saves the configuration to the selected source. |
| `ConfigManager.Manager.AddListener` | mem0_mcp/core/config_manager.py:303-305 | Appends the listener. |
| `ConfigManager.Manager.RemoveListener` | mem0_mcp/core/config_manager.py:307-313 | Reports whether the listener was present, and removes its first occurrence. |
| `ConfigManager.Manager.RegisterSecret` | mem0_mcp/core/config_manager.py:381-383 | The secret is stored and readable afterwards. |
| `ConfigManager.Manager.GetSecret` | mem0_mcp/core/config_manager.py:385-390 | Returns the secret when registered, and None otherwise. |
| `CachePlugin.DefaultSettings` | mem0_mcp/plugins/cache_plugin.py:37-39 | Defaults are a 300 s ttl, 1000 entries, and caching for search, get and get_all. |
| `CachePlugin.KeyParams` | mem0_mcp/plugins/cache_plugin.py:99-113 | The cache key ignores private (`_`) parameters and `session_id`. |
| `CachePlugin.KeyIgnoresMarkers` | mem0_mcp/plugins/cache_plugin.py:99-113 | Changing an ignored parameter leaves the key unchanged. |
| `CachePlugin.KeyIdentifiesCall` | mem0_mcp/plugins/cache_plugin.py:99-113 | With an injective hash, keys are equal exactly when tool, operation and the kept parameters are. |
| `CachePlugin.Find` | mem0_mcp/plugins/cache_plugin.py:61-62 | Finds the entry with that key exactly when one is cached. |
| `CachePlugin.Oldest` | mem0_mcp/plugins/cache_plugin.py:87 | `min` by timestamp: the first entry with the least time. |
| `CachePlugin.Store` | mem0_mcp/plugins/cache_plugin.py:90-91 | Storing replaces an existing key in place or appends a new one, and keys stay distinct. |
| `CachePlugin.FindStored` | mem0_mcp/plugins/cache_plugin.py:90-91 | What was stored is found afterwards. |
| `CachePlugin.EvictedDrops` | mem0_mcp/plugins/cache_plugin.py:85-88 | A full cache drops exactly its oldest entry. |
| `CachePlugin.DeleteExpired` | mem0_mcp/plugins/cache_plugin.py:121-128 | Deleting the expired keys equals keeping the live entries. |
| `CachePlugin.CacheMiddleware.constructor` | mem0_mcp/plugins/cache_plugin.py:34-39 | The cache starts empty with the configured settings. |
| `CachePlugin.CacheMiddleware.Hit` | mem0_mcp/plugins/cache_plugin.py:61-66 | A hit is an entry with the key that is younger than the ttl. |
| `CachePlugin.CacheMiddleware.ProcessRequest` | mem0_mcp/plugins/cache_plugin.py:53-69 | Non-cacheable operations pass through. Cacheable ones get `_cache_key`, and on a hit also the cached result and `_from_cache`. |
| `CachePlugin.CacheMiddleware.ProcessResponse` | mem0_mcp/plugins/cache_plugin.py:71-93 | A cached answer is returned as is. Successful cacheable results are stored (evicting the oldest when full) without their key. `min` of an empty cache raises. |
| `CachePlugin.CacheMiddleware.ResponseNeverStored` | mem0_mcp/plugins/cache_plugin.py:71-93 | A response without `_cache_key` and `_from_cache` passes through and leaves the table as it was. |
| `CachePlugin.MarkersDropped` | mem0_mcp/core/base_operation.py:121-139 | A cacheable request carries `_cache_key`, but neither it nor `_from_cache` survives validation when no parameter declares them. |
| `CachePlugin.CacheMiddleware.ProcessResponseFor` | mem0_mcp/plugins/cache_plugin.py:71-93 | With the markers taken from the request, a successful cacheable response is stored under the call's key, and a lookup of that key in the same tick hits it. |
| `CachePlugin.CacheMiddleware.Cleanup` | mem0_mcp/plugins/cache_plugin.py:121-128 | Only entries older than the ttl are removed. |
| `LoggingMiddleware.SanitizeParams` | mem0_mcp/plugins/logging_middleware.py:74-84 | Sensitive fields are redacted, and everything else is unchanged. |
| `LoggingMiddleware.ProcessRequest` | mem0_mcp/plugins/logging_middleware.py:34-46 | Adds `_request_time` and keeps the rest. |
| `LoggingMiddleware.Trunc` | mem0_mcp/plugins/logging_middleware.py:51-54 | Python `int()` truncates toward zero. |
| `LoggingMiddleware.ProcessResponse` | mem0_mcp/plugins/logging_middleware.py:48-68 | Removes `_request_time`. When it was truthy, adds the elapsed milliseconds, truncated. |
| `LoggingMiddleware.RoundTripTiming` | mem0_mcp/plugins/logging_middleware.py:34-68 | A request stamped and then answered reports the elapsed time and no stamp. |
| `LoggingMiddleware.LoggingBeforeCache` | mem0_mcp/plugins/logging_middleware.py:70-72 | With priority 10 against the cache's 50, logging sees requests first. |
| `LoggingMiddleware.CacheBeforeLoggingOnResponse` | mem0_mcp/plugins/logging_middleware.py:70-72 | On the reversed response chain, the cache sees responses before logging does. |
| `BatchOperations.UpdateItem` | mem0_mcp/plugins/batch_operations.py:33-50 | A non-dict item raises. Otherwise the item answers success or error with its memory id. |
| `BatchOperations.UpdateItemEntry` | mem0_mcp/plugins/batch_operations.py:33-50 | Success exactly when both keys are present and the client call succeeds. A missing key's KeyError text is the error. |
| `BatchOperations.UpdateAll` | mem0_mcp/plugins/batch_operations.py:25-52 | Succeeds exactly when every item is a dict, and then gives one result per item. |
| `BatchOperations.UpdateAllStops` | mem0_mcp/plugins/batch_operations.py:45-48 | The first non-dict item's error aborts the batch. |
| `BatchOperations.ExecuteUpdateBatch` | mem0_mcp/plugins/batch_operations.py:25-52 | The loop equals the batch specification. |
| `BatchOperations.UpdateIsolatesItems` | mem0_mcp/plugins/batch_operations.py:34-50 | One item's failure does not affect the others. |
| `BatchOperations.BatchUpdateNeverBatches` | mem0_mcp/plugins/batch_operations.py:54-56 | As written, batch_update always answers with execute_single's error dict, or the validation error. |
| `BatchOperations.CorrectedUpdateBatches` | mem0_mcp/plugins/batch_operations.py:25-52 | Reading the declared `memories` list runs the batch and counts it. |
| `BatchOperations.DeleteItems` | mem0_mcp/plugins/batch_operations.py:81-82 | A list of id strings becomes `{memory_id: id}` dicts. Anything else is kept. |
| `BatchOperations.DeleteItem` | mem0_mcp/plugins/batch_operations.py:86-99 | Each deletion answers success with the client's data, or error with the client error's message, always with its memory id. |
| `BatchOperations.DeleteBatch` | mem0_mcp/plugins/batch_operations.py:72-101 | One result per id, success exactly when the client's delete succeeds, and otherwise the client error's message. Without a client, every item reports it. |
| `BatchOperations.ExecuteDeleteBatch` | mem0_mcp/plugins/batch_operations.py:72-101 | The loop equals the delete specification. |
| `BatchOperations.ConvertIds` | mem0_mcp/plugins/batch_operations.py:81-82 | A list whose first item is a string becomes `{"memory_id": id}` dicts, one per item; any other list is kept. |
| `BatchOperations.DeleteEach` | mem0_mcp/plugins/batch_operations.py:84-99 | One delete result per item, in order. |
| `BatchOperations.BatchDeleteNeverBatches` | mem0_mcp/plugins/batch_operations.py:103-105 | As written, batch_delete always answers with execute_single's error dict, or the validation error. |
| `BatchOperations.CorrectedDeleteBatches` | mem0_mcp/plugins/batch_operations.py:72-101 | Reading the declared `memory_ids` list runs the batch and counts it. |
| `BatchOperations.ExtractEntityParams` | mem0_mcp/plugins/batch_operations.py:141-144 | Keeps exactly the truthy entity keys. |
| `BatchOperations.DeleteAllOutcome` | mem0_mcp/plugins/batch_operations.py:125-163 | Checks run in order: client, confirm, at least one entity. Then delete_all runs with exactly the entity filters; its data is answered with the filters, and its error goes through `handle_error`. |
| `BatchOperations.DeleteAllThroughCall` | mem0_mcp/plugins/batch_operations.py:165-167 | With no `items`, `__call__` of delete_all gives the single-call outcome. |
| `BatchOperations.BatchRouting` | mem0_mcp/plugins/batch_operations.py:187-197 | The plugin extends `mem0_memory` with batch_update, batch_delete and delete_all, each routed to the operation as written (so the two batch operations answer as `BatchUpdateNeverBatches` and `BatchDeleteNeverBatches` state). |
| `Mem0Config.SelectedExact` | mem0_mcp/tools/mem0_config.py:75-81 | Field selection keeps exactly the requested existing fields, and fails on unhashable field names. |
| `Mem0Config.SelectedStops` | mem0_mcp/tools/mem0_config.py:75-81 | The first unhashable field aborts the selection. |
| `Mem0Config.SelectFields` | mem0_mcp/tools/mem0_config.py:75-81 | The loop equals the selection specification. |
| `Mem0Config.FilterInfoExact` | mem0_mcp/tools/mem0_config.py:75-81 | Falsy fields return everything. A string, list or dict of fields keeps only matching keys, with their values. |
| `Mem0Config.GetProjectAnswers` | mem0_mcp/tools/mem0_config.py:52-90 | get_project answers success with the filtered project info merged with local settings, or the error answer. |
| `Mem0Config.BuildUpdate` | mem0_mcp/tools/mem0_config.py:121-130 | The update data and the updated-field list are the given keys among the three updatable ones. |
| `Mem0Config.UpdatedFieldsExact` | mem0_mcp/tools/mem0_config.py:121-150 | Lists the updated fields in declaration order. |
| `Mem0Config.ValidateAnswers` | mem0_mcp/tools/mem0_config.py:243-270 | validate succeeds exactly when config, `api` and `features` are dicts. |
| `Mem0Config.ValidateKey` | mem0_mcp/tools/mem0_config.py:252-253 | A missing API key is the only error, and it decides `valid` and `status`. |
| `Mem0Config.WarningsIgnored` | mem0_mcp/tools/mem0_config.py:256-270 | Warnings do not affect validity. |
| `Mem0Config.ValidateWarnings` | mem0_mcp/tools/mem0_config.py:256-262 | There is a warning for graph memory without a store, and one for an unknown API version. |
| `Mem0Config.DefaultVersion` | mem0_mcp/tools/mem0_config.py:260-262 | A missing version counts as v2, so it gives no version warning. |
| `Mem0Export.DefaultSchemaUsed` | mem0_mcp/tools/mem0_export.py:63-89 | The export uses the given schema or the default one, with the built filters. |
| `Mem0Export.CreateOutcome` | mem0_mcp/tools/mem0_export.py:53-80 | A created export answers success with the job and its id. |
| `Mem0Export.CreateAnswers` | mem0_mcp/tools/mem0_export.py:53-80 | The export id is read from the client's answer, and a non-dict answer is an error. |
| `Mem0Export.GetStatusMapping` | mem0_mcp/tools/mem0_export.py:126-142 | A completed job answers success with its data and record count. Any other job answers pending with its status. |
| `Mem0Export.Unhashables` | mem0_mcp/tools/mem0_export.py:173-177 | Finds an unhashable column when there is one. |
| `Mem0Export.RowsExact` | mem0_mcp/tools/mem0_export.py:176-178 | One row per memory and one cell per column: the memory's value, or the empty string. |
| `Mem0Export.RowsStop` | mem0_mcp/tools/mem0_export.py:176-178 | The first failing memory aborts the rows. |
| `Mem0Export.CollectRows` | mem0_mcp/tools/mem0_export.py:176-178 | The loop equals the rows specification. |
| `Mem0Export.CsvCounts` | mem0_mcp/tools/mem0_export.py:163-188 | `row_count` is the number of memories. The default columns apply, and rows succeed exactly when all memories are dicts. |
| `Mem0Export.StrItems` | mem0_mcp/tools/mem0_export.py:221 | Joining categories succeeds exactly when they are all strings. |
| `Mem0Export.SectionShape` | mem0_mcp/tools/mem0_export.py:214-222 | A section is the memory's heading, plus its metadata block when requested. |
| `Mem0Export.RenderedOk` | mem0_mcp/tools/mem0_export.py:213-222 | Rendering succeeds exactly when every section does. |
| `Mem0Export.RenderedInOrder` | mem0_mcp/tools/mem0_export.py:213-222 | The sections are concatenated in order. |
| `Mem0Export.RenderedStop` | mem0_mcp/tools/mem0_export.py:213-222 | The first failing section aborts rendering. |
| `Mem0Export.AppendSection` | mem0_mcp/tools/mem0_export.py:213-222 | Appends one memory's section or fails with its error. |
| `Mem0Export.MarkdownStep` | mem0_mcp/tools/mem0_export.py:213-222 | Each loop step extends the content by one section. |
| `Mem0Export.RenderMarkdown` | mem0_mcp/tools/mem0_export.py:205-229 | The loop equals the Markdown specification. |
| `Mem0Export.MarkdownDocument` | mem0_mcp/tools/mem0_export.py:205-229 | The document is the header and then the sections, and `memory_count` is the number of memories. |
| `Mem0Export.MarkdownDefault` | mem0_mcp/tools/mem0_export.py:207-208 | Metadata is included by default. |
| `Mem0Export.MarkdownDefaultValidated` | mem0_mcp/tools/mem0_export.py:199-202 | Validation fills `include_metadata` with true. |
| `Mem0Graph.NoGraphClient` | mem0_mcp/tools/mem0_graph.py:59-62 | Without a graph client, every operation answers the same error. |
| `Mem0Graph.FiltersFirst` | mem0_mcp/tools/mem0_graph.py:64-66 | Filters are built before the client is called, and their error comes first. |
| `Mem0Graph.SearchCount` | mem0_mcp/tools/mem0_graph.py:112-141 | `count` is the number of relationships returned. |
| `Mem0Graph.GetAllCounts` | mem0_mcp/tools/mem0_graph.py:167-192 | Node and edge counts match the returned lists. |
| `Mem0Graph.NodeDefaults` | mem0_mcp/tools/mem0_graph.py:282-290 | A node's label defaults to its id, its type to `default` and its properties to `{}`. |
| `Mem0Graph.EdgeDefaults` | mem0_mcp/tools/mem0_graph.py:291-300 | An edge's label defaults to empty, its type to `default` and its properties to `{}`. |
| `Mem0Graph.MapAllExact` | mem0_mcp/tools/mem0_graph.py:282-300 | The conversion succeeds exactly when every item converts, and then keeps the order. |
| `Mem0Graph.MapAllFirst` | mem0_mcp/tools/mem0_graph.py:282-300 | The first failing item's error is the answer. |
| `Mem0Graph.VisualizeExact` | mem0_mcp/tools/mem0_graph.py:266-312 | The visualisation converts every node and edge, in order, and counts them. |
| `Mem0Graph.VisualizeOddNodes` | mem0_mcp/tools/mem0_graph.py:282-290 | Nodes given as a non-empty string or dict fail on `.get`. Empty ones give zero nodes. |
| `Mem0Graph.SearchDefaults` | mem0_mcp/tools/mem0_graph.py:97-110 | Search defaults to limit 100 and threshold 0.7. |

## Left out

- Plugin discovery is not modelled, because it is filesystem and importlib work. This covers `discover_and_load`, `_discover_plugins_in_path`, `_discover_plugins_in_module`, `add_plugin_path`, `add_plugin_module` and `add_builtin_plugin`. The registry is driven by `LoadPluginClass` directly.
- `get_plugin_info` (plugin_registry.py) is not modelled. It is a reporting dictionary with no behaviour.
- The asyncio machinery is not modelled: tasks, `start`/`stop` of the bus worker, the replay delay, the cache's periodic cleanup task, file watching and the configuration listener notification task. `ProcessQueued` models one worker step, and `Cleanup` models one cleanup pass.
- Time is integer ticks (seconds) in the bus and the cache, and a `real` in the logging middleware. Python's floats and `datetime` are not modelled.
- Weak references are modelled as an `alive` flag on handlers, flipped by `Collect`.
- The md5 cache key is an abstract hash function. The key-identity lemma assumes it is injective.
- File and remote loading and saving, JSON and YAML parsing, and the environment go through a `World` parameter. Their formats are not modelled.
- `_apply_templates` is a parameter of `Load`, and `_validate_config` and `_decrypt_secrets` are the identity. Their bodies are not part of this model.
- `Container.get_all`, `ServiceProvider`, `injectable`/`inject` and the bus's `on`/`once` decorators are not modelled. They are thin wrappers over the modelled operations.
- Logging output and the logger level setup are not modelled.
- Exception messages are modelled by kind, with approximate texts where Python's wording depends on the runtime.
- The context the dispatcher builds has empty metadata, so the modelled tools see no client there. Tools are modelled with the client passed in.
- `PluginRegistry.Registry.ReloadPlugin`: if the new instance's hooks raise, it stays registered. This follows the code rather than the wider description of reload.
- `CachePlugin.CacheMiddleware.ProcessResponse`: a truthy `_cache_key` that is not a string is never stored. Python would store it under that value.
- `Mem0Export.JoinCategories`: a non-empty dict of categories is an error here. Python joins the dict's keys.
- `Mem0Export.CsvCounts`: a `memories` or `columns` value that is not a list is an error here. The declared array type keeps such values out of `__call__`, but a direct call with an empty string or dict, or a non-empty string of columns (iterated character by character), would succeed in Python.
- `Mem0Export.MarkdownExport`: a `memories` value that is not a list is an error here. The declared array type keeps such values out of `__call__`, but a direct call with an empty string or an empty dict would succeed in Python with an empty document and a `memory_count` of 0.
- `Values.PyStr`: renders a float, a list and a dict as the fixed markers `<float>`, `<list>` and `<dict>`, where Python's `str()` prints the value. This touches the Markdown export's field texts and the version warning text.
- `ConfigManager.Lower`: folds ASCII letters only, where `str.lower()` folds all of Unicode.
- `BaseOperation.PyEq`: compares numbers across bool, int and float at the top level only; inside nested lists and dicts the comparison is structural, so Python's `[1] == [1.0]` is not modelled.
- `BaseOperation.ValidateCustom`: a custom validator is a total predicate here; one that raises inside `validate_parameters` is not modelled.
- `Mem0Config.UpdateProject`: the outcome of setting `features.graph_memory`/`api.version` and saving the local configuration is a parameter, because saving is file I/O through the configuration source.
- ConfigStatusOperation and the tools that only pass calls through to the client are not part of this model: `mem0_memory`, `mem0_entity`, `mem0_advanced` and `mem0_webhook`. Neither are the neo4j backend or the history and feedback plugins.

## Findings

| source | as written | input that shows it | evidently intended | confidence | as-written member | corrected member |
|---|---|---|---|---|---|---|
| mem0_mcp/plugins/batch_operations.py:54-56 | The batch operations declare `memories` / `memory_ids` arrays. But `BatchOperationHandler.execute` (base_operation.py:192-199) only batches on `items`, so every call falls through to `execute_single`, which only returns an error dict. | Any valid `batch_update` call with `memories=[{...}]` answers `{"error": "Use 'memories' parameter for batch operations"}`. | Run `execute_batch` over the declared list and answer its results with their count. | not executed | `BatchOperations.BatchUpdateNeverBatches` | `BatchOperations.CorrectedUpdateBatches` |
| mem0_mcp/plugins/batch_operations.py:103-105 | The same for `batch_delete`, with `memory_ids`. | Any valid `batch_delete` call with `memory_ids=["m1"]` answers `{"error": "Use 'memory_ids' parameter for batch operations"}`. | Run `execute_batch` over `memory_ids`. | not executed | `BatchOperations.BatchDeleteNeverBatches` | `BatchOperations.CorrectedDeleteBatches` |
| mem0_mcp/plugins/cache_plugin.py:81-91 | `process_request` puts `_cache_key` (and, on a hit, `_from_cache`) into the request. `validate_parameters` (base_operation.py:121-139) keeps only declared names, so the operation never sees them, and its result does not carry them. The dispatcher (server.py:270-282) hands that result to `process_response`, which reads both markers from the response. | Any successful `search` through the dispatcher: the response has no `_cache_key`, so nothing is stored and no later call hits. `MarkersDropped` shows the markers are dropped. | Take the markers from the processed request, so that a successful cacheable response is stored under the call's key and found again. | not executed | `CachePlugin.CacheMiddleware.ResponseNeverStored` | `CachePlugin.CacheMiddleware.ProcessResponseFor` |
