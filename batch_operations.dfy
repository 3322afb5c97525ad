/**
 * The batch operations plugin (mem0_mcp/plugins/batch_operations.py): batch
 * update, batch delete and delete-all for the `mem0_memory` tool.  The
 * memory service client is a record of the three calls it answers, each
 * returning a result or raising; whether the context carries a client is
 * the truthiness of its `client` metadata entry.
 */
module BatchOperations {
  import opened Values
  import opened BasePlugin
  import opened BaseOperation

  /** The client calls the handlers make. */
  datatype Client = Client(update: (Value, Value) -> Result<Value>, delete: Value -> Result<Value>,
                           deleteAll: Params -> Result<Value>)

  /** `[{"error": "Memory client not initialized"} for _ in items]`. */
  function MissingClientResults(items: seq<Value>): (r: seq<Value>)
    ensures |r| == |items| && forall i :: 0 <= i < |r| ==> r[i] == Dict(ClientMissing)
  {
    seq(|items|, i requires 0 <= i < |items| => Dict(ClientMissing))
  }

  // ---------------------------------------------------------------------
  // Batch update

  /** One pass of the loop of `BatchUpdateOperation.execute_batch`.  A dict
      item yields a success or error entry; any other item fails inside the
      `try` and again in its `except` clause, so the exception escapes. */
  function UpdateItem(client: Client, item: Value): (r: Result<Value>)
    ensures r.Err? <==> !item.Dict?
    ensures r.Err? ==> r.error == NoGet(item)
    ensures r.Ok? ==> r.value.Dict? && "status" in r.value.entries && "memory_id" in r.value.entries
  {
    if !item.Dict? then Err(NoGet(item))
    else
      var d := item.entries;
      var outcome := if "memory_id" !in d then Err(PyError("KeyError", "'memory_id'"))
                     else if "data" !in d then Err(PyError("KeyError", "'data'"))
                     else client.update(d["memory_id"], d["data"]);
      match outcome
      case Ok(result) => Ok(Dict(map["status" := Str("success"), "memory_id" := d["memory_id"], "data" := result]))
      case Err(e) => Ok(Dict(map["status" := Str("error"), "memory_id" := GetOr(d, "memory_id", Null),
                                 "error" := Str(e.message)]))
  }

  /** A dict item succeeds exactly when it has `memory_id` and `data` and the
      client's update returns; either way its entry names its `memory_id`,
      and a failure carries the exception text. */
  lemma UpdateItemEntry(client: Client, d: map<string, Value>)
    ensures var r := UpdateItem(client, Dict(d)).value.entries;
      var called := "memory_id" in d && "data" in d && client.update(d["memory_id"], d["data"]).Ok?;
      && r.Keys == {"status", "memory_id", (if called then "data" else "error")}
      && r["status"] == Str(if called then "success" else "error")
      && r["memory_id"] == GetOr(d, "memory_id", Null)
      && (called ==> r["data"] == client.update(d["memory_id"], d["data"]).value)
      && (!("memory_id" in d) ==> r["error"] == Str("'memory_id'"))
      && ("memory_id" in d && !("data" in d) ==> r["error"] == Str("'data'"))
  {
  }

  /** The loop over every item: one entry per item, in order, unless an
      item that is not a dict stops the batch with its exception. */
  function UpdateAll(client: Client, items: seq<Value>): (r: Result<seq<Value>>)
    ensures r.Ok? <==> forall i :: 0 <= i < |items| ==> items[i].Dict?
    ensures r.Ok? ==> |r.value| == |items| && forall i :: 0 <= i < |items| ==> r.value[i] == UpdateItem(client, items[i]).value
    decreases |items|
  {
    if |items| == 0 then Ok([])
    else
      var init :- UpdateAll(client, items[..|items| - 1]);
      var last :- UpdateItem(client, items[|items| - 1]);
      Ok(init + [last])
  }

  /** The exception that stops a batch is that of its first item that is
      not a dict. */
  lemma {:induction false} UpdateAllStops(client: Client, items: seq<Value>, i: nat)
    requires i < |items| && !items[i].Dict? && forall j :: 0 <= j < i ==> items[j].Dict?
    ensures UpdateAll(client, items) == Err(NoGet(items[i]))
    decreases |items|
  {
    var init := items[..|items| - 1];
    if i < |items| - 1 {
      assert init[i] == items[i] && forall j :: 0 <= j < i ==> init[j] == items[j];
      UpdateAllStops(client, init, i);
    } else {
      assert forall j :: 0 <= j < |init| ==> init[j].Dict?;
    }
  }

  /** `BatchUpdateOperation.execute_batch`. */
  function UpdateBatch(client: Client, ctx: OperationContext, items: seq<Value>): Result<seq<Value>>
  {
    if !HasClient(ctx) then Ok(MissingClientResults(items)) else UpdateAll(client, items)
  }

  /** `BatchUpdateOperation.execute_batch`, the loop as written. */
  method ExecuteUpdateBatch(client: Client, ctx: OperationContext, items: seq<Value>) returns (r: Result<seq<Value>>)
    ensures r == UpdateBatch(client, ctx, items)
  {
    if !HasClient(ctx) {
      return Ok(MissingClientResults(items));
    }
    var results: seq<Value> := [];
    var i := 0;
    while i < |items|
      invariant 0 <= i <= |items|
      invariant UpdateAll(client, items[..i]) == Ok(results)
    {
      assert items[..i + 1][..i] == items[..i];
      var entry := UpdateItem(client, items[i]);
      if entry.Err? {
        assert forall j :: 0 <= j < i ==> items[j].Dict? by {
          forall j | 0 <= j < i ensures items[j].Dict? {
            assert items[..i][j] == items[j];
          }
        }
        UpdateAllStops(client, items, i);
        return Err(entry.error);
      }
      assert items[..i + 1][i] == items[i];
      results := results + [entry.value];
      i := i + 1;
    }
    assert items[..i] == items;
    r := Ok(results);
  }

  /** With a client, every item that is a dict yields exactly one entry in
      its own place, whether its update succeeds or fails. */
  lemma UpdateIsolatesItems(client: Client, ctx: OperationContext, items: seq<Value>, i: nat)
    requires HasClient(ctx) && i < |items|
    requires forall j :: 0 <= j < |items| ==> items[j].Dict?
    ensures UpdateBatch(client, ctx, items).Ok?
    ensures |UpdateBatch(client, ctx, items).value| == |items|
    ensures UpdateBatch(client, ctx, items).value[i] == UpdateItem(client, items[i]).value
    ensures UpdateBatch(client, ctx, items).value[i].entries["status"] == Str("error") <==>
      !("memory_id" in items[i].entries && "data" in items[i].entries
        && client.update(items[i].entries["memory_id"], items[i].entries["data"]).Ok?)
  {
    UpdateItemEntry(client, items[i].entries);
  }

  /** The declared parameters of `batch_update`. */
  const UpdateParameters: seq<ParameterDefinition> :=
    [ParameterDefinition("memories", ArrayType, "Array of memory update objects", true, Null, [], None)]

  const UpdateSingle: Params := map["error" := Str("Use 'memories' parameter for batch operations")]

  /** `BatchUpdateOperation` as written: a `BatchOperationHandler`, which
      batches only a list under `items`. */
  function UpdateHandler(client: Client): Handler
  {
    Batch(UpdateParameters, NoHook, NoHook,
          (ctx: OperationContext, items: seq<Value>) => UpdateBatch(client, ctx, items),
          (ctx: OperationContext, p: Params) => Ok(UpdateSingle))
  }

  /** As written, `batch_update` never runs its batch: validation keeps only
      `memories`, so `items` never reaches `execute`, and every call answers
      either the validation error or the `execute_single` error. */
  lemma BatchUpdateNeverBatches(client: Client, ctx: OperationContext, params: Params)
    ensures var v := ValidationOutcome(UpdateParameters, params);
      Call(UpdateHandler(client), ctx, params) == if v.Ok? then UpdateSingle else HandleError(ctx, v.error)
  {
    NotDeclared(UpdateParameters, params, "items");
  }

  /** The batch step of a handler that reads its batch from the declared
      array parameter `name`. */
  function ExecuteOver(name: string, batch: (OperationContext, seq<Value>) -> Result<seq<Value>>, single: Params,
                       ctx: OperationContext, p: Params): Result<Params>
  {
    if name in p && p[name].List? then
      var results :- batch(ctx, p[name].items);
      Ok(map["results" := List(results), "count" := Int(|results|)])
    else Ok(single)
  }

  /** `batch_update` as evidently intended: the batch runs over the
      `memories` the caller passed. */
  function CorrectedUpdateHandler(client: Client): Handler
  {
    Leaf(UpdateParameters, NoHook, NoHook,
         (ctx: OperationContext, p: Params) =>
           ExecuteOver("memories", (c: OperationContext, items: seq<Value>) => UpdateBatch(client, c, items),
                       UpdateSingle, ctx, p))
  }

  /** The corrected handler answers one result per memory with their count,
      or the error of the item that stopped the batch. */
  lemma CorrectedUpdateBatches(client: Client, ctx: OperationContext, params: Params)
    requires ValidationOutcome(UpdateParameters, params).Ok?
    ensures "memories" in params && params["memories"].List?
    ensures var items := params["memories"].items;
      var b := UpdateBatch(client, ctx, items);
      Call(CorrectedUpdateHandler(client), ctx, params)
        == if b.Ok? then map["results" := List(b.value), "count" := Int(|items|)] else HandleError(ctx, b.error)
  {
    var d := UpdateParameters[0];
    assert Errors(UpdateParameters, params) == Errors([], params) + (if Validate(d, Supplied(d, params)) then [] else [InvalidMessage(d.name)]);
    assert Validated(UpdateParameters, params) == map["memories" := params["memories"]];
  }

  // ---------------------------------------------------------------------
  // Batch delete

  /** A list of ids, recognised by its first element, becomes a list of
      `{"memory_id": id}` dicts. */
  function DeleteItems(items: seq<Value>): (r: seq<Value>)
    ensures |r| == |items|
    ensures |items| > 0 && items[0].Str? ==> forall i :: 0 <= i < |items| ==> r[i] == Dict(map["memory_id" := items[i]])
    ensures !(|items| > 0 && items[0].Str?) ==> r == items
  {
    if |items| > 0 && items[0].Str? then seq(|items|, i requires 0 <= i < |items| => Dict(map["memory_id" := items[i]]))
    else items
  }

  /** The id a delete item names: its `memory_id` if it is a dict, else
      itself. */
  function DeleteTarget(item: Value): Value
  {
    if item.Dict? then GetOr(item.entries, "memory_id", Null) else item
  }

  /** One pass of the loop of `BatchDeleteOperation.execute_batch`. */
  function DeleteItem(client: Client, item: Value): (r: Value)
    ensures r.Dict? && "status" in r.entries && "memory_id" in r.entries
    ensures r.entries.Keys == {"status", "memory_id", (if client.delete(DeleteTarget(item)).Ok? then "data" else "error")}
    ensures r.entries["status"] == Str(if client.delete(DeleteTarget(item)).Ok? then "success" else "error")
    ensures r.entries["memory_id"] == DeleteTarget(item)
    ensures client.delete(DeleteTarget(item)).Ok? ==> r.entries["data"] == client.delete(DeleteTarget(item)).value
    ensures client.delete(DeleteTarget(item)).Err? ==>
      r.entries["error"] == Str(client.delete(DeleteTarget(item)).error.message)
  {
    var id := DeleteTarget(item);
    match client.delete(id)
    case Ok(result) => Dict(map["status" := Str("success"), "memory_id" := id, "data" := result])
    case Err(e) => Dict(map["status" := Str("error"), "memory_id" := id, "error" := Str(e.message)])
  }

  /** `BatchDeleteOperation.execute_batch`: never raises, and answers one
      entry per item, in order, naming the id it deleted or failed on. */
  function DeleteBatch(client: Client, ctx: OperationContext, items: seq<Value>): (r: seq<Value>)
    ensures |r| == |items|
    ensures !HasClient(ctx) ==> r == MissingClientResults(items)
    ensures HasClient(ctx) ==> forall i :: 0 <= i < |items| ==>
      var id := if items[0].Str? then items[i] else DeleteTarget(items[i]);
      && r[i].Dict? && "memory_id" in r[i].entries && "status" in r[i].entries
      && r[i].entries["memory_id"] == id
      && (r[i].entries["status"] == Str("success") <==> client.delete(id).Ok?)
      && (client.delete(id).Err? ==> "error" in r[i].entries && r[i].entries["error"] == Str(client.delete(id).error.message))
  {
    if !HasClient(ctx) then MissingClientResults(items)
    else
      var converted := DeleteItems(items);
      seq(|converted|, i requires 0 <= i < |converted| => DeleteItem(client, converted[i]))
  }

  /** The conversion loop of `execute_batch` for deletes: a list of ids
      becomes a list of `{"memory_id": id}` dicts. */
  method ConvertIds(items: seq<Value>) returns (converted: seq<Value>)
    ensures converted == DeleteItems(items)
  {
    converted := items;
    if |items| > 0 && items[0].Str? {
      converted := [];
      var k := 0;
      while k < |items|
        invariant 0 <= k <= |items|
        invariant |converted| == k && forall j :: 0 <= j < k ==> converted[j] == Dict(map["memory_id" := items[j]])
      {
        converted := converted + [Dict(map["memory_id" := items[k]])];
        k := k + 1;
      }
    }
  }

  /** `BatchDeleteOperation.execute_batch`, the loop as written. */
  method ExecuteDeleteBatch(client: Client, ctx: OperationContext, items: seq<Value>) returns (r: seq<Value>)
    ensures r == DeleteBatch(client, ctx, items)
  {
    if !HasClient(ctx) {
      return MissingClientResults(items);
    }
    var converted := ConvertIds(items);
    r := DeleteEach(client, converted);
  }

  /** The delete loop of `execute_batch`: one result per item, in order. */
  method DeleteEach(client: Client, converted: seq<Value>) returns (r: seq<Value>)
    ensures r == seq(|converted|, i requires 0 <= i < |converted| => DeleteItem(client, converted[i]))
  {
    r := [];
    var i := 0;
    while i < |converted|
      invariant 0 <= i <= |converted|
      invariant |r| == i && forall j :: 0 <= j < i ==> r[j] == DeleteItem(client, converted[j])
    {
      r := r + [DeleteItem(client, converted[i])];
      i := i + 1;
    }
  }

  const DeleteParameters: seq<ParameterDefinition> :=
    [ParameterDefinition("memory_ids", ArrayType, "Array of memory IDs to delete", true, Null, [], None)]

  const DeleteSingle: Params := map["error" := Str("Use 'memory_ids' parameter for batch operations")]

  /** `BatchDeleteOperation` as written. */
  function DeleteHandler(client: Client): Handler
  {
    Batch(DeleteParameters, NoHook, NoHook,
          (ctx: OperationContext, items: seq<Value>) => Ok(DeleteBatch(client, ctx, items)),
          (ctx: OperationContext, p: Params) => Ok(DeleteSingle))
  }

  /** As written, `batch_delete` never runs its batch either. */
  lemma BatchDeleteNeverBatches(client: Client, ctx: OperationContext, params: Params)
    ensures var v := ValidationOutcome(DeleteParameters, params);
      Call(DeleteHandler(client), ctx, params) == if v.Ok? then DeleteSingle else HandleError(ctx, v.error)
  {
    NotDeclared(DeleteParameters, params, "items");
  }

  /** `batch_delete` as evidently intended: the batch runs over the
      `memory_ids` the caller passed. */
  function CorrectedDeleteHandler(client: Client): Handler
  {
    Leaf(DeleteParameters, NoHook, NoHook,
         (ctx: OperationContext, p: Params) =>
           ExecuteOver("memory_ids", (c: OperationContext, items: seq<Value>) => Ok(DeleteBatch(client, c, items)),
                       DeleteSingle, ctx, p))
  }

  /** The corrected handler answers one result per id with their count. */
  lemma CorrectedDeleteBatches(client: Client, ctx: OperationContext, params: Params)
    requires ValidationOutcome(DeleteParameters, params).Ok?
    ensures "memory_ids" in params && params["memory_ids"].List?
    ensures var ids := params["memory_ids"].items;
      Call(CorrectedDeleteHandler(client), ctx, params)
        == map["results" := List(DeleteBatch(client, ctx, ids)), "count" := Int(|ids|)]
  {
    var d := DeleteParameters[0];
    assert Errors(DeleteParameters, params) == Errors([], params) + (if Validate(d, Supplied(d, params)) then [] else [InvalidMessage(d.name)]);
    assert Validated(DeleteParameters, params) == map["memory_ids" := params["memory_ids"]];
  }

  // ---------------------------------------------------------------------
  // Delete all

  /** The filters `delete_all` may forward. */
  const EntityKeys: seq<string> := ["user_id", "agent_id", "app_id", "run_id"]

  /** The filters given with a truthy value. */
  function EntityFilters(params: Params): Params
  {
    map k | k in params && k in EntityKeys && Truthy(params[k]) :: params[k]
  }

  /** The loop that builds `entity_params`. */
  method ExtractEntityParams(params: Params) returns (entity: Params)
    ensures entity == EntityFilters(params)
    ensures forall k :: k in entity <==> k in EntityKeys && k in params && Truthy(params[k])
    ensures forall k :: k in entity ==> entity[k] == params[k]
  {
    entity := map[];
    var i := 0;
    while i < |EntityKeys|
      invariant 0 <= i <= |EntityKeys|
      invariant forall k :: k in entity <==> k in EntityKeys[..i] && k in params && Truthy(params[k])
      invariant forall k :: k in entity ==> entity[k] == params[k]
    {
      var key := EntityKeys[i];
      if key in params && Truthy(params[key]) {
        entity := entity[key := params[key]];
      }
      assert EntityKeys[..i + 1] == EntityKeys[..i] + [key];
      i := i + 1;
    }
    assert EntityKeys[..i] == EntityKeys;
  }

  const ConfirmRequired: Params :=
    map["status" := Str("error"), "message" := Str("Delete all operation requires confirmation (confirm=true)")]

  const FilterRequired: Params :=
    map["status" := Str("error"), "message" := Str("At least one filter (user_id, agent_id, app_id, run_id) is required")]

  /** `DeleteAllOperation.execute_single`: it never raises; it refuses
      without a truthy `confirm`, then without a truthy filter, and forwards
      exactly the truthy filters to the client. */
  function DeleteAllOutcome(client: Client, ctx: OperationContext, params: Params): (r: Result<Params>)
    ensures r.Ok?
    ensures !HasClient(ctx) ==> r.value == ClientMissing
    ensures HasClient(ctx) && !Truthy(Get(params, "confirm")) ==> r.value == ConfirmRequired
    ensures HasClient(ctx) && Truthy(Get(params, "confirm")) && (forall k :: k in EntityKeys ==> !Truthy(Get(params, k))) ==>
      r.value == FilterRequired
    ensures "filters" in r.value <==>
      && HasClient(ctx) && Truthy(Get(params, "confirm"))
      && (exists k :: k in EntityKeys && Truthy(Get(params, k)))
      && client.deleteAll(EntityFilters(params)).Ok?
    ensures "filters" in r.value ==>
      r.value == map["status" := Str("success"), "data" := client.deleteAll(EntityFilters(params)).value,
                     "operation" := Str("delete_all"), "filters" := Dict(EntityFilters(params))]
    ensures HasClient(ctx) && Truthy(Get(params, "confirm")) && |EntityFilters(params)| > 0
            && client.deleteAll(EntityFilters(params)).Err? ==>
      r.value == HandleError(ctx, client.deleteAll(EntityFilters(params)).error)
  {
    if !HasClient(ctx) then Ok(ClientMissing)
    else if !Truthy(Get(params, "confirm")) then Ok(ConfirmRequired)
    else
      var entity := EntityFilters(params);
      if |entity| == 0 then
        assert forall k :: k in EntityKeys && Truthy(Get(params, k)) ==> k in entity;
        Ok(FilterRequired)
      else
        assert exists k :: k in EntityKeys && Truthy(Get(params, k)) by {
          var k :| k in entity;
        }
        match client.deleteAll(entity)
        case Ok(result) =>
          Ok(map["status" := Str("success"), "data" := result, "operation" := Str("delete_all"), "filters" := Dict(entity)])
        case Err(e) => Ok(HandleError(ctx, e))
  }

  const DeleteAllParameters: seq<ParameterDefinition> :=
    [ParameterDefinition("user_id", StringType, "User ID filter", false, Null, [], None),
     ParameterDefinition("agent_id", StringType, "Agent ID filter", false, Null, [], None),
     ParameterDefinition("app_id", StringType, "App ID filter", false, Null, [], None),
     ParameterDefinition("run_id", StringType, "Run ID filter", false, Null, [], None),
     ParameterDefinition("confirm", BooleanType, "Confirmation flag", true, Null, [], None)]

  /** `DeleteAllOperation`: its batch step answers nothing. */
  function DeleteAllHandler(client: Client): Handler
  {
    Batch(DeleteAllParameters, NoHook, NoHook,
          (ctx: OperationContext, items: seq<Value>) => Ok([]),
          (ctx: OperationContext, p: Params) => DeleteAllOutcome(client, ctx, p))
  }

  /** Through `__call__`, a valid `delete_all` call is `execute_single` on
      the validated parameters. */
  lemma DeleteAllThroughCall(client: Client, ctx: OperationContext, params: Params)
    requires ValidationOutcome(DeleteAllParameters, params).Ok?
    ensures Call(DeleteAllHandler(client), ctx, params)
         == DeleteAllOutcome(client, ctx, Validated(DeleteAllParameters, params)).value
  {
    NotDeclared(DeleteAllParameters, params, "items");
  }

  // ---------------------------------------------------------------------
  // The plugin

  /** `BatchOperationsPlugin.metadata`. */
  const BatchMetadata: PluginMetadata :=
    NewMetadata("batch_operations", "1.0.0", "Adds batch update and delete operations to memory management",
                Some("Mem0 Team"), None, Some(["batch_operations"]), None)

  /** The plugin as the registry sees it: an operation plugin for
      `mem0_memory` whose three operations have handler ids 0, 1 and 2
      (only middleware carry a meaningful priority). */
  const BatchClass: PluginClass :=
    PluginClass("BatchOperationsPlugin", BatchMetadata, {OperationKind}, "mem0_memory",
                map["batch_update" := 0, "batch_delete" := 1, "delete_all" := 2], 100, "", "")

  /** The handler behind each id of `BatchClass`: the operations as the
      plugin writes them, so `batch_update` and `batch_delete` answer as
      `BatchUpdateNeverBatches` and `BatchDeleteNeverBatches` say. */
  function HandlerOf(client: Client): HandlerId -> Handler
  {
    (id: HandlerId) =>
      if id == 0 then UpdateHandler(client)
      else if id == 1 then DeleteHandler(client)
      else DeleteAllHandler(client)
  }

  /** The plugin is `batch_operations`, targets `mem0_memory`, and routes
      each of its three operations to its own handler. */
  lemma BatchRouting(client: Client)
    ensures BatchClass.metadata.name == "batch_operations" && BatchClass.toolName == "mem0_memory"
    ensures BatchClass.operations.Keys == {"batch_update", "batch_delete", "delete_all"}
    ensures HandlerOf(client)(BatchClass.operations["batch_update"]) == UpdateHandler(client)
    ensures HandlerOf(client)(BatchClass.operations["batch_delete"]) == DeleteHandler(client)
    ensures HandlerOf(client)(BatchClass.operations["delete_all"]) == DeleteAllHandler(client)
  {
  }
}
