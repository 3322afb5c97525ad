/**
 * The graph tool (mem0_mcp/tools/mem0_graph.py): adding to, searching,
 * listing and clearing graph memory through the context's graph client, and
 * normalising the graph into nodes and edges for a visualisation.  The
 * graph client's calls are parameters.
 */
module Mem0Graph {
  import opened Values
  import opened BaseOperation
  import opened ToolFilters

  /** The graph client: `add(data, filters)`,
      `search(query, filters, limit, threshold)`, `get_all(filters)` and
      `delete_all(filters)`. */
  datatype GraphClient = GraphClient(add: (Value, Value) -> Result<Value>,
                                     search: (Value, Value, Value, Value) -> Result<Value>,
                                     getAll: Value -> Result<Value>,
                                     deleteAll: Value -> Result<Value>)

  /** The operations of the tool. */
  datatype GraphOp = Add | Search | GetAll | DeleteAll | Visualize

  /** A context whose metadata carries a graph client. */
  predicate HasGraph(ctx: OperationContext)
  {
    Truthy(Get(ctx.metadata, "graph_client"))
  }

  const NoGraph: Params := map["error" := Str("Graph memory not enabled or configured")]

  /** `params[key]`. */
  function Required(params: Params, key: string): Result<Value>
  {
    if key in params then Ok(params[key]) else Err(PyError("KeyError", "'" + key + "'"))
  }

  /** The `execute` of each graph operation: no graph client answers
      `NoGraph`, and any exception inside the `try` goes through
      `handle_error`. */
  function Run(op: GraphOp, client: GraphClient, ctx: OperationContext, params: Params): Params
  {
    if !HasGraph(ctx) then NoGraph else Answer(ctx, Outcome(op, client, params))
  }

  /** The body of each operation's `try`. */
  function Outcome(op: GraphOp, client: GraphClient, params: Params): Result<Params>
  {
    var filters :- BuildFilters(params);
    match op
    case Add => AddOutcome(client, params, filters)
    case Search => SearchOutcome(client, params, filters)
    case GetAll => GetAllOutcome(client, filters)
    case DeleteAll =>
      var result :- client.deleteAll(filters);
      Ok(map["status" := Str("success"), "data" := result, "operation" := Str("delete_all"),
             "message" := Str("Graph data cleared successfully")])
    case Visualize => VisualizeOutcome(client, filters)
  }

  function AddOutcome(client: GraphClient, params: Params, filters: Value): Result<Params>
  {
    var data :- Required(params, "data");
    var result :- client.add(data, filters);
    var entities :- DictGet(result, "added_entities", List([]));
    var relations :- DictGet(result, "added_relations", List([]));
    Ok(map["status" := Str("success"), "data" := result, "operation" := Str("add"),
           "added_entities" := entities, "added_relations" := relations])
  }

  function SearchOutcome(client: GraphClient, params: Params, filters: Value): Result<Params>
  {
    var query :- Required(params, "query");
    var result :- client.search(query, filters, GetOr(params, "limit", Int(100)), GetOr(params, "threshold", Real(0.7)));
    var relationships :- DictGet(result, "relationships", List([]));
    var count :- PyLen(relationships);
    Ok(map["status" := Str("success"), "data" := result, "operation" := Str("search"), "query" := query,
           "relationships" := relationships, "count" := Int(count)])
  }

  function GetAllOutcome(client: GraphClient, filters: Value): Result<Params>
  {
    var result :- client.getAll(filters);
    var nodes :- DictGet(result, "nodes", List([]));
    var edges :- DictGet(result, "edges", List([]));
    var nodeCount :- PyLen(nodes);
    var edgeCount :- PyLen(edges);
    Ok(map["status" := Str("success"), "data" := result, "operation" := Str("get_all"),
           "nodes" := nodes, "edges" := edges, "node_count" := Int(nodeCount), "edge_count" := Int(edgeCount)])
  }

  /** With no graph client every operation answers the same error, whatever
      the parameters. */
  lemma NoGraphClient(op: GraphOp, client: GraphClient, ctx: OperationContext, params: Params)
    requires !HasGraph(ctx)
    ensures Run(op, client, ctx, params) == NoGraph
  {
  }

  /** Every operation queries the graph with the built filters, and fails
      before any call when they cannot be built. */
  lemma FiltersFirst(op: GraphOp, client: GraphClient, params: Params)
    ensures BuildFilters(params).Err? ==> Outcome(op, client, params) == Err(BuildFilters(params).error)
    ensures op == GetAll && BuildFilters(params).Ok? ==>
      Outcome(op, client, params) == GetAllOutcome(client, BuildFilters(params).value)
  {
  }

  /** `search` counts the relationships it returns. */
  lemma SearchCount(client: GraphClient, params: Params, filters: Value)
    requires "query" in params
    requires client.search(params["query"], filters, GetOr(params, "limit", Int(100)), GetOr(params, "threshold", Real(0.7))).Ok?
    ensures var result := client.search(params["query"], filters, GetOr(params, "limit", Int(100)), GetOr(params, "threshold", Real(0.7))).value;
      var r := SearchOutcome(client, params, filters);
      result.Dict? && GetOr(result.entries, "relationships", List([])).List? ==>
        && r.Ok?
        && r.value["relationships"].List?
        && r.value["count"] == Int(|r.value["relationships"].items|)
  {
  }

  /** `get_all` counts the nodes and edges it returns. */
  lemma GetAllCounts(client: GraphClient, filters: Value, graph: map<string, Value>)
    requires client.getAll(filters) == Ok(Dict(graph))
    requires GetOr(graph, "nodes", List([])).List? && GetOr(graph, "edges", List([])).List?
    ensures var r := GetAllOutcome(client, filters);
      && r.Ok?
      && r.value["nodes"] == GetOr(graph, "nodes", List([])) && r.value["edges"] == GetOr(graph, "edges", List([]))
      && r.value["node_count"] == Int(|r.value["nodes"].items|)
      && r.value["edge_count"] == Int(|r.value["edges"].items|)
  {
  }

  // ---------------------------------------------------------------------
  // visualize

  /** What a comprehension over `v` visits when it calls `.get` on every
      element: a list's items, a string's characters; a dict's keys are
      strings too, so a non-empty dict raises on the first key; other
      values cannot be iterated. */
  function Visited(v: Value): Result<seq<Value>>
  {
    match v
    case List(items) => Ok(items)
    case Str(s) => Ok(Chars(s))
    case Dict(e) => if e == map[] then Ok([]) else Err(NoGet(Str("")))
    case _ => Err(NotIterable(v))
  }

  /** One visualised node. */
  function Node(node: Value): Result<Value>
  {
    if !node.Dict? then Err(NoGet(node))
    else
      var e := node.entries;
      Ok(Dict(map["id" := GetOr(e, "id", Null), "label" := GetOr(e, "label", GetOr(e, "id", Null)),
                  "type" := GetOr(e, "type", Str("default")), "properties" := GetOr(e, "properties", Dict(map[]))]))
  }

  /** One visualised edge. */
  function Edge(edge: Value): Result<Value>
  {
    if !edge.Dict? then Err(NoGet(edge))
    else
      var e := edge.entries;
      Ok(Dict(map["source" := GetOr(e, "source", Null), "target" := GetOr(e, "target", Null),
                  "label" := GetOr(e, "label", Str("")), "type" := GetOr(e, "type", Str("default")),
                  "properties" := GetOr(e, "properties", Dict(map[]))]))
  }

  /** A node keeps its id, label, type and properties, with the label
      defaulting to the id, the type to `default` and the properties to an
      empty dict. */
  lemma NodeDefaults(node: map<string, Value>)
    ensures Node(Dict(node)).Ok? && Node(Dict(node)).value.Dict?
    ensures var v := Node(Dict(node)).value.entries;
      && v.Keys == {"id", "label", "type", "properties"}
      && v["id"] == GetOr(node, "id", Null)
      && ("label" in node ==> v["label"] == node["label"]) && ("label" !in node ==> v["label"] == v["id"])
      && ("type" in node ==> v["type"] == node["type"]) && ("type" !in node ==> v["type"] == Str("default"))
      && ("properties" in node ==> v["properties"] == node["properties"])
      && ("properties" !in node ==> v["properties"] == Dict(map[]))
  {
  }

  /** An edge keeps its endpoints, label, type and properties, with the
      label defaulting to an empty string, the type to `default` and the
      properties to an empty dict. */
  lemma EdgeDefaults(edge: map<string, Value>)
    ensures Edge(Dict(edge)).Ok? && Edge(Dict(edge)).value.Dict?
    ensures var v := Edge(Dict(edge)).value.entries;
      && v.Keys == {"source", "target", "label", "type", "properties"}
      && v["source"] == GetOr(edge, "source", Null) && v["target"] == GetOr(edge, "target", Null)
      && ("label" in edge ==> v["label"] == edge["label"]) && ("label" !in edge ==> v["label"] == Str(""))
      && ("type" in edge ==> v["type"] == edge["type"]) && ("type" !in edge ==> v["type"] == Str("default"))
      && ("properties" in edge ==> v["properties"] == edge["properties"])
      && ("properties" !in edge ==> v["properties"] == Dict(map[]))
  {
  }

  /** `[f(x) for x in items]`, raising at the first element `f` rejects. */
  function MapAll(items: seq<Value>, f: Value -> Result<Value>): Result<seq<Value>>
    decreases |items|
  {
    if |items| == 0 then Ok([])
    else
      var init :- MapAll(items[..|items| - 1], f);
      var last :- f(items[|items| - 1]);
      Ok(init + [last])
  }

  /** The comprehension succeeds exactly when `f` accepts every element, and
      then yields one result per element, in order. */
  lemma {:induction false} MapAllExact(items: seq<Value>, f: Value -> Result<Value>)
    ensures MapAll(items, f).Ok? <==> forall i :: 0 <= i < |items| ==> f(items[i]).Ok?
    ensures MapAll(items, f).Ok? ==>
      && |MapAll(items, f).value| == |items|
      && forall i :: 0 <= i < |items| ==> MapAll(items, f).value[i] == f(items[i]).value
    decreases |items|
  {
    if |items| > 0 {
      var init := items[..|items| - 1];
      assert forall i :: 0 <= i < |init| ==> init[i] == items[i];
      MapAllExact(init, f);
    }
  }

  /** A rejected first element is the comprehension's error. */
  lemma {:induction false} MapAllFirst(items: seq<Value>, f: Value -> Result<Value>)
    requires |items| > 0 && f(items[0]).Err?
    ensures MapAll(items, f) == Err(f(items[0]).error)
    decreases |items|
  {
    if |items| > 1 {
      var init := items[..|items| - 1];
      assert init[0] == items[0];
      MapAllFirst(init, f);
    }
  }

  /** The `visualization` dict's two lists. */
  function VisualizeOutcome(client: GraphClient, filters: Value): Result<Params>
  {
    var graph :- client.getAll(filters);
    var nodeList :- DictGet(graph, "nodes", List([]));
    var visitedNodes :- Visited(nodeList);
    var nodes :- MapAll(visitedNodes, Node);
    var edgeList :- DictGet(graph, "edges", List([]));
    var visitedEdges :- Visited(edgeList);
    var edges :- MapAll(visitedEdges, Edge);
    Ok(map["status" := Str("success"), "data" := Dict(map["nodes" := List(nodes), "edges" := List(edges)]),
           "operation" := Str("visualize"), "node_count" := Int(|nodes|), "edge_count" := Int(|edges|)])
  }

  /** For a graph whose node and edge lists hold dicts, the visualisation has
      one node per node and one edge per edge, in order, and counts them. */
  lemma VisualizeExact(client: GraphClient, filters: Value, graph: map<string, Value>)
    requires client.getAll(filters) == Ok(Dict(graph))
    requires GetOr(graph, "nodes", List([])).List? && GetOr(graph, "edges", List([])).List?
    ensures var given := GetOr(graph, "nodes", List([])).items;
      var givenEdges := GetOr(graph, "edges", List([])).items;
      var r := VisualizeOutcome(client, filters);
      && (r.Ok? <==> (forall i :: 0 <= i < |given| ==> given[i].Dict?) && (forall i :: 0 <= i < |givenEdges| ==> givenEdges[i].Dict?))
      && (r.Ok? ==>
            && r.value["data"].Dict? && "nodes" in r.value["data"].entries && "edges" in r.value["data"].entries
            && var nodes := r.value["data"].entries["nodes"].items;
               var edges := r.value["data"].entries["edges"].items;
               && |nodes| == |given| && |edges| == |givenEdges|
               && (forall i :: 0 <= i < |given| ==> nodes[i] == Node(given[i]).value)
               && (forall i :: 0 <= i < |givenEdges| ==> edges[i] == Edge(givenEdges[i]).value)
               && r.value["node_count"] == Int(|nodes|) && r.value["edge_count"] == Int(|edges|))
  {
    MapAllExact(GetOr(graph, "nodes", List([])).items, Node);
    MapAllExact(GetOr(graph, "edges", List([])).items, Edge);
  }

  /** A node list given as a string or dict: empty, it visualises as no
      nodes; otherwise the first element, a string, has no `.get`. */
  lemma VisualizeOddNodes(client: GraphClient, filters: Value, graph: map<string, Value>)
    requires client.getAll(filters) == Ok(Dict(graph))
    requires "nodes" in graph && (graph["nodes"].Str? || graph["nodes"].Dict?)
    ensures Len(graph["nodes"]) != Some(0) ==> VisualizeOutcome(client, filters) == Err(NoGet(Str("")))
    ensures Len(graph["nodes"]) == Some(0) && VisualizeOutcome(client, filters).Ok? ==>
      VisualizeOutcome(client, filters).value["node_count"] == Int(0)
  {
    if graph["nodes"].Dict? && graph["nodes"].entries != map[] {
      assert Len(graph["nodes"]) != Some(0);
    }
    if graph["nodes"].Str? && |graph["nodes"].s| > 0 {
      MapAllFirst(Chars(graph["nodes"].s), Node);
    }
  }

  /** The declared parameters of `search`. */
  const SearchParameters: seq<ParameterDefinition> :=
    [ParameterDefinition("query", StringType, "Search query", true, Null, [], None),
     ParameterDefinition("user_id", StringType, "User ID filter", false, Null, [], None),
     ParameterDefinition("agent_id", StringType, "Agent ID filter", false, Null, [], None),
     ParameterDefinition("filters", ObjectType, "Additional filters", false, Null, [], None),
     ParameterDefinition("limit", IntegerType, "Result limit", false, Int(100), [], None),
     ParameterDefinition("threshold", FloatType, "Similarity threshold", false, Real(0.7), [], None)]

  /** After validation `search` always has a limit and a threshold: 100 and
      0.7 unless the caller passed them. */
  lemma SearchDefaults(params: Params)
    requires "limit" !in params && "threshold" !in params
    ensures var v := Validated(SearchParameters, params);
      "limit" in v && v["limit"] == Int(100) && "threshold" in v && v["threshold"] == Real(0.7)
  {
    assert Supplied(SearchParameters[4], params) == Int(100);
    assert Supplied(SearchParameters[5], params) == Real(0.7);
    ValidatedEntry(SearchParameters, params, 4);
    ValidatedEntry(SearchParameters, params, 5);
  }
}
