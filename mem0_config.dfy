/**
 * The configuration tool (mem0_mcp/tools/mem0_config.py): reading the
 * project settings with an optional field selection, building the payload
 * of a project update, and validating a configuration dict.  The memory
 * service's project calls are parameters, and so is the outcome of writing
 * the local configuration after an update.
 */
module Mem0Config {
  import opened Values
  import opened Lists
  import opened BaseOperation
  import ConfigManager

  /** The project calls of the memory service client. */
  datatype ProjectClient = ProjectClient(project: Result<Params>, updateProject: Params -> Result<Value>)

  // ---------------------------------------------------------------------
  // get_project

  /** The filtering loop of `GetProjectOperation.execute`: each requested
      field present in `info`, in turn; a list or dict among the fields
      raises on the first one. */
  function Selected(info: Params, fields: seq<Value>): Result<Params>
    decreases |fields|
  {
    if |fields| == 0 then Ok(map[])
    else
      var m :- Selected(info, fields[..|fields| - 1]);
      var field := fields[|fields| - 1];
      if field.List? || field.Dict? then Err(Unhashable(field))
      else if field.Str? && field.s in info then Ok(m[field.s := info[field.s]])
      else Ok(m)
  }

  /** The selection succeeds exactly when no field is a list or dict, and
      then holds exactly the named fields `info` has, with their values. */
  lemma {:induction false} SelectedExact(info: Params, fields: seq<Value>)
    ensures Selected(info, fields).Ok? <==> forall i :: 0 <= i < |fields| ==> !fields[i].List? && !fields[i].Dict?
    ensures Selected(info, fields).Ok? ==>
      && (forall k :: k in Selected(info, fields).value <==> k in info && Str(k) in fields)
      && (forall k :: k in Selected(info, fields).value ==> Selected(info, fields).value[k] == info[k])
    decreases |fields|
  {
    if |fields| > 0 {
      var init := fields[..|fields| - 1];
      var field := fields[|fields| - 1];
      assert forall v :: v in fields <==> v in init || v == field;
      assert forall i :: 0 <= i < |init| ==> init[i] == fields[i];
      SelectedExact(info, init);
    }
  }

  /** Once a prefix of the fields raises, the whole selection raises the
      same error. */
  lemma {:induction false} SelectedStops(info: Params, fields: seq<Value>, n: nat)
    requires n <= |fields| && Selected(info, fields[..n]).Err?
    ensures Selected(info, fields) == Selected(info, fields[..n])
    decreases |fields|
  {
    if n < |fields| {
      assert fields[..|fields| - 1][..n] == fields[..n];
      SelectedStops(info, fields[..|fields| - 1], n);
    } else {
      assert fields[..n] == fields;
    }
  }

  /** The filtering loop as written. */
  method SelectFields(info: Params, fields: seq<Value>) returns (r: Result<Params>)
    ensures r == Selected(info, fields)
  {
    var filtered: Params := map[];
    var i := 0;
    while i < |fields|
      invariant 0 <= i <= |fields|
      invariant Selected(info, fields[..i]) == Ok(filtered)
    {
      assert fields[..i + 1][..i] == fields[..i];
      var field := fields[i];
      if field.List? || field.Dict? {
        assert Selected(info, fields[..i + 1]) == Err(Unhashable(field));
        SelectedStops(info, fields, i + 1);
        return Err(Unhashable(field));
      }
      if field.Str? && field.s in info {
        filtered := filtered[field.s := info[field.s]];
      }
      i := i + 1;
    }
    assert fields[..i] == fields;
    r := Ok(filtered);
  }

  /** The `local_config` a configuration manager contributes. */
  function LocalConfig(config: Params): Params
  {
    map["defaults" := ConfigManager.Lookup(config, "defaults", Dict(map[])),
        "features" := ConfigManager.Lookup(config, "features", Dict(map[])),
        "performance" := ConfigManager.Lookup(config, "performance", Dict(map[]))]
  }

  /** The project info with the manager's `local_config` merged in. */
  function Merged(info: Params, manager: Option<Params>): Params
  {
    if manager.Some? then info["local_config" := Dict(LocalConfig(manager.value))] else info
  }

  /** The field selection of `GetProjectOperation.execute`: with falsy
      `fields` the whole info; otherwise what `for field in fields` visits
      (a list's items, a string's characters, a dict's keys); a value that
      cannot be iterated raises. */
  function FilterInfo(info: Params, fields: Value): Result<Params>
  {
    if !Truthy(fields) then Ok(info)
    else match fields
      case List(items) => Selected(info, items)
      case Str(s) => Selected(info, Chars(s))
      case Dict(e) => Ok(map k | k in info && k in e :: info[k])
      case _ => Err(NotIterable(fields))
  }

  /** The selection raises exactly for a number, a `True`, or a list holding
      a list or dict; otherwise it keeps exactly the requested fields that
      `info` has, with their values. */
  lemma FilterInfoExact(info: Params, fields: Value)
    ensures FilterInfo(info, fields).Ok? <==>
      !Truthy(fields) || fields.Str? || fields.Dict? ||
      (fields.List? && forall i :: 0 <= i < |fields.items| ==> !fields.items[i].List? && !fields.items[i].Dict?)
    ensures !Truthy(fields) ==> FilterInfo(info, fields) == Ok(info)
    ensures Truthy(fields) && FilterInfo(info, fields).Ok? ==>
      var kept := FilterInfo(info, fields).value;
      && (forall k :: k in kept ==> k in info && kept[k] == info[k])
      && (fields.List? ==> forall k :: k in info && Str(k) in fields.items ==> k in kept)
      && (fields.Str? ==> forall k :: k in info && |k| == 1 && k[0] in fields.s ==> k in kept)
      && (fields.Dict? ==> forall k :: k in info && k in fields.entries ==> k in kept)
  {
    if Truthy(fields) {
      match fields
      case List(items) => SelectedExact(info, items);
      case Str(s) =>
        var cs := Chars(s);
        SelectedExact(info, cs);
        forall k | k in info && |k| == 1 && k[0] in s
          ensures k in FilterInfo(info, fields).value
        {
          var i :| 0 <= i < |s| && s[i] == k[0];
          assert k == [s[i]];
          assert cs[i] == Str(k);
        }
      case Dict(e) =>
      case _ =>
    }
  }

  /** `GetProjectOperation.execute`; `manager` is the configuration of the
      context's configuration manager, if it has one. */
  function GetProject(client: ProjectClient, manager: Option<Params>, ctx: OperationContext, params: Params): Params
  {
    if !HasClient(ctx) then ClientMissing
    else match client.project
      case Err(e) => HandleError(ctx, e)
      case Ok(info) =>
        match FilterInfo(Merged(info, manager), Get(params, "fields"))
        case Err(e) => HandleError(ctx, e)
        case Ok(data) => Answered("get_project", Dict(data))
  }

  /** The success payload of a configuration operation. */
  function Answered(op: string, data: Value): Params
  {
    map["status" := Str("success"), "data" := data, "operation" := Str(op)]
  }

  /** With a client whose project call answers, `get_project` succeeds with
      the selected fields of the merged info, and otherwise reports the
      selection's error through `handle_error`. */
  lemma GetProjectAnswers(client: ProjectClient, manager: Option<Params>, ctx: OperationContext, params: Params)
    requires HasClient(ctx) && client.project.Ok?
    ensures var sel := FilterInfo(Merged(client.project.value, manager), Get(params, "fields"));
      var r := GetProject(client, manager, ctx, params);
      && (sel.Ok? ==> r["status"] == Str("success") && r["data"] == Dict(sel.value))
      && (sel.Err? ==> r == HandleError(ctx, sel.error))
      && (!Truthy(Get(params, "fields")) ==> r["data"] == Dict(Merged(client.project.value, manager)))
  {
  }

  // ---------------------------------------------------------------------
  // update_project

  /** The project settings `update_project` forwards, in payload order. */
  const UpdateKeys: seq<string> := ["custom_instructions", "custom_categories", "retrieval_criteria"]

  /** The payload `update_project` sends. */
  function UpdateData(params: Params): Params
  {
    map k | k in params && k in UpdateKeys :: params[k]
  }

  /** The building of `update_data`: the payload, and its keys in insertion
      order, which the answer reports as `updated_fields`. */
  method BuildUpdate(params: Params) returns (data: Params, fields: seq<string>)
    ensures fields == Filter(UpdateKeys, InMap(params))
    ensures data == UpdateData(params)
  {
    data := map[];
    fields := [];
    if "custom_instructions" in params {
      data := data["custom_instructions" := params["custom_instructions"]];
      fields := fields + ["custom_instructions"];
    }
    if "custom_categories" in params {
      data := data["custom_categories" := params["custom_categories"]];
      fields := fields + ["custom_categories"];
    }
    if "retrieval_criteria" in params {
      data := data["retrieval_criteria" := params["retrieval_criteria"]];
      fields := fields + ["retrieval_criteria"];
    }
    UpdatedFieldsExact(params);
    assert data.Keys == UpdateData(params).Keys;
  }

  /** `UpdateProjectOperation.execute`; `local` is the outcome of writing
      `enable_graph` and `version` into the local configuration and saving
      it (`Ok` when the context has no configuration manager). */
  function UpdateProject(client: ProjectClient, local: Result<()>, ctx: OperationContext, params: Params): Params
  {
    if !HasClient(ctx) then ClientMissing
    else match client.updateProject(UpdateData(params))
      case Err(e) => HandleError(ctx, e)
      case Ok(result) =>
        if local.Err? then HandleError(ctx, local.error)
        else Answered("update_project", result)["updated_fields" := List(Strs(Filter(UpdateKeys, InMap(params))))]
  }

  function Strs(ss: seq<string>): (r: seq<Value>)
    ensures |r| == |ss| && forall i :: 0 <= i < |ss| ==> r[i] == Str(ss[i])
  {
    seq(|ss|, i requires 0 <= i < |ss| => Str(ss[i]))
  }

  /** `updated_fields` lists, in the order of `UpdateKeys`, exactly the
      settings the call passed, and the payload holds exactly those. */
  lemma UpdatedFieldsExact(params: Params)
    ensures Filter(UpdateKeys, InMap(params)) ==
      (if "custom_instructions" in params then ["custom_instructions"] else [])
      + (if "custom_categories" in params then ["custom_categories"] else [])
      + (if "retrieval_criteria" in params then ["retrieval_criteria"] else [])
    ensures UpdateData(params).Keys == params.Keys * {"custom_instructions", "custom_categories", "retrieval_criteria"}
  {
    assert UpdateKeys == ["custom_instructions"] + (["custom_categories"] + ["retrieval_criteria"]);
    FilterAppend(["custom_instructions"], ["custom_categories"] + ["retrieval_criteria"], InMap(params));
    FilterAppend(["custom_categories"], ["retrieval_criteria"], InMap(params));
    FilterSingle("custom_instructions", InMap(params));
    FilterSingle("custom_categories", InMap(params));
    FilterSingle("retrieval_criteria", InMap(params));
  }

  // ---------------------------------------------------------------------
  // validate

  const VersionList: seq<Value> := [Str("v1"), Str("v1.1"), Str("v2")]

  const KeyRequired := "API key is required"
  const GraphWarning := "Graph memory enabled but no graph store configured"

  /** `ConfigValidationOperation.execute` on the `config` it is given; a
      `config` or section that is not a dict raises on `.get`. */
  function ValidateConfig(config: Value): Result<Params>
  {
    var api :- DictGet(config, "api", Dict(map[]));
    var key :- DictGet(api, "key", Null);
    var errors := if Truthy(key) then [] else [Str(KeyRequired)];
    var features :- DictGet(config, "features", Dict(map[]));
    var graph :- DictGet(features, "graph_memory", Null);
    var graphWarnings := if Truthy(graph) && !Truthy(GetOr(config.entries, "graph_store", Null)) then [Str(GraphWarning)] else [];
    var version :- DictGet(api, "version", Str("v2"));
    var versionWarnings := if version in VersionList then [] else [Str("Unknown API version: " + PyStr(version))];
    Ok(map["status" := Str(if |errors| == 0 then "success" else "error"), "valid" := Bool(|errors| == 0),
           "errors" := List(errors), "warnings" := List(graphWarnings + versionWarnings),
           "operation" := Str("validate")])
  }

  /** The config sections the checks read. */
  function ApiOf(config: map<string, Value>): Value
  {
    GetOr(config, "api", Dict(map[]))
  }

  function FeaturesOf(config: map<string, Value>): Value
  {
    GetOr(config, "features", Dict(map[]))
  }

  /** Validation answers for a dict whose `api` and `features` sections are
      dicts, and raises otherwise. */
  lemma ValidateAnswers(config: Value)
    ensures ValidateConfig(config).Ok? <==> config.Dict? && ApiOf(config.entries).Dict? && FeaturesOf(config.entries).Dict?
  {
  }

  /** The API key check: the one error, present exactly when `api.key` is
      falsy, and it alone decides `status` and `valid`. */
  lemma ValidateKey(config: map<string, Value>)
    requires ApiOf(config).Dict? && FeaturesOf(config).Dict?
    ensures var r := ValidateConfig(Dict(config)).value;
      var missing := !Truthy(GetOr(ApiOf(config).entries, "key", Null));
      && r["errors"] == List(if missing then [Str(KeyRequired)] else [])
      && r["valid"] == Bool(!missing)
      && r["status"] == Str(if missing then "error" else "success")
  {
  }

  /** Warnings never affect validity: two configurations that differ only in
      their graph and version settings are equally valid. */
  lemma WarningsIgnored(config: map<string, Value>, graph: Value, store: Value, version: Value)
    requires ApiOf(config).Dict? && FeaturesOf(config).Dict?
    ensures var api := ApiOf(config).entries;
      var other := config["api" := Dict(api["version" := version])]
                         ["features" := Dict(FeaturesOf(config).entries["graph_memory" := graph])]
                         ["graph_store" := store];
      && ValidateConfig(Dict(other)).Ok?
      && ValidateConfig(Dict(other)).value["valid"] == ValidateConfig(Dict(config)).value["valid"]
      && ValidateConfig(Dict(other)).value["errors"] == ValidateConfig(Dict(config)).value["errors"]
  {
    var api := ApiOf(config).entries;
    var other := config["api" := Dict(api["version" := version])]
                       ["features" := Dict(FeaturesOf(config).entries["graph_memory" := graph])]
                       ["graph_store" := store];
    assert ApiOf(other) == Dict(api["version" := version]);
    assert GetOr(ApiOf(other).entries, "key", Null) == GetOr(api, "key", Null);
  }

  /** The warnings, in order: the graph warning exactly when graph memory is
      enabled and no graph store is configured, then the version warning
      exactly when the version (`v2` by default) is not a known one. */
  lemma ValidateWarnings(config: map<string, Value>)
    requires ApiOf(config).Dict? && FeaturesOf(config).Dict?
    ensures var version := GetOr(ApiOf(config).entries, "version", Str("v2"));
      var graphOn := Truthy(GetOr(FeaturesOf(config).entries, "graph_memory", Null));
      ValidateConfig(Dict(config)).value["warnings"] ==
        List((if graphOn && !Truthy(GetOr(config, "graph_store", Null)) then [Str(GraphWarning)] else [])
             + (if version in VersionList then [] else [Str("Unknown API version: " + PyStr(version))]))
  {
  }

  /** Without a version the API version is `v2`, which draws no warning. */
  lemma DefaultVersion(config: map<string, Value>)
    requires ApiOf(config).Dict? && FeaturesOf(config).Dict?
    requires "version" !in ApiOf(config).entries
    ensures var w := ValidateConfig(Dict(config)).value["warnings"].items;
      forall i :: 0 <= i < |w| ==> w[i] == Str(GraphWarning)
  {
  }

  /** The declared parameters of `validate`. */
  const ValidateParameters: seq<ParameterDefinition> :=
    [ParameterDefinition("config", ObjectType, "Configuration to validate", true, Null, [], None),
     ParameterDefinition("schema", ObjectType, "Validation schema", false, Null, [], None)]

  /** `ConfigValidationOperation`: it has no `try`, so a `.get` on a section
      that is not a dict reaches `__call__`'s error payload. */
  const ValidateHandler: Handler :=
    Leaf(ValidateParameters, NoHook, NoHook,
         (ctx: OperationContext, p: Params) => ValidateConfig(GetOr(p, "config", Dict(map[]))))
}
