/**
 * `_build_filters`, which the export and graph tools each define the same
 * way (mem0_mcp/tools/mem0_export.py and mem0_mcp/tools/mem0_graph.py): the
 * caller's `filters` with a truthy `user_id` or `agent_id` laid over them.
 */
module ToolFilters {
  import opened Values
  import opened Lists

  /** The ids `_build_filters` lays over the filters, in order. */
  const IdKeys: seq<string> := ["user_id", "agent_id"]

  /** `filters[key] = ...` on a value that is not a dict. */
  function NoItemAssignment(v: Value): PyError
  {
    PyError("TypeError", TypeName(v) + " object does not support item assignment")
  }

  /** The filters after laying the first `n` ids over `base`. */
  function Overlay(base: Value, params: Params, n: nat): Result<Value>
    requires n <= |IdKeys|
  {
    if n == 0 then Ok(base)
    else
      var acc :- Overlay(base, params, n - 1);
      var key := IdKeys[n - 1];
      if key in params && Truthy(params[key]) then
        if acc.Dict? then Ok(Dict(acc.entries[key := params[key]])) else Err(NoItemAssignment(acc))
      else Ok(acc)
  }

  /** `_build_filters`. */
  function BuildFilters(params: Params): Result<Value>
  {
    Overlay(GetOr(params, "filters", Dict(map[])), params, |IdKeys|)
  }

  /** The ids given with a truthy value. */
  function GivenIds(params: Params): set<string>
  {
    set k | k in IdKeys && k in params && Truthy(params[k])
  }

  /** `_build_filters` answers the given filters (an empty dict by default)
      with every truthy id overriding and nothing else changed; a `filters`
      that is not a dict raises once an id has to be written into it. */
  lemma FiltersOverride(params: Params)
    ensures var base := GetOr(params, "filters", Dict(map[]));
      var ids := GivenIds(params);
      var r := BuildFilters(params);
      && (r.Err? <==> !base.Dict? && ids != {})
      && (r.Err? ==> r.error == NoItemAssignment(base))
      && (ids == {} ==> r == Ok(base))
      && (r.Ok? && base.Dict? ==>
            && r.value.Dict? && r.value.entries.Keys == base.entries.Keys + ids
            && (forall k :: k in ids ==> r.value.entries[k] == params[k])
            && (forall k :: k in base.entries && k !in ids ==> r.value.entries[k] == base.entries[k]))
  {
    var base := GetOr(params, "filters", Dict(map[]));
    var u := "user_id" in params && Truthy(params["user_id"]);
    var a := "agent_id" in params && Truthy(params["agent_id"]);
    assert GivenIds(params) == (if u then {"user_id"} else {}) + (if a then {"agent_id"} else {});
    if base.Dict? {
      var m1 := if u then base.entries["user_id" := params["user_id"]] else base.entries;
      assert Overlay(base, params, 1) == Ok(Dict(m1));
      var m2 := if a then m1["agent_id" := params["agent_id"]] else m1;
      assert BuildFilters(params) == Ok(Dict(m2));
      assert m1.Keys == base.entries.Keys + (if u then {"user_id"} else {});
      assert m2.Keys == m1.Keys + (if a then {"agent_id"} else {});
    } else if u {
      assert Overlay(base, params, 1) == Err(NoItemAssignment(base));
    } else {
      assert Overlay(base, params, 1) == Ok(base);
    }
  }

  /** The caller's arguments after `_build_filters`: a given `filters` dict
      is the object written into, so the caller sees the built filters. */
  function CallerAfter(params: Params): Params
  {
    if "filters" in params && BuildFilters(params).Ok? then params["filters" := BuildFilters(params).value] else params
  }

  /** The overlay reads nothing of the params but the ids. */
  lemma {:induction false} OverlayReadsIds(base: Value, p: Params, q: Params, n: nat)
    requires n <= |IdKeys|
    requires forall k :: k in IdKeys ==> (k in p <==> k in q) && (k in p ==> p[k] == q[k])
    ensures Overlay(base, p, n) == Overlay(base, q, n)
  {
    if n > 0 {
      OverlayReadsIds(base, p, q, n - 1);
    }
  }

  /** Building the filters again from what the caller now holds gives the
      same filters: the ids already written are written again unchanged. */
  lemma RebuildSame(params: Params)
    ensures BuildFilters(CallerAfter(params)) == BuildFilters(params)
  {
    var after := CallerAfter(params);
    if "filters" in params && BuildFilters(params).Ok? && params["filters"].Dict? {
      var base := params["filters"].entries;
      var u := "user_id" in params && Truthy(params["user_id"]);
      var a := "agent_id" in params && Truthy(params["agent_id"]);
      var m1 := if u then base["user_id" := params["user_id"]] else base;
      assert Overlay(Dict(base), params, 1) == Ok(Dict(m1));
      var m2 := if a then m1["agent_id" := params["agent_id"]] else m1;
      assert BuildFilters(params) == Ok(Dict(m2));
      OverlayReadsIds(Dict(m2), after, params, 2);
      var n1 := if u then m2["user_id" := params["user_id"]] else m2;
      assert n1 == m2;
      assert Overlay(Dict(m2), params, 1) == Ok(Dict(n1));
      var n2 := if a then n1["agent_id" := params["agent_id"]] else n1;
      assert n2 == m2;
      assert Overlay(Dict(m2), params, 2) == Ok(Dict(n2));
    } else if "filters" in params && BuildFilters(params).Ok? {
      FiltersOverride(params);
      assert after == params;
    }
  }

  /** `_build_filters`, the loop as written; `after` is the caller's
      arguments once the loop has written into their `filters`. */
  method BuildFiltersLoop(params: Params) returns (r: Result<Value>, after: Params)
    ensures r == BuildFilters(params)
    ensures after == CallerAfter(params)
  {
    var filters := GetOr(params, "filters", Dict(map[]));
    after := params;
    var i := 0;
    while i < |IdKeys|
      invariant 0 <= i <= |IdKeys|
      invariant Overlay(GetOr(params, "filters", Dict(map[])), params, i) == Ok(filters)
      invariant !filters.Dict? ==> filters == GetOr(params, "filters", Dict(map[]))
      invariant after == if "filters" in params then params["filters" := filters] else params
    {
      var key := IdKeys[i];
      if key in params && Truthy(params[key]) {
        if !filters.Dict? {
          assert Overlay(GetOr(params, "filters", Dict(map[])), params, i + 1) == Err(NoItemAssignment(filters));
          assert after == params;
          return Err(NoItemAssignment(filters)), after;
        }
        filters := Dict(filters.entries[key := params[key]]);
        if "filters" in params {
          after := after["filters" := filters];
        }
      }
      i := i + 1;
    }
    r := Ok(filters);
  }
}
