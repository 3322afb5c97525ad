/**
 * The operation handler base classes (mem0_mcp/core/base_operation.py).
 *
 * A handler declares its parameters; `__call__` validates the keyword
 * arguments against them, runs the `pre_execute`, `execute` and
 * `post_execute` steps and turns any exception into the structured error of
 * `handle_error`.  The steps a subclass overrides are given as functions that
 * either return a payload or raise.
 */
module BaseOperation {
  import opened Values

  datatype ParameterType = StringType | IntegerType | FloatType | BooleanType | ObjectType | ArrayType | AnyType

  /** `ParameterDefinition`.  `choices` is `None` or a list; both `None` and
      `[]` switch the membership test off, so they are one case here. */
  datatype ParameterDefinition = ParameterDefinition(name: string, ptype: ParameterType, description: string,
                                                     required: bool, default: Value, choices: seq<Value>,
                                                     validation: Option<Value -> bool>)

  /** The number a Python `bool`, `int` or `float` compares as. */
  function Numeric(v: Value): Option<real>
  {
    match v
    case Bool(b) => Some(if b then 1.0 else 0.0)
    case Int(i) => Some(i as real)
    case Real(r) => Some(r)
    case _ => None
  }

  /** Python `==` between two values: numbers compare by value across `bool`,
      `int` and `float`; everything else compares structurally. */
  predicate PyEq(a: Value, b: Value)
  {
    if Numeric(a).Some? && Numeric(b).Some? then Numeric(a) == Numeric(b) else a == b
  }

  /** `value in choices`. */
  predicate InChoices(v: Value, choices: seq<Value>)
  {
    exists i :: 0 <= i < |choices| && PyEq(v, choices[i])
  }

  /** The `isinstance` test of each parameter type; `bool` is a subclass of
      `int` in Python, so INTEGER and FLOAT accept booleans. */
  predicate TypeAccepts(t: ParameterType, v: Value)
  {
    match t
    case StringType => v.Str?
    case IntegerType => v.Int? || v.Bool?
    case FloatType => v.Int? || v.Real? || v.Bool?
    case BooleanType => v.Bool?
    case ObjectType => v.Dict?
    case ArrayType => v.List?
    case AnyType => true
  }

  /** `ParameterDefinition.validate`. */
  predicate Validate(d: ParameterDefinition, v: Value)
  {
    if v.Null? then !d.required
    else if |d.choices| > 0 && !InChoices(v, d.choices) then false
    else if d.validation.Some? then d.validation.value(v)
    else TypeAccepts(d.ptype, v)
  }

  /** `None` is accepted exactly by an optional parameter, whatever its
      choices, custom validation or type. */
  lemma ValidateNone(d: ParameterDefinition)
    ensures Validate(d, Null) <==> !d.required
  {
  }

  /** A custom validation is consulted only after the choices test and then
      decides on its own, without the type check. */
  lemma ValidateCustom(d: ParameterDefinition, v: Value)
    requires !v.Null? && d.validation.Some?
    ensures Validate(d, v) <==> (|d.choices| == 0 || InChoices(v, d.choices)) && d.validation.value(v)
  {
  }

  /** Without choices and custom validation an INTEGER parameter accepts
      `True` and `False`, and a FLOAT parameter accepts integers. */
  lemma ValidateNumericTower(d: ParameterDefinition, b: bool, i: int)
    requires |d.choices| == 0 && d.validation.None?
    ensures d.ptype == IntegerType ==> Validate(d, Bool(b))
    ensures d.ptype == FloatType ==> Validate(d, Int(i)) && Validate(d, Bool(b))
  {
  }

  /** The value `validate_parameters` checks for `d`. */
  function Supplied(d: ParameterDefinition, params: Params): Value
  {
    GetOr(params, d.name, d.default)
  }

  /** The declared parameter names, in order. */
  function Names(defs: seq<ParameterDefinition>): (r: seq<string>)
    ensures |r| == |defs| && forall i :: 0 <= i < |defs| ==> r[i] == defs[i].name
    decreases |defs|
  {
    if |defs| == 0 then [] else Names(defs[..|defs| - 1]) + [defs[|defs| - 1].name]
  }

  function InvalidMessage(name: string): string
  {
    "Invalid value for parameter '" + name + "'"
  }

  /** The `validated` dict after the loop of `validate_parameters` has
      handled `defs`. */
  function Validated(defs: seq<ParameterDefinition>, params: Params): Params
    decreases |defs|
  {
    if |defs| == 0 then map[]
    else
      var m := Validated(defs[..|defs| - 1], params);
      var d := defs[|defs| - 1];
      var v := Supplied(d, params);
      if Validate(d, v) && (!v.Null? || d.required) then m[d.name := v] else m
  }

  /** The `errors` list after the loop has handled `defs`. */
  function Errors(defs: seq<ParameterDefinition>, params: Params): seq<string>
    decreases |defs|
  {
    if |defs| == 0 then []
    else
      var d := defs[|defs| - 1];
      Errors(defs[..|defs| - 1], params) + (if Validate(d, Supplied(d, params)) then [] else [InvalidMessage(d.name)])
  }

  /** What `validate_parameters` returns or raises. */
  function ValidationOutcome(defs: seq<ParameterDefinition>, params: Params): Result<Params>
  {
    var errors := Errors(defs, params);
    if |errors| > 0 then Err(PyError("ValueError", "Parameter validation failed: " + Join(", ", errors)))
    else Ok(Validated(defs, params))
  }

  /** `validate_parameters`. */
  method ValidateParameters(defs: seq<ParameterDefinition>, params: Params) returns (r: Result<Params>)
    ensures r == ValidationOutcome(defs, params)
  {
    var validated: Params := map[];
    var errors: seq<string> := [];
    var i := 0;
    while i < |defs|
      invariant 0 <= i <= |defs|
      invariant validated == Validated(defs[..i], params)
      invariant errors == Errors(defs[..i], params)
    {
      assert defs[..i + 1][..i] == defs[..i];
      var d := defs[i];
      var value := GetOr(params, d.name, d.default);
      if !Validate(d, value) {
        errors := errors + [InvalidMessage(d.name)];
      } else if !value.Null? || d.required {
        validated := validated[d.name := value];
      }
      i := i + 1;
    }
    assert defs[..i] == defs;
    if |errors| > 0 {
      return Err(PyError("ValueError", "Parameter validation failed: " + Join(", ", errors)));
    }
    return Ok(validated);
  }

  /** Only declared names survive validation: `operation`, `_`-prefixed
      markers and every other undeclared key are dropped. */
  lemma {:induction false} ValidatedKeys(defs: seq<ParameterDefinition>, params: Params)
    ensures forall k :: k in Validated(defs, params) ==> k in Names(defs)
    decreases |defs|
  {
    if |defs| > 0 {
      ValidatedKeys(defs[..|defs| - 1], params);
    }
  }

  /** With distinct declared names, a declared parameter is present exactly
      when its value (given, or else its default) is not `None` or it is
      required, and then it holds that value. */
  lemma {:induction false} ValidatedEntry(defs: seq<ParameterDefinition>, params: Params, i: nat)
    requires i < |defs|
    requires forall a, b :: 0 <= a < b < |defs| ==> defs[a].name != defs[b].name
    requires Validate(defs[i], Supplied(defs[i], params))
    ensures var v := Supplied(defs[i], params);
      && (defs[i].name in Validated(defs, params) <==> !v.Null? || defs[i].required)
      && (defs[i].name in Validated(defs, params) ==> Validated(defs, params)[defs[i].name] == v)
    decreases |defs|
  {
    var init := defs[..|defs| - 1];
    if i < |defs| - 1 {
      assert init[i] == defs[i];
      ValidatedEntry(init, params, i);
    } else {
      NotDeclared(init, params, defs[i].name);
    }
  }

  /** A name not declared in `defs` is absent from their validated dict. */
  lemma NotDeclared(defs: seq<ParameterDefinition>, params: Params, k: string)
    requires forall a :: 0 <= a < |defs| ==> defs[a].name != k
    ensures k !in Validated(defs, params)
  {
    ValidatedKeys(defs, params);
  }

  /** The error names every invalid parameter and nothing else; in
      particular validation succeeds exactly when every parameter is valid. */
  lemma {:induction false} ErrorsExact(defs: seq<ParameterDefinition>, params: Params)
    ensures forall i :: 0 <= i < |defs| && !Validate(defs[i], Supplied(defs[i], params)) ==>
      InvalidMessage(defs[i].name) in Errors(defs, params)
    ensures forall e :: e in Errors(defs, params) ==>
      exists i :: 0 <= i < |defs| && !Validate(defs[i], Supplied(defs[i], params)) && e == InvalidMessage(defs[i].name)
    ensures ValidationOutcome(defs, params).Ok? <==> forall i :: 0 <= i < |defs| ==> Validate(defs[i], Supplied(defs[i], params))
    decreases |defs|
  {
    if |defs| > 0 {
      var init := defs[..|defs| - 1];
      ErrorsExact(init, params);
      forall i | 0 <= i < |init| ensures init[i] == defs[i] {
      }
    }
  }

  /** The context an operation runs in; the ids are whatever the caller
      passed (`None` when absent), and the start time is not modelled. */
  datatype OperationContext = OperationContext(toolName: string, operationName: string, userId: Value,
                                               sessionId: Value, metadata: Params)

  /** A context whose metadata carries a memory service client (the tools
      answer `ClientMissing` without one). */
  predicate HasClient(ctx: OperationContext)
  {
    Truthy(Get(ctx.metadata, "client"))
  }

  /** `handle_error`: exactly the four keys, from the exception and the
      context. */
  function HandleError(ctx: OperationContext, e: PyError): (r: Params)
    ensures r.Keys == {"error", "message", "operation", "tool"}
    ensures r["error"] == Str(e.kind) && r["message"] == Str(e.message)
    ensures r["operation"] == Str(ctx.operationName) && r["tool"] == Str(ctx.toolName)
  {
    map["error" := Str(e.kind), "message" := Str(e.message), "operation" := Str(ctx.operationName),
        "tool" := Str(ctx.toolName)]
  }

  /** A step a subclass provides, which returns a payload or raises. */
  type Step = (OperationContext, Params) -> Result<Params>

  /** The default `pre_execute` and `post_execute`, which pass their input
      on. */
  const NoHook: Step := (ctx: OperationContext, p: Params) => Ok(p)

  /** An operation handler: its declared parameters, its `pre_execute` and
      `post_execute` hooks, and its `execute`, which is a subclass's own
      code, the batch/single split of `BatchOperationHandler`, or the routing
      of `CompositeOperationHandler`. */
  datatype Handler =
    | Leaf(parameters: seq<ParameterDefinition>, pre: Step, post: Step, exec: Step)
    | Batch(parameters: seq<ParameterDefinition>, pre: Step, post: Step,
            executeBatch: (OperationContext, seq<Value>) -> Result<seq<Value>>, executeSingle: Step)
    | Composite(parameters: seq<ParameterDefinition>, pre: Step, post: Step, handlers: map<string, Handler>)

  /** The exception `CompositeOperationHandler.execute` raises for a
      sub-operation it cannot route: a `ValueError`, or the `TypeError` of
      looking up an unhashable list or dict in `_handlers`. */
  function UnroutedError(sub: Value): PyError
  {
    if Truthy(sub) && (sub.List? || sub.Dict?) then Unhashable(sub)
    else PyError("ValueError", "Unknown sub-operation: " + PyStr(sub))
  }

  /** `execute` of each kind of handler. */
  function Execute(h: Handler, ctx: OperationContext, params: Params): Result<Params>
    decreases h, 0
  {
    match h
    case Leaf(_, _, _, exec) => exec(ctx, params)
    case Batch(_, _, _, executeBatch, executeSingle) =>
      if "items" in params && params["items"].List? then
        var results :- executeBatch(ctx, params["items"].items);
        Ok(map["results" := List(results), "count" := Int(|results|)])
      else executeSingle(ctx, params)
    case Composite(_, _, _, handlers) =>
      var sub := Get(params, "sub_operation");
      if Truthy(sub) && sub.Str? && sub.s in handlers then Ok(Call(handlers[sub.s], ctx, params))
      else Err(UnroutedError(sub))
  }

  /** The steps of `__call__` up to the first exception. */
  function Lifecycle(h: Handler, ctx: OperationContext, params: Params): Result<Params>
    decreases h, 1
  {
    var validated :- ValidationOutcome(h.parameters, params);
    var processed :- h.pre(ctx, validated);
    var result :- Execute(h, ctx, processed);
    h.post(ctx, result)
  }

  /** `__call__`: it never raises; an exception at any step becomes the
      `handle_error` payload. */
  function Call(h: Handler, ctx: OperationContext, params: Params): (r: Params)
    ensures Lifecycle(h, ctx, params).Ok? ==> r == Lifecycle(h, ctx, params).value
    ensures Lifecycle(h, ctx, params).Err? ==>
      r.Keys == {"error", "message", "operation", "tool"} && r["error"] == Str(Lifecycle(h, ctx, params).error.kind)
    decreases h, 2
  {
    match Lifecycle(h, ctx, params)
    case Ok(result) => result
    case Err(e) => HandleError(ctx, e)
  }

  /** A validation failure is answered before any hook runs: the payload is
      the validation error whatever `pre_execute`, `execute` and
      `post_execute` would do. */
  lemma CallRejectsInvalid(h: Handler, ctx: OperationContext, params: Params)
    requires ValidationOutcome(h.parameters, params).Err?
    ensures Call(h, ctx, params) == HandleError(ctx, ValidationOutcome(h.parameters, params).error)
    ensures Call(h, ctx, params)["error"] == Str("ValueError")
  {
  }

  /** `execute` and `post_execute` see only what the earlier steps passed on:
      the handler runs on the validated, pre-processed parameters. */
  lemma CallPipeline(h: Handler, ctx: OperationContext, params: Params)
    requires ValidationOutcome(h.parameters, params).Ok?
    requires h.pre(ctx, ValidationOutcome(h.parameters, params).value).Ok?
    ensures var p := h.pre(ctx, ValidationOutcome(h.parameters, params).value).value;
      Call(h, ctx, params) == (if Execute(h, ctx, p).Err? then HandleError(ctx, Execute(h, ctx, p).error)
                               else Answer(ctx, h.post(ctx, Execute(h, ctx, p).value)))
  {
  }

  /** The payload for a step's outcome. */
  function Answer(ctx: OperationContext, r: Result<Params>): Params
  {
    if r.Ok? then r.value else HandleError(ctx, r.error)
  }

  /** `BatchOperationHandler.execute` with a list under `items` answers the
      batch results with their count; otherwise it is `execute_single`. */
  lemma BatchCount(h: Handler, ctx: OperationContext, params: Params)
    requires h.Batch?
    ensures "items" in params && params["items"].List? && h.executeBatch(ctx, params["items"].items).Ok? ==>
      var r := Execute(h, ctx, params).value;
      && r.Keys == {"results", "count"} && r["results"].List?
      && r["count"] == Int(|r["results"].items|)
      && r["results"].items == h.executeBatch(ctx, params["items"].items).value
    ensures !("items" in params && params["items"].List?) ==> Execute(h, ctx, params) == h.executeSingle(ctx, params)
  {
  }

  /** `CompositeOperationHandler.execute` hands the whole parameter dict to
      the sub-handler named by a non-empty string `sub_operation`, and
      raises for a missing, empty or unknown one. */
  lemma CompositeRouting(h: Handler, ctx: OperationContext, params: Params)
    requires h.Composite?
    ensures var sub := Get(params, "sub_operation");
      && (Execute(h, ctx, params).Ok? <==> sub.Str? && sub.s != "" && sub.s in h.handlers)
      && (Execute(h, ctx, params).Ok? ==> Execute(h, ctx, params).value == Call(h.handlers[sub.s], ctx, params))
      && (!sub.List? && !sub.Dict? && Execute(h, ctx, params).Err? ==>
            Execute(h, ctx, params).error.kind == "ValueError")
  {
  }

  /** A `CompositeOperationHandler` object, whose `_handlers` `add_handler`
      updates. */
  class CompositeHandler {
    const parameters: seq<ParameterDefinition>
    const pre: Step
    const post: Step
    var handlers: map<string, Handler>

    constructor (parameters: seq<ParameterDefinition>, pre: Step, post: Step)
      ensures this.parameters == parameters && this.pre == pre && this.post == post
      ensures handlers == map[]
    {
      this.parameters := parameters;
      this.pre := pre;
      this.post := post;
      handlers := map[];
    }

    /** The handler as it stands. */
    function AsHandler(): (h: Handler)
      reads this
      ensures h.Composite? && h.handlers == handlers
    {
      Composite(parameters, pre, post, handlers)
    }

    /** `add_handler`: a handler under an existing name replaces it. */
    method AddHandler(name: string, handler: Handler)
      modifies this`handlers
      ensures handlers == old(handlers)[name := handler]
      ensures handlers.Keys == old(handlers).Keys + {name} && handlers[name] == handler
    {
      handlers := handlers[name := handler];
    }
  }
}
