/**
 * The logging middleware (mem0_mcp/plugins/logging_middleware.py): it stamps
 * each request with the time it arrived, turns that stamp into an elapsed
 * time on the response, and logs both with the sensitive parameters
 * redacted.  The log records themselves are output and are not modelled;
 * the clock is a parameter.
 */
module LoggingMiddleware {
  import opened Values
  import opened Sorting
  import opened Lists
  import opened BasePlugin
  import opened PluginRegistry
  import CachePlugin

  /** `LoggingMiddlewarePlugin.metadata`. */
  const LoggingMetadata: PluginMetadata :=
    NewMetadata("logging_middleware", "1.0.0", "Logs all tool operations for debugging and monitoring",
                Some("Mem0 Team"), None, Some(["logging", "monitoring"]), None)

  /** The logging plugin as the registry sees it: a middleware of priority 10. */
  const LoggingClass: PluginClass := PluginClass("LoggingMiddlewarePlugin", LoggingMetadata, {MiddlewareKind}, "", map[], 10, "", "")

  /** The parameters whose values never reach the log. */
  const SensitiveFields: seq<string> := ["api_key", "password", "token", "secret"]

  const Redacted: Value := Str("***REDACTED***")

  /** `_sanitize_params`: a copy of `params` in which each sensitive field
      that is present reads as redacted. */
  method SanitizeParams(params: Params) returns (sanitized: Params)
    ensures sanitized.Keys == params.Keys
    ensures forall k :: k in params && k in SensitiveFields ==> sanitized[k] == Redacted
    ensures forall k :: k in params && k !in SensitiveFields ==> sanitized[k] == params[k]
  {
    sanitized := params;
    var i := 0;
    while i < |SensitiveFields|
      invariant 0 <= i <= |SensitiveFields|
      invariant sanitized.Keys == params.Keys
      invariant forall k :: k in params && k in SensitiveFields[..i] ==> sanitized[k] == Redacted
      invariant forall k :: k in params && k !in SensitiveFields[..i] ==> sanitized[k] == params[k]
    {
      var field := SensitiveFields[i];
      if field in sanitized {
        sanitized := sanitized[field := Redacted];
      }
      assert SensitiveFields[..i + 1] == SensitiveFields[..i] + [field];
      i := i + 1;
    }
    assert SensitiveFields[..i] == SensitiveFields;
  }

  /** `process_request`: the params with the arrival time under
      `_request_time`. */
  function ProcessRequest(params: Params, now: real): (r: Params)
    ensures r.Keys == params.Keys + {"_request_time"}
    ensures r["_request_time"] == Real(now)
    ensures forall k :: k in params && k != "_request_time" ==> r[k] == params[k]
  {
    params["_request_time":= Real(now)]
  }

  /** `int(x)` on a float: truncation toward zero. */
  function Trunc(x: real): (n: int)
    ensures 0.0 <= x ==> n as real <= x < n as real + 1.0
    ensures x < 0.0 ==> n as real - 1.0 < x <= n as real
  {
    if 0.0 <= x then x.Floor else -((-x).Floor)
  }

  /** `time.time() - request_time` for the stamp read back from the
      response; a stamp that is not a number raises. */
  function Elapsed(now: real, stamp: Value): Result<real>
  {
    match stamp
    case Real(t) => Ok(now - t)
    case Int(t) => Ok(now - t as real)
    case Bool(b) => Ok(now - if b then 1.0 else 0.0)
    case _ => Err(PyError("TypeError", "unsupported operand type(s) for -: 'float' and " + TypeName(stamp)))
  }

  /** `process_response`: `_request_time` always leaves the response, and
      `_execution_time_ms` is added only for a truthy stamp. */
  function ProcessResponse(response: Params, now: real): (r: Result<Params>)
    ensures r.Ok? ==> "_request_time" !in r.value
    ensures r.Ok? ==> r.value.Keys == response.Keys - {"_request_time"}
                                   + (if Truthy(GetOr(response, "_request_time", Null)) then {"_execution_time_ms"} else {})
    ensures r.Ok? ==> forall k :: k in response && k != "_request_time" && k != "_execution_time_ms" ==> r.value[k] == response[k]
    ensures !Truthy(GetOr(response, "_request_time", Null)) ==> r == Ok(response - {"_request_time"})
    ensures Truthy(GetOr(response, "_request_time", Null)) ==>
      match Elapsed(now, response["_request_time"])
      case Ok(e) => r.Ok? && r.value["_execution_time_ms"] == Int(Trunc(e * 1000.0))
      case Err(err) => r == Err(err)
  {
    var stamp := GetOr(response, "_request_time", Null);
    var rest := response - {"_request_time"};
    if Truthy(stamp) then
      var e :- Elapsed(now, stamp);
      Ok(rest["_execution_time_ms" := Int(Trunc(e * 1000.0))])
    else
      Ok(rest)
  }

  /** A response carrying the stamp of the request it answers reports the
      time between the two calls. */
  lemma RoundTripTiming(params: Params, sent: real, now: real)
    requires sent != 0.0
    ensures var r := ProcessResponse(ProcessRequest(params, sent), now);
      && r.Ok?
      && r.value.Keys == params.Keys - {"_request_time"} + {"_execution_time_ms"}
      && r.value["_execution_time_ms"] == Int(Trunc((now - sent) * 1000.0))
  {
    var stamped := ProcessRequest(params, sent);
    assert GetOr(stamped, "_request_time", Null) == Real(sent);
    assert stamped.Keys - {"_request_time"} == params.Keys - {"_request_time"};
  }

  /** In a middleware chain sorted by priority, logging comes before the
      cache on the request path. */
  lemma LoggingBeforeCache(chain: seq<Plugin>, i: nat, j: nat)
    requires SortedBy(chain, PriorityOf) && i < |chain| && j < |chain|
    requires PriorityOf(chain[i]) == LoggingClass.priority && PriorityOf(chain[j]) == CachePlugin.CacheClass.priority
    ensures i < j
  {
    assert PriorityOf(chain[i]) == 10 && PriorityOf(chain[j]) == 50;
  }

  /** ... and after it on the reversed response path. */
  lemma CacheBeforeLoggingOnResponse(chain: seq<Plugin>, i: nat, j: nat)
    requires SortedBy(chain, PriorityOf) && i < |chain| && j < |chain|
    requires PriorityOf(chain[i]) == LoggingClass.priority && PriorityOf(chain[j]) == CachePlugin.CacheClass.priority
    ensures var n := |chain|;
      Reverse(chain)[n - 1 - j] == chain[j] && Reverse(chain)[n - 1 - i] == chain[i] && n - 1 - j < n - 1 - i
  {
    LoggingBeforeCache(chain, i, j);
    ReverseAt(chain, i);
    ReverseAt(chain, j);
  }

  lemma ReverseAt<T>(s: seq<T>, k: nat)
    requires k < |s|
    ensures Reverse(s)[|s| - 1 - k] == s[k]
  {
    assert Reverse(s)[|s| - 1 - k] == s[|s| - 1 - (|s| - 1 - k)];
  }
}
