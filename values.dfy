/**
 * Plain structured data as the server passes it around: the JSON-compatible
 * values held in request parameters, results, configuration and events, the
 * Python exceptions the handlers raise and catch, and the few Python built-ins
 * (truthiness, `str()`, `len()`, `dict.get`) that the core relies on.
 */
module Values {

  /** A JSON-compatible Python value. `Dict` is a `dict` with string keys. */
  datatype Value =
    | Null
    | Bool(b: bool)
    | Int(i: int)
    | Real(r: real)
    | Str(s: string)
    | List(items: seq<Value>)
    | Dict(entries: map<string, Value>)

  /** Keyword arguments, request parameters and result payloads. */
  type Params = map<string, Value>

  /** A raised Python exception: its class name and `str(e)`. */
  datatype PyError = PyError(kind: string, message: string)

  datatype Option<+T> = None | Some(value: T)

  /** The outcome of a call that may raise. */
  datatype Result<+T> = Ok(value: T) | Err(error: PyError) {
    predicate IsFailure() { Err? }
    function PropagateFailure<U>(): Result<U>
      requires Err?
    {
      Err(error)
    }
    function Extract(): T
      requires Ok?
    {
      value
    }
  }

  /** Python truthiness (`if v:`). */
  predicate Truthy(v: Value)
  {
    match v
    case Null => false
    case Bool(b) => b
    case Int(i) => i != 0
    case Real(r) => r != 0.0
    case Str(s) => s != ""
    case List(items) => |items| > 0
    case Dict(entries) => |entries| > 0
  }

  /** `d.get(k, default)`. */
  function GetOr(d: Params, k: string, default: Value): (r: Value)
    ensures k in d ==> r == d[k]
    ensures k !in d ==> r == default
  {
    if k in d then d[k] else default
  }

  /** `d.get(k)`. */
  function Get(d: Params, k: string): (r: Value)
    ensures k !in d ==> r == Null
  {
    GetOr(d, k, Null)
  }

  /** `len(v)`, or `None` where Python raises TypeError. */
  function Len(v: Value): (r: Option<nat>)
    ensures v.List? ==> r == Some(|v.items|)
    ensures (v.Null? || v.Bool? || v.Int? || v.Real?) ==> r.None?
  {
    match v
    case Str(s) => Some(|s|)
    case List(items) => Some(|items|)
    case Dict(entries) => Some(|entries|)
    case _ => None
  }

  /** Decimal digits of a natural number. */
  function NatToString(n: nat): (r: string)
    ensures |r| >= 1
    ensures forall i :: 0 <= i < |r| ==> '0' <= r[i] <= '9'
    decreases n
  {
    var digit := ['0' + (n % 10) as char];
    if n < 10 then digit else NatToString(n / 10) + digit
  }

  /** `str(v)` for strings, None, booleans and integers; floats, lists and
      dicts are rendered by a fixed marker, see the README. */
  function PyStr(v: Value): (r: string)
    ensures v.Str? ==> r == v.s
  {
    match v
    case Str(s) => s
    case Null => "None"
    case Bool(b) => if b then "True" else "False"
    case Int(i) => if i < 0 then "-" + NatToString(-i) else NatToString(i)
    case Real(_) => "<float>"
    case List(_) => "<list>"
    case Dict(_) => "<dict>"
  }

  /** `s.startswith(p)`. */
  predicate StartsWith(s: string, p: string)
  {
    |p| <= |s| && s[..|p|] == p
  }

  /** `sep.join(parts)`. */
  function Join(sep: string, parts: seq<string>): string
    decreases |parts|
  {
    if |parts| == 0 then ""
    else if |parts| == 1 then parts[0]
    else parts[0] + sep + Join(sep, parts[1..])
  }

  /** `type(v).__name__`. */
  function TypeWord(v: Value): string
  {
    match v
    case Null => "NoneType"
    case Bool(_) => "bool"
    case Int(_) => "int"
    case Real(_) => "float"
    case Str(_) => "str"
    case List(_) => "list"
    case Dict(_) => "dict"
  }

  /** The type name, quoted as Python's error messages quote it. */
  function TypeName(v: Value): string
  {
    "'" + TypeWord(v) + "'"
  }

  /** The `TypeError` of iterating a value that cannot be iterated. */
  function NotIterable(v: Value): PyError
  {
    PyError("TypeError", TypeName(v) + " object is not iterable")
  }

  /** The `TypeError` of using a list or dict as a dict key. */
  function Unhashable(v: Value): PyError
  {
    PyError("TypeError", "unhashable type: " + TypeName(v))
  }

  /** A string's characters, as `for` yields them. */
  function Chars(s: string): (r: seq<Value>)
    ensures |r| == |s| && forall i :: 0 <= i < |s| ==> r[i] == Str([s[i]])
  {
    seq(|s|, i requires 0 <= i < |s| => Str([s[i]]))
  }

  /** The concatenation of `parts`, front to back. */
  function Concat(parts: seq<string>): string
    decreases |parts|
  {
    if |parts| == 0 then "" else parts[0] + Concat(parts[1..])
  }

  lemma Assoc<T>(a: seq<T>, b: seq<T>, c: seq<T>)
    ensures a + (b + c) == a + b + c
  {
  }

  lemma {:induction false} ConcatSnoc(parts: seq<string>, last: string)
    ensures Concat(parts + [last]) == Concat(parts) + last
    decreases |parts|
  {
    if |parts| > 0 {
      assert (parts + [last])[1..] == parts[1..] + [last];
      ConcatSnoc(parts[1..], last);
    }
  }

  /** The `AttributeError` of calling `.get` on a value that is not a dict. */
  function NoGet(v: Value): PyError
  {
    PyError("AttributeError", TypeName(v) + " object has no attribute 'get'")
  }

  /** `v.get(k, default)` on a value that may not be a dict. */
  function DictGet(v: Value, k: string, default: Value): Result<Value>
  {
    if v.Dict? then Ok(GetOr(v.entries, k, default)) else Err(NoGet(v))
  }

  /** `len(v)`, raising where Python does. */
  function PyLen(v: Value): Result<nat>
  {
    match Len(v)
    case Some(n) => Ok(n)
    case None => Err(PyError("TypeError", "object of type " + TypeName(v) + " has no len()"))
  }

  /** The error every client-backed handler returns when no client is set. */
  const ClientMissing: Params := map["error" := Str("Memory client not initialized")]
}
