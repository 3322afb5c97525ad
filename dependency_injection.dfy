/**
 * The dependency-injection container (mem0_mcp/core/dependency_injection.py).
 *
 * Interfaces and classes are named by `TypeKey`.  The constructor signature
 * that `inspect.signature` would report for a class is the `sig` parameter
 * (its parameters without `self`, in order); calling a factory or a plain
 * function is code outside the container, the `calls` parameter, which may
 * raise.  Each class instantiation allocates a new object, numbered by a
 * counter, so distinct constructions are distinct objects.
 *
 * The per-interface definition lists are objects (`DefList`) because the
 * source shares them: a child container gets a shallow copy of the parent's
 * dictionary and so the very same lists.
 */
module DependencyInjection {
  import opened Values
  import opened Lists

  type TypeKey = string
  type FnId = nat

  /** What calling class `cls` with keyword arguments `args` raises, from
      its `__init__` or its `__ainit__`, if anything: code of the class. */
  type Init = (TypeKey, map<string, Instance>) -> Option<PyError>

  /** `Scope`. */
  datatype Scope = Singleton | Request | Transient

  /** An object: one from outside the container, or one the container built
      by calling class `cls` with keyword arguments `args`. */
  datatype Instance =
    | Obj(id: nat)
    | Built(serial: nat, cls: TypeKey, args: map<string, Instance>)

  /** One constructor parameter as `inspect.signature` reports it. */
  datatype Param = Param(name: string, annotation: Option<TypeKey>, hasDefault: bool)

  /** What `implementation` holds: a class, a plain callable, or an object
      that is neither (returned as it is). */
  datatype Impl = ClassImpl(cls: TypeKey) | FuncImpl(fn: FnId) | InstanceImpl(obj: Instance)

  /** `DependencyDefinition`; `args` is always empty in the source and left out. */
  datatype Definition = Definition(iface: TypeKey, impl: Impl, scope: Scope, name: Option<string>,
                                   factory: Option<FnId>, asyncFactory: Option<FnId>,
                                   kwargs: map<string, Instance>)

  /** `if name:` for an optional string. */
  predicate Named(name: Option<string>)
  {
    name.Some? && name.value != ""
  }

  /** The index of the first definition carrying `n`. */
  function FirstNamed(defs: seq<Definition>, n: string): (r: Option<nat>)
    ensures r.Some? ==>
      && r.value < |defs| && defs[r.value].name == Some(n)
      && forall j :: 0 <= j < r.value ==> defs[j].name != Some(n)
    ensures r.None? ==> forall j :: 0 <= j < |defs| ==> defs[j].name != Some(n)
    decreases |defs|
  {
    if |defs| == 0 then None
    else if defs[0].name == Some(n) then Some(0)
    else match FirstNamed(defs[1..], n)
         case None => None
         case Some(j) => Some(j + 1)
  }

  function NotNamed(n: string): Definition -> bool
  {
    (d: Definition) => d.name != Some(n)
  }

  /** The definition `resolve` uses: the first with the requested name, else
      the last registered. */
  function Select(iface: TypeKey, defs: seq<Definition>, name: Option<string>): (r: Result<Definition>)
    ensures |defs| == 0 ==> r == Err(PyError("ValueError", "No registration found for " + iface))
    ensures |defs| > 0 && !Named(name) ==> r == Ok(defs[|defs| - 1])
    ensures |defs| > 0 && Named(name) ==>
      && (r.Ok? <==> exists j :: 0 <= j < |defs| && defs[j].name == name)
      && (r.Err? ==> r.error == PyError("ValueError", "No registration found for " + iface + " with name '" + name.value + "'"))
      && (r.Ok? ==> exists j :: 0 <= j < |defs| && defs[j] == r.value && r.value.name == name
                      && forall i :: 0 <= i < j ==> defs[i].name != name)
  {
    if |defs| == 0 then Err(PyError("ValueError", "No registration found for " + iface))
    else if Named(name) then
      match FirstNamed(defs, name.value)
      case None => Err(PyError("ValueError", "No registration found for " + iface + " with name '" + name.value + "'"))
      case Some(j) => Ok(defs[j])
    else Ok(defs[|defs| - 1])
  }

  /** Keys present before stay with their values, and the only new keys are
      outside `busy`. */
  predicate Grows(before: map<TypeKey, Instance>, after: map<TypeKey, Instance>, busy: set<TypeKey>)
  {
    && (forall k :: k in before ==> k in after && after[k] == before[k])
    && (forall k :: k in after ==> k in before || k !in busy)
  }

  /** What `_resolve_singleton`, `_resolve_request` and `_resolve_transient`
      promise, with `s0`/`q0` the singleton and request caches before and
      `s1`/`q1` after: a cached object is returned as it is; a new one is
      cached under the definition's interface; a transient one is never cached. */
  predicate Scoped(d: Definition, r: Result<Instance>, s0: map<TypeKey, Instance>, s1: map<TypeKey, Instance>,
                   q0: map<TypeKey, Instance>, q1: map<TypeKey, Instance>)
  {
    match d.scope
    case Singleton =>
      && (d.iface in s0 ==> r == Ok(s0[d.iface]) && s1 == s0 && q1 == q0)
      && (r.Ok? ==> d.iface in s1 && s1[d.iface] == r.value)
    case Request =>
      && (d.iface in q0 ==> r == Ok(q0[d.iface]) && s1 == s0 && q1 == q0)
      && (r.Ok? ==> d.iface in q1 && q1[d.iface] == r.value)
    case Transient =>
      (d.iface in s1 <==> d.iface in s0) && (d.iface in q1 <==> d.iface in q0)
  }

  /** A definition that `_create_instance` answers by calling its class: no
      factory, and neither a plain callable nor a ready object. */
  predicate Constructs(d: Definition)
  {
    d.impl.ClassImpl? && d.asyncFactory.None? && d.factory.None?
  }

  /** A definition that constructs its class answers a newly built object:
      its serial is at least `n0`, the counter before the call, and below
      `n1`, the counter after it. */
  predicate Builds(d: Definition, r: Result<Instance>, n0: nat, n1: nat)
  {
    Constructs(d) && r.Ok? ==> r.value.Built? && n0 <= r.value.serial < n1
  }

  /** No cached object answers `d` from the singleton cache `s` or the
      request cache `q`. */
  predicate Uncached(d: Definition, s: map<TypeKey, Instance>, q: map<TypeKey, Instance>)
  {
    match d.scope
    case Singleton => d.iface !in s
    case Request => d.iface !in q
    case Transient => true
  }

  /** The keyword arguments `_create_instance` wired for a class, or the
      error the wiring raised; none when it did not reach the class. */
  type Wiring = Option<Result<map<string, Instance>>>

  /** What `_create_instance` answers for `d`: a ready object as it is; the
      async factory, the factory or the plain callable called with the
      definition's kwargs; otherwise the class is wired (`wiring`, which
      raises only out of resolving an injected parameter) and, unless the
      wiring raised, a required parameter is still missing or `__init__`
      / `__ainit__` raises, a new object of that class with exactly those
      arguments. */
  predicate Created(d: Definition, r: Result<Instance>, wiring: Wiring, sig: TypeKey -> seq<Param>,
                    calls: (FnId, map<string, Instance>) -> Result<Instance>, init: Init)
  {
    if d.impl.InstanceImpl? then wiring.None? && r == Ok(d.impl.obj)
    else if d.asyncFactory.Some? then wiring.None? && r == calls(d.asyncFactory.value, d.kwargs)
    else if d.factory.Some? then wiring.None? && r == calls(d.factory.value, d.kwargs)
    else if d.impl.FuncImpl? then wiring.None? && r == calls(d.impl.fn, d.kwargs)
    else
      && wiring.Some?
      && match wiring.value
         case Err(e) =>
           && r == Err(e)
           && exists j :: 0 <= j < |sig(d.impl.cls)| && sig(d.impl.cls)[j].name !in d.kwargs
                          && sig(d.impl.cls)[j].annotation.Some?
         case Ok(args) =>
           && Wired(sig(d.impl.cls), d.kwargs, args)
           && match MissingRequired(sig(d.impl.cls), args)
              case Some(m) => r == Err(PyError("TypeError", "__init__() missing required argument: '" + m + "'"))
              case None =>
                match init(d.impl.cls, args)
                case Some(e) => r == Err(e)
                case None => r.Ok? && r.value.Built? && r.value.cls == d.impl.cls && r.value.args == args
  }

  /** The first constructor parameter the wiring loop resolves from its
      annotation: every parameter before it is bound or not annotated. */
  function FirstInjected(ps: seq<Param>, kwargs: map<string, Instance>): (r: Option<nat>)
    ensures r.Some? ==> r.value < |ps| && ps[r.value].name !in kwargs && ps[r.value].annotation.Some?
    ensures forall i :: 0 <= i < (if r.Some? then r.value else |ps|) ==>
              ps[i].name in kwargs || ps[i].annotation.None?
    decreases |ps|
  {
    if |ps| == 0 then None
    else if ps[0].name !in kwargs && ps[0].annotation.Some? then Some(0)
    else match FirstInjected(ps[1..], kwargs)
         case None => None
         case Some(j) => Some(j + 1)
  }

  /** The annotation of that parameter. */
  function Injected(ps: seq<Param>, kwargs: map<string, Instance>): Option<TypeKey>
  {
    match FirstInjected(ps, kwargs)
    case None => None
    case Some(j) => ps[j].annotation
  }

  /** The RuntimeError `resolve` raises for an interface already being
      resolved. */
  function Circular(t: TypeKey): PyError
  {
    PyError("RuntimeError", "Circular dependency detected for " + t)
  }

  /** The keyword arguments a class is called with: only its own parameters,
      each either bound at registration or resolved from its annotation; every
      bound one with its bound value; every annotated one without a default. */
  predicate Wired(ps: seq<Param>, kwargs: map<string, Instance>, args: map<string, Instance>)
  {
    WiredUpTo(ps, |ps|, kwargs, args)
  }

  /** `Wired` for the first `n` parameters. */
  predicate WiredUpTo(ps: seq<Param>, n: nat, kwargs: map<string, Instance>, args: map<string, Instance>)
    requires n <= |ps|
  {
    && (forall k :: k in args ==>
          exists j :: 0 <= j < n && ps[j].name == k && (k in kwargs || ps[j].annotation.Some?))
    && (forall j :: 0 <= j < n && ps[j].name in kwargs ==>
          ps[j].name in args && args[ps[j].name] == kwargs[ps[j].name])
    && (forall j :: 0 <= j < n && ps[j].annotation.Some? && !ps[j].hasDefault ==> ps[j].name in args)
  }

  /** One more parameter wired as `WireParam` promises. */
  lemma WiredStep(ps: seq<Param>, i: nat, kwargs: map<string, Instance>, args: map<string, Instance>,
                  v: Option<Instance>)
    requires i < |ps| && WiredUpTo(ps, i, kwargs, args)
    requires ps[i].name in kwargs ==> v == Some(kwargs[ps[i].name])
    requires ps[i].name !in kwargs && ps[i].annotation.None? ==> v == None
    requires ps[i].name !in kwargs && ps[i].annotation.Some? && v == None ==> ps[i].hasDefault
    ensures WiredUpTo(ps, i + 1, kwargs, if v.Some? then args[ps[i].name := v.value] else args)
  {
  }

  /** Parameter `j` is required, not bound, and no parameter of its name is
      annotated: nothing can supply it. */
  predicate Unsupplied(ps: seq<Param>, kwargs: map<string, Instance>, j: int)
    requires 0 <= j < |ps|
  {
    && !ps[j].hasDefault && ps[j].name !in kwargs
    && forall i :: 0 <= i < |ps| && ps[i].name == ps[j].name ==> ps[i].annotation.None?
  }

  lemma GrowsTrans(a: map<TypeKey, Instance>, b: map<TypeKey, Instance>, c: map<TypeKey, Instance>, busy: set<TypeKey>)
    requires Grows(a, b, busy) && Grows(b, c, busy)
    ensures Grows(a, c, busy)
  {
  }

  /** A shared `List[DependencyDefinition]`. */
  class DefList {
    var items: seq<Definition>

    constructor (items: seq<Definition>)
      ensures this.items == items
    {
      this.items := items;
    }
  }

  class Container {
    var definitions: map<TypeKey, DefList>
    var singletons: map<TypeKey, Instance>
    var requestScope: map<TypeKey, Instance>
    var resolving: set<TypeKey>
    /** Objects built so far; the next class instantiation gets this number. */
    var nextSerial: nat

    function Lists(): set<DefList>
      reads this`definitions
    {
      set k | k in definitions :: definitions[k]
    }

    /** `self._definitions.get(interface, [])`. */
    function Defs(iface: TypeKey): seq<Definition>
      reads this`definitions, Lists()
    {
      if iface in definitions then definitions[iface].items else []
    }

    /** Every interface has a list of its own, holding definitions of that
        interface only. */
    ghost predicate Valid()
      reads this, Lists()
    {
      && (forall k, j :: k in definitions && 0 <= j < |definitions[k].items| ==> definitions[k].items[j].iface == k)
      && (forall k, k' :: k in definitions && k' in definitions && k != k' ==> definitions[k] != definitions[k'])
    }

    constructor ()
      ensures Valid()
      ensures definitions == map[] && singletons == map[] && requestScope == map[] && resolving == {}
    {
      definitions := map[];
      singletons := map[];
      requestScope := map[];
      resolving := {};
      nextSerial := 0;
    }

    /** `register`.  A missing implementation is the interface itself.  A
        named registration first rebuilds the list without that name (a new
        list object); the definition is then appended. */
    method Register(iface: TypeKey, impl: Option<Impl>, scope: Scope, name: Option<string>,
                    factory: Option<FnId>, asyncFactory: Option<FnId>, kwargs: map<string, Instance>)
      requires Valid()
      modifies this`definitions, Lists()
      ensures Valid()
      ensures var d := Definition(iface, if impl.None? then ClassImpl(iface) else impl.value, scope, name,
                                  factory, asyncFactory, kwargs);
        && iface in definitions
        && definitions[iface].items
           == (if Named(name) then Filter(old(Defs(iface)), NotNamed(name.value)) else old(Defs(iface))) + [d]
      ensures definitions.Keys == old(definitions.Keys) + {iface}
      ensures forall k :: k in old(definitions) && k != iface ==> definitions[k] == old(definitions[k])
      ensures forall l :: l in old(Lists()) && l != old(if iface in definitions then definitions[iface] else null)
                ==> l.items == old(l.items)
      ensures !Named(name) && iface in old(definitions) ==> definitions[iface] == old(definitions[iface])
      ensures Named(name) ==> fresh(definitions[iface])
      ensures forall l :: l in Lists() ==> l in old(Lists()) || fresh(l)
      ensures Has(iface, name)
      ensures singletons == old(singletons) && requestScope == old(requestScope)
    {
      var d := Definition(iface, if impl.None? then ClassImpl(iface) else impl.value, scope, name,
                          factory, asyncFactory, kwargs);
      var l := ListFor(iface, name);
      assert forall k :: k in definitions && k != iface ==> definitions[k] != l;
      l.items := l.items + [d];
      assert l.items[|l.items| - 1] == d;
    }

    /** The first half of `register`: the list the new definition goes into,
        created for a new interface and rebuilt without `name` for a named
        registration. */
    method ListFor(iface: TypeKey, name: Option<string>) returns (l: DefList)
      requires Valid()
      modifies this`definitions
      ensures Valid()
      ensures iface in definitions && definitions[iface] == l
      ensures l.items == if Named(name) then Filter(old(Defs(iface)), NotNamed(name.value)) else old(Defs(iface))
      ensures definitions.Keys == old(definitions.Keys) + {iface}
      ensures forall k :: k in old(definitions) && k != iface ==> definitions[k] == old(definitions[k])
      ensures !Named(name) && iface in old(definitions) ==> l == old(definitions[iface])
      ensures Named(name) || iface !in old(definitions) ==> fresh(l)
    {
      if iface in definitions && !Named(name) {
        l := definitions[iface];
      } else {
        var base := if iface in definitions then definitions[iface].items else [];
        l := new DefList(if Named(name) then Filter(base, NotNamed(name.value)) else base);
        definitions := definitions[iface := l];
        forall j | 0 <= j < |l.items| ensures l.items[j].iface == iface {
          if Named(name) && iface in old(definitions) {
            FilterSubset(old(definitions[iface].items), NotNamed(name.value));
            assert l.items[j] in old(definitions[iface].items);
          }
        }
      }
    }

    /** `register_singleton`, `register_transient` and `register_request`:
        `register` with the scope filled in. */
    method RegisterSingleton(iface: TypeKey, impl: Option<Impl>, name: Option<string>, kwargs: map<string, Instance>)
      requires Valid()
      modifies this`definitions, Lists()
      ensures Valid()
      ensures iface in definitions
      ensures definitions[iface].items
              == (if Named(name) then Filter(old(Defs(iface)), NotNamed(name.value)) else old(Defs(iface)))
                 + [Definition(iface, if impl.None? then ClassImpl(iface) else impl.value, Singleton, name, None, None, kwargs)]
      ensures definitions.Keys == old(definitions.Keys) + {iface}
      ensures forall k :: k in old(definitions) && k != iface ==> definitions[k] == old(definitions[k])
      ensures forall l :: l in old(Lists()) && l != old(if iface in definitions then definitions[iface] else null)
                ==> l.items == old(l.items)
      ensures forall l :: l in Lists() ==> l in old(Lists()) || fresh(l)
      ensures singletons == old(singletons) && requestScope == old(requestScope)
    {
      Register(iface, impl, Singleton, name, None, None, kwargs);
    }

    method RegisterTransient(iface: TypeKey, impl: Option<Impl>, name: Option<string>, kwargs: map<string, Instance>)
      requires Valid()
      modifies this`definitions, Lists()
      ensures Valid()
      ensures iface in definitions
      ensures definitions[iface].items
              == (if Named(name) then Filter(old(Defs(iface)), NotNamed(name.value)) else old(Defs(iface)))
                 + [Definition(iface, if impl.None? then ClassImpl(iface) else impl.value, Transient, name, None, None, kwargs)]
      ensures definitions.Keys == old(definitions.Keys) + {iface}
      ensures forall k :: k in old(definitions) && k != iface ==> definitions[k] == old(definitions[k])
      ensures forall l :: l in old(Lists()) && l != old(if iface in definitions then definitions[iface] else null)
                ==> l.items == old(l.items)
      ensures forall l :: l in Lists() ==> l in old(Lists()) || fresh(l)
      ensures singletons == old(singletons) && requestScope == old(requestScope)
    {
      Register(iface, impl, Transient, name, None, None, kwargs);
    }

    method RegisterRequest(iface: TypeKey, impl: Option<Impl>, name: Option<string>, kwargs: map<string, Instance>)
      requires Valid()
      modifies this`definitions, Lists()
      ensures Valid()
      ensures iface in definitions
      ensures definitions[iface].items
              == (if Named(name) then Filter(old(Defs(iface)), NotNamed(name.value)) else old(Defs(iface)))
                 + [Definition(iface, if impl.None? then ClassImpl(iface) else impl.value, Request, name, None, None, kwargs)]
      ensures definitions.Keys == old(definitions.Keys) + {iface}
      ensures forall k :: k in old(definitions) && k != iface ==> definitions[k] == old(definitions[k])
      ensures forall l :: l in old(Lists()) && l != old(if iface in definitions then definitions[iface] else null)
                ==> l.items == old(l.items)
      ensures forall l :: l in Lists() ==> l in old(Lists()) || fresh(l)
      ensures singletons == old(singletons) && requestScope == old(requestScope)
    {
      Register(iface, impl, Request, name, None, None, kwargs);
    }

    /** `register_factory`: the implementation stays the interface itself. */
    method RegisterFactory(iface: TypeKey, factory: FnId, scope: Scope)
      requires Valid()
      modifies this`definitions, Lists()
      ensures Valid()
      ensures iface in definitions
      ensures definitions[iface].items == old(Defs(iface)) + [Definition(iface, ClassImpl(iface), scope, None, Some(factory), None, map[])]
      ensures definitions.Keys == old(definitions.Keys) + {iface}
      ensures forall k :: k in old(definitions) && k != iface ==> definitions[k] == old(definitions[k])
      ensures forall l :: l in old(Lists()) && l != old(if iface in definitions then definitions[iface] else null)
                ==> l.items == old(l.items)
      ensures forall l :: l in Lists() ==> l in old(Lists()) || fresh(l)
      ensures singletons == old(singletons) && requestScope == old(requestScope)
    {
      Register(iface, None, scope, None, Some(factory), None, map[]);
    }

    /** `register_instance`: the object is cached as the singleton and also
        registered as a singleton definition. */
    method RegisterInstance(iface: TypeKey, x: Instance)
      requires Valid()
      modifies this`definitions, this`singletons, Lists()
      ensures Valid()
      ensures singletons == old(singletons)[iface := x]
      ensures requestScope == old(requestScope) && resolving == old(resolving)
      ensures iface in definitions && |definitions[iface].items| > 0
      ensures definitions[iface].items == old(Defs(iface)) + [Definition(iface, InstanceImpl(x), Singleton, None, None, None, map[])]
      ensures definitions.Keys == old(definitions.Keys) + {iface}
      ensures forall k :: k in old(definitions) && k != iface ==> definitions[k] == old(definitions[k])
      ensures forall l :: l in old(Lists()) && l != old(if iface in definitions then definitions[iface] else null)
                ==> l.items == old(l.items)
      ensures HoldsInstance(iface, x)
      ensures forall k, y :: k != iface && old(HoldsInstance(k, y)) ==> HoldsInstance(k, y)
      ensures forall l :: l in Lists() ==> l in old(Lists()) || fresh(l)
    {
      singletons := singletons[iface := x];
      Register(iface, Some(InstanceImpl(x)), Singleton, None, None, None, map[]);
      forall k, y | k != iface && old(HoldsInstance(k, y))
        ensures HoldsInstance(k, y)
      {
        assert definitions[k] == old(definitions[k]);
      }
    }

    /** `x` is the cached singleton of `iface` and the object of its last,
        unnamed definition, as `register_instance` leaves them. */
    ghost predicate HoldsInstance(iface: TypeKey, x: Instance)
      reads this, if iface in definitions then {definitions[iface]} else {}
    {
      && iface in singletons && singletons[iface] == x
      && iface in definitions && |definitions[iface].items| > 0
      && definitions[iface].items[|definitions[iface].items| - 1]
         == Definition(iface, InstanceImpl(x), Singleton, None, None, None, map[])
    }

    /** The interface whose circular-dependency error resolving `t` (under
        `name`, while the interfaces `busy` are being resolved) runs into before
        anything else is called, if it does: `t` itself when it is busy;
        otherwise, when the selected definition constructs a class that is not
        cached, the one its wiring loop runs into with `t` now busy.  A
        definition answered by a cache or a factory runs into none. */
    ghost function CycleVia(t: TypeKey, name: Option<string>, busy: set<TypeKey>, sig: TypeKey -> seq<Param>)
      : Option<TypeKey>
      reads this`definitions, this`singletons, this`requestScope, Lists()
      decreases |definitions.Keys - busy|, 0
    {
      if t in busy then Some(t)
      else
        var sel := Select(t, Defs(t), name);
        if sel.Err? || !Constructs(sel.value) || !Uncached(sel.value, singletons, requestScope) then None
        else
          assert (definitions.Keys - busy) - {t} == definitions.Keys - (busy + {t});
          CycleOf(sig(sel.value.impl.cls), sel.value.kwargs, busy + {t}, sig)
    }

    /** The same for the wiring loop over the parameters `ps`: the first
        parameter it resolves from its annotation decides, since nothing is
        resolved before it. */
    ghost function CycleOf(ps: seq<Param>, kwargs: map<string, Instance>, busy: set<TypeKey>,
                           sig: TypeKey -> seq<Param>): Option<TypeKey>
      reads this`definitions, this`singletons, this`requestScope, Lists()
      decreases |definitions.Keys - busy|, 1
    {
      match Injected(ps, kwargs)
      case None => None
      case Some(u) => CycleVia(u, None, busy, sig)
    }

    /** `has`. */
    function Has(iface: TypeKey, name: Option<string>): (b: bool)
      reads this, Lists()
      ensures b <==> |Defs(iface)| > 0 && (Named(name) ==> exists j :: 0 <= j < |Defs(iface)| && Defs(iface)[j].name == name)
    {
      var defs := Defs(iface);
      if |defs| == 0 then false
      else if Named(name) then FirstNamed(defs, name.value).Some?
      else true
    }

    /** `resolve`.  The interface is marked as being resolved while its
        definition is instantiated and unmarked on every exit. */
    method Resolve(iface: TypeKey, name: Option<string>, sig: TypeKey -> seq<Param>,
                   calls: (FnId, map<string, Instance>) -> Result<Instance>, init: Init)
      returns (r: Result<Instance>, wiring: Wiring)
      requires Valid()
      modifies this`singletons, this`requestScope, this`resolving, this`nextSerial
      decreases |definitions.Keys - resolving|, 0
      ensures resolving == old(resolving) && nextSerial >= old(nextSerial)
      ensures Grows(old(singletons), singletons, old(resolving))
      ensures Grows(old(requestScope), requestScope, old(resolving))
      ensures iface in old(resolving) ==>
        && r == Err(Circular(iface))
        && singletons == old(singletons) && requestScope == old(requestScope)
      ensures iface !in old(resolving) && old(Select(iface, Defs(iface), name)).Err? ==>
        && r == Err(old(Select(iface, Defs(iface), name)).error)
        && singletons == old(singletons) && requestScope == old(requestScope)
      ensures iface !in old(resolving) && old(Select(iface, Defs(iface), name)).Ok? ==>
        Scoped(old(Select(iface, Defs(iface), name)).value, r, old(singletons), singletons, old(requestScope), requestScope)
      ensures iface !in old(resolving) && old(Select(iface, Defs(iface), name)).Ok? && old(Select(iface, Defs(iface), name)).value.scope == Transient ==>
        Builds(old(Select(iface, Defs(iface), name)).value, r, old(nextSerial), nextSerial)
      ensures iface !in old(resolving) && old(Select(iface, Defs(iface), name)).Ok?
              && old(Uncached(Select(iface, Defs(iface), name).value, singletons, requestScope)) ==>
        Created(old(Select(iface, Defs(iface), name)).value, r, wiring, sig, calls, init)
      ensures old(CycleVia(iface, name, resolving, sig)).Some? ==>
        r == Err(Circular(old(CycleVia(iface, name, resolving, sig)).value))
    {
      ghost var cycle := CycleVia(iface, name, resolving, sig);
      if iface in resolving {
        return Err(Circular(iface)), None;
      }
      var sel := Select(iface, Defs(iface), name);
      if sel.Err? {
        return Err(sel.error), None;
      }
      var d := sel.value;
      assert d in Defs(iface);
      assert d.iface == iface;
      ghost var before := resolving;
      ghost var next := if Constructs(d) && Uncached(d, singletons, requestScope)
                        then CycleOf(sig(d.impl.cls), d.kwargs, before + {iface}, sig) else None;
      assert cycle == next;
      ghost var lists := Lists();
      resolving := resolving + {iface};
      assert Lists() == lists;
      assert Constructs(d) && Uncached(d, singletons, requestScope) ==>
        next == CycleOf(sig(d.impl.cls), d.kwargs, resolving, sig);
      assert definitions.Keys - resolving == (definitions.Keys - before) - {iface};
      r, wiring := ResolveDefinition(d, sig, calls, init);
      assert resolving - {iface} == before;
      resolving := resolving - {iface};
    }

    /** `_resolve_singleton`, `_resolve_request` and `_resolve_transient`:
        the caches are keyed by the definition's interface. */
    method ResolveDefinition(d: Definition, sig: TypeKey -> seq<Param>,
                             calls: (FnId, map<string, Instance>) -> Result<Instance>, init: Init)
      returns (r: Result<Instance>, wiring: Wiring)
      requires Valid() && d.iface in resolving
      modifies this`singletons, this`requestScope, this`resolving, this`nextSerial
      decreases |definitions.Keys - resolving|, 4
      ensures resolving == old(resolving) && nextSerial >= old(nextSerial)
      ensures Grows(old(singletons), singletons, old(resolving) - {d.iface})
      ensures Grows(old(requestScope), requestScope, old(resolving) - {d.iface})
      ensures Scoped(d, r, old(singletons), singletons, old(requestScope), requestScope)
      ensures d.scope == Transient ==> Builds(d, r, old(nextSerial), nextSerial)
      ensures Constructs(d) && old(Uncached(d, singletons, requestScope))
              && old(CycleOf(sig(d.impl.cls), d.kwargs, resolving, sig)).Some? ==>
        r == Err(Circular(old(CycleOf(sig(d.impl.cls), d.kwargs, resolving, sig)).value))
      ensures old(Uncached(d, singletons, requestScope)) ==> Created(d, r, wiring, sig, calls, init)
      ensures !old(Uncached(d, singletons, requestScope)) ==> wiring.None?
    {
      if d.scope == Singleton {
        if d.iface in singletons {
          return Ok(singletons[d.iface]), None;
        }
        r, wiring := CreateInstance(d, sig, calls, init);
        if r.Ok? {
          singletons := singletons[d.iface := r.value];
        }
      } else if d.scope == Request {
        if d.iface in requestScope {
          return Ok(requestScope[d.iface]), None;
        }
        r, wiring := CreateInstance(d, sig, calls, init);
        if r.Ok? {
          requestScope := requestScope[d.iface := r.value];
        }
      } else {
        r, wiring := CreateInstance(d, sig, calls, init);
      }
    }

    /** `_create_instance`: a non-callable implementation as it is; then the
        async factory, the factory, a plain callable; a class last, called
        with its wired constructor arguments, after which `__init__` and
        `__ainit__` may still raise. */
    method CreateInstance(d: Definition, sig: TypeKey -> seq<Param>,
                          calls: (FnId, map<string, Instance>) -> Result<Instance>, init: Init)
      returns (r: Result<Instance>, wiring: Wiring)
      requires Valid()
      modifies this`singletons, this`requestScope, this`resolving, this`nextSerial
      decreases |definitions.Keys - resolving|, 3
      ensures resolving == old(resolving) && nextSerial >= old(nextSerial)
      ensures Grows(old(singletons), singletons, old(resolving))
      ensures Grows(old(requestScope), requestScope, old(resolving))
      ensures d.impl.InstanceImpl? ==> r == Ok(d.impl.obj)
      ensures !d.impl.InstanceImpl? && d.asyncFactory.Some? ==> r == calls(d.asyncFactory.value, d.kwargs)
      ensures !d.impl.InstanceImpl? && d.asyncFactory.None? && d.factory.Some? ==> r == calls(d.factory.value, d.kwargs)
      ensures d.impl.FuncImpl? && d.asyncFactory.None? && d.factory.None? ==> r == calls(d.impl.fn, d.kwargs)
      ensures Constructs(d) && r.Ok? ==>
        && r.value.Built? && r.value.cls == d.impl.cls && old(nextSerial) <= r.value.serial < nextSerial
        && Wired(sig(d.impl.cls), d.kwargs, r.value.args)
        && init(d.impl.cls, r.value.args).None?
      ensures Constructs(d) ==>
        (exists j :: 0 <= j < |sig(d.impl.cls)| && Unsupplied(sig(d.impl.cls), d.kwargs, j)) ==> r.Err?
      ensures Constructs(d) && sig(d.impl.cls) == [] ==>
        && (r.Err? <==> init(d.impl.cls, map[]).Some?)
        && (r.Err? ==> r.error == init(d.impl.cls, map[]).value)
      ensures Constructs(d) && old(CycleOf(sig(d.impl.cls), d.kwargs, resolving, sig)).Some? ==>
        r == Err(Circular(old(CycleOf(sig(d.impl.cls), d.kwargs, resolving, sig)).value))
      ensures Created(d, r, wiring, sig, calls, init)
    {
      if d.impl.InstanceImpl? {
        return Ok(d.impl.obj), None;
      }
      if d.asyncFactory.Some? {
        return calls(d.asyncFactory.value, d.kwargs), None;
      }
      if d.factory.Some? {
        return calls(d.factory.value, d.kwargs), None;
      }
      if d.impl.FuncImpl? {
        return calls(d.impl.fn, d.kwargs), None;
      }
      var ps := sig(d.impl.cls);
      var w := WireArgs(ps, d.kwargs, sig, calls, init);
      wiring := Some(w);
      if w.Err? {
        return Err(w.error), wiring;
      }
      var args := w.value;
      var missing := MissingRequired(ps, args);
      if missing.Some? {
        return Err(PyError("TypeError", "__init__() missing required argument: '" + missing.value + "'")), wiring;
      }
      var raised := init(d.impl.cls, args);
      if raised.Some? {
        return Err(raised.value), wiring;
      }
      r := Ok(Built(nextSerial, d.impl.cls, args));
      nextSerial := nextSerial + 1;
    }

    /** The loop over the constructor's parameters: a bound keyword argument
        wins; otherwise an annotated parameter is resolved, and a failed
        lookup (ValueError) is skipped only when the parameter has a default.
        Any other error propagates. */
    method WireArgs(ps: seq<Param>, kwargs: map<string, Instance>, sig: TypeKey -> seq<Param>,
                    calls: (FnId, map<string, Instance>) -> Result<Instance>, init: Init)
      returns (r: Result<map<string, Instance>>)
      requires Valid()
      modifies this`singletons, this`requestScope, this`resolving, this`nextSerial
      decreases |definitions.Keys - resolving|, 2
      ensures resolving == old(resolving) && nextSerial >= old(nextSerial)
      ensures Grows(old(singletons), singletons, old(resolving))
      ensures Grows(old(requestScope), requestScope, old(resolving))
      ensures r.Ok? ==> Wired(ps, kwargs, r.value)
      ensures r.Err? ==> exists j :: 0 <= j < |ps| && ps[j].name !in kwargs && ps[j].annotation.Some?
      ensures old(CycleOf(ps, kwargs, resolving, sig)).Some? ==>
        r == Err(Circular(old(CycleOf(ps, kwargs, resolving, sig)).value))
    {
      ghost var first := FirstInjected(ps, kwargs);
      ghost var cycle := CycleOf(ps, kwargs, resolving, sig);
      ghost var u := Injected(ps, kwargs);
      assert u.Some? ==> cycle == CycleVia(u.value, None, resolving, sig);
      var args: map<string, Instance> := map[];
      var i := 0;
      while i < |ps|
        invariant 0 <= i <= |ps|
        invariant resolving == old(resolving) && nextSerial >= old(nextSerial)
        invariant Grows(old(singletons), singletons, old(resolving))
        invariant Grows(old(requestScope), requestScope, old(resolving))
        invariant WiredUpTo(ps, i, kwargs, args)
        invariant first.Some? && i <= first.value ==> singletons == old(singletons) && requestScope == old(requestScope)
        invariant first.Some? && first.value < i ==> cycle.None?
      {
        ghost var s0, q0 := singletons, requestScope;
        if first.Some? && i == first.value {
          // Nothing was resolved yet: the container is as it was on entry.
          assert u == ps[i].annotation && Lists() == old(Lists());
          assert cycle == CycleVia(u.value, None, resolving, sig);
        }
        var v, _ := WireParam(ps[i], kwargs, sig, calls, init);
        GrowsTrans(old(singletons), s0, singletons, old(resolving));
        GrowsTrans(old(requestScope), q0, requestScope, old(resolving));
        if v.Err? {
          return Err(v.error);
        }
        WiredStep(ps, i, kwargs, args, v.value);
        if v.value.Some? {
          args := args[ps[i].name := v.value.value];
        }
        i := i + 1;
      }
      return Ok(args);
    }

    /** One parameter of that loop: the value it is passed with, or `None`
        when it is left to its default.  `resolved` is what resolving the
        annotation answered, when the parameter is not bound and annotated;
        only a ValueError from it is caught, and only for a parameter with a
        default. */
    method WireParam(p: Param, kwargs: map<string, Instance>, sig: TypeKey -> seq<Param>,
                     calls: (FnId, map<string, Instance>) -> Result<Instance>, init: Init)
      returns (r: Result<Option<Instance>>, resolved: Option<Result<Instance>>)
      requires Valid()
      modifies this`singletons, this`requestScope, this`resolving, this`nextSerial
      decreases |definitions.Keys - resolving|, 1
      ensures resolving == old(resolving) && nextSerial >= old(nextSerial)
      ensures Grows(old(singletons), singletons, old(resolving))
      ensures Grows(old(requestScope), requestScope, old(resolving))
      ensures resolved.Some? <==> p.name !in kwargs && p.annotation.Some?
      ensures p.name in kwargs ==> r == Ok(Some(kwargs[p.name]))
      ensures p.name !in kwargs && p.annotation.None? ==> r == Ok(None)
      ensures resolved.None? ==> singletons == old(singletons) && requestScope == old(requestScope)
      ensures resolved.Some? && resolved.value.Ok? ==> r == Ok(Some(resolved.value.value))
      ensures resolved.Some? ==>
        (r.Err? <==> resolved.value.Err? && (resolved.value.error.kind != "ValueError" || !p.hasDefault))
      ensures resolved.Some? && r.Err? ==> r.error == resolved.value.error
      ensures resolved.Some? && r == Ok(None) ==> p.hasDefault
      ensures resolved.Some? && p.annotation.value !in old(resolving)
              && old(Select(p.annotation.value, Defs(p.annotation.value), None)).Err? ==>
        resolved.value == Err(old(Select(p.annotation.value, Defs(p.annotation.value), None)).error)
      ensures resolved.Some? && old(CycleVia(p.annotation.value, None, resolving, sig)).Some? ==>
        resolved.value == Err(Circular(old(CycleVia(p.annotation.value, None, resolving, sig)).value))
    {
      if p.name in kwargs {
        return Ok(Some(kwargs[p.name])), None;
      }
      if p.annotation.None? {
        return Ok(None), None;
      }
      var v, _ := Resolve(p.annotation.value, None, sig, calls, init);
      resolved := Some(v);
      if v.Ok? {
        r := Ok(Some(v.value));
      } else if v.error.kind != "ValueError" || !p.hasDefault {
        r := Err(v.error);
      } else {
        r := Ok(None);
      }
    }

    /** `clear_request_scope`. */
    method ClearRequestScope()
      modifies this`requestScope
      ensures requestScope == map[]
    {
      requestScope := map[];
    }

    /** `unregister`.  A named removal rebuilds the list without that name; an
        unnamed one drops the interface.  The singleton goes in both cases. */
    method Unregister(iface: TypeKey, name: Option<string>) returns (removed: bool)
      requires Valid()
      modifies this`definitions, this`singletons
      ensures Valid()
      ensures iface !in old(definitions) ==> !removed && definitions == old(definitions) && singletons == old(singletons)
      ensures iface in old(definitions) && Named(name) ==>
        && iface in definitions && fresh(definitions[iface])
        && definitions[iface].items == Filter(old(definitions[iface].items), NotNamed(name.value))
        && removed == (exists j :: 0 <= j < |old(definitions[iface].items)| && old(definitions[iface].items)[j].name == name)
        && !Has(iface, name)
      ensures iface in old(definitions) && !Named(name) ==>
        && definitions == old(definitions) - {iface}
        && removed == (|old(definitions[iface].items)| > 0)
        && !Has(iface, name)
      ensures iface in old(definitions) ==> singletons == old(singletons) - {iface}
      ensures forall k :: k in old(definitions) && k != iface ==> k in definitions && definitions[k] == old(definitions[k])
    {
      if iface !in definitions {
        return false;
      }
      if Named(name) {
        var before := definitions[iface].items;
        var kept := Filter(before, NotNamed(name.value));
        FilterCount(before, name.value);
        var l := new DefList(kept);
        definitions := definitions[iface := l];
        removed := |before| > |kept|;
        assert forall j :: 0 <= j < |kept| ==> NotNamed(name.value)(kept[j]);
        FilterSubset(before, NotNamed(name.value));
      } else {
        removed := |definitions[iface].items| > 0;
        definitions := definitions - {iface};
      }
      singletons := singletons - {iface};
    }

    /** `create_child_container`: a new container over the same definition
        lists, with empty caches. */
    method CreateChild() returns (child: Container)
      requires Valid()
      ensures fresh(child) && child.Valid()
      ensures child.definitions == definitions
      ensures child.singletons == map[] && child.requestScope == map[] && child.resolving == {}
    {
      child := new Container();
      child.definitions := definitions;
    }
  }

  /** The first parameter without a default that was not supplied: calling
      the class without it raises TypeError. */
  function MissingRequired(ps: seq<Param>, args: map<string, Instance>): (r: Option<string>)
    ensures r.None? ==> forall j :: 0 <= j < |ps| && !ps[j].hasDefault ==> ps[j].name in args
    ensures r.Some? ==> exists j :: 0 <= j < |ps| && !ps[j].hasDefault && ps[j].name == r.value && r.value !in args
    decreases |ps|
  {
    if |ps| == 0 then None
    else if !ps[0].hasDefault && ps[0].name !in args then Some(ps[0].name)
    else
      match MissingRequired(ps[1..], args)
      case None => None
      case Some(n) => Some(n)
  }

  /** The named filter removes something iff some definition has that name. */
  lemma {:induction false} FilterCount(defs: seq<Definition>, n: string)
    ensures |Filter(defs, NotNamed(n))| < |defs| <==> exists j :: 0 <= j < |defs| && defs[j].name == Some(n)
    decreases |defs|
  {
    if |defs| > 0 {
      FilterCount(defs[1..], n);
      if defs[0].name != Some(n) {
        assert forall j :: 1 <= j < |defs| ==> defs[j] == defs[1..][j - 1];
        if exists j :: 0 <= j < |defs| && defs[j].name == Some(n) {
          var j :| 0 <= j < |defs| && defs[j].name == Some(n);
          assert defs[1..][j - 1].name == Some(n);
        }
      }
    }
  }

  /** `ServiceScope`: leaving the scope empties the request cache. */
  class ServiceScope {
    const container: Container

    constructor (container: Container)
      ensures this.container == container
    {
      this.container := container;
    }

    /** `__aexit__`. */
    method Exit()
      modifies container`requestScope
      ensures container.requestScope == map[]
    {
      container.ClearRequestScope();
    }
  }

  /** An unnamed registration on a child container appends to the list that
      the parent holds for that interface, so the parent sees it too. */
  method ChildRegistrationIsShared(iface: TypeKey, impl: Impl) returns (parentDefs: seq<Definition>)
    ensures parentDefs == [Definition(iface, ClassImpl(iface), Singleton, None, None, None, map[]),
                           Definition(iface, impl, Transient, None, None, None, map[])]
  {
    var parent := new Container();
    parent.Register(iface, None, Singleton, None, None, None, map[]);
    var child := parent.CreateChild();
    child.Register(iface, Some(impl), Transient, None, None, None, map[]);
    parentDefs := parent.Defs(iface);
  }

  /** After `register_instance(I, x)`, resolving `I` yields exactly `x`. */
  method InstanceThenResolve(c: Container, iface: TypeKey, x: Instance, sig: TypeKey -> seq<Param>,
                             calls: (FnId, map<string, Instance>) -> Result<Instance>, init: Init)
    returns (r: Result<Instance>)
    requires c.Valid() && iface !in c.resolving
    modifies c, c.Lists()
    ensures r == Ok(x)
  {
    c.RegisterInstance(iface, x);
    var res, _ := c.Resolve(iface, None, sig, calls, init);
    r := res;
  }

  /** Once a singleton resolve succeeded, a later resolve of the same
      interface through any singleton definition, whatever its name, returns
      that very object. */
  method SingletonReused(c: Container, iface: TypeKey, n1: Option<string>, n2: Option<string>,
                         sig: TypeKey -> seq<Param>, calls: (FnId, map<string, Instance>) -> Result<Instance>, init: Init)
    returns (r1: Result<Instance>, r2: Result<Instance>)
    requires c.Valid() && iface !in c.resolving
    requires Select(iface, c.Defs(iface), n1).Ok? && Select(iface, c.Defs(iface), n1).value.scope == Singleton
    requires Select(iface, c.Defs(iface), n2).Ok? && Select(iface, c.Defs(iface), n2).value.scope == Singleton
    modifies c`singletons, c`requestScope, c`resolving, c`nextSerial
    ensures r1.Ok? ==> r2 == r1
  {
    assert Select(iface, c.Defs(iface), n1).value in c.Defs(iface);
    assert Select(iface, c.Defs(iface), n2).value in c.Defs(iface);
    var res1, _ := c.Resolve(iface, n1, sig, calls, init);
    r1 := res1;
    var res2, _ := c.Resolve(iface, n2, sig, calls, init);
    r2 := res2;
  }

  /** Each resolve of a transient class builds a new object: two resolves in
      a row never answer the same one. */
  method TransientDistinct(c: Container, iface: TypeKey, name: Option<string>,
                           sig: TypeKey -> seq<Param>, calls: (FnId, map<string, Instance>) -> Result<Instance>, init: Init)
    returns (r1: Result<Instance>, r2: Result<Instance>)
    requires c.Valid() && iface !in c.resolving
    requires Select(iface, c.Defs(iface), name).Ok?
    requires var d := Select(iface, c.Defs(iface), name).value;
      d.scope == Transient && d.impl.ClassImpl? && d.asyncFactory.None? && d.factory.None?
    modifies c`singletons, c`requestScope, c`resolving, c`nextSerial
    ensures r1.Ok? && r2.Ok? ==> r1.value != r2.value
  {
    assert Select(iface, c.Defs(iface), name).value in c.Defs(iface);
    var res1, _ := c.Resolve(iface, name, sig, calls, init);
    r1 := res1;
    var res2, _ := c.Resolve(iface, name, sig, calls, init);
    r2 := res2;
  }

  /** Resolving a class nothing has cached builds it: a class whose
      constructor takes no parameters and does not raise comes back as a new
      object of that class, called without arguments. */
  method UncachedBuilds(c: Container, iface: TypeKey, name: Option<string>,
                        sig: TypeKey -> seq<Param>, calls: (FnId, map<string, Instance>) -> Result<Instance>, init: Init)
    returns (r: Result<Instance>)
    requires c.Valid() && iface !in c.resolving
    requires Select(iface, c.Defs(iface), name).Ok?
    requires var d := Select(iface, c.Defs(iface), name).value;
      Constructs(d) && Uncached(d, c.singletons, c.requestScope)
      && sig(d.impl.cls) == [] && init(d.impl.cls, map[]).None?
    modifies c`singletons, c`requestScope, c`resolving, c`nextSerial
    ensures var d := old(Select(iface, c.Defs(iface), name)).value;
      r.Ok? && r.value.Built? && r.value.cls == d.impl.cls && r.value.args == map[]
  {
    var res, wiring := c.Resolve(iface, name, sig, calls, init);
    assert wiring.Some? && wiring.value.Ok? ==> wiring.value.value == map[];
    r := res;
  }

  /** Two classes that each take the other as their first constructor
      parameter: resolving the first raises the circular-dependency
      RuntimeError for it, out of the nested resolve of the second.  The
      error passes both wiring loops, which catch only ValueError, even when
      the parameters have defaults. */
  method CycleRaises(a: TypeKey, b: TypeKey, sig: TypeKey -> seq<Param>,
                     calls: (FnId, map<string, Instance>) -> Result<Instance>, init: Init)
    returns (r: Result<Instance>)
    requires a != b
    requires |sig(a)| > 0 && sig(a)[0].annotation == Some(b)
    requires |sig(b)| > 0 && sig(b)[0].annotation == Some(a)
    ensures r == Err(PyError("RuntimeError", "Circular dependency detected for " + a))
  {
    var c := new Container();
    c.RegisterSingleton(a, None, None, map[]);
    c.RegisterTransient(b, None, None, map[]);
    assert c.Defs(a) == [Definition(a, ClassImpl(a), Singleton, None, None, None, map[])];
    CycleChain(c, a, b, sig);
    r := ResolveInCycle(c, a, sig, calls, init);
  }

  /** Resolving an interface whose resolution runs into itself raises the
      circular-dependency error for it. */
  method ResolveInCycle(c: Container, a: TypeKey, sig: TypeKey -> seq<Param>,
                        calls: (FnId, map<string, Instance>) -> Result<Instance>, init: Init)
    returns (r: Result<Instance>)
    requires c.Valid() && c.resolving == {}
    requires c.CycleVia(a, None, {}, sig) == Some(a)
    modifies c`singletons, c`requestScope, c`resolving, c`nextSerial
    ensures r == Err(Circular(a))
  {
    var res, _ := c.Resolve(a, None, sig, calls, init);
    r := res;
  }

  /** The two steps of that cycle, through `b` back to `a`. */
  lemma CycleChain(c: Container, a: TypeKey, b: TypeKey, sig: TypeKey -> seq<Param>)
    requires a != b && c.singletons == map[]
    requires c.Defs(a) == [Definition(a, ClassImpl(a), Singleton, None, None, None, map[])]
    requires c.Defs(b) == [Definition(b, ClassImpl(b), Transient, None, None, None, map[])]
    requires |sig(a)| > 0 && sig(a)[0].annotation == Some(b)
    requires |sig(b)| > 0 && sig(b)[0].annotation == Some(a)
    ensures c.CycleVia(a, None, {}, sig) == Some(a)
  {
    assert Injected(sig(a), map[]) == Some(b) && Injected(sig(b), map[]) == Some(a);
    assert c.CycleOf(sig(b), map[], {a, b}, sig) == Some(a);
    assert {a} + {b} == {a, b};
    assert c.CycleVia(b, None, {a}, sig) == Some(a);
    assert {} + {a} == {a};
  }
}
