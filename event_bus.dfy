/**
 * The publish/subscribe event bus (mem0_mcp/core/event_bus.py).
 *
 * Handlers are callables identified by number; what a callable, a filter or a
 * middleware does when called is code outside the bus, so every operation
 * that runs one receives it as a function parameter that may raise.  A weak
 * reference is a handler whose `alive` flag the collector can clear.  Time is
 * an integer tick passed in by the caller, and `id(event)` is a counter.
 */
module EventBus {
  import opened Values
  import opened Sorting
  import opened Lists

  /** `EventPriority`: a lower value runs earlier. */
  datatype Priority = Highest | High | Normal | Low | Lowest {
    function Level(): int
    {
      match this
      case Highest => 0
      case High => 25
      case Normal => 50
      case Low => 75
      case Lowest => 100
    }
  }

  /** The five levels are distinct and ordered as their names say. */
  lemma PriorityOrder()
    ensures Highest.Level() < High.Level() < Normal.Level() < Low.Level() < Lowest.Level()
    ensures Highest.Level() == 0 && Lowest.Level() == 100
  {
  }

  /** Identity of a Python callable (function equality is identity). */
  type CallbackId = nat
  type FilterId = nat
  type MiddlewareId = nat

  datatype Event = Event(name: string, data: Params, timestamp: int, source: Option<string>, metadata: Params)

  /** `Event(...)`: `__post_init__` stamps `metadata["event_id"]`. */
  function NewEvent(name: string, data: Params, source: Option<string>, metadata: Params, now: int, id: nat): (e: Event)
    ensures e.name == name && e.data == data && e.source == source && e.timestamp == now
    ensures e.metadata.Keys == metadata.Keys + {"event_id"} && e.metadata["event_id"] == Int(id)
    ensures forall k :: k in metadata && k != "event_id" ==> e.metadata[k] == metadata[k]
  {
    Event(name, data, now, source, metadata["event_id" := Int(id)])
  }

  /** `EventHandler`; `alive` is false once a weak referent has been collected. */
  datatype Handler = Handler(callback: CallbackId, priority: Priority, filter: Option<FilterId>,
                             once: bool, weak: bool, alive: bool)
  {
    /** The callable the handler dereferences to, `None` for a dead weak reference. */
    function Target(): Option<CallbackId>
    {
      if weak && !alive then None else Some(callback)
    }
  }

  function PriorityOf(h: Handler): int
  {
    h.priority.Level()
  }

  /** `EventHandler.matches`: no filter accepts every event. */
  function Matches(h: Handler, e: Event, filters: (FilterId, Event) -> Result<bool>): Result<bool>
  {
    if h.filter.None? then Ok(true) else filters(h.filter.value, e)
  }

  /** `EventHandler.invoke`: a dead weak handler yields None without a call. */
  function Invoke(h: Handler, e: Event, calls: (CallbackId, Event) -> Result<Value>): Result<Value>
  {
    match h.Target()
    case None => Ok(Null)
    case Some(c) => calls(c, e)
  }

  /** What one pass of `emit` does with one handler. */
  datatype Outcome = Dead | Skipped | Raised | Returned(value: Value)

  /** The outcome for `h`; an exception from its filter is not caught. */
  function Fate(h: Handler, e: Event, filters: (FilterId, Event) -> Result<bool>,
                calls: (CallbackId, Event) -> Result<Value>): Result<Outcome>
  {
    if h.weak && !h.alive then Ok(Dead)
    else
      match Matches(h, e, filters)
      case Err(x) => Err(x)
      case Ok(m) =>
        if !m then Ok(Skipped)
        else match Invoke(h, e, calls)
             case Ok(v) => Ok(Returned(v))
             case Err(_) => Ok(Raised)
  }

  /** Whether `emit` schedules `h` for removal: dead, or a once-handler that
      returned normally. */
  predicate Dropped(h: Handler, e: Event, filters: (FilterId, Event) -> Result<bool>,
                    calls: (CallbackId, Event) -> Result<Value>)
  {
    var f := Fate(h, e, filters, calls);
    f.Ok? && (f.value.Dead? || (f.value.Returned? && h.once))
  }

  /** The `results` and `handlers_to_remove` lists built by the handler loop. */
  datatype Pass = Pass(results: seq<Value>, remove: seq<Handler>)

  function Step(p: Pass, h: Handler, o: Outcome): Pass
  {
    match o
    case Dead => Pass(p.results, p.remove + [h])
    case Skipped => p
    case Raised => p
    case Returned(v) => Pass(p.results + [v], if h.once then p.remove + [h] else p.remove)
  }

  /** The handler loop of `emit`, one handler at a time. */
  function RunHandlers(hs: seq<Handler>, e: Event, filters: (FilterId, Event) -> Result<bool>,
                       calls: (CallbackId, Event) -> Result<Value>): Result<Pass>
    decreases |hs|
  {
    if |hs| == 0 then Ok(Pass([], []))
    else
      var p :- RunHandlers(hs[..|hs| - 1], e, filters, calls);
      var o :- Fate(hs[|hs| - 1], e, filters, calls);
      Ok(Step(p, hs[|hs| - 1], o))
  }

  /** The returned values, handler by handler. */
  function ReturnedValues(hs: seq<Handler>, e: Event, filters: (FilterId, Event) -> Result<bool>,
                          calls: (CallbackId, Event) -> Result<Value>): seq<Value>
    decreases |hs|
  {
    if |hs| == 0 then []
    else
      var f := Fate(hs[0], e, filters, calls);
      (if f.Ok? && f.value.Returned? then [f.value.value] else [])
      + ReturnedValues(hs[1..], e, filters, calls)
  }

  lemma {:induction false} ReturnedValuesAppend(hs: seq<Handler>, h: Handler, e: Event,
                                                filters: (FilterId, Event) -> Result<bool>,
                                                calls: (CallbackId, Event) -> Result<Value>)
    ensures var f := Fate(h, e, filters, calls);
      ReturnedValues(hs + [h], e, filters, calls)
      == ReturnedValues(hs, e, filters, calls) + (if f.Ok? && f.value.Returned? then [f.value.value] else [])
    decreases |hs|
  {
    if |hs| == 0 {
      assert [h][1..] == [];
    } else {
      assert (hs + [h])[0] == hs[0] && (hs + [h])[1..] == hs[1..] + [h];
      ReturnedValuesAppend(hs[1..], h, e, filters, calls);
    }
  }

  /** When no filter raises, the handler loop returns the value of every
      handler that was live, accepted the event and returned, in list order;
      and removing what it scheduled leaves exactly the handlers that were not
      dropped, in order: once-handlers that were filtered out or raised stay. */
  lemma {:induction false} RunHandlersOk(hs: seq<Handler>, e: Event, filters: (FilterId, Event) -> Result<bool>,
                                         calls: (CallbackId, Event) -> Result<Value>,
                                         dropped: Handler -> bool, kept: Handler -> bool)
    requires forall h :: dropped(h) == Dropped(h, e, filters, calls)
    requires forall h :: kept(h) == !Dropped(h, e, filters, calls)
    requires forall j :: 0 <= j < |hs| ==> Fate(hs[j], e, filters, calls).Ok?
    ensures RunHandlers(hs, e, filters, calls)
         == Ok(Pass(ReturnedValues(hs, e, filters, calls), Filter(hs, dropped)))
    ensures RemoveEach(hs, Filter(hs, dropped)) == Filter(hs, kept)
  {
    RunHandlersFold(hs, e, filters, calls, dropped);
    RemoveEachFilter(hs, dropped, kept);
  }

  lemma {:induction false} RunHandlersFold(hs: seq<Handler>, e: Event, filters: (FilterId, Event) -> Result<bool>,
                                           calls: (CallbackId, Event) -> Result<Value>,
                                           dropped: Handler -> bool)
    requires forall h :: dropped(h) == Dropped(h, e, filters, calls)
    requires forall j :: 0 <= j < |hs| ==> Fate(hs[j], e, filters, calls).Ok?
    ensures RunHandlers(hs, e, filters, calls)
         == Ok(Pass(ReturnedValues(hs, e, filters, calls), Filter(hs, dropped)))
    decreases |hs|
  {
    if |hs| > 0 {
      var init, h := hs[..|hs| - 1], hs[|hs| - 1];
      assert hs == init + [h];
      RunHandlersFold(init, e, filters, calls, dropped);
      ReturnedValuesAppend(init, h, e, filters, calls);
      FilterAppend(init, [h], dropped);
      FilterSingle(h, dropped);
      StepAgrees(Pass(ReturnedValues(init, e, filters, calls), Filter(init, dropped)), h, e, filters, calls);
    }
  }

  /** One step of the loop agrees with the per-handler view. */
  lemma StepAgrees(p: Pass, h: Handler, e: Event, filters: (FilterId, Event) -> Result<bool>,
                   calls: (CallbackId, Event) -> Result<Value>)
    requires Fate(h, e, filters, calls).Ok?
    ensures var f := Fate(h, e, filters, calls);
      Step(p, h, f.value)
      == Pass(p.results + (if f.value.Returned? then [f.value.value] else []),
              p.remove + (if Dropped(h, e, filters, calls) then [h] else []))
  {
  }

  /** The first handler whose filter raises makes the whole loop raise that. */
  lemma {:induction false} RunHandlersErr(hs: seq<Handler>, j: nat, e: Event,
                                          filters: (FilterId, Event) -> Result<bool>,
                                          calls: (CallbackId, Event) -> Result<Value>)
    requires j < |hs| && Fate(hs[j], e, filters, calls).Err?
    requires forall i :: 0 <= i < j ==> Fate(hs[i], e, filters, calls).Ok?
    ensures RunHandlers(hs, e, filters, calls) == Err(Fate(hs[j], e, filters, calls).error)
    decreases |hs|
  {
    var init := hs[..|hs| - 1];
    if j < |hs| - 1 {
      assert init[j] == hs[j];
      RunHandlersErr(init, j, e, filters, calls);
    } else {
      var dropped := (h: Handler) => Dropped(h, e, filters, calls);
      var kept := (h: Handler) => !Dropped(h, e, filters, calls);
      RunHandlersOk(init, e, filters, calls, dropped, kept);
    }
  }

  /** A raising prefix makes every extension raise the same error. */
  lemma {:induction false} RunHandlersExtendErr(hs: seq<Handler>, j: nat, e: Event,
                                                filters: (FilterId, Event) -> Result<bool>,
                                                calls: (CallbackId, Event) -> Result<Value>)
    requires j <= |hs| && RunHandlers(hs[..j], e, filters, calls).Err?
    ensures RunHandlers(hs, e, filters, calls) == RunHandlers(hs[..j], e, filters, calls)
    decreases |hs| - j
  {
    if j < |hs| {
      assert hs[..j + 1][..j] == hs[..j];
      RunHandlersExtendErr(hs, j + 1, e, filters, calls);
    } else {
      assert hs[..j] == hs;
    }
  }

  /** The middleware chain of `emit`: in order, stopping at the first that
      returns None (cancelled) or raises. */
  function RunMiddleware(mws: seq<MiddlewareId>, e: Event,
                         apply: (MiddlewareId, Event) -> Result<Option<Event>>): Result<Option<Event>>
    decreases |mws|
  {
    if |mws| == 0 then Ok(Some(e))
    else
      var out :- apply(mws[0], e);
      if out.None? then Ok(None) else RunMiddleware(mws[1..], out.value, apply)
  }

  /** What `emit` leaves of the handler lists, once event `ev` named `name`
      has passed the middleware `mws` and the handlers of its name have run:
      the lists with the dead and fired once-handlers removed, or, when a
      middleware or a handler's filter raised, that exception. */
  function EmitOutcome(handlers: map<string, seq<Handler>>, mws: seq<MiddlewareId>, name: string, ev: Event,
                       apply: (MiddlewareId, Event) -> Result<Option<Event>>,
                       filters: (FilterId, Event) -> Result<bool>,
                       calls: (CallbackId, Event) -> Result<Value>): Result<map<string, seq<Handler>>>
  {
    var hs := if name in handlers then handlers[name] else [];
    match RunMiddleware(mws, ev, apply)
    case Err(x) => Err(x)
    case Ok(None) => Ok(handlers)
    case Ok(Some(ev')) =>
      match RunHandlers(hs, ev', filters, calls)
      case Err(x) => Err(x)
      case Ok(p) => Ok(if name in handlers then handlers[name := RemoveEach(hs, p.remove)] else handlers)
  }
  /** How a replay ends: the handler lists it leaves, how many events it
      emitted, and the exception that stopped it, if one did. */
  datatype ReplayEnd = ReplayEnd(handlers: map<string, seq<Handler>>, count: nat, err: Option<PyError>)

  /** `replay_events` on the handler lists: each event is emitted again, with
      the next id and `replayed` set, over the lists the previous emits left;
      the first emit that raises stops the replay after being recorded. */
  function ReplayOutcome(handlers: map<string, seq<Handler>>, mws: seq<MiddlewareId>, events: seq<Event>,
                         now: int, id: nat,
                         apply: (MiddlewareId, Event) -> Result<Option<Event>>,
                         filters: (FilterId, Event) -> Result<bool>,
                         calls: (CallbackId, Event) -> Result<Value>): (e: ReplayEnd)
    ensures e.count <= |events|
    ensures e.err.None? ==> e.count == |events|
    ensures e.err.Some? ==> e.count > 0
    ensures |events| == 0 ==> e == ReplayEnd(handlers, 0, None)
    decreases |events|
  {
    if |events| == 0 then ReplayEnd(handlers, 0, None)
    else
      var e := events[0];
      var ev := NewEvent(e.name, e.data, e.source, e.metadata["replayed" := Bool(true)], now, id);
      match EmitOutcome(handlers, mws, e.name, ev, apply, filters, calls)
      case Err(x) => ReplayEnd(handlers, 1, Some(x))
      case Ok(left) =>
        var rest := ReplayOutcome(left, mws, events[1..], now, id + 1, apply, filters, calls);
        ReplayEnd(rest.handlers, 1 + rest.count, rest.err)
  }
  /** After `i` events of a replay that ends as `whole`, with the handler
      lists `handlers` and the next id `id`, what is left ends as `whole`. */
  predicate ReplayAt(whole: ReplayEnd, handlers: map<string, seq<Handler>>, mws: seq<MiddlewareId>, events: seq<Event>,
                     i: nat, now: int, id: nat,
                     apply: (MiddlewareId, Event) -> Result<Option<Event>>,
                     filters: (FilterId, Event) -> Result<bool>,
                     calls: (CallbackId, Event) -> Result<Value>)
    requires i <= |events|
  {
    var rest := ReplayOutcome(handlers, mws, events[i..], now, id, apply, filters, calls);
    whole == ReplayEnd(rest.handlers, i + rest.count, rest.err)
  }

  /** One step of `ReplayOutcome`: an emit that raises ends the replay with
      the lists it started from; one that succeeds moves on to the next event
      over the lists it left. */
  lemma ReplayAdvance(whole: ReplayEnd, handlers: map<string, seq<Handler>>, mws: seq<MiddlewareId>, events: seq<Event>,
                      i: nat, now: int, id: nat,
                      apply: (MiddlewareId, Event) -> Result<Option<Event>>,
                      filters: (FilterId, Event) -> Result<bool>,
                      calls: (CallbackId, Event) -> Result<Value>, out: Result<map<string, seq<Handler>>>)
    requires i < |events|
    requires ReplayAt(whole, handlers, mws, events, i, now, id, apply, filters, calls)
    requires out == EmitOutcome(handlers, mws, events[i].name,
                                NewEvent(events[i].name, events[i].data, events[i].source,
                                         events[i].metadata["replayed" := Bool(true)], now, id),
                                apply, filters, calls)
    ensures out.Err? ==> whole == ReplayEnd(handlers, i + 1, Some(out.error))
    ensures out.Ok? ==> ReplayAt(whole, out.value, mws, events, i + 1, now, id + 1, apply, filters, calls)
  {
    assert events[i..][0] == events[i] && events[i..][1..] == events[i + 1..];
  }

  /** `em` begins with `base` and continues with a replayed copy of a prefix
      of `events`: same name, data and source, `replayed` set. */
  predicate ReplayedFrom(base: seq<Event>, em: seq<Event>, events: seq<Event>)
  {
    && |base| <= |em| <= |base| + |events|
    && em[..|base|] == base
    && forall j :: |base| <= j < |em| ==>
      var src := events[j - |base|];
      && em[j].name == src.name && em[j].data == src.data && em[j].source == src.source
      && "replayed" in em[j].metadata && em[j].metadata["replayed"] == Bool(true)
  }

  /** A replayed copy of the next event keeps `ReplayedFrom`. */
  lemma ReplayedExtend(base: seq<Event>, em: seq<Event>, events: seq<Event>, ev: Event)
    requires ReplayedFrom(base, em, events)
    requires |em| < |base| + |events|
    requires var src := events[|em| - |base|];
      && ev.name == src.name && ev.data == src.data && ev.source == src.source
      && "replayed" in ev.metadata && ev.metadata["replayed"] == Bool(true)
    ensures ReplayedFrom(base, em + [ev], events)
  {
    assert (em + [ev])[..|base|] == em[..|base|];
  }

  /** A middleware that cancels stops the chain: nothing after it runs. */
  lemma {:induction false} CancelStops(mws: seq<MiddlewareId>, j: nat, e: Event,
                                       apply: (MiddlewareId, Event) -> Result<Option<Event>>)
    requires j < |mws| && apply(mws[j], e) == Ok(None)
    requires forall i :: 0 <= i < j ==> apply(mws[i], e) == Ok(Some(e))
    ensures RunMiddleware(mws, e, apply) == Ok(None)
    decreases j
  {
    if j > 0 {
      CancelStops(mws[1..], j - 1, e, apply);
    }
  }

  /** The most recent `min(|s|, size)` elements of `s` (none when size <= 0). */
  function Recent<T>(s: seq<T>, size: int): (r: seq<T>)
    ensures |r| <= |s| && (size <= 0 ==> |r| == 0) && (0 < size ==> |r| == if |s| < size then |s| else size)
    ensures r == s[|s| - |r|..]
  {
    var n := if size <= 0 then 0 else if |s| < size then |s| else size;
    s[|s| - n..]
  }

  /** One `_add_to_history` step (append, then drop the oldest entry when the
      bound is exceeded) keeps the history equal to the recent window. */
  lemma RecentStep<T>(s: seq<T>, x: T, size: int)
    ensures var h := Recent(s, size) + [x];
      Recent(s + [x], size) == if |h| > size then h[1..] else h
  {
    var h := Recent(s, size) + [x];
    var t := s + [x];
    if size <= 0 {
      assert |h| > size;
      assert h[1..] == [];
    } else if |s| < size {
      assert Recent(s, size) == s;
      assert Recent(t, size) == t;
    } else {
      assert |h| == size + 1;
      assert Recent(t, size) == t[|t| - size..];
      assert h[1..] == s[|s| - size + 1..] + [x];
      assert t[|t| - size..] == s[|s| - size + 1..] + [x];
    }
  }

  /** The predicate `get_history` applies: name match when a non-empty name
      is given, timestamp strictly after `since` when given. */
  function Wanted(name: Option<string>, since: Option<int>): Event -> bool
  {
    (e: Event) =>
      (name.Some? && name.value != "" ==> e.name == name.value)
      && (since.Some? ==> e.timestamp > since.value)
  }

  function NameIs(n: string): Event -> bool
  {
    (e: Event) => e.name == n
  }

  function After(t: int): Event -> bool
  {
    (e: Event) => e.timestamp > t
  }

  /** The last `limit` events when `limit` is positive, all but the first
      `-limit` when it is negative, and all of them when it is 0 or absent. */
  function Window(m: seq<Event>, limit: Option<int>): (r: seq<Event>)
    ensures |r| <= |m| && r == m[|m| - |r|..]
    ensures |r| == if limit.None? || limit.value == 0 then |m|
                   else if limit.value > 0 then (if limit.value < |m| then limit.value else |m|)
                   else |m| - (if -limit.value < |m| then -limit.value else |m|)
  {
    if limit.None? || limit.value == 0 then m
    else if limit.value > 0 then m[|m| - (if limit.value < |m| then limit.value else |m|)..]
    else m[(if -limit.value < |m| then -limit.value else |m|)..]
  }

  /** `get_history` over a history: name filter, then time filter, then
      `events[-limit:]` when `limit` is non-zero. */
  function History(events: seq<Event>, name: Option<string>, limit: Option<int>, since: Option<int>): (r: seq<Event>)
    ensures r == Window(Filter(events, Wanted(name, since)), limit)
  {
    var byName := if name.Some? && name.value != "" then Filter(events, NameIs(name.value)) else events;
    var byTime := if since.Some? then Filter(byName, After(since.value)) else byName;
    HistoryMatches(events, name, since);
    if limit.Some? && limit.value != 0 then PyTail(byTime, -limit.value) else byTime
  }

  /** The two successive filters of `get_history` select exactly `Wanted`. */
  lemma HistoryMatches(events: seq<Event>, name: Option<string>, since: Option<int>)
    ensures var byName := if name.Some? && name.value != "" then Filter(events, NameIs(name.value)) else events;
      var byTime := if since.Some? then Filter(byName, After(since.value)) else byName;
      byTime == Filter(events, Wanted(name, since))
  {
    var w := Wanted(name, since);
    if name.Some? && name.value != "" {
      if since.Some? {
        FilterFilter(events, NameIs(name.value), After(since.value), w);
      } else {
        FilterExt(events, NameIs(name.value), w);
      }
    } else if since.Some? {
      FilterExt(events, After(since.value), w);
    } else {
      FilterAll(events, w);
    }
  }

  /** A dead weak reference to `cb`, as left behind by garbage collection. */
  function Kill(hs: seq<Handler>, cb: CallbackId): (r: seq<Handler>)
    ensures |r| == |hs|
    ensures forall j :: 0 <= j < |hs| ==> PriorityOf(r[j]) == PriorityOf(hs[j])
  {
    seq(|hs|, j requires 0 <= j < |hs| =>
      if hs[j].weak && hs[j].callback == cb then hs[j].(alive := false) else hs[j])
  }

  /** Some topic of a non-empty handler table. */
  ghost function Pick(m: map<string, seq<Handler>>): (t: string)
    requires |m.Keys| > 0
    ensures t in m
  {
    var t :| t in m; t
  }

  /** Total number of handlers over all topics. */
  ghost function Total(m: map<string, seq<Handler>>): nat
    decreases |m.Keys|
  {
    if |m.Keys| == 0 then 0
    else
      var t := Pick(m);
      assert (m - {t}).Keys == m.Keys - {t};
      |m[t]| + Total(m - {t})
  }

  /** `Total` may peel off any topic first. */
  lemma {:induction false} TotalRemove(m: map<string, seq<Handler>>, t: string)
    requires t in m
    ensures Total(m) == |m[t]| + Total(m - {t})
    decreases |m.Keys|
  {
    var u := Pick(m);
    if u != t {
      var mu, mt := m - {u}, m - {t};
      assert mu.Keys == m.Keys - {u} && mt.Keys == m.Keys - {t};
      assert t in mu && mu[t] == m[t];
      assert u in mt && mt[u] == m[u];
      TotalRemove(mu, t);
      TotalRemove(mt, u);
      assert mu - {t} == mt - {u};
    }
  }

  class Bus {
    var handlers: map<string, seq<Handler>>
    var history: seq<Event>
    const historySize: int
    var middleware: seq<MiddlewareId>
    /** The `asyncio.Queue` of events waiting for the worker. */
    var queue: seq<Event>
    var nextId: nat
    /** Every event ever added to the history, oldest first. */
    ghost var emitted: seq<Event>

    ghost predicate Valid()
      reads this
    {
      && (forall t :: t in handlers ==> SortedBy(handlers[t], PriorityOf))
      && history == Recent(emitted, historySize)
    }

    constructor (historySize: int)
      ensures Valid()
      ensures this.historySize == historySize
      ensures handlers == map[] && history == [] && middleware == [] && queue == [] && emitted == []
    {
      this.historySize := historySize;
      handlers := map[];
      history := [];
      middleware := [];
      queue := [];
      nextId := 0;
      emitted := [];
    }

    /** The `insert_idx` loop of `subscribe`: the first position holding a
        strictly greater priority value, or the end of the list. */
    static method InsertIndex(hs: seq<Handler>, priority: Priority) returns (idx: nat)
      ensures idx <= |hs|
      ensures forall j :: 0 <= j < idx ==> PriorityOf(hs[j]) <= priority.Level()
      ensures idx < |hs| ==> PriorityOf(hs[idx]) > priority.Level()
    {
      idx := |hs|;
      var i := 0;
      while i < |hs|
        invariant 0 <= i <= |hs|
        invariant forall j :: 0 <= j < i ==> PriorityOf(hs[j]) <= priority.Level()
      {
        if hs[i].priority.Level() > priority.Level() {
          idx := i;
          break;
        }
        i := i + 1;
      }
    }

    /** `subscribe`: the handler goes in front of the first handler of a
        strictly greater priority value, so the list stays sorted and ties keep
        subscription order. */
    method Subscribe(name: string, cb: CallbackId, priority: Priority, filter: Option<FilterId>,
                     once: bool, weak: bool) returns (ret: CallbackId)
      requires Valid()
      modifies this`handlers
      ensures Valid()
      ensures ret == cb
      ensures name in handlers && handlers == old(handlers)[name := handlers[name]]
      ensures var before := if name in old(handlers) then old(handlers)[name] else [];
        handlers[name] == InsertByKey(before, Handler(cb, priority, filter, once, weak, true), PriorityOf)
    {
      var before := if name in handlers then handlers[name] else [];
      var h := Handler(cb, priority, filter, once, weak, true);
      var idx := InsertIndex(before, priority);
      var hs := before[..idx] + [h] + before[idx..];
      assert hs == InsertByKey(before, h, PriorityOf);
      InsertByKeySorted(before, h, PriorityOf);
      handlers := handlers[name := hs];
      forall t | t in handlers ensures SortedBy(handlers[t], PriorityOf) {
        if t != name {
          assert handlers[t] == old(handlers)[t];
        }
      }
      ret := cb;
    }

    /** `unsubscribe`: removes the first handler that dereferences to `cb`. */
    method Unsubscribe(name: string, cb: CallbackId) returns (found: bool)
      requires Valid()
      modifies this`handlers
      ensures Valid()
      ensures found == (name in old(handlers) && exists j :: 0 <= j < |old(handlers)[name]| && old(handlers)[name][j].Target() == Some(cb))
      ensures !found ==> handlers == old(handlers)
      ensures found ==> var hs := old(handlers)[name];
        exists i :: 0 <= i < |hs| && hs[i].Target() == Some(cb)
          && (forall j :: 0 <= j < i ==> hs[j].Target() != Some(cb))
          && handlers == old(handlers)[name := hs[..i] + hs[i + 1..]]
    {
      if name !in handlers {
        return false;
      }
      var hs := handlers[name];
      var i := 0;
      while i < |hs|
        invariant 0 <= i <= |hs|
        invariant forall j :: 0 <= j < i ==> hs[j].Target() != Some(cb)
      {
        if hs[i].Target() == Some(cb) {
          RemoveAtSorted(hs, i, PriorityOf);
          handlers := handlers[name := hs[..i] + hs[i + 1..]];
          return true;
        }
        i := i + 1;
      }
      return false;
    }

    /** `unsubscribe_all`: one topic when a non-empty name is given, every
        topic otherwise; returns how many handlers went. */
    method UnsubscribeAll(name: Option<string>) returns (count: nat)
      requires Valid()
      modifies this`handlers
      ensures Valid()
      ensures name.Some? && name.value != "" ==>
        && count == (if name.value in old(handlers) then |old(handlers)[name.value]| else 0)
        && handlers == old(handlers) - {name.value}
      ensures !(name.Some? && name.value != "") ==> count == Total(old(handlers)) && handlers == map[]
    {
      if name.Some? && name.value != "" {
        count := 0;
        if name.value in handlers {
          count := |handlers[name.value]|;
        }
        handlers := handlers - {name.value};
      } else {
        count := 0;
        var rest := handlers;
        while |rest.Keys| > 0
          invariant count + Total(rest) == Total(old(handlers))
          decreases |rest.Keys|
        {
          var t :| t in rest;
          TotalRemove(rest, t);
          assert (rest - {t}).Keys == rest.Keys - {t};
          count := count + |rest[t]|;
          rest := rest - {t};
        }
        handlers := map[];
      }
    }

    /** `_add_to_history`. */
    method AddToHistory(e: Event)
      requires Valid()
      modifies this`history, this`emitted
      ensures Valid()
      ensures emitted == old(emitted) + [e]
      ensures |history| <= (if historySize < 0 then 0 else historySize)
    {
      RecentStep(emitted, e, historySize);
      history := history + [e];
      emitted := emitted + [e];
      if |history| > historySize {
        history := history[1..];
      }
    }

    /** `emit`.  The event enters the history first; middleware then runs in
        order and may replace or cancel it; the handlers of `name` run on the
        resulting event; dead weak handlers and once-handlers that returned are
        then removed with `list.remove`. */
    method Emit(name: string, data: Params, source: Option<string>, metadata: Params, now: int,
                apply: (MiddlewareId, Event) -> Result<Option<Event>>,
                filters: (FilterId, Event) -> Result<bool>,
                calls: (CallbackId, Event) -> Result<Value>)
      returns (r: Result<seq<Value>>)
      requires Valid()
      modifies this`handlers, this`history, this`emitted, this`nextId
      ensures Valid()
      ensures nextId == old(nextId) + 1
      ensures emitted == old(emitted) + [NewEvent(name, data, source, metadata, now, old(nextId))]
      ensures var ev := NewEvent(name, data, source, metadata, now, old(nextId));
        var hs := if name in old(handlers) then old(handlers)[name] else [];
        match RunMiddleware(middleware, ev, apply)
        case Err(x) => r == Err(x) && handlers == old(handlers)
        case Ok(None) => r == Ok([]) && handlers == old(handlers)
        case Ok(Some(ev')) =>
          match RunHandlers(hs, ev', filters, calls)
          case Err(x) => r == Err(x) && handlers == old(handlers)
          case Ok(p) =>
            && r == Ok(p.results)
            && handlers == if name in old(handlers) then old(handlers)[name := RemoveEach(hs, p.remove)] else old(handlers)
      ensures var out := EmitOutcome(old(handlers), middleware, name, NewEvent(name, data, source, metadata, now, old(nextId)),
                                     apply, filters, calls);
        && (r.Err? <==> out.Err?) && (r.Err? ==> r.error == out.error)
        && handlers == (if out.Ok? then out.value else old(handlers))
    {
      var ev := NewEvent(name, data, source, metadata, now, nextId);
      nextId := nextId + 1;
      AddToHistory(ev);

      var mw := ApplyMiddleware(middleware, ev, apply);
      if mw.Err? {
        return Err(mw.error);
      }
      if mw.value.None? {
        return Ok([]);
      }
      var hs := if name in handlers then handlers[name] else [];
      var pass := CallHandlers(hs, mw.value.value, filters, calls);
      if pass.Err? {
        return Err(pass.error);
      }
      var left := RemoveAll(hs, pass.value.remove);
      if name in handlers {
        RemoveEachSorted(hs, pass.value.remove, PriorityOf);
        handlers := handlers[name := left];
      }
      r := Ok(pass.value.results);
    }

    /** The middleware loop of `emit`. */
    static method ApplyMiddleware(mws: seq<MiddlewareId>, ev: Event, apply: (MiddlewareId, Event) -> Result<Option<Event>>)
      returns (r: Result<Option<Event>>)
      ensures r == RunMiddleware(mws, ev, apply)
    {
      var i := 0;
      var cur := ev;
      while i < |mws|
        invariant 0 <= i <= |mws|
        invariant RunMiddleware(mws, ev, apply) == RunMiddleware(mws[i..], cur, apply)
      {
        assert mws[i..][0] == mws[i] && mws[i..][1..] == mws[i + 1..];
        var out := apply(mws[i], cur);
        if out.Err? {
          return Err(out.error);
        }
        if out.value.None? {
          return Ok(None);
        }
        cur := out.value.value;
        i := i + 1;
      }
      assert mws[i..] == [];
      return Ok(Some(cur));
    }

    /** The handler loop of `emit`: collects results and the handlers to drop. */
    static method CallHandlers(hs: seq<Handler>, cur: Event, filters: (FilterId, Event) -> Result<bool>,
                               calls: (CallbackId, Event) -> Result<Value>)
      returns (r: Result<Pass>)
      ensures r == RunHandlers(hs, cur, filters, calls)
    {
      var results: seq<Value> := [];
      var toRemove: seq<Handler> := [];
      var j := 0;
      while j < |hs|
        invariant 0 <= j <= |hs|
        invariant RunHandlers(hs[..j], cur, filters, calls) == Ok(Pass(results, toRemove))
      {
        var h := hs[j];
        assert hs[..j + 1][..j] == hs[..j] && hs[..j + 1][j] == h;
        if h.weak && !h.alive {
          toRemove := toRemove + [h];
        } else {
          var m := Matches(h, cur, filters);
          if m.Err? {
            RunHandlersExtendErr(hs, j + 1, cur, filters, calls);
            return Err(m.error);
          }
          if m.value {
            var out := Invoke(h, cur, calls);
            if out.Ok? {
              results := results + [out.value];
              if h.once {
                toRemove := toRemove + [h];
              }
            }
          }
        }
        j := j + 1;
      }
      assert hs[..j] == hs;
      return Ok(Pass(results, toRemove));
    }

    /** The removal loop of `emit`: `list.remove` for each collected handler. */
    static method RemoveAll(hs: seq<Handler>, toRemove: seq<Handler>) returns (left: seq<Handler>)
      ensures left == RemoveEach(hs, toRemove)
    {
      left := hs;
      var k := 0;
      while k < |toRemove|
        invariant 0 <= k <= |toRemove|
        invariant RemoveEach(hs, toRemove) == RemoveEach(left, toRemove[k..])
      {
        assert toRemove[k..][0] == toRemove[k] && toRemove[k..][1..] == toRemove[k + 1..];
        left := RemoveFirst(left, toRemove[k]);
        k := k + 1;
      }
      assert toRemove[k..] == [];
    }

    /** `emit_async`: the event is queued for the worker. */
    method EmitAsync(name: string, data: Params, source: Option<string>, metadata: Params, now: int)
      modifies this`queue, this`nextId
      ensures queue == old(queue) + [NewEvent(name, data, source, metadata, now, old(nextId))]
      ensures nextId == old(nextId) + 1
    {
      queue := queue + [NewEvent(name, data, source, metadata, now, nextId)];
      nextId := nextId + 1;
    }

    /** One turn of `_worker`: take the oldest queued event and emit it again
        under a fresh timestamp; the worker swallows what `emit` raises. */
    method ProcessQueued(now: int,
                         apply: (MiddlewareId, Event) -> Result<Option<Event>>,
                         filters: (FilterId, Event) -> Result<bool>,
                         calls: (CallbackId, Event) -> Result<Value>)
      returns (processed: bool)
      requires Valid()
      modifies this`queue, this`handlers, this`history, this`emitted, this`nextId
      ensures Valid()
      ensures processed == (old(queue) != [])
      ensures !processed ==> emitted == old(emitted) && handlers == old(handlers) && queue == old(queue)
      ensures processed ==> var q := old(queue)[0];
        var ev := NewEvent(q.name, q.data, q.source, q.metadata, now, old(nextId));
        var out := EmitOutcome(old(handlers), middleware, q.name, ev, apply, filters, calls);
        && queue == old(queue)[1..]
        && emitted == old(emitted) + [ev]
        && handlers == (if out.Ok? then out.value else old(handlers))
    {
      if queue == [] {
        return false;
      }
      var q := queue[0];
      queue := queue[1..];
      var _ := Emit(q.name, q.data, q.source, q.metadata, now, apply, filters, calls);
      return true;
    }

    /** `add_middleware`. */
    method AddMiddleware(m: MiddlewareId)
      modifies this`middleware
      ensures middleware == old(middleware) + [m]
    {
      middleware := middleware + [m];
    }

    /** `remove_middleware`: `list.remove`, with ValueError turned into False. */
    method RemoveMiddleware(m: MiddlewareId) returns (found: bool)
      modifies this`middleware
      ensures found == (m in old(middleware))
      ensures found ==>
        exists i :: 0 <= i < |old(middleware)|
          && old(middleware)[i] == m && m !in old(middleware)[..i]
          && middleware == old(middleware)[..i] + old(middleware)[i + 1..]
      ensures !found ==> middleware == old(middleware)
    {
      found := m in middleware;
      if found {
        ghost var i := IndexOf(middleware, m);
        middleware := RemoveFirst(middleware, m);
      }
    }

    /** `get_history`. */
    function GetHistory(name: Option<string>, limit: Option<int>, since: Option<int>): (r: seq<Event>)
      reads this
      ensures forall j :: 0 <= j < |r| ==> Wanted(name, since)(r[j])
      ensures limit.Some? && limit.value > 0 ==> |r| <= limit.value
    {
      History(history, name, limit, since)
    }

    /** `replay_events` without its sleeps: each event is emitted again with
        `replayed` set in its metadata; an exception stops the replay. */
    method Replay(events: seq<Event>, now: int,
                  apply: (MiddlewareId, Event) -> Result<Option<Event>>,
                  filters: (FilterId, Event) -> Result<bool>,
                  calls: (CallbackId, Event) -> Result<Value>)
      returns (err: Option<PyError>)
      requires Valid()
      modifies this`handlers, this`history, this`emitted, this`nextId
      ensures Valid()
      ensures |old(emitted)| <= |emitted| <= |old(emitted)| + |events|
      ensures err.None? ==> |emitted| == |old(emitted)| + |events|
      ensures emitted[..|old(emitted)|] == old(emitted)
      ensures forall j :: |old(emitted)| <= j < |emitted| ==>
        var src := events[j - |old(emitted)|];
        && emitted[j].name == src.name && emitted[j].data == src.data && emitted[j].source == src.source
        && "replayed" in emitted[j].metadata && emitted[j].metadata["replayed"] == Bool(true)
      ensures var e := ReplayOutcome(old(handlers), middleware, events, now, old(nextId), apply, filters, calls);
        && handlers == e.handlers && err == e.err && |emitted| == |old(emitted)| + e.count
    {
      ghost var mws := middleware;
      ghost var whole := ReplayOutcome(handlers, mws, events, now, nextId, apply, filters, calls);
      assert events[0..] == events;
      var i := 0;
      while i < |events|
        invariant 0 <= i <= |events|
        invariant Valid()
        invariant |emitted| == |old(emitted)| + i
        invariant nextId == old(nextId) + i
        invariant ReplayAt(whole, handlers, mws, events, i, now, nextId, apply, filters, calls)
        invariant ReplayedFrom(old(emitted), emitted, events)
      {
        var r := ReplayStep(events, i, now, whole, mws, old(emitted), apply, filters, calls);
        if r.Some? {
          return r;
        }
        i := i + 1;
      }
      assert events[i..] == [];
      return None;
    }

    /** Event `i` of `replay_events`, emitted again with `replayed` set: the
        replay that ends as `whole` either stops here, with what the emit
        raised and the lists it started from, or goes on from the lists the
        emit left. */
    method ReplayStep(events: seq<Event>, i: nat, now: int, ghost whole: ReplayEnd, ghost mws: seq<MiddlewareId>,
                      ghost base: seq<Event>,
                      apply: (MiddlewareId, Event) -> Result<Option<Event>>,
                      filters: (FilterId, Event) -> Result<bool>,
                      calls: (CallbackId, Event) -> Result<Value>)
      returns (r: Option<PyError>)
      requires Valid() && middleware == mws && i < |events|
      requires ReplayAt(whole, handlers, mws, events, i, now, nextId, apply, filters, calls)
      requires ReplayedFrom(base, emitted, events) && |emitted| == |base| + i
      modifies this`handlers, this`history, this`emitted, this`nextId
      ensures Valid()
      ensures nextId == old(nextId) + 1
      ensures |emitted| == |base| + i + 1 && ReplayedFrom(base, emitted, events)
      ensures r.Some? ==> whole == ReplayEnd(handlers, i + 1, r)
      ensures r.None? ==> ReplayAt(whole, handlers, mws, events, i + 1, now, nextId, apply, filters, calls)
    {
      var e := events[i];
      ghost var h0, n0, em0 := handlers, nextId, emitted;
      ghost var out := EmitOutcome(h0, mws, e.name, NewEvent(e.name, e.data, e.source, e.metadata["replayed" := Bool(true)], now, n0),
                                   apply, filters, calls);
      ReplayAdvance(whole, h0, mws, events, i, now, n0, apply, filters, calls, out);
      r := EmitReplayed(e, now, apply, filters, calls);
      ReplayedExtend(base, em0, events, emitted[|em0|]);
    }

    /** One event of `replay_events`: emitted again with `replayed` set; the
        answer is what the emit raised, if anything. */
    method EmitReplayed(e: Event, now: int,
                        apply: (MiddlewareId, Event) -> Result<Option<Event>>,
                        filters: (FilterId, Event) -> Result<bool>,
                        calls: (CallbackId, Event) -> Result<Value>)
      returns (err: Option<PyError>)
      requires Valid()
      modifies this`handlers, this`history, this`emitted, this`nextId
      ensures Valid()
      ensures nextId == old(nextId) + 1
      ensures var ev := NewEvent(e.name, e.data, e.source, e.metadata["replayed" := Bool(true)], now, old(nextId));
        var out := EmitOutcome(old(handlers), middleware, e.name, ev, apply, filters, calls);
        && emitted == old(emitted) + [ev]
        && err == (if out.Err? then Some(out.error) else None)
        && handlers == (if out.Ok? then out.value else old(handlers))
    {
      var r := Emit(e.name, e.data, e.source, e.metadata["replayed" := Bool(true)], now, apply, filters, calls);
      err := if r.Err? then Some(r.error) else None;
    }

    /** Garbage collection of the callable `cb`: every weak handler of it dies.
        A callable still held by a strong handler is never collected. */
    method Collect(cb: CallbackId)
      requires Valid()
      requires forall t, j :: t in handlers && 0 <= j < |handlers[t]| && handlers[t][j].callback == cb ==> handlers[t][j].weak
      modifies this`handlers
      ensures Valid()
      ensures handlers == map t | t in old(handlers) :: Kill(old(handlers)[t], cb)
    {
      handlers := map t | t in handlers :: Kill(handlers[t], cb);
      forall t | t in handlers ensures SortedBy(handlers[t], PriorityOf) {
        assert handlers[t] == Kill(old(handlers)[t], cb);
        assert SortedBy(old(handlers)[t], PriorityOf);
      }
    }
  }
}
