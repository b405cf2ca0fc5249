/**
 * The current revision of the middleware (src/mixpanelMiddleware.js).
 *
 * Construction initialises the client with the token and `options.config`
 * and resolves the formatters, each defaulting to the identity. The
 * returned handler forwards the action first, then (for a truthy
 * `eventName`) identifies the person and tracks the event, then marks a
 * timed event, then issues at most one increment chosen by the shape of
 * `increment`.
 */
module Current {
  import opened Wrappers
  import opened Objects
  import opened JsValues
  import opened Trace
  import opened Renaming
  import opened Actions

  /** The options after destructuring with their defaults. */
  datatype Middleware = Middleware(
    personSelector: Option<Value -> Value>,
    uniqueIdSelector: Option<Value -> Value>,
    actionTypeFormatter: Value -> Value,
    propertyFormatter: Value -> Value,
    valueFormatter: Value -> Value)

  /** The calls construction makes, and the handler it returns. */
  datatype Construction = Construction(calls: seq<Call>, middleware: Middleware)

  /** `mixpanelMiddleware(token, options)`. */
  function Create(token: Value, options: Options): (c: Construction)
    ensures c.calls == [Init(token, Some(options.config))]
    ensures c.middleware.personSelector == options.personSelector
    ensures c.middleware.uniqueIdSelector == options.uniqueIdSelector
    ensures options.actionTypeFormatter.None? ==> forall v :: c.middleware.actionTypeFormatter(v) == v
    ensures options.propertyFormatter.None? ==> forall v :: c.middleware.propertyFormatter(v) == v
    ensures options.valueFormatter.None? ==> forall v :: c.middleware.valueFormatter(v) == v
    ensures options.actionTypeFormatter.Some? ==>
              forall v :: c.middleware.actionTypeFormatter(v) == options.actionTypeFormatter.value(v)
    ensures options.propertyFormatter.Some? ==>
              forall v :: c.middleware.propertyFormatter(v) == options.propertyFormatter.value(v)
    ensures options.valueFormatter.Some? ==>
              forall v :: c.middleware.valueFormatter(v) == options.valueFormatter.value(v)
  {
    Construction(
      [Init(token, Some(options.config))],
      Middleware(
        options.personSelector, options.uniqueIdSelector,
        OrIdentity(options.actionTypeFormatter),
        OrIdentity(options.propertyFormatter),
        OrIdentity(options.valueFormatter)))
  }

  /** `renameEventData(object, propFormatter, valFormatter)`. */
  function RenameEventData(data: Entries<Value>, propertyFormatter: Value -> Value, valueFormatter: Value -> Value): (r: Entries<Value>)
    ensures DistinctKeys(r)
  {
    Rename(data, KeyOf(propertyFormatter), valueFormatter)
  }

  /** With the default formatters `renameEventData` returns an object equal to its input. */
  lemma RenameEventDataIdentity(data: Entries<Value>)
    requires DistinctKeys(data)
    ensures RenameEventData(data, Identity, Identity) == data
  {
    forall k ensures KeyOf(Identity)(k) == k {
      StringKey(k);
    }
    RenameIdentity(data, KeyOf(Identity));
  }

  /** `{...renameEventData(data, ...), action: label}`. */
  function TrackProperties(m: Middleware, d: Descriptor, data: Entries<Value>): Entries<Value> {
    Assign([], [RenameEventData(data, m.propertyFormatter, m.valueFormatter), [("action", ActionLabel(m.actionTypeFormatter, d))]])
  }

  /**
   * The tracked properties: `action` holds the label, overriding a renamed
   * property of that name in place; every other key reads as in the renamed
   * data; with no data the object is just the label.
   */
  lemma TrackPropertiesContents(m: Middleware, d: Descriptor, data: Entries<Value>)
    ensures var p := TrackProperties(m, d, data);
            var renamed := RenameEventData(data, m.propertyFormatter, m.valueFormatter);
            && DistinctKeys(p)
            && Lookup(p, "action") == Some(ActionLabel(m.actionTypeFormatter, d))
            && (forall q :: q != "action" ==> Lookup(p, q) == Lookup(renamed, q))
            && ("action" in Keys(renamed) ==> Keys(p) == Keys(renamed))
            && ("action" !in Keys(renamed) ==> p == renamed + [("action", ActionLabel(m.actionTypeFormatter, d))])
            && (data == [] ==> p == [("action", ActionLabel(m.actionTypeFormatter, d))])
  {
    var renamed := RenameEventData(data, m.propertyFormatter, m.valueFormatter);
    SpreadThenKey(renamed, "action", ActionLabel(m.actionTypeFormatter, d));
  }

  /**
   * The batch increment: `Object.keys(increment).reduce((inc, key) =>
   * ({...inc, [propertyFormatter(key)]: increment[key]}), {})`.
   */
  function BatchIncrement(increment: Entries<Value>, propertyFormatter: Value -> Value): Entries<Value>
    decreases |increment|
  {
    if increment == [] then []
    else
      var n := |increment| - 1;
      var inc := BatchIncrement(increment[..n], propertyFormatter);
      Assign([], [inc, [(FormattedKey(propertyFormatter, increment[n].0), increment[n].1)]])
  }

  /** Building by spread gives the same object as renaming with unchanged values. */
  lemma {:induction false} BatchIncrementIsRename(increment: Entries<Value>, propertyFormatter: Value -> Value)
    ensures BatchIncrement(increment, propertyFormatter) == RenameEventData(increment, propertyFormatter, Identity)
    decreases |increment|
  {
    if increment != [] {
      var n := |increment| - 1;
      BatchIncrementIsRename(increment[..n], propertyFormatter);
      var inc := RenameEventData(increment[..n], propertyFormatter, Identity);
      SpreadThenKey(inc, FormattedKey(propertyFormatter, increment[n].0), increment[n].1);
    }
  }

  /** `identify` then `people.set`, only when both selectors are given. */
  function IdentityCalls(m: Middleware, state: Value): seq<Call> {
    if m.personSelector.Some? && m.uniqueIdSelector.Some? then
      [Identify(m.uniqueIdSelector.value(state)), PeopleSet(m.personSelector.value(state))]
    else []
  }

  /** `time_event(actionTypeFormatter(timeEvent))` for a truthy `timeEvent`. */
  function TimeEventCalls(m: Middleware, d: Descriptor): seq<Call> {
    if Truthy(d.timeEvent) then [TimeEvent(m.actionTypeFormatter(d.timeEvent))] else []
  }

  /** The increment, dispatched on the shape of `increment`. */
  function IncrementCalls(m: Middleware, d: Descriptor): seq<Call> {
    match d.increment
    case Arr(items) => [Increment2(m.propertyFormatter(At(items, 0)), At(items, 1))]
    case Obj(fields) => [IncrementBatch(BatchIncrement(fields, m.propertyFormatter))]
    case _ => if Truthy(d.increment) then [Increment1(m.propertyFormatter(d.increment))] else []
  }

  /** The handler `store => next => action => ...`, for one state snapshot. */
  function Handle(m: Middleware, state: Value, next: Value -> Value, action: Value): Run {
    match ReadDescriptor(action)
    case Failure(e) => Run([], Threw(e))
    case Success(d) => Dispatch(m, state, next, action, d)
  }

  /** The handler after destructuring: forward, then the analytics calls. */
  function Dispatch(m: Middleware, state: Value, next: Value -> Value, action: Value, d: Descriptor): Run {
    var result := next(action);
    var forwarded := [Next(action)];
    if Truthy(d.eventName) then
      var identify := IdentityCalls(m, state);
      match EventData(d.props)
      case Failure(e) => Run(forwarded + identify, Threw(e))
      case Success(data) =>
        var track := [Track(m.actionTypeFormatter(d.eventName), TrackProperties(m, d, data))];
        Run(forwarded + identify + track + TimeEventCalls(m, d) + IncrementCalls(m, d), Returned(result))
    else
      Run(forwarded + TimeEventCalls(m, d) + IncrementCalls(m, d), Returned(result))
  }

  /** `identify` and `people.set` are made once each, with both selectors, and nothing else is. */
  lemma IdentityCount(m: Middleware, state: Value, k: Kind)
    ensures Count(IdentityCalls(m, state), k) ==
              if m.personSelector.Some? && m.uniqueIdSelector.Some? && k in {IdentifyCall, PeopleSetCall} then 1 else 0
  {
    if m.personSelector.Some? && m.uniqueIdSelector.Some? {
      CountTwo(Identify(m.uniqueIdSelector.value(state)), PeopleSet(m.personSelector.value(state)), k);
    }
  }

  /** At most one `time_event`, and nothing else. */
  lemma TimeEventCount(m: Middleware, d: Descriptor, k: Kind)
    ensures Count(TimeEventCalls(m, d), k) == if Truthy(d.timeEvent) && k == TimeEventCall then 1 else 0
  {
    if Truthy(d.timeEvent) {
      CountOne(TimeEvent(m.actionTypeFormatter(d.timeEvent)), k);
    }
  }

  /** At most one increment, and nothing else. */
  lemma IncrementCount(m: Middleware, d: Descriptor, k: Kind)
    ensures Count(IncrementCalls(m, d), k) == if Truthy(d.increment) && k == IncrementCall then 1 else 0
  {
    if Truthy(d.increment) {
      CountOne(IncrementCalls(m, d)[0], k);
    }
  }

  /** How many calls of each kind the parts of a handler's trace hold. */
  lemma SegmentCounts(m: Middleware, state: Value, d: Descriptor, k: Kind)
    ensures Count(IdentityCalls(m, state), k) ==
              if m.personSelector.Some? && m.uniqueIdSelector.Some? && k in {IdentifyCall, PeopleSetCall} then 1 else 0
    ensures Count(TimeEventCalls(m, d), k) == if Truthy(d.timeEvent) && k == TimeEventCall then 1 else 0
    ensures Count(IncrementCalls(m, d), k) == if Truthy(d.increment) && k == IncrementCall then 1 else 0
  {
    IdentityCount(m, state, k);
    TimeEventCount(m, d, k);
    IncrementCount(m, d, k);
  }

  /** The count of a trace that tracks: forwarded, identity, track, time event, increment. */
  lemma TrackedCount(m: Middleware, state: Value, next: Value -> Value, action: Value, d: Descriptor, k: Kind)
    requires Truthy(d.eventName) && !d.props.Null?
    ensures Count(Dispatch(m, state, next, action, d).trace, k) ==
              (if k == NextCall then 1 else 0) + Count(IdentityCalls(m, state), k) + (if k == TrackCall then 1 else 0) +
              Count(TimeEventCalls(m, d), k) + Count(IncrementCalls(m, d), k)
  {
    var t := Dispatch(m, state, next, action, d).trace;
    var forwarded := [Next(action)];
    var identify := IdentityCalls(m, state);
    var track := [t[1 + |identify|]];
    assert t == forwarded + identify + track + TimeEventCalls(m, d) + IncrementCalls(m, d);
    CountOne(Next(action), k);
    CountOne(track[0], k);
    CountJoin(forwarded, identify, track, TimeEventCalls(m, d), IncrementCalls(m, d), k);
  }

  /** The number of calls of kind `k` one invocation makes, part by part. */
  lemma DispatchCount(m: Middleware, state: Value, next: Value -> Value, action: Value, d: Descriptor, k: Kind)
    ensures var t := Dispatch(m, state, next, action, d).trace;
            Count(t, k) ==
              (if k == NextCall then 1 else 0) +
              (if !Truthy(d.eventName) then Count(TimeEventCalls(m, d), k) + Count(IncrementCalls(m, d), k)
               else Count(IdentityCalls(m, state), k) +
                    (if d.props.Null? then 0
                     else (if k == TrackCall then 1 else 0) +
                          Count(TimeEventCalls(m, d), k) + Count(IncrementCalls(m, d), k)))
  {
    var forwarded := [Next(action)];
    CountOne(Next(action), k);
    if !Truthy(d.eventName) {
      CountJoin(forwarded, [], [], TimeEventCalls(m, d), IncrementCalls(m, d), k);
      assert forwarded + [] + [] + TimeEventCalls(m, d) + IncrementCalls(m, d) == Dispatch(m, state, next, action, d).trace;
    } else if d.props.Null? {
      CountJoin(forwarded, IdentityCalls(m, state), [], [], [], k);
      assert forwarded + IdentityCalls(m, state) + [] + [] + [] == Dispatch(m, state, next, action, d).trace;
    } else {
      TrackedCount(m, state, next, action, d, k);
    }
  }

  /**
   * Reading the action: a descriptor that cannot be read throws before
   * anything is called; otherwise the handler runs on the descriptor read.
   */
  lemma HandleReads(m: Middleware, state: Value, next: Value -> Value, action: Value)
    ensures ReadDescriptor(action).Failure? ==>
              Handle(m, state, next, action) == Run([], Threw(ReadDescriptor(action).error))
    ensures ReadDescriptor(action).Success? ==>
              Handle(m, state, next, action) == Dispatch(m, state, next, action, ReadDescriptor(action).value)
  {
  }

  /**
   * An action that cannot be destructured throws before any call, `next`
   * included; every other action is forwarded exactly once.
   */
  lemma HandleUnreadable(m: Middleware, state: Value, next: Value -> Value, action: Value)
    ensures var run := Handle(m, state, next, action);
            && (Unreadable(action) ==> run.trace == [] && run.outcome.Threw?)
            && Count(run.trace, NextCall) == if Unreadable(action) then 0 else 1
  {
    ReadDescriptorCases(action);
    HandleReads(m, state, next, action);
    if !Unreadable(action) {
      ForwardsFirst(m, state, next, action, ReadDescriptor(action).value);
    }
  }

  /** An action without a descriptor object is only forwarded, and `next`'s result returned. */
  lemma HandleNoDescriptor(m: Middleware, state: Value, next: Value -> Value, action: Value)
    requires NoDescriptor(action)
    ensures Handle(m, state, next, action) == Run([Next(action)], Returned(next(action)))
  {
    ReadDescriptorCases(action);
  }

  /**
   * Forwarding: `next(action)` is the first call and the only one; the
   * handler returns its result, unless null `props` with a truthy
   * `eventName` throws after forwarding (and after identity resolution).
   */
  lemma ForwardsFirst(m: Middleware, state: Value, next: Value -> Value, action: Value, d: Descriptor)
    ensures var run := Dispatch(m, state, next, action, d);
            && run.trace != [] && run.trace[0] == Next(action)
            && Count(run.trace, NextCall) == 1
            && (run.outcome.Returned? <==> !(Truthy(d.eventName) && d.props.Null?))
            && (run.outcome.Returned? ==> run.outcome.value == next(action))
            && (run.outcome.Threw? ==> run.trace == [Next(action)] + IdentityCalls(m, state))
  {
    DispatchCount(m, state, next, action, d, NextCall);
    SegmentCounts(m, state, d, NextCall);
  }

  /** No `eventName` (or a falsy one): no `identify`, `people.set` or `track`, and the handler returns. */
  lemma NoEventNameNoTracking(m: Middleware, state: Value, next: Value -> Value, action: Value, d: Descriptor)
    requires !Truthy(d.eventName)
    ensures var run := Dispatch(m, state, next, action, d);
            && Count(run.trace, IdentifyCall) == 0
            && Count(run.trace, PeopleSetCall) == 0
            && Count(run.trace, TrackCall) == 0
            && run.outcome == Returned(next(action))
  {
    DispatchCount(m, state, next, action, d, IdentifyCall);
    DispatchCount(m, state, next, action, d, PeopleSetCall);
    DispatchCount(m, state, next, action, d, TrackCall);
    SegmentCounts(m, state, d, IdentifyCall);
    SegmentCounts(m, state, d, PeopleSetCall);
    SegmentCounts(m, state, d, TrackCall);
  }

  /** Where `track` stands in the trace: after `next`, and after `identify` and `people.set` when made. */
  function TrackIndex(m: Middleware): nat {
    if m.personSelector.Some? && m.uniqueIdSelector.Some? then 3 else 1
  }

  /**
   * Identity resolution, for a truthy `eventName`: with both selectors,
   * `identify(uniqueIdSelector(state))` then `people.set(personSelector(state))`
   * come straight after forwarding, and so before `track`; with only
   * one selector (or none) neither call is made.
   */
  lemma IdentityBeforeTrack(m: Middleware, state: Value, next: Value -> Value, action: Value, d: Descriptor)
    requires Truthy(d.eventName)
    ensures var run := Dispatch(m, state, next, action, d);
            && (m.personSelector.Some? && m.uniqueIdSelector.Some? ==>
                  && |run.trace| >= 3
                  && run.trace[1] == Identify(m.uniqueIdSelector.value(state))
                  && run.trace[2] == PeopleSet(m.personSelector.value(state)))
            && (!(m.personSelector.Some? && m.uniqueIdSelector.Some?) ==>
                  && Count(run.trace, IdentifyCall) == 0
                  && Count(run.trace, PeopleSetCall) == 0)
  {
    var t := Dispatch(m, state, next, action, d).trace;
    if m.personSelector.Some? && m.uniqueIdSelector.Some? {
      assert t[..3] == [Next(action)] + IdentityCalls(m, state);
    } else {
      DispatchCount(m, state, next, action, d, IdentifyCall);
      DispatchCount(m, state, next, action, d, PeopleSetCall);
      IdentityCount(m, state, IdentifyCall);
      IdentityCount(m, state, PeopleSetCall);
      TimeEventCount(m, d, IdentifyCall);
      TimeEventCount(m, d, PeopleSetCall);
      IncrementCount(m, d, IdentifyCall);
      IncrementCount(m, d, PeopleSetCall);
    }
  }

  /**
   * `track` is called once exactly when `eventName` is truthy and `props`
   * is not null, and never otherwise, at TrackIndex; its name is the
   * formatted `eventName` and its properties are the renamed data with the
   * `action` label (see TrackPropertiesContents).
   */
  lemma TrackOnce(m: Middleware, state: Value, next: Value -> Value, action: Value, d: Descriptor)
    ensures var run := Dispatch(m, state, next, action, d);
            && Count(run.trace, TrackCall) == (if Truthy(d.eventName) && !d.props.Null? then 1 else 0)
            && (Truthy(d.eventName) && !d.props.Null? ==>
                  && TrackIndex(m) < |run.trace|
                  && run.trace[TrackIndex(m)] ==
                       Track(m.actionTypeFormatter(d.eventName), TrackProperties(m, d, EventData(d.props).value)))
  {
    DispatchCount(m, state, next, action, d, TrackCall);
    SegmentCounts(m, state, d, TrackCall);
    if Truthy(d.eventName) && !d.props.Null? {
      var t := Dispatch(m, state, next, action, d).trace;
      var head := [Next(action)] + IdentityCalls(m, state);
      var track := Track(m.actionTypeFormatter(d.eventName), TrackProperties(m, d, EventData(d.props).value));
      assert t == head + [track] + (TimeEventCalls(m, d) + IncrementCalls(m, d));
      assert |head| == TrackIndex(m);
    }
  }

  /**
   * `time_event(actionTypeFormatter(timeEvent))` is called once exactly
   * when `timeEvent` is truthy, whether or not `eventName` is; it comes
   * just before the increment (if any), so after `track`.
   */
  lemma TimeEventAfterTrack(m: Middleware, state: Value, next: Value -> Value, action: Value, d: Descriptor)
    requires Dispatch(m, state, next, action, d).outcome.Returned?
    ensures var run := Dispatch(m, state, next, action, d);
            var at := |run.trace| - 1 - (if Truthy(d.increment) then 1 else 0);
            && Count(run.trace, TimeEventCall) == (if Truthy(d.timeEvent) then 1 else 0)
            && (Truthy(d.timeEvent) ==>
                  && 0 <= at < |run.trace|
                  && run.trace[at] == TimeEvent(m.actionTypeFormatter(d.timeEvent))
                  && (Truthy(d.eventName) ==> TrackIndex(m) < at))
  {
    DispatchCount(m, state, next, action, d, TimeEventCall);
    SegmentCounts(m, state, d, TimeEventCall);
    SegmentCounts(m, state, d, IncrementCall);
    if Truthy(d.timeEvent) {
      var t := Dispatch(m, state, next, action, d).trace;
      var inc := IncrementCalls(m, d);
      assert |inc| == if Truthy(d.increment) then 1 else 0;
      var head := t[..|t| - 1 - |inc|];
      assert t == head + [TimeEvent(m.actionTypeFormatter(d.timeEvent))] + inc;
      if Truthy(d.eventName) {
        assert |head| == TrackIndex(m) + 1;
      }
    }
  }

  /**
   * At most one increment, and it is the last call. An array gives
   * `(propertyFormatter(inc[0]), inc[1])`, even when empty; a plain object
   * gives one batch whose keys are formatted and whose deltas are unchanged
   * (later keys winning, as Renaming.RenameLookup states); any other truthy value
   * gives `propertyFormatter(inc)`; a falsy value gives no increment.
   */
  lemma IncrementLast(m: Middleware, state: Value, next: Value -> Value, action: Value, d: Descriptor)
    requires Dispatch(m, state, next, action, d).outcome.Returned?
    ensures var run := Dispatch(m, state, next, action, d);
            var inc := d.increment;
            var last := run.trace[|run.trace| - 1];
            && Count(run.trace, IncrementCall) == (if Truthy(inc) then 1 else 0)
            && (inc.Arr? ==> last == Increment2(m.propertyFormatter(At(inc.items, 0)), At(inc.items, 1)))
            && (inc.Obj? ==> last == IncrementBatch(RenameEventData(inc.fields, m.propertyFormatter, Identity)))
            && (!inc.Arr? && !inc.Obj? && Truthy(inc) ==> last == Increment1(m.propertyFormatter(inc)))
  {
    DispatchCount(m, state, next, action, d, IncrementCall);
    SegmentCounts(m, state, d, IncrementCall);
    if d.increment.Obj? {
      BatchIncrementIsRename(d.increment.fields, m.propertyFormatter);
    }
  }

  /**
   * A pipeline's lifetime: construction, then one handler invocation per
   * dispatched `(state, action)` pair.
   */
  function Session(token: Value, options: Options, next: Value -> Value, dispatches: seq<(Value, Value)>): seq<Call>
    decreases |dispatches|
  {
    if dispatches == [] then Create(token, options).calls
    else
      var n := |dispatches| - 1;
      Session(token, options, next, dispatches[..n]) +
        Handle(Create(token, options).middleware, dispatches[n].0, next, dispatches[n].1).trace
  }

  /** A handler invocation never initialises the client. */
  lemma HandleNoInit(m: Middleware, state: Value, next: Value -> Value, action: Value)
    ensures Count(Handle(m, state, next, action).trace, InitCall) == 0
  {
    HandleReads(m, state, next, action);
    if ReadDescriptor(action).Success? {
      var d := ReadDescriptor(action).value;
      DispatchCount(m, state, next, action, d, InitCall);
      SegmentCounts(m, state, d, InitCall);
    }
  }

  /** The client is initialised exactly once, first, however many actions follow. */
  lemma {:induction false} InitOnce(token: Value, options: Options, next: Value -> Value, dispatches: seq<(Value, Value)>)
    ensures var t := Session(token, options, next, dispatches);
            t != [] && t[0] == Init(token, Some(options.config)) && Count(t, InitCall) == 1
    decreases |dispatches|
  {
    if dispatches == [] {
      CountOne(Init(token, Some(options.config)), InitCall);
    } else {
      var n := |dispatches| - 1;
      InitOnce(token, options, next, dispatches[..n]);
      var h := Handle(Create(token, options).middleware, dispatches[n].0, next, dispatches[n].1).trace;
      HandleNoInit(Create(token, options).middleware, dispatches[n].0, next, dispatches[n].1);
      CountAppend(Session(token, options, next, dispatches[..n]), h, InitCall);
    }
  }
}
