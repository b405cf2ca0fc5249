/**
 * The older, compiled revision of the middleware (dist/mixpanelMiddleware.js).
 *
 * It differs from the current one in that it initialises the client with
 * the token only; it has no value formatter, so `renameProperties` applies
 * the property formatter to keys AND values; `time_event` and the increment
 * are guarded by `x && x.length > 0`, the event name of `time_event` is
 * not formatted and the increment is always the one-argument call; and the
 * action is forwarded LAST, after every analytics call.
 */
module Legacy {
  import opened Wrappers
  import opened Objects
  import opened JsValues
  import opened Trace
  import opened Renaming
  import opened Actions

  /** The options after destructuring with their defaults (no value formatter). */
  datatype Middleware = Middleware(
    personSelector: Option<Value -> Value>,
    uniqueIdSelector: Option<Value -> Value>,
    actionTypeFormatter: Value -> Value,
    propertyFormatter: Value -> Value)

  /** The calls construction makes, and the handler it returns. */
  datatype Construction = Construction(calls: seq<Call>, middleware: Middleware)

  /** `mixpanelMiddleware(token, options)`: `init(token)` with no second argument. */
  function Create(token: Value, options: Options): (c: Construction)
    ensures c.calls == [Init(token, None)]
    ensures c.middleware.personSelector == options.personSelector
    ensures c.middleware.uniqueIdSelector == options.uniqueIdSelector
    ensures options.actionTypeFormatter.None? ==> forall v :: c.middleware.actionTypeFormatter(v) == v
    ensures options.propertyFormatter.None? ==> forall v :: c.middleware.propertyFormatter(v) == v
    ensures options.actionTypeFormatter.Some? ==>
              forall v :: c.middleware.actionTypeFormatter(v) == options.actionTypeFormatter.value(v)
    ensures options.propertyFormatter.Some? ==>
              forall v :: c.middleware.propertyFormatter(v) == options.propertyFormatter.value(v)
  {
    Construction(
      [Init(token, None)],
      Middleware(
        options.personSelector, options.uniqueIdSelector,
        OrIdentity(options.actionTypeFormatter),
        OrIdentity(options.propertyFormatter)))
  }

  /** `renameProperties(object, formatter)`: one formatter for keys and values. */
  function RenameProperties(data: Entries<Value>, formatter: Value -> Value): (r: Entries<Value>)
    ensures DistinctKeys(r)
  {
    Rename(data, KeyOf(formatter), formatter)
  }

  /**
   * The value read under a formatted key is the formatter applied to the
   * value of the last entry whose key formats to it.
   */
  lemma RenamePropertiesFormatsValues(data: Entries<Value>, formatter: Value -> Value, q: string)
    ensures q !in FormattedKeys(data, KeyOf(formatter)) ==> Lookup(RenameProperties(data, formatter), q) == None
    ensures forall j :: LastWithKey(data, KeyOf(formatter), q, j) ==>
              Lookup(RenameProperties(data, formatter), q) == Some(formatter(data[j].1))
  {
    if q !in FormattedKeys(data, KeyOf(formatter)) {
      RenameAbsent(data, KeyOf(formatter), formatter, q);
    }
    forall j | LastWithKey(data, KeyOf(formatter), q, j)
      ensures Lookup(RenameProperties(data, formatter), q) == Some(formatter(data[j].1))
    {
      RenameLookup(data, KeyOf(formatter), formatter, q, j);
    }
  }

  /** With the identity formatter `renameProperties` returns an object equal to its input. */
  lemma RenamePropertiesIdentity(data: Entries<Value>)
    requires DistinctKeys(data)
    ensures RenameProperties(data, Identity) == data
  {
    forall k ensures KeyOf(Identity)(k) == k {
      StringKey(k);
    }
    RenameIdentity(data, KeyOf(Identity));
  }

  /**
   * The `_extends` helper (`Object.assign`'s fallback): for each source in
   * turn, each own key in turn is assigned into the target.
   */
  method Extends(target: Entries<Value>, sources: seq<Entries<Value>>) returns (r: Entries<Value>)
    ensures r == Assign(target, sources)
  {
    r := target;
    var i := 0;
    while i < |sources|
      invariant 0 <= i <= |sources|
      invariant r == Assign(target, sources[..i])
    {
      var source := sources[i];
      var j := 0;
      while j < |source|
        invariant 0 <= j <= |source|
        invariant r == CopyOwn(Assign(target, sources[..i]), source[..j])
      {
        assert source[..j + 1][..j] == source[..j];
        r := Put(r, source[j].0, source[j].1);
        j := j + 1;
      }
      assert source[..j] == source;
      assert sources[..i + 1][..i] == sources[..i];
      i := i + 1;
    }
    assert sources[..i] == sources;
  }

  /** `_extends({}, renameProperties(data, propertyFormatter), {action: label})`. */
  function TrackProperties(m: Middleware, d: Descriptor, data: Entries<Value>): Entries<Value> {
    Assign([], [RenameProperties(data, m.propertyFormatter), [("action", ActionLabel(m.actionTypeFormatter, d))]])
  }

  /**
   * The tracked properties: `action` holds the label, overriding a renamed
   * property of that name (the later source wins); every other key reads as
   * in the renamed data; with no data the object is just the label.
   */
  lemma TrackPropertiesContents(m: Middleware, d: Descriptor, data: Entries<Value>)
    ensures var p := TrackProperties(m, d, data);
            var renamed := RenameProperties(data, m.propertyFormatter);
            && DistinctKeys(p)
            && Lookup(p, "action") == Some(ActionLabel(m.actionTypeFormatter, d))
            && (forall q :: q != "action" ==> Lookup(p, q) == Lookup(renamed, q))
            && ("action" in Keys(renamed) ==> Keys(p) == Keys(renamed))
            && ("action" !in Keys(renamed) ==> p == renamed + [("action", ActionLabel(m.actionTypeFormatter, d))])
            && (data == [] ==> p == [("action", ActionLabel(m.actionTypeFormatter, d))])
  {
    var renamed := RenameProperties(data, m.propertyFormatter);
    SpreadThenKey(renamed, "action", ActionLabel(m.actionTypeFormatter, d));
  }

  /** `identify` then `people.set`, only when both selectors are given. */
  function IdentityCalls(m: Middleware, state: Value): seq<Call> {
    if m.personSelector.Some? && m.uniqueIdSelector.Some? then
      [Identify(m.uniqueIdSelector.value(state)), PeopleSet(m.personSelector.value(state))]
    else []
  }

  /** `time_event(timeEvent)`, unformatted, when `timeEvent && timeEvent.length > 0`. */
  function TimeEventCalls(d: Descriptor): seq<Call> {
    if TruthyWithLength(d.timeEvent) then [TimeEvent(d.timeEvent)] else []
  }

  /** `people.increment(propertyFormatter(increment))` when `increment && increment.length > 0`. */
  function IncrementCalls(m: Middleware, d: Descriptor): seq<Call> {
    if TruthyWithLength(d.increment) then [Increment1(m.propertyFormatter(d.increment))] else []
  }

  /** The handler `store => next => action => ...`, for one state snapshot. */
  function Handle(m: Middleware, state: Value, next: Value -> Value, action: Value): Run {
    match ReadDescriptor(action)
    case Failure(e) => Run([], Threw(e))
    case Success(d) => Dispatch(m, state, next, action, d)
  }

  /** The handler after destructuring: the analytics calls, then `return next(action)`. */
  function Dispatch(m: Middleware, state: Value, next: Value -> Value, action: Value, d: Descriptor): Run {
    var forwarded := [Next(action)];
    if Truthy(d.eventName) then
      var identify := IdentityCalls(m, state);
      match EventData(d.props)
      case Failure(e) => Run(identify, Threw(e))
      case Success(data) =>
        var track := [Track(m.actionTypeFormatter(d.eventName), TrackProperties(m, d, data))];
        Run(identify + track + TimeEventCalls(d) + IncrementCalls(m, d) + forwarded, Returned(next(action)))
    else
      Run(TimeEventCalls(d) + IncrementCalls(m, d) + forwarded, Returned(next(action)))
  }

  /** `identify` and `people.set` are made once each, with both selectors, and nothing else is. */
  lemma IdentityCount(m: Middleware, state: Value, k: Kind)
    ensures Count(IdentityCalls(m, state), k) ==
              if m.personSelector.Some? && m.uniqueIdSelector.Some? && k in {IdentifyCall, PeopleSetCall} then 1 else 0
  {
    if m.personSelector.Some? && m.uniqueIdSelector.Some? {
      CountTwo(Identify(m.uniqueIdSelector.value(state)), PeopleSet(m.personSelector.value(state)), k);
    }
  }

  /** At most one `time_event`, and nothing else. */
  lemma TimeEventCount(m: Middleware, d: Descriptor, k: Kind)
    ensures Count(TimeEventCalls(d), k) == if TruthyWithLength(d.timeEvent) && k == TimeEventCall then 1 else 0
  {
    if TruthyWithLength(d.timeEvent) {
      CountOne(TimeEvent(d.timeEvent), k);
    }
  }

  /** At most one increment, and nothing else. */
  lemma IncrementCount(m: Middleware, d: Descriptor, k: Kind)
    ensures Count(IncrementCalls(m, d), k) == if TruthyWithLength(d.increment) && k == IncrementCall then 1 else 0
  {
    if TruthyWithLength(d.increment) {
      CountOne(IncrementCalls(m, d)[0], k);
    }
  }

  /** How many calls of each kind the parts of a handler's trace hold. */
  lemma SegmentCounts(m: Middleware, state: Value, d: Descriptor, k: Kind)
    ensures Count(IdentityCalls(m, state), k) ==
              if m.personSelector.Some? && m.uniqueIdSelector.Some? && k in {IdentifyCall, PeopleSetCall} then 1 else 0
    ensures Count(TimeEventCalls(d), k) == if TruthyWithLength(d.timeEvent) && k == TimeEventCall then 1 else 0
    ensures Count(IncrementCalls(m, d), k) == if TruthyWithLength(d.increment) && k == IncrementCall then 1 else 0
  {
    IdentityCount(m, state, k);
    TimeEventCount(m, d, k);
    IncrementCount(m, d, k);
  }

  /** The count of a trace that tracks: identity, track, time event, increment, forwarded. */
  lemma TrackedCount(m: Middleware, state: Value, next: Value -> Value, action: Value, d: Descriptor, k: Kind)
    requires Truthy(d.eventName) && !d.props.Null?
    ensures Count(Dispatch(m, state, next, action, d).trace, k) ==
              Count(IdentityCalls(m, state), k) + (if k == TrackCall then 1 else 0) +
              Count(TimeEventCalls(d), k) + Count(IncrementCalls(m, d), k) + (if k == NextCall then 1 else 0)
  {
    var t := Dispatch(m, state, next, action, d).trace;
    var forwarded := [Next(action)];
    var identify := IdentityCalls(m, state);
    var track := [t[|identify|]];
    assert t == identify + track + TimeEventCalls(d) + IncrementCalls(m, d) + forwarded;
    CountOne(Next(action), k);
    CountOne(track[0], k);
    CountJoin(identify, track, TimeEventCalls(d), IncrementCalls(m, d), forwarded, k);
  }

  /** The number of calls of kind `k` one invocation makes, part by part. */
  lemma DispatchCount(m: Middleware, state: Value, next: Value -> Value, action: Value, d: Descriptor, k: Kind)
    ensures var t := Dispatch(m, state, next, action, d).trace;
            Count(t, k) ==
              (if !Truthy(d.eventName) then Count(TimeEventCalls(d), k) + Count(IncrementCalls(m, d), k) + (if k == NextCall then 1 else 0)
               else Count(IdentityCalls(m, state), k) +
                    (if d.props.Null? then 0
                     else (if k == TrackCall then 1 else 0) +
                          Count(TimeEventCalls(d), k) + Count(IncrementCalls(m, d), k) + (if k == NextCall then 1 else 0)))
  {
    var forwarded := [Next(action)];
    CountOne(Next(action), k);
    if !Truthy(d.eventName) {
      CountJoin([], [], TimeEventCalls(d), IncrementCalls(m, d), forwarded, k);
      assert [] + [] + TimeEventCalls(d) + IncrementCalls(m, d) + forwarded == Dispatch(m, state, next, action, d).trace;
    } else if d.props.Null? {
      CountJoin(IdentityCalls(m, state), [], [], [], [], k);
      assert IdentityCalls(m, state) + [] + [] + [] + [] == Dispatch(m, state, next, action, d).trace;
    } else {
      TrackedCount(m, state, next, action, d, k);
    }
  }

  /**
   * Reading the action: a descriptor that cannot be read throws before
   * anything is called; otherwise the handler runs on the descriptor read.
   */
  lemma HandleReads(m: Middleware, state: Value, next: Value -> Value, action: Value)
    ensures ReadDescriptor(action).Failure? ==>
              Handle(m, state, next, action) == Run([], Threw(ReadDescriptor(action).error))
    ensures ReadDescriptor(action).Success? ==>
              Handle(m, state, next, action) == Dispatch(m, state, next, action, ReadDescriptor(action).value)
  {
  }

  /**
   * An action that cannot be destructured throws before any call, `next`
   * included; any other action is forwarded exactly once when the handler
   * returns, and not at all when it throws.
   */
  lemma HandleUnreadable(m: Middleware, state: Value, next: Value -> Value, action: Value)
    ensures var run := Handle(m, state, next, action);
            && (Unreadable(action) ==> run.trace == [] && run.outcome.Threw?)
            && Count(run.trace, NextCall) == if run.outcome.Returned? then 1 else 0
  {
    ReadDescriptorCases(action);
    HandleReads(m, state, next, action);
    if !Unreadable(action) {
      ForwardsLast(m, state, next, action, ReadDescriptor(action).value);
    }
  }

  /** An action without a descriptor object is only forwarded, and `next`'s result returned. */
  lemma HandleNoDescriptor(m: Middleware, state: Value, next: Value -> Value, action: Value)
    requires NoDescriptor(action)
    ensures Handle(m, state, next, action) == Run([Next(action)], Returned(next(action)))
  {
    ReadDescriptorCases(action);
    TruthyWithLengthCases(Undefined);
  }

  /**
   * Forwarding: when the handler returns, `next(action)` is the last call
   * and the only one, and its result is returned; null `props` with a
   * truthy `eventName` throws before the action is forwarded at all.
   */
  lemma ForwardsLast(m: Middleware, state: Value, next: Value -> Value, action: Value, d: Descriptor)
    ensures var run := Dispatch(m, state, next, action, d);
            && (run.outcome.Returned? <==> !(Truthy(d.eventName) && d.props.Null?))
            && (run.outcome.Returned? ==>
                  && run.trace != [] && run.trace[|run.trace| - 1] == Next(action)
                  && Count(run.trace, NextCall) == 1
                  && run.outcome.value == next(action))
            && (run.outcome.Threw? ==> run.trace == IdentityCalls(m, state) && Count(run.trace, NextCall) == 0)
  {
    DispatchCount(m, state, next, action, d, NextCall);
    SegmentCounts(m, state, d, NextCall);
  }

  /** No `eventName` (or a falsy one): no `identify`, `people.set` or `track`, and the handler returns. */
  lemma NoEventNameNoTracking(m: Middleware, state: Value, next: Value -> Value, action: Value, d: Descriptor)
    requires !Truthy(d.eventName)
    ensures var run := Dispatch(m, state, next, action, d);
            && Count(run.trace, IdentifyCall) == 0
            && Count(run.trace, PeopleSetCall) == 0
            && Count(run.trace, TrackCall) == 0
            && run.outcome == Returned(next(action))
  {
    DispatchCount(m, state, next, action, d, IdentifyCall);
    DispatchCount(m, state, next, action, d, PeopleSetCall);
    DispatchCount(m, state, next, action, d, TrackCall);
    SegmentCounts(m, state, d, IdentifyCall);
    SegmentCounts(m, state, d, PeopleSetCall);
    SegmentCounts(m, state, d, TrackCall);
  }

  /** Where `track` stands in the trace: first, or after `identify` and `people.set` when made. */
  function TrackIndex(m: Middleware): nat {
    if m.personSelector.Some? && m.uniqueIdSelector.Some? then 2 else 0
  }

  /**
   * Identity resolution, for a truthy `eventName`: with both selectors,
   * `identify(uniqueIdSelector(state))` then `people.set(personSelector(state))`
   * are the first two calls, and so come before `track`; with only one
   * selector (or none) neither call is made.
   */
  lemma IdentityBeforeTrack(m: Middleware, state: Value, next: Value -> Value, action: Value, d: Descriptor)
    requires Truthy(d.eventName)
    ensures var run := Dispatch(m, state, next, action, d);
            && (m.personSelector.Some? && m.uniqueIdSelector.Some? ==>
                  && |run.trace| >= 2
                  && run.trace[0] == Identify(m.uniqueIdSelector.value(state))
                  && run.trace[1] == PeopleSet(m.personSelector.value(state)))
            && (!(m.personSelector.Some? && m.uniqueIdSelector.Some?) ==>
                  && Count(run.trace, IdentifyCall) == 0
                  && Count(run.trace, PeopleSetCall) == 0)
  {
    var t := Dispatch(m, state, next, action, d).trace;
    assert t[..|IdentityCalls(m, state)|] == IdentityCalls(m, state);
    DispatchCount(m, state, next, action, d, IdentifyCall);
    DispatchCount(m, state, next, action, d, PeopleSetCall);
    SegmentCounts(m, state, d, IdentifyCall);
    SegmentCounts(m, state, d, PeopleSetCall);
  }

  /**
   * `track` is called once exactly when `eventName` is truthy and `props`
   * is not null, at TrackIndex, with the formatted `eventName` and the
   * properties of TrackPropertiesContents.
   */
  lemma TrackOnce(m: Middleware, state: Value, next: Value -> Value, action: Value, d: Descriptor)
    ensures var run := Dispatch(m, state, next, action, d);
            && Count(run.trace, TrackCall) == (if Truthy(d.eventName) && !d.props.Null? then 1 else 0)
            && (Truthy(d.eventName) && !d.props.Null? ==>
                  && TrackIndex(m) < |run.trace|
                  && run.trace[TrackIndex(m)] ==
                       Track(m.actionTypeFormatter(d.eventName), TrackProperties(m, d, EventData(d.props).value)))
  {
    DispatchCount(m, state, next, action, d, TrackCall);
    SegmentCounts(m, state, d, TrackCall);
    if Truthy(d.eventName) && !d.props.Null? {
      var t := Dispatch(m, state, next, action, d).trace;
      var head := IdentityCalls(m, state);
      var track := Track(m.actionTypeFormatter(d.eventName), TrackProperties(m, d, EventData(d.props).value));
      assert t == head + [track] + (TimeEventCalls(d) + IncrementCalls(m, d) + [Next(action)]);
      assert |head| == TrackIndex(m);
    }
  }

  /** Where the older revision's `time_event` stands: before the increment and the forwarding, after `track`. */
  lemma TimeEventPosition(m: Middleware, state: Value, next: Value -> Value, action: Value, d: Descriptor)
    requires Dispatch(m, state, next, action, d).outcome.Returned?
    requires TruthyWithLength(d.timeEvent)
    ensures var run := Dispatch(m, state, next, action, d);
            var at := |run.trace| - 2 - (if TruthyWithLength(d.increment) then 1 else 0);
            && 0 <= at < |run.trace|
            && run.trace[at] == TimeEvent(d.timeEvent)
            && (Truthy(d.eventName) ==> TrackIndex(m) < at)
  {
    var t := Dispatch(m, state, next, action, d).trace;
    var tail := IncrementCalls(m, d) + [Next(action)];
    assert |tail| == 1 + (if TruthyWithLength(d.increment) then 1 else 0);
    if Truthy(d.eventName) {
      var identify := IdentityCalls(m, state);
      var track := [t[|identify|]];
      assert t == identify + track + [TimeEvent(d.timeEvent)] + tail;
      assert |identify + track| == TrackIndex(m) + 1;
    } else {
      assert t == [TimeEvent(d.timeEvent)] + tail;
    }
  }

  /**
   * `time_event(timeEvent)` is called once exactly when `timeEvent` is
   * truthy with a positive `length` (so never for an empty array, nor for
   * an object without a `length`), with the name NOT formatted.
   */
  lemma TimeEventGuard(m: Middleware, state: Value, next: Value -> Value, action: Value, d: Descriptor)
    requires Dispatch(m, state, next, action, d).outcome.Returned?
    ensures var run := Dispatch(m, state, next, action, d);
            var at := |run.trace| - 2 - (if TruthyWithLength(d.increment) then 1 else 0);
            && Count(run.trace, TimeEventCall) == (if TruthyWithLength(d.timeEvent) then 1 else 0)
            && (TruthyWithLength(d.timeEvent) ==>
                  && 0 <= at < |run.trace|
                  && run.trace[at] == TimeEvent(d.timeEvent)
                  && (Truthy(d.eventName) ==> TrackIndex(m) < at))
  {
    DispatchCount(m, state, next, action, d, TimeEventCall);
    SegmentCounts(m, state, d, TimeEventCall);
    if TruthyWithLength(d.timeEvent) {
      TimeEventPosition(m, state, next, action, d);
    }
  }

  /**
   * At most one increment, the one-argument `people.increment(propertyFormatter(increment))`
   * with the whole value, just before forwarding; it is made exactly when
   * `increment` is truthy with a positive `length`.
   */
  lemma IncrementGuard(m: Middleware, state: Value, next: Value -> Value, action: Value, d: Descriptor)
    requires Dispatch(m, state, next, action, d).outcome.Returned?
    ensures var run := Dispatch(m, state, next, action, d);
            var inc := d.increment;
            && Count(run.trace, IncrementCall) == (if TruthyWithLength(inc) then 1 else 0)
            && (TruthyWithLength(inc) ==>
                  |run.trace| >= 2 && run.trace[|run.trace| - 2] == Increment1(m.propertyFormatter(inc)))
  {
    DispatchCount(m, state, next, action, d, IncrementCall);
    SegmentCounts(m, state, d, IncrementCall);
  }
}
