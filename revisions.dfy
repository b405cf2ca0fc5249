/**
 * How the two revisions relate. Given the same options and action, the
 * current revision makes the older one's calls with `next(action)` moved
 * from last to first, as long as the action stays within what both treat
 * alike: the value formatter set to the property formatter, a string (or
 * falsy) `timeEvent` with no action-type formatter, and a string (or falsy)
 * `increment`. Outside that they part ways, as the lemmas below show.
 */
module Revisions {
  import opened Wrappers
  import opened Objects
  import opened JsValues
  import opened Trace
  import opened Actions
  import Current
  import Legacy

  /** The action shapes on which the two revisions make the same analytics calls. */
  ghost predicate Comparable(options: Options, d: Descriptor) {
    && options.valueFormatter == options.propertyFormatter
    && (Truthy(d.timeEvent) ==> d.timeEvent.Str? && options.actionTypeFormatter.None?)
    && (Truthy(d.increment) ==> d.increment.Str?)
  }

  /**
   * Two handlers configured alike: the same selectors and formatters, the
   * current one's value formatter being the older one's single formatter.
   */
  ghost predicate Alike(cm: Current.Middleware, lm: Legacy.Middleware) {
    && cm.personSelector == lm.personSelector
    && cm.uniqueIdSelector == lm.uniqueIdSelector
    && cm.actionTypeFormatter == lm.actionTypeFormatter
    && cm.propertyFormatter == lm.propertyFormatter
    && cm.valueFormatter == lm.propertyFormatter
  }

  /** Construction from the same options makes alike handlers when the value formatter is the property formatter. */
  lemma CreateAlike(token: Value, options: Options)
    requires options.valueFormatter == options.propertyFormatter
    ensures Alike(Current.Create(token, options).middleware, Legacy.Create(token, options).middleware)
  {
  }

  /** The analytics part of the two handlers' traces, for alike handlers and a comparable descriptor. */
  lemma SameAnalytics(cm: Current.Middleware, lm: Legacy.Middleware, state: Value, d: Descriptor)
    requires Alike(cm, lm)
    requires Truthy(d.timeEvent) ==> d.timeEvent.Str? && cm.actionTypeFormatter(d.timeEvent) == d.timeEvent
    requires Truthy(d.increment) ==> d.increment.Str?
    ensures Current.IdentityCalls(cm, state) == Legacy.IdentityCalls(lm, state)
    ensures Current.TimeEventCalls(cm, d) == Legacy.TimeEventCalls(d)
    ensures Current.IncrementCalls(cm, d) == Legacy.IncrementCalls(lm, d)
  {
    TruthyWithLengthCases(d.timeEvent);
    TruthyWithLengthCases(d.increment);
  }

  /** Alike handlers track the same properties. */
  lemma SameTrack(cm: Current.Middleware, lm: Legacy.Middleware, d: Descriptor, data: Entries<Value>)
    requires Alike(cm, lm)
    ensures Current.TrackProperties(cm, d, data) == Legacy.TrackProperties(lm, d, data)
  {
  }

  /** The current handler's analytics calls, when it does not throw. */
  function CurrentAnalytics(cm: Current.Middleware, state: Value, d: Descriptor): seq<Call>
    requires Truthy(d.eventName) ==> !d.props.Null?
  {
    (if Truthy(d.eventName) then
       Current.IdentityCalls(cm, state) +
       [Track(cm.actionTypeFormatter(d.eventName), Current.TrackProperties(cm, d, EventData(d.props).value))]
     else []) +
    Current.TimeEventCalls(cm, d) + Current.IncrementCalls(cm, d)
  }

  /** The older handler's analytics calls, when it does not throw. */
  function LegacyAnalytics(lm: Legacy.Middleware, state: Value, d: Descriptor): seq<Call>
    requires Truthy(d.eventName) ==> !d.props.Null?
  {
    (if Truthy(d.eventName) then
       Legacy.IdentityCalls(lm, state) +
       [Track(lm.actionTypeFormatter(d.eventName), Legacy.TrackProperties(lm, d, EventData(d.props).value))]
     else []) +
    Legacy.TimeEventCalls(d) + Legacy.IncrementCalls(lm, d)
  }

  /** No call among the current analytics calls is a forwarding. */
  lemma CurrentAnalyticsNoNext(cm: Current.Middleware, state: Value, d: Descriptor)
    requires Truthy(d.eventName) ==> !d.props.Null?
    ensures Count(CurrentAnalytics(cm, state, d), NextCall) == 0
  {
    var a := CurrentAnalytics(cm, state, d);
    var identify := if Truthy(d.eventName) then Current.IdentityCalls(cm, state) else [];
    var track := if Truthy(d.eventName) then [a[|identify|]] else [];
    assert a == identify + track + Current.TimeEventCalls(cm, d) + Current.IncrementCalls(cm, d) + [];
    CountJoin(identify, track, Current.TimeEventCalls(cm, d), Current.IncrementCalls(cm, d), [], NextCall);
    if Truthy(d.eventName) {
      CountOne(track[0], NextCall);
    }
    Current.SegmentCounts(cm, state, d, NextCall);
  }

  /** The current handler's trace when it returns, split at the forwarding. */
  lemma CurrentTrace(cm: Current.Middleware, state: Value, next: Value -> Value, action: Value, d: Descriptor)
    requires !(Truthy(d.eventName) && d.props.Null?)
    ensures Current.Dispatch(cm, state, next, action, d).trace == [Next(action)] + CurrentAnalytics(cm, state, d)
  {
    var time, inc := Current.TimeEventCalls(cm, d), Current.IncrementCalls(cm, d);
    if Truthy(d.eventName) {
      var identify := Current.IdentityCalls(cm, state);
      var track := [Track(cm.actionTypeFormatter(d.eventName), Current.TrackProperties(cm, d, EventData(d.props).value))];
      assert [Next(action)] + (identify + track + time + inc) == [Next(action)] + identify + track + time + inc;
    } else {
      assert [Next(action)] + ([] + time + inc) == [Next(action)] + time + inc;
    }
  }

  /**
   * The current handler's run when it returns: forward, then the analytics
   * calls, among which there is no second forwarding.
   */
  lemma CurrentShape(cm: Current.Middleware, state: Value, next: Value -> Value, action: Value, d: Descriptor)
    requires !(Truthy(d.eventName) && d.props.Null?)
    ensures Current.Dispatch(cm, state, next, action, d) == Run([Next(action)] + CurrentAnalytics(cm, state, d), Returned(next(action)))
    ensures Count(CurrentAnalytics(cm, state, d), NextCall) == 0
  {
    CurrentTrace(cm, state, next, action, d);
    CurrentAnalyticsNoNext(cm, state, d);
  }

  /** No call among the older analytics calls is a forwarding. */
  lemma LegacyAnalyticsNoNext(lm: Legacy.Middleware, state: Value, d: Descriptor)
    requires Truthy(d.eventName) ==> !d.props.Null?
    ensures Count(LegacyAnalytics(lm, state, d), NextCall) == 0
  {
    var a := LegacyAnalytics(lm, state, d);
    var identify := if Truthy(d.eventName) then Legacy.IdentityCalls(lm, state) else [];
    var track := if Truthy(d.eventName) then [a[|identify|]] else [];
    assert a == identify + track + Legacy.TimeEventCalls(d) + Legacy.IncrementCalls(lm, d) + [];
    CountJoin(identify, track, Legacy.TimeEventCalls(d), Legacy.IncrementCalls(lm, d), [], NextCall);
    if Truthy(d.eventName) {
      CountOne(track[0], NextCall);
    }
    Legacy.SegmentCounts(lm, state, d, NextCall);
  }

  /**
   * The older handler's run when it returns: the analytics calls, none of
   * which forwards, then forward.
   */
  lemma LegacyShape(lm: Legacy.Middleware, state: Value, next: Value -> Value, action: Value, d: Descriptor)
    requires !(Truthy(d.eventName) && d.props.Null?)
    ensures Legacy.Dispatch(lm, state, next, action, d) == Run(LegacyAnalytics(lm, state, d) + [Next(action)], Returned(next(action)))
    ensures Count(LegacyAnalytics(lm, state, d), NextCall) == 0
  {
    LegacyAnalyticsNoNext(lm, state, d);
  }

  /** Both handlers on null `props` with a truthy `eventName`: identity resolution, then the throw. */
  lemma ThrowShapes(cm: Current.Middleware, lm: Legacy.Middleware, state: Value, next: Value -> Value, action: Value, d: Descriptor)
    requires Truthy(d.eventName) && d.props.Null?
    ensures Current.Dispatch(cm, state, next, action, d) == Run([Next(action)] + Current.IdentityCalls(cm, state), Threw(KeysOfNull))
    ensures Legacy.Dispatch(lm, state, next, action, d) == Run(Legacy.IdentityCalls(lm, state), Threw(KeysOfNull))
  {
  }

  /** Alike handlers make the same analytics calls on a comparable descriptor. */
  lemma SameAnalyticsCalls(cm: Current.Middleware, lm: Legacy.Middleware, state: Value, d: Descriptor)
    requires Alike(cm, lm)
    requires Truthy(d.timeEvent) ==> d.timeEvent.Str? && cm.actionTypeFormatter(d.timeEvent) == d.timeEvent
    requires Truthy(d.increment) ==> d.increment.Str?
    requires Truthy(d.eventName) ==> !d.props.Null?
    ensures CurrentAnalytics(cm, state, d) == LegacyAnalytics(lm, state, d)
  {
    SameAnalytics(cm, lm, state, d);
    if Truthy(d.eventName) {
      SameTrack(cm, lm, d, EventData(d.props).value);
    }
  }

  /**
   * Forward-first against forward-last, for one descriptor: both end the
   * same way, and the current trace is the older one with `Next(action)`
   * moved to the front (when the older throws on null `props`, it has not
   * forwarded at all).
   */
  lemma DispatchMoved(cm: Current.Middleware, lm: Legacy.Middleware, state: Value, next: Value -> Value, action: Value, d: Descriptor)
    requires Alike(cm, lm)
    requires Truthy(d.timeEvent) ==> d.timeEvent.Str? && cm.actionTypeFormatter(d.timeEvent) == d.timeEvent
    requires Truthy(d.increment) ==> d.increment.Str?
    ensures var c := Current.Dispatch(cm, state, next, action, d);
            var l := Legacy.Dispatch(lm, state, next, action, d);
            && c.outcome == l.outcome
            && (l.outcome.Returned? ==>
                  l.trace != [] && l.trace[|l.trace| - 1] == Next(action) &&
                  c.trace == [Next(action)] + l.trace[..|l.trace| - 1])
            && (l.outcome.Threw? ==> c.trace == [Next(action)] + l.trace)
  {
    SameAnalytics(cm, lm, state, d);
    if Truthy(d.eventName) && d.props.Null? {
      ThrowShapes(cm, lm, state, next, action, d);
    } else {
      CurrentShape(cm, state, next, action, d);
      LegacyShape(lm, state, next, action, d);
      SameAnalyticsCalls(cm, lm, state, d);
      var body := LegacyAnalytics(lm, state, d);
      assert (body + [Next(action)])[..|body|] == body;
    }
  }

  /**
   * The same for whole invocations built from the same options: a
   * descriptor that cannot be read throws before any call in both.
   */
  lemma ForwardingMoved(token: Value, options: Options, state: Value, next: Value -> Value, action: Value)
    requires ReadDescriptor(action).Success? ==> Comparable(options, ReadDescriptor(action).value)
    ensures var c := Current.Handle(Current.Create(token, options).middleware, state, next, action);
            var l := Legacy.Handle(Legacy.Create(token, options).middleware, state, next, action);
            && c.outcome == l.outcome
            && (ReadDescriptor(action).Failure? ==> c.trace == [] && l.trace == [])
            && (ReadDescriptor(action).Success? && l.outcome.Returned? ==>
                  l.trace != [] && l.trace[|l.trace| - 1] == Next(action) &&
                  c.trace == [Next(action)] + l.trace[..|l.trace| - 1])
            && (ReadDescriptor(action).Success? && l.outcome.Threw? ==> c.trace == [Next(action)] + l.trace)
  {
    if ReadDescriptor(action).Success? {
      CreateAlike(token, options);
      DispatchMoved(Current.Create(token, options).middleware, Legacy.Create(token, options).middleware,
                    state, next, action, ReadDescriptor(action).value);
    }
  }

  /**
   * An empty array as `increment`: the current revision still increments
   * `propertyFormatter(undefined)` by `undefined`; the older one, whose
   * length guard it fails, increments nothing.
   */
  lemma EmptyArrayIncrement(token: Value, options: Options, state: Value, next: Value -> Value, action: Value, d: Descriptor)
    requires d.increment == Arr([])
    requires !(Truthy(d.eventName) && d.props.Null?)
    ensures var cm := Current.Create(token, options).middleware;
            var c := Current.Dispatch(cm, state, next, action, d);
            c.trace[|c.trace| - 1] == Increment2(cm.propertyFormatter(Undefined), Undefined) && Count(c.trace, IncrementCall) == 1
    ensures Count(Legacy.Dispatch(Legacy.Create(token, options).middleware, state, next, action, d).trace, IncrementCall) == 0
  {
    var cm := Current.Create(token, options).middleware;
    var lm := Legacy.Create(token, options).middleware;
    Current.ForwardsFirst(cm, state, next, action, d);
    Current.IncrementLast(cm, state, next, action, d);
    Legacy.ForwardsLast(lm, state, next, action, d);
    Legacy.IncrementGuard(lm, state, next, action, d);
  }

  /**
   * An object as `increment`: the current revision sends one batch of
   * formatted keys; the older one sends nothing unless the object has a
   * positive `length`, and then the whole object as a single property.
   */
  lemma ObjectIncrement(token: Value, options: Options, state: Value, next: Value -> Value, action: Value, d: Descriptor)
    requires d.increment.Obj?
    requires !(Truthy(d.eventName) && d.props.Null?)
    ensures var cm := Current.Create(token, options).middleware;
            var c := Current.Dispatch(cm, state, next, action, d);
            c.trace[|c.trace| - 1] == IncrementBatch(Current.RenameEventData(d.increment.fields, cm.propertyFormatter, Identity))
    ensures Lookup(d.increment.fields, "length").None? ==>
              Count(Legacy.Dispatch(Legacy.Create(token, options).middleware, state, next, action, d).trace, IncrementCall) == 0
  {
    var cm := Current.Create(token, options).middleware;
    var lm := Legacy.Create(token, options).middleware;
    Current.ForwardsFirst(cm, state, next, action, d);
    Current.IncrementLast(cm, state, next, action, d);
    Legacy.ForwardsLast(lm, state, next, action, d);
    Legacy.IncrementGuard(lm, state, next, action, d);
    TruthyWithLengthCases(d.increment);
  }
}
