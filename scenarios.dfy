/**
 * Worked examples of the middleware on concrete actions: an event with
 * properties, the same with an action-type formatter, and a batch
 * increment with a property formatter.
 */
module Scenarios {
  import opened Wrappers
  import opened Objects
  import opened JsValues
  import opened Trace
  import opened Actions
  import Current
  import Legacy
  import Renaming

  /** `{type: "Action", meta: {mixpanel: mixpanel}}`. */
  function MixpanelAction(mixpanel: Entries<Value>): Value {
    Obj([("type", Str("Action")), ("meta", Obj([("mixpanel", Obj(mixpanel))]))])
  }

  /** `{eventName: "fooEvent", props: {foo: "bar"}}`. */
  const FooEvent: Entries<Value> := [("eventName", Str("fooEvent")), ("props", Obj([("foo", Str("bar"))]))]

  /** A formatter wrapping its operand's string in `marker`: `v => marker + v + marker`. */
  function Wrap(marker: string): Value -> Value {
    v => Str(marker + ToJsString(v) + marker)
  }

  /** What a wrapping formatter makes of a string, and of a string key. */
  lemma WrapString(marker: string, s: string)
    ensures Wrap(marker)(Str(s)) == Str(marker + s + marker)
    ensures KeyOf(Wrap(marker))(s) == marker + s + marker
  {
    StringKey(s);
    StringKey(marker + s + marker);
  }

  /** Options giving only a formatter for action types, or only one for properties. */
  function WithActionTypeFormatter(f: Value -> Value): Options {
    Options(Undefined, None, None, Some(f), None, None)
  }

  function WithPropertyFormatter(f: Value -> Value): Options {
    Options(Undefined, None, None, None, Some(f), None)
  }

  /** The fields of `{eventName: "fooEvent", increment: {login: 1, logout: -1}}`. */
  const LoginIncrement: Entries<Value> := [("login", Num(1)), ("logout", Num(-1))]
  const IncrementEvent: Entries<Value> := [("eventName", Str("fooEvent")), ("increment", Obj(LoginIncrement))]

  /** Reading an action of the form `{type: "Action", meta: {mixpanel: {...}}}`. */
  lemma ReadMixpanelAction(mixpanel: Entries<Value>)
    ensures ReadDescriptor(MixpanelAction(mixpanel)) == Success(Descriptor(
              Str("Action"), Field(mixpanel, "type"), Field(mixpanel, "eventName"),
              Field(mixpanel, "timeEvent"), Field(mixpanel, "props"), Field(mixpanel, "increment")))
  {
    var meta := Obj([("mixpanel", Obj(mixpanel))]);
    assert [("type", Str("Action")), ("meta", meta)] == [("type", Str("Action"))] + [("meta", meta)];
    assert [("meta", meta)] == [("meta", meta)] + [];
    assert [("mixpanel", Obj(mixpanel))] == [("mixpanel", Obj(mixpanel))] + [];
    LookupCons("type", Str("Action"), [("meta", meta)], "type");
    LookupCons("type", Str("Action"), [("meta", meta)], "meta");
    LookupCons("meta", meta, [], "meta");
    LookupCons("mixpanel", Obj(mixpanel), [], "mixpanel");
    assert Get(MixpanelAction(mixpanel), "type") == Success(Str("Action"));
    assert Get(MixpanelAction(mixpanel), "meta") == Success(meta);
    assert Get(meta, "mixpanel") == Success(Obj(mixpanel));
  }

  /** The descriptor of the `fooEvent` action. */
  lemma FooEventDescriptor()
    ensures ReadDescriptor(MixpanelAction(FooEvent)) ==
              Success(Descriptor(Str("Action"), Undefined, Str("fooEvent"), Undefined, Obj([("foo", Str("bar"))]), Undefined))
  {
    ReadMixpanelAction(FooEvent);
    var props := [("props", Obj([("foo", Str("bar"))]))];
    assert FooEvent == [("eventName", Str("fooEvent"))] + props;
    assert props == props + [];
    LookupCons("eventName", Str("fooEvent"), props, "type");
    LookupCons("eventName", Str("fooEvent"), props, "eventName");
    LookupCons("eventName", Str("fooEvent"), props, "timeEvent");
    LookupCons("eventName", Str("fooEvent"), props, "props");
    LookupCons("eventName", Str("fooEvent"), props, "increment");
    LookupCons("props", Obj([("foo", Str("bar"))]), [], "type");
    LookupCons("props", Obj([("foo", Str("bar"))]), [], "timeEvent");
    LookupCons("props", Obj([("foo", Str("bar"))]), [], "props");
    LookupCons("props", Obj([("foo", Str("bar"))]), [], "increment");
  }

  /** The descriptor of the increment action. */
  lemma IncrementEventDescriptor()
    ensures ReadDescriptor(MixpanelAction(IncrementEvent)) ==
              Success(Descriptor(Str("Action"), Undefined, Str("fooEvent"), Undefined, Undefined, Obj(LoginIncrement)))
  {
    ReadMixpanelAction(IncrementEvent);
    var inc := [("increment", Obj(LoginIncrement))];
    assert IncrementEvent == [("eventName", Str("fooEvent"))] + inc;
    assert inc == inc + [];
    LookupCons("eventName", Str("fooEvent"), inc, "type");
    LookupCons("eventName", Str("fooEvent"), inc, "eventName");
    LookupCons("eventName", Str("fooEvent"), inc, "timeEvent");
    LookupCons("eventName", Str("fooEvent"), inc, "props");
    LookupCons("eventName", Str("fooEvent"), inc, "increment");
    LookupCons("increment", Obj(LoginIncrement), [], "type");
    LookupCons("increment", Obj(LoginIncrement), [], "timeEvent");
    LookupCons("increment", Obj(LoginIncrement), [], "props");
    LookupCons("increment", Obj(LoginIncrement), [], "increment");
  }

  /** Tracking `{foo: "bar"}` with the label `name`: the property, then `action`. */
  lemma FooProperties(name: Value)
    ensures Assign([], [Renaming.Rename([("foo", Str("bar"))], KeyOf(Identity), Identity), [("action", name)]]) ==
              [("foo", Str("bar")), ("action", name)]
  {
    var data := [("foo", Str("bar"))];
    assert Keys(data) == ["foo"];
    Current.RenameEventDataIdentity(data);
    SpreadThenKey(data, "action", name);
  }

  /** An event with properties and nothing else, for a handler without selectors: forward, then track. */
  lemma TrackOnlyCurrent(m: Current.Middleware, state: Value, next: Value -> Value, action: Value, d: Descriptor, data: Entries<Value>)
    requires m.personSelector.None?
    requires Truthy(d.eventName) && d.timeEvent.Undefined? && d.increment.Undefined?
    requires EventData(d.props) == Success(data)
    ensures Current.Dispatch(m, state, next, action, d) ==
              Run([Next(action), Track(m.actionTypeFormatter(d.eventName), Current.TrackProperties(m, d, data))], Returned(next(action)))
  {
  }

  /** The same for the older revision: track, then forward. */
  lemma TrackOnlyLegacy(m: Legacy.Middleware, state: Value, next: Value -> Value, action: Value, d: Descriptor, data: Entries<Value>)
    requires m.personSelector.None?
    requires Truthy(d.eventName) && d.timeEvent.Undefined? && d.increment.Undefined?
    requires EventData(d.props) == Success(data)
    ensures Legacy.Dispatch(m, state, next, action, d) ==
              Run([Track(m.actionTypeFormatter(d.eventName), Legacy.TrackProperties(m, d, data)), Next(action)], Returned(next(action)))
  {
    TruthyWithLengthCases(d.timeEvent);
    TruthyWithLengthCases(d.increment);
  }

  /** The descriptor of the `fooEvent` action, as a value. */
  const FooDescriptor := Descriptor(Str("Action"), Undefined, Str("fooEvent"), Undefined, Obj([("foo", Str("bar"))]), Undefined)

  /**
   * With no options, the `fooEvent` action is forwarded, then tracked as
   * `track("fooEvent", {foo: "bar", action: "Action"})`, and nothing else is called.
   */
  lemma FooEventCurrent(state: Value, next: Value -> Value)
    ensures var action := MixpanelAction(FooEvent);
            Current.Handle(Current.Create(Str("TOKEN"), NoOptions).middleware, state, next, action) ==
              Run([Next(action), Track(Str("fooEvent"), [("foo", Str("bar")), ("action", Str("Action"))])], Returned(next(action)))
  {
    var m := Current.Create(Str("TOKEN"), NoOptions).middleware;
    FooEventDescriptor();
    FooProperties(Str("Action"));
    TrackOnlyCurrent(m, state, next, MixpanelAction(FooEvent), FooDescriptor, [("foo", Str("bar"))]);
  }

  /** An action-type formatter formats the event name and the `action` label alike. */
  lemma FooEventWithFormatter(state: Value, next: Value -> Value, f: Value -> Value)
    ensures var action := MixpanelAction(FooEvent);
            Current.Handle(Current.Create(Str("TOKEN"), WithActionTypeFormatter(f)).middleware, state, next, action) ==
              Run([Next(action), Track(f(Str("fooEvent")), [("foo", Str("bar")), ("action", f(Str("Action")))])],
                  Returned(next(action)))
  {
    var m := Current.Create(Str("TOKEN"), WithActionTypeFormatter(f)).middleware;
    FooEventDescriptor();
    FooProperties(f(Str("Action")));
    TrackOnlyCurrent(m, state, next, MixpanelAction(FooEvent), FooDescriptor, [("foo", Str("bar"))]);
  }

  /** The older revision tracks the same event, and forwards the action afterwards. */
  lemma FooEventLegacy(state: Value, next: Value -> Value)
    ensures var action := MixpanelAction(FooEvent);
            Legacy.Handle(Legacy.Create(Str("TOKEN"), NoOptions).middleware, state, next, action) ==
              Run([Track(Str("fooEvent"), [("foo", Str("bar")), ("action", Str("Action"))]), Next(action)], Returned(next(action)))
  {
    var m := Legacy.Create(Str("TOKEN"), NoOptions).middleware;
    FooEventDescriptor();
    FooProperties(Str("Action"));
    TrackOnlyLegacy(m, state, next, MixpanelAction(FooEvent), FooDescriptor, [("foo", Str("bar"))]);
  }

  /**
   * A property formatter `f` that keeps `login` and `logout` apart: the
   * increment `{login: 1, logout: -1}` is one batch holding both deltas
   * under the formatted keys, in order. With `f = v => "===" + v + "==="`
   * (Wrap("===")) the keys are `"===login==="` and `"===logout==="`, as
   * WrapString states.
   */
  lemma BatchScenario(state: Value, next: Value -> Value, f: Value -> Value)
    requires KeyOf(f)("login") != KeyOf(f)("logout")
    ensures var action := MixpanelAction(IncrementEvent);
            var run := Current.Handle(Current.Create(Str("TOKEN"), WithPropertyFormatter(f)).middleware, state, next, action);
            && run.outcome.Returned?
            && Count(run.trace, IncrementCall) == 1
            && run.trace[|run.trace| - 1] == IncrementBatch([(KeyOf(f)("login"), Num(1)), (KeyOf(f)("logout"), Num(-1))])
  {
    var action := MixpanelAction(IncrementEvent);
    var m := Current.Create(Str("TOKEN"), WithPropertyFormatter(f)).middleware;
    var d := Descriptor(Str("Action"), Undefined, Str("fooEvent"), Undefined, Undefined, Obj(LoginIncrement));
    IncrementEventDescriptor();
    Current.HandleReads(m, state, next, action);
    Current.ForwardsFirst(m, state, next, action, d);
    Current.IncrementLast(m, state, next, action, d);
    RenameTwo(("login", Num(1)), ("logout", Num(-1)), KeyOf(f), Identity);
  }

  /** Renaming two entries whose keys format apart: both, in order. */
  lemma RenameTwo(a: (string, Value), b: (string, Value), key: string -> string, vf: Value -> Value)
    requires key(a.0) != key(b.0)
    ensures Renaming.Rename([a, b], key, vf) == [(key(a.0), vf(a.1)), (key(b.0), vf(b.1))]
  {
    assert [a, b][..1] == [a];
    assert [a][..0] == [];
    assert Keys<Value>([]) == [];
    assert Renaming.Rename([], key, vf) == [];
    var r1 := Renaming.Rename([a], key, vf);
    assert r1 == Put([], key(a.0), vf(a.1));
    assert r1 == [(key(a.0), vf(a.1))];
    assert Keys(r1) == [key(a.0)];
    assert Renaming.Rename([a, b], key, vf) == Put(r1, key(b.0), vf(b.1));
  }
}
