/**
 * What the middleware reads from its options and from each action. Both
 * revisions read the same descriptor: `action.type`, and `type`,
 * `eventName`, `timeEvent`, `props` and `increment` from
 * `action.meta.mixpanel`, where a missing `meta` or `mixpanel` defaults to
 * `{}`.
 */
module Actions {
  import opened Wrappers
  import opened Objects
  import opened JsValues

  /**
   * The options record. Selectors map the store's state to a value;
   * formatters map a value to a value. `None` is an option that is not
   * given; `config` is `options.config` (undefined when not given).
   */
  datatype Options = Options(
    config: Value,
    personSelector: Option<Value -> Value>,
    uniqueIdSelector: Option<Value -> Value>,
    actionTypeFormatter: Option<Value -> Value>,
    propertyFormatter: Option<Value -> Value>,
    valueFormatter: Option<Value -> Value>)

  /** `options = {}`: no option given. */
  const NoOptions := Options(Undefined, None, None, None, None, None)

  /** A formatter option destructured with `= identity` as its default. */
  function OrIdentity(f: Option<Value -> Value>): Value -> Value {
    if f.Some? then f.value else Identity
  }

  /** The fields the middleware reads from one action. */
  datatype Descriptor = Descriptor(
    actionType: Value,  // action.type
    customType: Value,  // meta.mixpanel.type
    eventName: Value,
    timeEvent: Value,
    props: Value,
    increment: Value)

  /** The `action` label `actionTypeFormatter(customType || type)` that both revisions track. */
  function ActionLabel(actionTypeFormatter: Value -> Value, d: Descriptor): Value {
    actionTypeFormatter(Or(d.customType, d.actionType))
  }

  /** A destructuring default `= {}`: only undefined is replaced. */
  function DefaultEmpty(v: Value): Value {
    if v.Undefined? then Obj([]) else v
  }

  /** `o[name]` of a plain object, undefined when absent. */
  function Field(fields: Entries<Value>, name: string): Value {
    Lookup(fields, name).GetOr(Undefined)
  }

  /**
   * The nested destructuring of the action. It throws when the action is
   * null or undefined, when `meta` is null, and when `meta.mixpanel` is null.
   */
  function ReadDescriptor(action: Value): Result<Descriptor, TypeError> {
    match Get(action, "type")
    case Failure(e) => Failure(e)
    case Success(actionType) =>
      var meta := DefaultEmpty(Get(action, "meta").value);
      match Get(meta, "mixpanel")
      case Failure(e) => Failure(e)
      case Success(found) =>
        var mixpanel := DefaultEmpty(found);
        match Get(mixpanel, "type")
        case Failure(e) => Failure(e)
        case Success(customType) =>
          Success(Descriptor(
            actionType, customType,
            Get(mixpanel, "eventName").value,
            Get(mixpanel, "timeEvent").value,
            Get(mixpanel, "props").value,
            Get(mixpanel, "increment").value))
  }

  /**
   * `typeof props === 'object' ? props : {}` followed by `Object.keys`:
   * a non-object gives no entries, an object its own entries, an array its
   * index entries, and null throws.
   */
  function EventData(props: Value): (r: Result<Entries<Value>, TypeError>)
    ensures r.Failure? <==> props.Null?
    ensures !TypeofObject(props) ==> r == Success([])
    ensures props.Obj? ==> r == Success(props.fields)
    ensures props.Arr? ==> r == Success(IndexEntries(props.items))
  {
    OwnEntries(if TypeofObject(props) then props else Obj([]))
  }

  /** An action that asks for nothing: every descriptor field is undefined. */
  predicate Empty(d: Descriptor) {
    d.customType.Undefined? && d.eventName.Undefined? && d.timeEvent.Undefined? &&
    d.props.Undefined? && d.increment.Undefined?
  }

  /**
   * The actions the destructuring rejects: a null or undefined action, a
   * null `meta`, or a null `meta.mixpanel` (the `= {}` defaults replace
   * undefined only).
   */
  predicate Unreadable(action: Value) {
    || action.Undefined? || action.Null?
    || (action.Obj? && Field(action.fields, "meta").Null?)
    || (action.Obj? && Field(action.fields, "meta").Obj? &&
        Field(Field(action.fields, "meta").fields, "mixpanel").Null?)
  }

  /**
   * An action object that carries no descriptor object: its `meta`, or its
   * `meta.mixpanel`, is missing, undefined, or some value other than null
   * and an object (such as `mixpanel: true`).
   */
  predicate NoDescriptor(action: Value) {
    action.Obj? &&
    (var meta := Field(action.fields, "meta");
     || (!meta.Null? && !meta.Obj?)
     || (meta.Obj? && !Field(meta.fields, "mixpanel").Null? && !Field(meta.fields, "mixpanel").Obj?))
  }

  /**
   * The shapes of action the destructuring accepts and rejects: exactly the
   * unreadable actions throw; an action without a descriptor object (or a
   * primitive action) yields an empty descriptor; otherwise the mixpanel
   * object's fields are read.
   */
  lemma ReadDescriptorCases(action: Value)
    ensures ReadDescriptor(action).Failure? <==> Unreadable(action)
    ensures NoDescriptor(action) ==> ReadDescriptor(action).Success? && Empty(ReadDescriptor(action).value)
    ensures !action.Undefined? && !action.Null? && !action.Obj? ==>
              ReadDescriptor(action).Success? && Empty(ReadDescriptor(action).value)
    ensures action.Obj? && Field(action.fields, "meta").Obj? ==>
              var meta := Field(action.fields, "meta").fields;
              Field(meta, "mixpanel").Obj? ==>
                var mixpanel := Field(meta, "mixpanel").fields;
                ReadDescriptor(action) == Success(Descriptor(
                  Field(action.fields, "type"), Field(mixpanel, "type"), Field(mixpanel, "eventName"),
                  Field(mixpanel, "timeEvent"), Field(mixpanel, "props"), Field(mixpanel, "increment")))
    ensures ReadDescriptor(action).Success? ==> ReadDescriptor(action).value.actionType == Get(action, "type").value
  {
    if action.Obj? {
      var meta := Field(action.fields, "meta");
      if meta.Obj? {
        var mixpanel := Field(meta.fields, "mixpanel");
        if mixpanel.Obj? {
          assert Get(mixpanel, "type").Success?;
        }
      }
    }
  }

  /** An action object without a descriptor object has a falsy `eventName`. */
  lemma NoEventName(action: Value)
    requires NoDescriptor(action)
    ensures ReadDescriptor(action).Success? && !Truthy(ReadDescriptor(action).value.eventName)
  {
    ReadDescriptorCases(action);
  }
}
