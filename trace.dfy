/**
 * The middleware's effects, recorded: each call it makes on the Mixpanel
 * client and the one call of the pipeline's `next`, in the order made.
 */
module Trace {
  import opened Wrappers
  import opened Objects
  import opened JsValues

  datatype Call =
    | Init(token: Value, config: Option<Value>)        // mixpanel.init(token[, config])
    | Identify(uniqueId: Value)                        // mixpanel.identify(id)
    | PeopleSet(person: Value)                         // mixpanel.people.set(person)
    | Track(eventName: Value, properties: Entries<Value>) // mixpanel.track(name, props)
    | TimeEvent(eventName: Value)                      // mixpanel.time_event(name)
    | Increment1(property: Value)                      // mixpanel.people.increment(prop)
    | Increment2(property: Value, delta: Value)       // mixpanel.people.increment(prop, by)
    | IncrementBatch(deltas: Entries<Value>)           // mixpanel.people.increment({...})
    | Next(action: Value)                              // next(action)
  {
    function Kind(): Kind {
      match this
      case Init(_, _) => InitCall
      case Identify(_) => IdentifyCall
      case PeopleSet(_) => PeopleSetCall
      case Track(_, _) => TrackCall
      case TimeEvent(_) => TimeEventCall
      case Increment1(_) => IncrementCall
      case Increment2(_, _) => IncrementCall
      case IncrementBatch(_) => IncrementCall
      case Next(_) => NextCall
    }
  }

  /** Calls grouped by the operation they invoke; the three increment shapes are one kind. */
  datatype Kind = InitCall | IdentifyCall | PeopleSetCall | TrackCall | TimeEventCall | IncrementCall | NextCall

  /** How a handler invocation ended: it returned `next`'s result, or a TypeError escaped. */
  datatype Outcome = Returned(value: Value) | Threw(error: TypeError)

  /** The calls one invocation made, in order, and how it ended. */
  datatype Run = Run(trace: seq<Call>, outcome: Outcome)

  /** The number of calls of kind `k` in `t`. */
  function Count(t: seq<Call>, k: Kind): nat {
    if t == [] then 0 else (if t[0].Kind() == k then 1 else 0) + Count(t[1..], k)
  }

  lemma {:induction false} CountAppend(a: seq<Call>, b: seq<Call>, k: Kind)
    ensures Count(a + b, k) == Count(a, k) + Count(b, k)
  {
    if a == [] {
      assert a + b == b;
    } else {
      assert (a + b)[0] == a[0] && (a + b)[1..] == a[1..] + b;
      CountAppend(a[1..], b, k);
    }
  }

  /** Counting over a trace made of up to five parts, part by part. */
  lemma CountJoin(a: seq<Call>, b: seq<Call>, c: seq<Call>, d: seq<Call>, e: seq<Call>, k: Kind)
    ensures Count(a + b + c + d + e, k) == Count(a, k) + Count(b, k) + Count(c, k) + Count(d, k) + Count(e, k)
  {
    CountAppend(a, b, k);
    CountAppend(a + b, c, k);
    CountAppend(a + b + c, d, k);
    CountAppend(a + b + c + d, e, k);
  }

  lemma CountOne(c: Call, k: Kind)
    ensures Count([c], k) == if c.Kind() == k then 1 else 0
  {
    assert [c][1..] == [];
  }

  lemma CountTwo(a: Call, b: Call, k: Kind)
    ensures Count([a, b], k) == (if a.Kind() == k then 1 else 0) + (if b.Kind() == k then 1 else 0)
  {
    assert [a, b][1..] == [b];
    CountOne(b, k);
  }
}
