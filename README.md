# Mixpanel middleware for Redux, modelled in Dafny

The repository is one Redux middleware. For each dispatched action it reads
the descriptor `action.meta.mixpanel` and turns it into calls on the
Mixpanel browser client: `identify`, `people.set`, `track`, `time_event` and
`people.increment`. It also hands the action on to `next`. There are two revisions:

- `src/mixpanelMiddleware.js`, the current one, is modelled by module `Current`.
- `dist/mixpanelMiddleware.js`, an older compiled one, is modelled by module `Legacy`.

The Mixpanel client is modelled as a recorded trace. A handler invocation is a pure function. Given:

- the handler's resolved options,
- one state snapshot,
- the `next` continuation,
- and the action,

it returns a `Run`: the sequence of `Call`s it makes (`Trace.Call`, with
`Next(action)` standing for the call of `next`) and its `Outcome`. The outcome is
either the value returned or the `TypeError` thrown.

Each revision's `Handle` first destructures the action into a descriptor
(`Actions.ReadDescriptor`) and then runs `Dispatch` on it. The lemmas about
which calls are made and in what order are stated about `Dispatch`, for every
descriptor. `HandleUnreadable` and `HandleNoDescriptor` state what a whole
invocation does with an action that cannot be destructured and with one that
carries no descriptor object.

Modules:

- `Wrappers`: `Option` and `Result`.
- `Objects`: JavaScript plain objects as insertion-ordered association lists.
  - Property assignment `Put` keeps an existing key in place and appends a new one.
  - `CopyOwn` and `Assign` are `Object.assign` and spread.
- `JsValues`: JavaScript values, and the operations on them that the middleware relies on:
  - truthiness, `||` and `typeof === 'object'`;
  - property reads, which throw on `null` and `undefined`;
  - `String()` of a computed key;
  - `Object.keys`;
  - the older revision's `x && x.length > 0`.
- `Trace`: the calls, and counting calls by kind.
- `Renaming`: the key/value re-keying fold shared by `renameEventData`
  (current) and `renameProperties` (older). The key computation and the value
  formatter are parameters.
- `Actions`: the options record and the destructuring of an action into a `Descriptor`, including every case in which destructuring throws.
- `Current` and `Legacy`: the two revisions.
  - Each models construction, the rename helper and the handler.
  - `Legacy.Extends` is the `_extends` helper, written as its fallback nested loop (the one used when `Object.assign` is missing).
- `Revisions`: how the two revisions relate.
  - Under the conditions where both make the same analytics calls, the current trace is the older one with the forwarding moved from last to first.
  - Two increment shapes on which the revisions disagree.
- `Scenarios`: worked examples: the `fooEvent` action, an action-type formatter, and a batched increment.

## Model

| member | source | states |
|---|---|---|
| Objects.Lookup | src/mixpanelMiddleware.js:7 | a read `object[key]` finds a value exactly when the key is present, and the value is one stored under that key |
| Objects.Put | src/mixpanelMiddleware.js:7 | `memo[k] = v` makes `k` read `v`, leaves every other key's read unchanged, keeps key order for an existing key and appends a new key, and keeps keys distinct |
| Objects.LookupAppend | src/mixpanelMiddleware.js:7 | reading an object extended by one new entry: old keys read as before, the new key reads its value |
| Objects.LookupCons | src/mixpanelMiddleware.js:24-35 | reading an object by its first entry: that entry's key reads its value, and every other key reads as in the rest |
| Objects.LookupAt | src/mixpanelMiddleware.js:6-7 | in an object with distinct keys, the value at each position is what a read of its key gives |
| Objects.CopyOwn | dist/mixpanelMiddleware.js:7 | the definition of copying one source's own keys into a target in order; what it yields is stated by the rows Objects.CopyOwnIntoEmpty and Objects.CopyOwnLookup |
| Objects.Assign | dist/mixpanelMiddleware.js:7 | the definition of `Object.assign(target, ...sources)`, the sources copied left to right; what it yields is stated by the rows Objects.AssignAbsent, Objects.AssignLookup, Objects.SpreadThenKey and Legacy.Extends |
| Objects.CopyOwnIntoEmpty | dist/mixpanelMiddleware.js:7 | copying the own keys of an object into `{}` gives that same object |
| Objects.CopyOwnLookup | dist/mixpanelMiddleware.js:7 | after copying a source into a target, a key present in the source reads the source's value and any other key reads as in the target |
| Objects.AssignAbsent | dist/mixpanelMiddleware.js:7 | `_extends(target, ...sources)`: a key that no source has reads as in the target |
| Objects.AssignLookup | dist/mixpanelMiddleware.js:7 | `_extends(target, ...sources)`: a key reads the value from the LAST source that has it |
| Objects.SpreadThenKey | src/mixpanelMiddleware.js:47-50 | `{...m, k: v}` equals assigning `m[k] = v`: `k` is overwritten in place if present, otherwise appended |
| JsValues.Or | src/mixpanelMiddleware.js:49 | `a \|\| b` is always one of its two operands, and it is truthy exactly when either operand is |
| JsValues.Truthy | src/mixpanelMiddleware.js:39 | the definition of JavaScript truthiness behind `if (eventName)`, `if (timeEvent)`, `if (increment)` and `\|\|`; what the handlers do with it is stated by the rows JsValues.Or, Current.NoEventNameNoTracking, Current.TimeEventAfterTrack and Current.IncrementLast |
| JsValues.Identity | src/mixpanelMiddleware.js:3 | the definition of `identity` (also dist/mixpanelMiddleware.js:19-21); that it is every formatter's default and leaves property objects unchanged is stated by the rows Current.Create, Legacy.Create, Current.RenameEventDataIdentity and Legacy.RenamePropertiesIdentity |
| JsValues.TypeofObject | src/mixpanelMiddleware.js:46 | the definition of `typeof v === 'object'`, true of null, arrays and objects; its effect on the tracked data is stated by the row Actions.EventData |
| JsValues.Get | src/mixpanelMiddleware.js:24-35 | the definition of a property read: null and undefined throw, an object gives its stored value or undefined, strings and arrays have a `length`; the behaviour the handlers rely on is stated by the rows Actions.ReadDescriptorCases and JsValues.TruthyWithLengthCases |
| JsValues.OwnEntries | src/mixpanelMiddleware.js:6 | the definition of `Object.keys` with the values: null and undefined throw, an object gives its own entries in order, arrays and strings their index entries; the behaviour the handlers rely on is stated by the rows Actions.EventData and JsValues.IndexEntries |
| JsValues.IndexEntries | src/mixpanelMiddleware.js:6 | the index entries of an array or string form a well-formed object (no index key repeats): key `String(i)` reads element `i`, and every key is some index |
| JsValues.ToJsString | src/mixpanelMiddleware.js:7 | the definition of `String()` applied to a computed key; what it does to string keys is stated by the rows JsValues.StringKey and Scenarios.WrapString |
| JsValues.KeyOf | dist/mixpanelMiddleware.js:25 | the definition of the key `memo[formatter(key)]` stores under, `String(formatter(key))`; the keys it yields are stated by the rows Renaming.RenameKeySet, Current.RenameEventData and Legacy.RenameProperties |
| JsValues.At | src/mixpanelMiddleware.js:58 | the definition of `increment[0]` and `increment[1]`, undefined past the end; its use is stated by the rows Current.IncrementLast and Revisions.EmptyArrayIncrement |
| JsValues.TruthyWithLength | dist/mixpanelMiddleware.js:71 | the definition of `x && x.length > 0` (also dist/mixpanelMiddleware.js:75); which values pass is stated by the rows JsValues.TruthyWithLengthCases, Legacy.TimeEventGuard and Legacy.IncrementGuard |
| JsValues.GreaterThanZero | dist/mixpanelMiddleware.js:71 | the definition of `length > 0` (also dist/mixpanelMiddleware.js:75) for the lengths the model has; which values pass the guard is stated by the row JsValues.TruthyWithLengthCases |
| JsValues.StringKey | src/mixpanelMiddleware.js:7 | a string used as a computed key is that same key, so the identity formatter leaves keys unchanged |
| JsValues.TruthyWithLengthCases | dist/mixpanelMiddleware.js:71 | `x && x.length > 0` holds for exactly the non-empty strings and arrays and the objects with a positive own `length`, and never for a primitive other than a string |
| Actions.OrIdentity | src/mixpanelMiddleware.js:18-20 | the definition of a formatter destructured with `= identity`; that each formatter is the given one or the identity is stated by the rows Current.Create and Legacy.Create |
| Actions.DefaultEmpty | src/mixpanelMiddleware.js:33-34 | the definition of the `= {}` destructuring defaults (also dist/mixpanelMiddleware.js:48-50), replacing undefined only; their effect is stated by the row Actions.ReadDescriptorCases |
| Actions.ActionLabel | src/mixpanelMiddleware.js:49 | the definition of the label `actionTypeFormatter(customType \|\| type)`, shared by both revisions (also dist/mixpanelMiddleware.js:67); where it lands is stated by the rows Current.TrackPropertiesContents and Legacy.TrackPropertiesContents |
| Actions.EventData | src/mixpanelMiddleware.js:46 | `typeof props === 'object' ? props : {}` then `Object.keys`: throws exactly for null props, gives no entries for a non-object, an object's own entries, and an array's index entries |
| Actions.ReadDescriptor | src/mixpanelMiddleware.js:24-35 | the definition of the nested destructuring with its `= {}` defaults; which actions throw and what each field reads is stated by the rows Actions.ReadDescriptorCases, Actions.NoEventName and Scenarios.ReadMixpanelAction |
| Actions.ReadDescriptorCases | src/mixpanelMiddleware.js:24-35 | destructuring throws exactly for a nullish action, a null `meta` or a null `meta.mixpanel`; a `meta` or `mixpanel` that is missing, undefined or a primitive (such as `mixpanel: true`) gives an empty descriptor, as does a primitive action; otherwise the mixpanel object's fields are read |
| Actions.NoEventName | src/mixpanelMiddleware.js:39 | an action whose `meta` or `meta.mixpanel` is missing, undefined or a primitive is read without error and has a falsy `eventName` |
| Renaming.Rename | src/mixpanelMiddleware.js:5-10 | the re-keyed object has distinct keys |
| Renaming.RenameAbsent | src/mixpanelMiddleware.js:5-10 | a key that no entry formats to is absent from the result |
| Renaming.RenameLookup | src/mixpanelMiddleware.js:5-10 | the LAST entry formatted to a key wins, with its value passed through the value formatter |
| Renaming.RenameKeySet | src/mixpanelMiddleware.js:6-7 | the result's keys are exactly the formatted keys of the input |
| Renaming.RenameKeyOrder | src/mixpanelMiddleware.js:6 | the result's keys come in the order in which the formatted keys first occur while the input is visited |
| Renaming.RenameIdentity | src/mixpanelMiddleware.js:5-10 | with a key computation that changes no key and the identity on values, the result equals the input |
| Current.Create | src/mixpanelMiddleware.js:12-21 | construction makes exactly one call, `init(token, options.config)`; selectors pass through; each formatter is the given one or the identity |
| Current.RenameEventData | src/mixpanelMiddleware.js:5-10 | `renameEventData` gives an object with distinct keys, and is the shared rename with the property formatter on keys and the value formatter on values |
| Current.RenameEventDataIdentity | src/mixpanelMiddleware.js:5-10 | with identity formatters `renameEventData` returns an object equal to its input |
| Current.TrackProperties | src/mixpanelMiddleware.js:47-50 | the definition of the tracked properties `{...renamed, action}`; their contents are stated by the rows Current.TrackPropertiesContents and Scenarios.FooProperties |
| Current.TrackPropertiesContents | src/mixpanelMiddleware.js:47-50 | the tracked properties have distinct keys; `action` reads `actionTypeFormatter(customType \|\| type)` and overrides a renamed `action` in place; every other key reads as in the renamed data; no data gives just `{action}` |
| Current.BatchIncrement | src/mixpanelMiddleware.js:60-62 | the definition of the batch built by spread; what it holds is stated by the rows Current.BatchIncrementIsRename and Current.IncrementLast |
| Current.BatchIncrementIsRename | src/mixpanelMiddleware.js:60-62 | the batch built by spread equals renaming with the property formatter on keys and values unchanged, so later keys win on collision |
| Current.Handle | src/mixpanelMiddleware.js:23-68 | the definition of one handler invocation: destructure, then dispatch; its behaviour is stated by the rows Current.HandleUnreadable, Current.HandleNoDescriptor, Current.HandleNoInit and Revisions.ForwardingMoved |
| Current.Dispatch | src/mixpanelMiddleware.js:37-67 | the definition of the handler after destructuring; which calls it makes, in which order, and how it ends is stated by the rows Current.ForwardsFirst to Current.IncrementLast and Revisions.CurrentShape |
| Current.HandleUnreadable | src/mixpanelMiddleware.js:24-37 | an action that is null or undefined, or whose `meta` or `meta.mixpanel` is null, throws before any call, `next` included; every other action is forwarded exactly once |
| Current.HandleNoDescriptor | src/mixpanelMiddleware.js:23-68 | an action whose `meta` or `meta.mixpanel` is missing, undefined or a primitive such as `true` gives exactly `next(action)` and returns its result |
| Current.ForwardsFirst | src/mixpanelMiddleware.js:37 | `next(action)` is the first call and the only one; the handler returns its result exactly unless a truthy `eventName` meets null `props`, and then it throws after forwarding and identity resolution |
| Current.NoEventNameNoTracking | src/mixpanelMiddleware.js:39 | a falsy `eventName` gives no `identify`, `people.set` or `track`, and the handler returns normally |
| Current.IdentityBeforeTrack | src/mixpanelMiddleware.js:40-44 | for a truthy `eventName` and both selectors, `identify(uniqueIdSelector(state))` and then `people.set(personSelector(state))` directly follow the forwarding, before `track`; with one or none, neither call is made |
| Current.TrackOnce | src/mixpanelMiddleware.js:39-51 | `track` is called once exactly when `eventName` is truthy and `props` is not null, at a fixed position, with the formatted name and the tracked properties |
| Current.IdentityCalls | src/mixpanelMiddleware.js:40-44 | the definition of the identity resolution calls; when they are made and where is stated by the row Current.IdentityBeforeTrack |
| Current.TimeEventCalls | src/mixpanelMiddleware.js:53-55 | the definition of the `time_event` call; when it is made and where is stated by the row Current.TimeEventAfterTrack |
| Current.IncrementCalls | src/mixpanelMiddleware.js:57-65 | the definition of the increment dispatch on the shape of `increment`; each shape's call is stated by the row Current.IncrementLast |
| Current.TimeEventAfterTrack | src/mixpanelMiddleware.js:53-55 | when the handler returns, `time_event(actionTypeFormatter(timeEvent))` is called once exactly when `timeEvent` is truthy, whatever `eventName` is, after `track` and before any increment; on the null-`props` throw it is not called (see Current.ForwardsFirst) |
| Current.IncrementLast | src/mixpanelMiddleware.js:57-65 | when the handler returns, at most one increment, as the last call (on the null-`props` throw none, see Current.ForwardsFirst); an array gives `(pf(inc[0]), inc[1])` even when empty, an object one batch of formatted keys with unchanged deltas, another truthy value `pf(inc)`, a falsy value nothing |
| Current.Session | src/mixpanelMiddleware.js:12-68 | the definition of a pipeline's lifetime, construction and then one invocation per dispatch; its behaviour is stated by the row Current.InitOnce |
| Current.HandleNoInit | src/mixpanelMiddleware.js:23-68 | a handler invocation never initialises the client |
| Current.InitOnce | src/mixpanelMiddleware.js:13 | over construction followed by any number of dispatches, `init` is the first call and is made exactly once |
| Legacy.Create | dist/mixpanelMiddleware.js:30-40 | construction makes exactly one call, `init(token)` with no config; there is no value formatter; the other formatters default to the identity |
| Legacy.RenameProperties | dist/mixpanelMiddleware.js:23-28 | `renameProperties` gives an object with distinct keys, and uses the one formatter on keys and on values |
| Legacy.RenamePropertiesFormatsValues | dist/mixpanelMiddleware.js:25 | every value read from the result is the formatter applied to the value of the last entry whose key formats to that key |
| Legacy.RenamePropertiesIdentity | dist/mixpanelMiddleware.js:23-28 | with the identity formatter `renameProperties` returns an object equal to its input |
| Legacy.Extends | dist/mixpanelMiddleware.js:7 | the `_extends` loop over sources and their own keys yields `Object.assign(target, ...sources)` |
| Legacy.TrackProperties | dist/mixpanelMiddleware.js:66-68 | the definition of the tracked properties `_extends({}, renamed, {action})`; their contents are stated by the rows Legacy.TrackPropertiesContents and Revisions.SameTrack |
| Legacy.TrackPropertiesContents | dist/mixpanelMiddleware.js:66-68 | in `_extends({}, renamed, {action})`, `action` reads the label and overrides a renamed `action`; every other key reads as in the renamed data |
| Legacy.Handle | dist/mixpanelMiddleware.js:45-79 | the definition of one handler invocation of the older revision: destructure, then dispatch; its behaviour is stated by the rows Legacy.HandleUnreadable, Legacy.HandleNoDescriptor and Revisions.ForwardingMoved |
| Legacy.Dispatch | dist/mixpanelMiddleware.js:58-79 | the definition of the older handler after destructuring; its calls, their order and its outcome are stated by the rows Legacy.ForwardsLast to Legacy.IncrementGuard and Revisions.LegacyShape |
| Legacy.HandleUnreadable | dist/mixpanelMiddleware.js:45-79 | an action that is null or undefined, or whose `meta` or `meta.mixpanel` is null, throws before any call, `next` included; any invocation forwards exactly once when it returns and never when it throws |
| Legacy.HandleNoDescriptor | dist/mixpanelMiddleware.js:45-79 | an action whose `meta` or `meta.mixpanel` is missing, undefined or a primitive such as `true` gives exactly `next(action)` and returns its result |
| Legacy.ForwardsLast | dist/mixpanelMiddleware.js:58-79 | when the handler returns, `next(action)` is the last call and the only one, and its result is returned; null `props` with a truthy `eventName` throws after identity resolution and never forwards |
| Legacy.NoEventNameNoTracking | dist/mixpanelMiddleware.js:58 | a falsy `eventName` gives no `identify`, `people.set` or `track` |
| Legacy.IdentityBeforeTrack | dist/mixpanelMiddleware.js:59-63 | for a truthy `eventName` and both selectors, `identify` and `people.set` are the first two calls, before `track`; with one or none, neither call is made |
| Legacy.TrackOnce | dist/mixpanelMiddleware.js:58-69 | `track` is called once exactly when `eventName` is truthy and `props` is not null, at a fixed position, with the formatted name and the tracked properties |
| Legacy.IdentityCalls | dist/mixpanelMiddleware.js:59-63 | the definition of the identity resolution calls; when they are made and where is stated by the row Legacy.IdentityBeforeTrack |
| Legacy.TimeEventCalls | dist/mixpanelMiddleware.js:71-73 | the definition of the guarded `time_event` call; when it is made is stated by the row Legacy.TimeEventGuard |
| Legacy.IncrementCalls | dist/mixpanelMiddleware.js:75-77 | the definition of the guarded one-argument increment; when it is made is stated by the row Legacy.IncrementGuard |
| Legacy.TimeEventGuard | dist/mixpanelMiddleware.js:71-73 | when the handler returns, `time_event(timeEvent)`, with the name unformatted, is called once exactly when `timeEvent` is truthy with a positive `length`, after `track`; on the null-`props` throw it is not called (see Legacy.ForwardsLast) |
| Legacy.IncrementGuard | dist/mixpanelMiddleware.js:75-77 | when the handler returns, at most one increment, `people.increment(pf(increment))` with the whole value, just before forwarding, made exactly when `increment` is truthy with a positive `length`; on the null-`props` throw none (see Legacy.ForwardsLast) |
| Revisions.CreateAlike | src/mixpanelMiddleware.js:12-21 | with the value formatter equal to the property formatter, both revisions resolve the same selectors and formatters from one options record |
| Revisions.SameAnalytics | dist/mixpanelMiddleware.js:59-77 | alike handlers make the same identity calls; they make the same `time_event` call when `timeEvent` is falsy, or a string that the action-type formatter leaves unchanged; they make the same increment call when `increment` is falsy or a string |
| Revisions.SameTrack | dist/mixpanelMiddleware.js:66-68 | alike handlers track the same properties |
| Revisions.CurrentShape | src/mixpanelMiddleware.js:37-67 | when nothing throws, the current handler forwards and then makes its analytics calls, none of which is a second forwarding, and returns `next`'s result |
| Revisions.LegacyShape | dist/mixpanelMiddleware.js:58-79 | when nothing throws, the older handler makes its analytics calls, none of which forwards, then forwards, and returns `next`'s result |
| Revisions.ThrowShapes | dist/mixpanelMiddleware.js:58-79 | with a truthy `eventName` and null `props`, the current handler forwards, resolves identity and throws; the older one resolves identity and throws without forwarding |
| Revisions.SameAnalyticsCalls | dist/mixpanelMiddleware.js:58-77 | alike handlers make the same analytics calls on a comparable descriptor |
| Revisions.DispatchMoved | src/mixpanelMiddleware.js:37 | for alike handlers and a comparable descriptor, the outcomes agree, and the current trace is the older one with `next(action)` moved from last to first |
| Revisions.ForwardingMoved | dist/mixpanelMiddleware.js:79 | the same for whole invocations built from one options record, including an unreadable descriptor, for which both throw before any call |
| Revisions.EmptyArrayIncrement | src/mixpanelMiddleware.js:57-58 | for `increment: []` the current revision increments `pf(undefined)` by `undefined`, and the older revision makes no increment |
| Revisions.ObjectIncrement | src/mixpanelMiddleware.js:59-62 | for an object increment the current revision sends one batch of formatted keys, and the older revision sends nothing when the object has no `length` |
| Scenarios.ReadMixpanelAction | src/mixpanelMiddleware.js:24-35 | `{type: "Action", meta: {mixpanel: m}}` destructures to the type `"Action"` and the fields of `m` |
| Scenarios.FooEventDescriptor | src/mixpanelMiddleware.js:24-35 | the `fooEvent` action's descriptor has `eventName: "fooEvent"`, `props: {foo: "bar"}`, and nothing else |
| Scenarios.IncrementEventDescriptor | src/mixpanelMiddleware.js:24-35 | the increment action's descriptor has `eventName: "fooEvent"`, `increment: {login: 1, logout: -1}`, and nothing else |
| Scenarios.WrapString | src/mixpanelMiddleware.js:7 | the formatter `v => marker + v + marker` maps a string (and a string key) to the key with the marker on both sides |
| Scenarios.FooProperties | src/mixpanelMiddleware.js:47-50 | the tracked properties of `{foo: "bar"}` are `{foo: "bar", action: label}` in that order |
| Scenarios.TrackOnlyCurrent | src/mixpanelMiddleware.js:37-51 | with no person selector, an event with properties and nothing else: forward, then `track`, and nothing more |
| Scenarios.TrackOnlyLegacy | dist/mixpanelMiddleware.js:58-79 | with no person selector, the same event in the older revision: `track`, then forward |
| Scenarios.FooEventCurrent | src/mixpanelMiddleware.js:37-51 | with no options the `fooEvent` action gives exactly `next(action)` then `track("fooEvent", {foo: "bar", action: "Action"})` |
| Scenarios.FooEventWithFormatter | src/mixpanelMiddleware.js:47-49 | an action-type formatter `f` gives `track(f("fooEvent"), {foo: "bar", action: f("Action")})` |
| Scenarios.FooEventLegacy | dist/mixpanelMiddleware.js:58-79 | the older revision gives exactly `track("fooEvent", {foo: "bar", action: "Action"})` then `next(action)` |
| Scenarios.RenameTwo | src/mixpanelMiddleware.js:5-10 | renaming two entries whose keys format apart gives both renamed entries, in order |
| Scenarios.BatchScenario | src/mixpanelMiddleware.js:59-62 | with a property formatter that keeps `login` and `logout` apart, `{login: 1, logout: -1}` is the single last call `increment({f(login): 1, f(logout): -1})` |

## Left out

- The Mixpanel client is a foreign library. Its calls are recorded in the trace and their effects are not modelled.
- Errors a client call might raise are not modelled, because neither revision catches them.
- The callbacks are assumed to return normally: the formatters, the selectors and `next`. Neither revision catches an exception from them, so one would end the invocation part-way. In the current revision, a `propertyFormatter` that throws inside `renameEventData` ends it after `next`, `identify` and `people.set`. In the older revision, a `next` that throws does so after every analytics call. The model does not capture these partial traces.
- The Redux store and the currying `store => next => action` are left out.
  - `store.getState()` is one state value, read for both selectors.
  - The selectors are arbitrary functions from state to value.
  - `next` is an arbitrary function whose result is returned.
- The module loading is left out: `require('mixpanel-browser')` and the `exports`/`__esModule` setup of the compiled file.
- `_interopRequireDefault` and `_typeof` are left out. For the values modelled, `_typeof` agrees with `typeof`.
- Some JavaScript values are not modelled: functions, symbols, non-integer numbers, `NaN`, and prototypes and inherited properties. A formatter is a function from values to values.
- `JsValues.ToJsString`: a number is an unbounded integer, and it is written with every digit when it becomes a computed key. JavaScript's `String()` switches to exponent form from 1e21, and integers above 2^53 are not exact doubles. Neither is modelled.
- `Object.keys` puts integer-like keys first. That ordering is not modelled; objects keep pure insertion order.
- `JsValues.GreaterThanZero`, behind the `length > 0` guard, treats a string, array or object `length` as not greater than zero. JavaScript would convert it to a number first, and that conversion is not modelled.
- `JsValues.Get` models reads of named properties only. Numeric index reads go through `JsValues.At`.
- The options record is assumed to be an object. `options: null` would throw at `options.config`, and that case is not modelled.
- `Legacy.Extends` returns the extended object as a new value, whereas `_extends` writes into its `target`. Its only call site passes a fresh `{}`, so the in-place update is not observable there. The method is proved equal to `Objects.Assign`, and the handler uses `Assign`.
- The test file exercises an earlier flag-shaped descriptor (`meta.mixpanel: true`, `meta.mixpanelIncrement`) that neither revision implements. Neither revision tracks such an action: both read `mixpanel: true` as an empty descriptor and only forward the action, as `Current.HandleNoDescriptor` and `Legacy.HandleNoDescriptor` state. The flag-shaped behaviour itself is not modelled.
- Behaviour of the two revisions worth noting:
  - There is no `eventPrefix` option in either revision.
  - An empty array as `increment` in the current revision still calls `people.increment(pf(undefined), undefined)` (`Revisions.EmptyArrayIncrement`).
  - `props: null` with a truthy `eventName`, and `meta: null`, are not treated permissively: both revisions throw. With a falsy `eventName`, `props` is destructured but never passed to `Object.keys`.
  - The older revision forwards the action only after every analytics call, and not at all when it throws on null `props`.
  - The deltas of a batch increment are not checked to be numbers.
