# subscription: a verified model of the store-subscribing component factory

`subscription(options)` wraps a presentational React component with data
lifecycle management. It fills in defaults for its options (`dataKey: "data"`,
`interval: 60000` ms) and checks the types of `WrappedComponent`, `Store` and
`selectData`. It then returns a component class. An instance of that class:

- keeps a state record `{ errorStatus, [dataKey] }`;
- subscribes to the store when it mounts and re-selects its data on every
  store change;
- when `callAction` is a function, calls it at mount and again `interval`
  ms after each call settles, recording the outcome in `errorStatus`;
- removes its listener and clears its pending timer when it unmounts.

The model has six modules:

- `JsValues` (js_values.dfy): JavaScript values and the pieces of the language
  the component depends on. These are `typeof`, truthiness and `||`, and the
  string key a computed property name stands for.
- `Factory` (factory.dfy): the configuration resolver `Resolve`. It maps an
  options bag, the object's own properties as a map, to a `Config` or to a
  `ConfigError` that names the failing option and its `typeof`.
- `Lifecycle` (lifecycle.dfy): one instance as a value, with one transition
  function per event. The events are mount, store change, promise settled,
  timer fired and unmount. `Inv` is the invariant every reachable instance
  satisfies, and the lemmas state what the component promises.
- `Component` (component.dfy): the class the factory returns. Its fields are
  updated in place, and each lifecycle method is proved to perform the
  matching `Lifecycle` transition and to keep `Valid()`.
- `Scenarios` (scenarios.dfy): client methods of the class that replay the
  repository's non-rendering tests, plus three scenarios of the behaviour
  listed below.
- `Wrappers` (wrappers.dfy): the Option and Result types used by the others.

Collaborators are opaque. What `selectData` answers is a parameter of the
event that calls it. What `callAction` returns is an `ActionReturn`: a bluebird
promise or anything else. How that promise settles is a `Settlement` passed to
`Settle`. The call counts that the tests observe through mocks are ghost
counters on the object.

Behaviour of the code that the model keeps:

- A `null` Store passes the factory's check, because `typeof null` is
  "object". Mounting such a component then throws a TypeError when
  `addListener` is read.
- The `finally` handler does not check whether the component is still
  mounted. A request that settles after unmount arms a new timer, and that
  timer calls `callAction` again (`Lifecycle.SettleAfterUnmountRearms`). No
  "nothing is rescheduled after unmount" property is claimed.
- A failure's status is `err.status || 500`. A status of 0, `""` or `false`
  becomes 500.
- The initial state is computed in the constructor, before mount.
- A `dataKey` of "errorStatus" makes the data slot and the error slot the same
  property. The model keeps that collision, and the properties about
  `errorStatus` are stated only for other keys.

## Model

| member | source | states |
|---|---|---|
| `Factory.Resolve` | subscription.js:14-50 | Resolution succeeds exactly when WrappedComponent and selectData are functions and Store is an object or null. A given dataKey or interval replaces the default and an absent one gets "data" / 60000. The other options are passed through unchanged. A failure names one of the three checked options together with its typeof. |
| `Factory.ResolveReportsFirstBadOption` | subscription.js:34-50 | The error names the first option, in the order WrappedComponent, Store, selectData, whose type check fails. |
| `Factory.NullStoreAccepted` | subscription.js:40-44 | A Store of null passes the type check. |
| `Factory.DefaultsApply` | subscription.js:16-19 | With only the three required options, dataKey is "data", interval is 60000, and callAction and shouldComponentUpdate are undefined. |
| `Factory.ExplicitUndefinedOverridesDefault` | subscription.js:16-19 | An option given explicitly as undefined still replaces its default, as Object.assign copies it. |
| `JsValues.Or` | subscription.js:129 | The JavaScript or-operator yields its left operand when that is truthy and its right operand otherwise; its result is truthy iff either operand is. |
| `Lifecycle.FailureStatus` | subscription.js:128-130 | The error status of a failure is always truthy. It is the failure's status when that is truthy and 500 otherwise. |
| `Lifecycle.ShouldComponentUpdate` | subscription.js:86-92 | A user hook's answer is passed through. Without a hook the answer is the literal true, so only a hook can veto an update. |
| `Lifecycle.Construct` | subscription.js:56-70 | The instance keeps the given configuration and starts in phase Constructed, not yet mounted. The initial state record has exactly the errorStatus and dataKey slots. The data slot holds selectData's answer and errorStatus is -1. selectData has been called once and nothing else has been called. The invariant holds. |
| `Lifecycle.MountKeepsInv` | subscription.js:75-81 | Mounting keeps the instance invariant. |
| `Lifecycle.ChangeKeepsInv` | subscription.js:145-149 | A store notification keeps the instance invariant. |
| `Lifecycle.SettleKeepsInv` | subscription.js:111-140 | Settling the in-flight promise keeps the instance invariant. |
| `Lifecycle.TimerKeepsInv` | subscription.js:105-118 | The timer firing keeps the instance invariant. |
| `Lifecycle.UnmountKeepsInv` | subscription.js:97-100 | Unmounting keeps the instance invariant. |
| `Lifecycle.StepKeepsInv` | subscription.js:52-162 | Every event that can happen keeps the invariant and the configuration. |
| `Lifecycle.RunKeepsInv` | subscription.js:52-162 | Any sequence of events that can happen keeps the invariant and the configuration. |
| `Lifecycle.AtMostOneActionInFlight` | subscription.js:105-118 | In every reachable instance, a pending timer and an in-flight promise never coexist. Every callAction call except the single in-flight one has settled or broken the promise contract. Exactly one timer has been armed per settlement. |
| `Lifecycle.NoActionNoTimer` | subscription.js:75-81 | Without a callAction function, no reachable instance has ever armed a timer or called callAction, whatever the dataKey. When dataKey is not "errorStatus", errorStatus is also -1. |
| `Lifecycle.ListenerReleasedOnce` | subscription.js:75-100 | A mounted instance has added one listener and removed none. An unmounted one has added one and removed it exactly once. |
| `Lifecycle.ErrorStatusIsNoErrorOrFailureCode` | subscription.js:123-140 | In every reachable instance, errorStatus is -1, or the last applied failure's status when truthy, or 500. So it is never falsy. |
| `Lifecycle.MountCallsActionOnlyIfFunction` | subscription.js:75-81 | Mounting with a non-null store registers one listener. It calls callAction once iff callAction is a function and otherwise never. The state record is unchanged. |
| `Lifecycle.ChangeReplacesOnlyData` | subscription.js:145-149 | A store notification puts selectData's new answer in the data slot. Every other slot, the timer and the in-flight promise are unchanged, and selectData has been called once more. |
| `Lifecycle.SettleSetsErrorStatus` | subscription.js:111-140 | While mounted, success sets errorStatus to -1. A rejection sets it to its status when truthy and to 500 otherwise. A null or undefined reason leaves the state unchanged. In all cases the data slot is kept and exactly one timer is armed. |
| `Lifecycle.UnmountReleasesEverything` | subscription.js:97-100 | Unmounting removes the listener exactly once and clears the pending timer. The state record, the in-flight promise and the callAction count are unchanged. |
| `Lifecycle.FrozenAfterUnmount` | subscription.js:97-149 | From an unmounted instance, no sequence of events changes the state record or the phase. |
| `Lifecycle.SettleAfterUnmountRearms` | subscription.js:113-117 | A promise that settles after unmount still arms a timer and leaves the state record unchanged. When that timer fires, callAction is called once more. |
| `Component.Subscriber.constructor` | subscription.js:56-70 | The new object is the initial instance of `Lifecycle.Construct` and is valid. |
| `Component.Subscriber.ComponentDidMount` | subscription.js:75-81 | Performs the mount transition, reports the exception a null Store or a non-promise callAction result raises, and keeps validity. |
| `Component.Subscriber.Update` | subscription.js:105-110 | Calls callAction once. A promise is then in flight; any other result raises the invariant error. |
| `Component.Subscriber.HandleActionSuccess` | subscription.js:136-140 | Writes errorStatus -1 when mounted. |
| `Component.Subscriber.HandleActionError` | subscription.js:123-131 | Writes the failure's status, or 500 when that is falsy, when mounted. A null or undefined reason writes nothing. |
| `Component.Subscriber.Settle` | subscription.js:111-117 | Runs the success or error handler and then the finally handler, performing the settle transition and keeping validity. |
| `Component.Subscriber.Finally` | subscription.js:113-117 | Arms exactly one timer and changes nothing else. |
| `Component.Subscriber.TimerFired` | subscription.js:116 | The armed timer fires and runs update, keeping validity. |
| `Component.Subscriber.HandleChange` | subscription.js:145-149 | Performs the store-change transition and keeps validity. |
| `Component.Subscriber.ComponentWillUnmount` | subscription.js:97-100 | Performs the unmount transition and keeps validity. |
| `Scenarios.InitialDataUnderDefaultKey` | src/__tests__/subscription.test.js:41-57 | After mount, selectData's first answer is in the "data" slot. |
| `Scenarios.InitialDataUnderCustomKey` | src/__tests__/subscription.test.js:59-77 | With dataKey "test", the answer is in the "test" slot and there is no "data" slot. |
| `Scenarios.StoreChangeReplacesData` | src/__tests__/subscription.test.js:79-106 | After one store notification the "data" slot holds the second answer, and the returned selectData call count is exactly 2. |
| `Scenarios.UnmountRemovesListener` | src/__tests__/subscription.test.js:108-131 | After unmount the listener is gone, and the returned remove count is exactly 1. |
| `Scenarios.MountCallsAction` | src/__tests__/subscription.test.js:133-151 | With a callAction, mount calls it exactly once (the returned count is 1), keeps the selected data and leaves its promise in flight. |
| `Scenarios.ForbiddenSets403` | src/__tests__/subscription.test.js:153-178 | A rejection with status 403 sets errorStatus to 403, and the returned callAction count is exactly 1. |
| `Scenarios.MissingStatusMeans500` | subscription.js:129 | A rejection whose status is missing or 0 sets errorStatus to 500. |
| `Scenarios.SuccessAfterFailureResets` | subscription.js:136-140 | A success after a failure resets errorStatus from 403 to -1, after exactly two callAction calls. |
| `Scenarios.SettleAfterUnmountCallsActionAgain` | subscription.js:113-117 | Unmounting with a request in flight: the settlement re-arms the timer, and its firing starts another request. The returned counts are two callAction calls and one remove. |
| `Scenarios.EmptyObjectStoreAccepted` | __tests__/subscription.test.js:10-26 | A Store of `{}` passes the factory's checks. |

## Left out

- Rendering (subscription.js:154-161): JSX and the spreading of props and state onto WrappedComponent are UI, not logic.
- Props are not modelled. What selectData and callAction compute from them is supplied as an event parameter.
- A selectData that throws is not modelled.
- setState batching is not modelled. Each handler is one atomic write of the state record. As in React, a setState on a component that is not mounted is dropped.
- Real time is not modelled. `setTimeout`/`clearTimeout` become the `timerPending` flag and the timer-fired event. `interval` is carried in the configuration, but the delay itself is not.
- The bluebird promise machinery is reduced to `ActionReturn`. A callAction that throws synchronously leaves the same state as one that returns a non-promise. Both are modelled as `OtherValue`; only the escaping exception differs.
- The diagnostics are not modelled: `console.log('wtf')` in shouldComponentUpdate, `console.error(err)` and the `NODE_ENV` test. They are output only.
- The `ms` library is replaced by its value for '1m', 60000.
- JavaScript values are partial. Numbers are integers only, with no NaN, fractions or exponent notation. Symbols and BigInts cannot be represented at all. So the model cannot give typeof "symbol" or "bigint" in a ConfigError, cannot hold a Symbol dataKey (it passes every check and would make a symbol-keyed state slot, which the string-keyed state map cannot hold), and cannot take a BigInt status such as the falsy `0n`, which would become 500. An object used as dataKey converts with the default `toString`.
- The options argument is taken to be an object, its own enumerable properties forming the map. An omitted argument is the empty map. A primitive argument to Object.assign is not modelled.
- Every non-null object Store is taken to have an `addListener` method, and every listener handle a `remove` method. A Store without `addListener` would throw at mount like a null one.
- What the host framework does after a lifecycle method throws is not modelled. The instance stays as the throw left it.
- A store notification is an event only while the listener is registered. Honouring `remove` is the store's side of the contract.
- Lifecycle.NoActionNoTimer: states errorStatus only when dataKey is not "errorStatus". With that key the data slot overwrites errorStatus. Its timer and callAction claims hold for every dataKey.
- Lifecycle.ErrorStatusIsNoErrorOrFailureCode: holds only when dataKey is not "errorStatus", for the same reason.
- Lifecycle.SettleSetsErrorStatus: stated only when dataKey is not "errorStatus", for the same reason.
