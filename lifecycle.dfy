/**
 * The per-instance behaviour of the component class the factory returns, as
 * values: an Instance records the state record, the store listener, the
 * refresh timer, the promise in flight, and how often each collaborator was
 * called; one function per event gives the instance after it. The class in
 * module Component performs these same transitions on its fields.
 */
module Lifecycle {
  import opened Wrappers
  import opened JsValues
  import opened Factory

  /** The state-record key of the refresh outcome. */
  const ErrorKey: string := "errorStatus"

  /** errorStatus when the last refresh succeeded or none has settled. */
  const NoError: JsValue := Number(-1)

  /** errorStatus when a failure carries no truthy status. */
  const DefaultFailureStatus: JsValue := Number(500)

  /** Where the host framework has the component. */
  datatype Phase = Constructed | Mounted | Unmounted

  /** What `callAction(this.props)` handed back: a bluebird promise or anything else. */
  datatype ActionReturn = BluebirdPromise | OtherValue

  /** The rejection reason: `null`/`undefined`, or a value whose `status`
      property reads as `status` (`undefined` when it has none). */
  datatype Rejection = NullishReason | StatusOf(status: JsValue)

  /** How the promise returned by callAction settled. */
  datatype Settlement = Fulfilled | Rejected(reason: Rejection)

  /** An exception that escapes a lifecycle method. */
  datatype Fault =
    | StoreIsNull  // reading `addListener` of a null Store
    | NotAPromise  // the invariant in `update`

  datatype Instance = Instance(
    cfg: Config,
    phase: Phase,
    state: map<string, JsValue>,  // `this.state`
    listenerLive: bool,           // `this.listener` registered and not yet removed
    timerPending: bool,           // `this.actionId` armed and not yet fired or cleared
    inFlight: bool,               // a callAction promise not yet settled
    addListenerCalls: nat,
    removeCalls: nat,
    selectDataCalls: nat,
    callActionCalls: nat,
    setTimeoutCalls: nat,
    timerFires: nat,
    timersCancelled: nat,
    settled: nat,                 // promises that settled
    broken: nat,                  // callAction results that were not promises
    lastWrite: Option<Settlement>) // the settlement whose handler last wrote errorStatus

  /** The state key the selected data lives under. */
  function DataKey(cfg: Config): string {
    PropertyKey(cfg.dataKey)
  }

  /** `err.status || 500`. */
  function FailureStatus(status: JsValue): (r: JsValue)
    ensures Truthy(r)
    ensures Truthy(status) ==> r == status
    ensures !Truthy(status) ==> r == DefaultFailureStatus
  {
    Or(status, DefaultFailureStatus)
  }

  /** The errorStatus that the handler of `w` writes, or the initial one. */
  function ErrorStatusAfter(w: Option<Settlement>): JsValue {
    match w
    case Some(Rejected(StatusOf(status))) => FailureStatus(status)
    case _ => NoError
  }

  /** The pass-through performance gate: the user's hook decides when it is a
      function (its answer is `hookVerdict`); otherwise every change counts. */
  function ShouldComponentUpdate(cfg: Config, hookVerdict: JsValue): (r: JsValue)
    ensures IsFunction(cfg.shouldComponentUpdate) ==> r == hookVerdict
    ensures !IsFunction(cfg.shouldComponentUpdate) ==> r == Boolean(true)
    ensures !Truthy(r) ==> IsFunction(cfg.shouldComponentUpdate)
  {
    if IsFunction(cfg.shouldComponentUpdate) then hookVerdict else Boolean(true)
  }

  /** `this.setState({[key]: v})`: the host framework ignores it unless mounted. */
  function SetState(s: Instance, key: string, v: JsValue): map<string, JsValue> {
    if s.phase == Mounted then s.state[key := v] else s.state
  }

  /** The constructor: the initial state record, with one call of selectData
      (whose answer is `selected`). */
  function Construct(cfg: Config, selected: JsValue): (s: Instance)
    requires WellTyped(cfg)
    ensures s.cfg == cfg && s.phase == Constructed
    ensures Inv(s)
    ensures s.state.Keys == {ErrorKey, DataKey(cfg)} && s.state[DataKey(cfg)] == selected
    ensures DataKey(cfg) != ErrorKey ==> s.state[ErrorKey] == NoError
    ensures s.selectDataCalls == 1 && s.callActionCalls == 0 && s.addListenerCalls == 0
  {
    Instance(cfg, Constructed, map[ErrorKey := NoError][DataKey(cfg) := selected],
             false, false, false, 0, 0, 1, 0, 0, 0, 0, 0, 0, None)
  }

  /** `update()`: call callAction once; a promise is then in flight, anything
      else makes the invariant throw and nothing is chained. */
  function OnUpdate(s: Instance, ret: ActionReturn): Instance {
    var s1 := s.(callActionCalls := s.callActionCalls + 1);
    if ret == BluebirdPromise then s1.(inFlight := true) else s1.(broken := s.broken + 1)
  }

  function UpdateFault(ret: ActionReturn): Option<Fault> {
    if ret == BluebirdPromise then None else Some(NotAPromise)
  }

  /** `componentDidMount()`: register the listener, then run update once when
      callAction is a function. A null Store throws before anything happens. */
  function OnMount(s: Instance, ret: ActionReturn): Instance {
    if s.cfg.store.Null? then s
    else
      var s1 := s.(phase := Mounted, listenerLive := true, addListenerCalls := s.addListenerCalls + 1);
      if IsFunction(s.cfg.callAction) then OnUpdate(s1, ret) else s1
  }

  function MountFault(s: Instance, ret: ActionReturn): Option<Fault> {
    if s.cfg.store.Null? then Some(StoreIsNull)
    else if IsFunction(s.cfg.callAction) then UpdateFault(ret)
    else None
  }

  /** `handleChange()`: selectData is called again and its answer replaces the data slot. */
  function OnChange(s: Instance, selected: JsValue): Instance {
    s.(state := SetState(s, DataKey(s.cfg), selected), selectDataCalls := s.selectDataCalls + 1)
  }

  /** `handleActionSuccess()`. */
  function OnSuccess(s: Instance): Instance {
    if s.phase == Mounted then
      s.(state := SetState(s, ErrorKey, NoError), lastWrite := Some(Fulfilled))
    else s
  }

  /** `handleActionError(err)`; reading `status` of a nullish reason throws
      before setState is reached. */
  function OnError(s: Instance, reason: Rejection): Instance {
    match reason
    case NullishReason => s
    case StatusOf(status) =>
      if s.phase == Mounted then
        s.(state := SetState(s, ErrorKey, FailureStatus(status)), lastWrite := Some(Rejected(reason)))
      else s
  }

  /** The promise chain settling: the success or error handler, then the
      `finally` that arms the next timer, whether or not still mounted. */
  function OnSettle(s: Instance, outcome: Settlement): Instance {
    var s1 := s.(inFlight := false, settled := s.settled + 1);
    var s2 := match outcome
      case Fulfilled => OnSuccess(s1)
      case Rejected(reason) => OnError(s1, reason);
    s2.(timerPending := true, setTimeoutCalls := s2.setTimeoutCalls + 1)
  }

  /** The armed timer firing runs update again. */
  function OnTimer(s: Instance, ret: ActionReturn): Instance {
    OnUpdate(s.(timerPending := false, timerFires := s.timerFires + 1), ret)
  }

  /** `componentWillUnmount()`: remove the listener and clear the pending timer. */
  function OnUnmount(s: Instance): Instance {
    s.(phase := Unmounted, listenerLive := false, removeCalls := s.removeCalls + 1,
       timerPending := false,
       timersCancelled := if s.timerPending then s.timersCancelled + 1 else s.timersCancelled)
  }

  /** The events an instance reacts to, with the collaborators' answers. */
  datatype Event =
    | Mount(ret: ActionReturn)
    | StoreChange(selected: JsValue)
    | Settle(outcome: Settlement)
    | TimerFire(ret: ActionReturn)
    | Unmount

  /** When an event can happen at all: the framework mounts once and unmounts
      a mounted component, the store notifies live listeners only, a promise
      settles once, and only an armed timer fires. */
  predicate Enabled(s: Instance, e: Event) {
    match e
    case Mount(_) => s.phase == Constructed
    case StoreChange(_) => s.listenerLive
    case Settle(_) => s.inFlight
    case TimerFire(_) => s.timerPending
    case Unmount => s.phase == Mounted
  }

  function Step(s: Instance, e: Event): Instance {
    match e
    case Mount(ret) => OnMount(s, ret)
    case StoreChange(selected) => OnChange(s, selected)
    case Settle(outcome) => OnSettle(s, outcome)
    case TimerFire(ret) => OnTimer(s, ret)
    case Unmount => OnUnmount(s)
  }

  /** The instance after a sequence of events, or None if one of them could not happen. */
  function Run(s: Instance, events: seq<Event>): Option<Instance>
    decreases |events|
  {
    if events == [] then Some(s)
    else if !Enabled(s, events[0]) then None
    else Run(Step(s, events[0]), events[1..])
  }

  /** What holds of every instance the events can produce. */
  predicate Inv(s: Instance) {
    WellTyped(s.cfg) &&
    // the state record has the error slot and the data slot and nothing else
    s.state.Keys == {ErrorKey, DataKey(s.cfg)} &&
    // errorStatus is -1 or what the last applied failure handler wrote
    (DataKey(s.cfg) != ErrorKey ==> s.state[ErrorKey] == ErrorStatusAfter(s.lastWrite)) &&
    (s.lastWrite != Some(Rejected(NullishReason))) &&
    // never a pending timer and a promise in flight together
    !(s.timerPending && s.inFlight) &&
    // nothing happens before mount
    (s.phase == Constructed ==>
       s.callActionCalls == 0 && !s.inFlight && !s.timerPending &&
       s.setTimeoutCalls == 0 && s.lastWrite == None) &&
    // exactly one listener, live exactly while mounted, removed exactly once
    (s.listenerLive <==> s.phase == Mounted) &&
    s.addListenerCalls == (if s.phase == Constructed then 0 else 1) &&
    s.removeCalls == (if s.phase == Unmounted then 1 else 0) &&
    s.selectDataCalls >= 1 &&
    // without a callAction function the refresh loop never starts
    (!IsFunction(s.cfg.callAction) ==>
       s.callActionCalls == 0 && !s.inFlight && !s.timerPending &&
       s.setTimeoutCalls == 0 && s.lastWrite == None) &&
    // callAction runs once at mount and once per timer that fired
    s.callActionCalls ==
      (if s.phase != Constructed && IsFunction(s.cfg.callAction) then 1 else 0) + s.timerFires &&
    // every call is settled, broken, or the single one in flight
    s.callActionCalls == s.settled + s.broken + (if s.inFlight then 1 else 0) &&
    // a timer is armed only by a settlement, one per settlement
    s.setTimeoutCalls == s.settled &&
    // every armed timer fired, was cancelled at unmount, or is the pending one
    s.setTimeoutCalls == s.timerFires + s.timersCancelled + (if s.timerPending then 1 else 0) &&
    s.timersCancelled <= s.removeCalls
  }

  lemma MountKeepsInv(s: Instance, ret: ActionReturn)
    requires Inv(s) && s.phase == Constructed
    ensures Inv(OnMount(s, ret))
  {
  }

  lemma ChangeKeepsInv(s: Instance, selected: JsValue)
    requires Inv(s) && s.listenerLive
    ensures Inv(OnChange(s, selected))
  {
  }

  lemma SettleKeepsInv(s: Instance, outcome: Settlement)
    requires Inv(s) && s.inFlight
    ensures Inv(OnSettle(s, outcome))
  {
  }

  lemma TimerKeepsInv(s: Instance, ret: ActionReturn)
    requires Inv(s) && s.timerPending
    ensures Inv(OnTimer(s, ret))
  {
  }

  lemma UnmountKeepsInv(s: Instance)
    requires Inv(s) && s.phase == Mounted
    ensures Inv(OnUnmount(s))
  {
  }

  /** Every event that can happen keeps the invariant and the configuration. */
  lemma StepKeepsInv(s: Instance, e: Event)
    requires Inv(s) && Enabled(s, e)
    ensures Inv(Step(s, e)) && Step(s, e).cfg == s.cfg
  {
    match e
    case Mount(ret) => MountKeepsInv(s, ret);
    case StoreChange(selected) => ChangeKeepsInv(s, selected);
    case Settle(outcome) => SettleKeepsInv(s, outcome);
    case TimerFire(ret) => TimerKeepsInv(s, ret);
    case Unmount => UnmountKeepsInv(s);
  }

  lemma {:induction false} RunKeepsInv(s: Instance, events: seq<Event>)
    requires Inv(s)
    ensures Run(s, events).Some? ==> Inv(Run(s, events).value) && Run(s, events).value.cfg == s.cfg
    decreases |events|
  {
    if events != [] && Enabled(s, events[0]) {
      StepKeepsInv(s, events[0]);
      RunKeepsInv(Step(s, events[0]), events[1..]);
    }
  }

  /** An instance some sequence of events produces from construction. */
  predicate Reachable(cfg: Config, selected: JsValue, events: seq<Event>, s: Instance)
    requires WellTyped(cfg)
  {
    Run(Construct(cfg, selected), events) == Some(s)
  }

  /** At most one action at a time: a pending timer and a promise in flight
      never coexist, and every call of callAction but the one in flight has
      settled or broken the promise contract. */
  lemma {:induction false} AtMostOneActionInFlight(cfg: Config, selected: JsValue, events: seq<Event>, s: Instance)
    requires WellTyped(cfg) && Reachable(cfg, selected, events, s)
    ensures !(s.timerPending && s.inFlight)
    ensures s.callActionCalls == s.settled + s.broken + (if s.inFlight then 1 else 0)
    ensures s.setTimeoutCalls == s.settled
  {
    RunKeepsInv(Construct(cfg, selected), events);
  }

  /** Without a callAction function no timer is ever armed, callAction is
      never called and errorStatus stays -1. */
  lemma {:induction false} NoActionNoTimer(cfg: Config, selected: JsValue, events: seq<Event>, s: Instance)
    requires WellTyped(cfg) && !IsFunction(cfg.callAction)
    requires Reachable(cfg, selected, events, s)
    ensures !s.timerPending && s.setTimeoutCalls == 0 && s.callActionCalls == 0
    ensures DataKey(cfg) != ErrorKey ==> ErrorKey in s.state && s.state[ErrorKey] == NoError
  {
    RunKeepsInv(Construct(cfg, selected), events);
  }

  /** The listener is registered once at mount and removed exactly once, at unmount. */
  lemma {:induction false} ListenerReleasedOnce(cfg: Config, selected: JsValue, events: seq<Event>, s: Instance)
    requires WellTyped(cfg) && Reachable(cfg, selected, events, s)
    ensures s.phase == Mounted ==> s.listenerLive && s.addListenerCalls == 1 && s.removeCalls == 0
    ensures s.phase == Unmounted ==> !s.listenerLive && s.addListenerCalls == 1 && s.removeCalls == 1
  {
    RunKeepsInv(Construct(cfg, selected), events);
  }

  /** errorStatus is -1 or the `err.status || 500` of the last failure the
      component saw, and so never a falsy value. */
  lemma {:induction false} ErrorStatusIsNoErrorOrFailureCode(cfg: Config, selected: JsValue, events: seq<Event>, s: Instance)
    requires WellTyped(cfg) && DataKey(cfg) != ErrorKey && Reachable(cfg, selected, events, s)
    ensures ErrorKey in s.state
    ensures s.state[ErrorKey] == NoError ||
      (s.lastWrite.Some? && s.lastWrite.value.Rejected? && s.lastWrite.value.reason.StatusOf? &&
       s.state[ErrorKey] == FailureStatus(s.lastWrite.value.reason.status))
    ensures Truthy(s.state[ErrorKey])
  {
    RunKeepsInv(Construct(cfg, selected), events);
  }

  /** Mounting registers exactly one listener and calls callAction exactly once
      if and only if it is a function. */
  lemma MountCallsActionOnlyIfFunction(s: Instance, ret: ActionReturn)
    requires Inv(s) && s.phase == Constructed && !s.cfg.store.Null?
    ensures OnMount(s, ret).addListenerCalls == 1 && OnMount(s, ret).listenerLive
    ensures OnMount(s, ret).callActionCalls == 1 <==> IsFunction(s.cfg.callAction)
    ensures OnMount(s, ret).callActionCalls == 0 <==> !IsFunction(s.cfg.callAction)
    ensures OnMount(s, ret).state == s.state
  {
  }

  /** A store notification replaces the data slot and nothing else, with one more selectData call. */
  lemma ChangeReplacesOnlyData(s: Instance, selected: JsValue)
    requires Inv(s) && s.listenerLive
    ensures var t := OnChange(s, selected);
      t.state.Keys == s.state.Keys && t.state[DataKey(s.cfg)] == selected &&
      (forall k :: k in s.state && k != DataKey(s.cfg) ==> t.state[k] == s.state[k]) &&
      t.selectDataCalls == s.selectDataCalls + 1 &&
      t.timerPending == s.timerPending && t.inFlight == s.inFlight
  {
  }

  /** While mounted, a fulfilled action resets errorStatus to -1 and a
      rejected one sets it to its truthy status or 500; the data slot is kept
      and exactly one timer is armed. */
  lemma SettleSetsErrorStatus(s: Instance, outcome: Settlement)
    requires Inv(s) && s.inFlight && s.phase == Mounted && DataKey(s.cfg) != ErrorKey
    ensures var t := OnSettle(s, outcome);
      t.timerPending && !t.inFlight && t.setTimeoutCalls == s.setTimeoutCalls + 1 &&
      t.state[DataKey(s.cfg)] == s.state[DataKey(s.cfg)] &&
      (outcome == Fulfilled ==> t.state[ErrorKey] == NoError) &&
      (outcome.Rejected? && outcome.reason.StatusOf? && Truthy(outcome.reason.status) ==>
         t.state[ErrorKey] == outcome.reason.status) &&
      (outcome.Rejected? && outcome.reason.StatusOf? && !Truthy(outcome.reason.status) ==>
         t.state[ErrorKey] == Number(500)) &&
      (outcome == Rejected(NullishReason) ==> t.state == s.state)
  {
  }

  /** Unmounting removes the listener once and clears the pending timer; the
      state record is left as it was. */
  lemma UnmountReleasesEverything(s: Instance)
    requires Inv(s) && s.phase == Mounted
    ensures var t := OnUnmount(s);
      t.state == s.state && t.removeCalls == 1 && !t.listenerLive && !t.timerPending &&
      t.inFlight == s.inFlight && t.callActionCalls == s.callActionCalls
  {
  }

  /** The `finally` handler does not look at whether the component is still
      mounted: a promise that settles after unmount arms a new timer, and when
      that fires callAction runs again, with the state record unchanged. */
  lemma SettleAfterUnmountRearms(s: Instance, outcome: Settlement, ret: ActionReturn)
    requires Inv(s) && s.phase == Unmounted && s.inFlight
    ensures OnSettle(s, outcome).timerPending
    ensures OnSettle(s, outcome).state == s.state
    ensures OnTimer(OnSettle(s, outcome), ret).callActionCalls == s.callActionCalls + 1
  {
  }

  /** After unmount no event changes the state record or brings the
      component back: the store no longer notifies, and the handlers of a late
      settlement write through setState, which an unmounted component drops. */
  lemma {:induction false} FrozenAfterUnmount(s: Instance, events: seq<Event>)
    requires Inv(s) && s.phase == Unmounted
    ensures Run(s, events).Some? ==>
      Run(s, events).value.state == s.state && Run(s, events).value.phase == Unmounted
    decreases |events|
  {
    if events != [] && Enabled(s, events[0]) {
      StepKeepsInv(s, events[0]);
      FrozenAfterUnmount(Step(s, events[0]), events[1..]);
    }
  }
}
