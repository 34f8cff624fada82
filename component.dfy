/**
 * The component class that `subscription(options)` returns, as an object whose
 * lifecycle methods update its fields in place. Each method is proved to make
 * the transition that module Lifecycle gives for its event, so everything
 * proved there about reachable instances holds of the object.
 */
module Component {
  import opened Wrappers
  import opened JsValues
  import opened Factory
  import opened Lifecycle

  class Subscriber {
    const cfg: Config
    var phase: Phase
    var state: map<string, JsValue>
    var listenerLive: bool
    var timerPending: bool
    var inFlight: bool

    // How often each collaborator has been called, as a test double would count.
    ghost var addListenerCalls: nat
    ghost var removeCalls: nat
    ghost var selectDataCalls: nat
    ghost var callActionCalls: nat
    ghost var setTimeoutCalls: nat
    ghost var timerFires: nat
    ghost var timersCancelled: nat
    ghost var settled: nat
    ghost var broken: nat
    ghost var lastWrite: Option<Settlement>

    /** The object's fields as a Lifecycle instance. */
    ghost function Model(): Instance
      reads this
    {
      Instance(cfg, phase, state, listenerLive, timerPending, inFlight,
               addListenerCalls, removeCalls, selectDataCalls, callActionCalls,
               setTimeoutCalls, timerFires, timersCancelled, settled, broken, lastWrite)
    }

    ghost predicate Valid()
      reads this
    {
      Inv(Model())
    }

    /** `constructor(props)`: selectData answered `selected`. */
    constructor (config: Config, selected: JsValue)
      requires WellTyped(config)
      ensures Model() == Construct(config, selected)
      ensures Valid()
    {
      cfg := config;
      phase := Constructed;
      state := map[ErrorKey := NoError][DataKey(config) := selected];
      listenerLive, timerPending, inFlight := false, false, false;
      addListenerCalls, removeCalls, selectDataCalls, callActionCalls := 0, 0, 1, 0;
      setTimeoutCalls, timerFires, timersCancelled, settled, broken := 0, 0, 0, 0, 0;
      lastWrite := None;
    }

    /** `this.setState({[key]: v})`, dropped by the framework unless mounted. */
    method SetState(key: string, v: JsValue)
      modifies this`state
      ensures state == Lifecycle.SetState(old(Model()), key, v)
    {
      if phase == Mounted {
        state := state[key := v];
      }
    }

    /** `componentDidMount()`; `ret` is what callAction returns, if called. */
    method ComponentDidMount(ret: ActionReturn) returns (fault: Option<Fault>)
      requires Valid() && phase == Constructed
      modifies this
      ensures Model() == OnMount(old(Model()), ret)
      ensures fault == MountFault(old(Model()), ret)
      ensures Valid()
    {
      MountKeepsInv(Model(), ret);
      if cfg.store.Null? {
        return Some(StoreIsNull);
      }
      phase := Mounted;
      listenerLive := true;
      addListenerCalls := addListenerCalls + 1;
      fault := None;
      if IsFunction(cfg.callAction) {
        fault := Update(ret);
      }
    }

    /** `update()`: call callAction and chain the handlers onto its promise. */
    method Update(ret: ActionReturn) returns (fault: Option<Fault>)
      modifies this
      ensures Model() == OnUpdate(old(Model()), ret)
      ensures fault == UpdateFault(ret)
    {
      callActionCalls := callActionCalls + 1;
      if ret == BluebirdPromise {
        inFlight := true;
        fault := None;
      } else {
        broken := broken + 1;
        fault := Some(NotAPromise);
      }
    }

    /** `handleActionSuccess()`. */
    method HandleActionSuccess()
      modifies this
      ensures Model() == OnSuccess(old(Model()))
    {
      if phase == Mounted {
        SetState(ErrorKey, NoError);
        lastWrite := Some(Fulfilled);
      }
    }

    /** `handleActionError(err)`. */
    method HandleActionError(reason: Rejection)
      modifies this
      ensures Model() == OnError(old(Model()), reason)
    {
      match reason {
        case NullishReason =>
        case StatusOf(status) =>
          if phase == Mounted {
            SetState(ErrorKey, FailureStatus(status));
            lastWrite := Some(Rejected(reason));
          }
      }
    }

    /** The promise returned by callAction settles with `outcome`. */
    method Settle(outcome: Settlement)
      requires Valid() && inFlight
      modifies this
      ensures Model() == OnSettle(old(Model()), outcome)
      ensures Valid()
    {
      SettleKeepsInv(Model(), outcome);
      inFlight := false;
      settled := settled + 1;
      match outcome {
        case Fulfilled => HandleActionSuccess();
        case Rejected(reason) => HandleActionError(reason);
      }
      Finally();
    }

    /** The `finally` handler: arm the next update after `interval`. */
    method Finally()
      modifies this
      ensures Model() == old(Model()).(timerPending := true, setTimeoutCalls := old(setTimeoutCalls) + 1)
    {
      timerPending := true;
      setTimeoutCalls := setTimeoutCalls + 1;
    }

    /** The armed timer fires; `ret` is what callAction returns. */
    method TimerFired(ret: ActionReturn) returns (fault: Option<Fault>)
      requires Valid() && timerPending
      modifies this
      ensures Model() == OnTimer(old(Model()), ret)
      ensures fault == UpdateFault(ret)
      ensures Valid()
    {
      TimerKeepsInv(Model(), ret);
      timerPending := false;
      timerFires := timerFires + 1;
      fault := Update(ret);
    }

    /** `handleChange()`: the store notified; selectData answered `selected`. */
    method HandleChange(selected: JsValue)
      requires Valid() && listenerLive
      modifies this
      ensures Model() == OnChange(old(Model()), selected)
      ensures Valid()
    {
      ChangeKeepsInv(Model(), selected);
      selectDataCalls := selectDataCalls + 1;
      SetState(DataKey(cfg), selected);
    }

    /** `componentWillUnmount()`. */
    method ComponentWillUnmount()
      requires Valid() && phase == Mounted
      modifies this
      ensures Model() == OnUnmount(old(Model()))
      ensures Valid()
    {
      UnmountKeepsInv(Model());
      phase := Unmounted;
      listenerLive := false;
      removeCalls := removeCalls + 1;
      if timerPending {
        timersCancelled := timersCancelled + 1;
      }
      timerPending := false;
    }
  }
}
