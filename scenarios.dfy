/**
 * The repository's test scenarios, replayed against the component object:
 * each method builds a configuration through the factory, drives the
 * lifecycle and returns what the test inspects.
 */
module Scenarios {
  import opened JsValues
  import opened Factory
  import opened Lifecycle
  import opened Component

  /** A plain object standing for a store. */
  const TestStore: JsValue := Obj(0)

  /** The factory with the three required options and an optional callAction. */
  function TestOptions(component: JsValue, select: JsValue, action: JsValue): map<string, JsValue> {
    if action == Undefined then
      map["WrappedComponent" := component, "Store" := TestStore, "selectData" := select]
    else
      map["WrappedComponent" := component, "Store" := TestStore, "selectData" := select,
          "callAction" := action]
  }

  /** The first selectData answer lands under "data". */
  method InitialDataUnderDefaultKey(component: JsValue, select: JsValue, data: JsValue)
    returns (r: JsValue)
    requires IsFunction(component) && IsFunction(select)
    ensures r == data
  {
    var res := Resolve(TestOptions(component, select, Undefined));
    var c := new Subscriber(res.value, data);
    var _ := c.ComponentDidMount(OtherValue);
    r := c.state["data"];
  }

  /** With dataKey "test" the answer lands under "test", and there is no "data" slot. */
  method InitialDataUnderCustomKey(component: JsValue, select: JsValue, data: JsValue)
    returns (r: JsValue, hasData: bool)
    requires IsFunction(component) && IsFunction(select)
    ensures r == data && !hasData
  {
    var opts := TestOptions(component, select, Undefined)["dataKey" := Str("test")];
    var res := Resolve(opts);
    var c := new Subscriber(res.value, data);
    var _ := c.ComponentDidMount(OtherValue);
    r := c.state["test"];
    hasData := "data" in c.state;
  }

  /** selectData answers `first`, then `second` on a store notification:
      the state holds `second`, after exactly two selectData calls. */
  method StoreChangeReplacesData(component: JsValue, select: JsValue, first: JsValue, second: JsValue)
    returns (r: JsValue, ghost selectCalls: nat)
    requires IsFunction(component) && IsFunction(select)
    ensures r == second && selectCalls == 2
  {
    var res := Resolve(TestOptions(component, select, Undefined));
    var c := new Subscriber(res.value, first);
    var _ := c.ComponentDidMount(OtherValue);
    c.HandleChange(second);
    r := c.state["data"];
    selectCalls := c.selectDataCalls;
  }

  /** Unmounting calls the listener's remove exactly once. */
  method UnmountRemovesListener(component: JsValue, select: JsValue, data: JsValue)
    returns (live: bool, ghost removeCalls: nat)
    requires IsFunction(component) && IsFunction(select)
    ensures !live && removeCalls == 1
  {
    var res := Resolve(TestOptions(component, select, Undefined));
    var c := new Subscriber(res.value, data);
    var _ := c.ComponentDidMount(OtherValue);
    c.ComponentWillUnmount();
    live := c.listenerLive;
    removeCalls := c.removeCalls;
  }

  /** A component built with a callAction function and mounted, with the
      first callAction promise in flight. */
  method MountedWithAction(component: JsValue, select: JsValue, action: JsValue, data: JsValue)
    returns (c: Subscriber)
    requires IsFunction(component) && IsFunction(select) && IsFunction(action)
    ensures fresh(c) && c.Valid()
    ensures c.phase == Mounted && c.inFlight && !c.timerPending && c.callActionCalls == 1
    ensures DataKey(c.cfg) == "data" && c.state["data"] == data && c.state["errorStatus"] == Number(-1)
  {
    var res := Resolve(TestOptions(component, select, action));
    c := new Subscriber(res.value, data);
    var _ := c.ComponentDidMount(BluebirdPromise);
  }

  /** A callAction function is called once at mount, and its promise is in flight. */
  method MountCallsAction(component: JsValue, select: JsValue, action: JsValue, data: JsValue)
    returns (r: JsValue, pending: bool, ghost actionCalls: nat)
    requires IsFunction(component) && IsFunction(select) && IsFunction(action)
    ensures r == data && pending && actionCalls == 1
  {
    var c := MountedWithAction(component, select, action, data);
    r := c.state["data"];
    pending := c.inFlight;
    actionCalls := c.callActionCalls;
  }

  /** A rejection whose status is 403 sets errorStatus to 403 without a
      second callAction call. */
  method ForbiddenSets403(component: JsValue, select: JsValue, action: JsValue, data: JsValue)
    returns (r: JsValue, ghost actionCalls: nat)
    requires IsFunction(component) && IsFunction(select) && IsFunction(action)
    ensures r == Number(403) && actionCalls == 1
  {
    var c := MountedWithAction(component, select, action, data);
    c.Settle(Rejected(StatusOf(Number(403))));
    r := c.state["errorStatus"];
    actionCalls := c.callActionCalls;
  }

  /** A rejection without a status, or with status 0, sets errorStatus to 500. */
  method MissingStatusMeans500(component: JsValue, select: JsValue, action: JsValue, data: JsValue, status: JsValue)
    returns (r: JsValue)
    requires IsFunction(component) && IsFunction(select) && IsFunction(action)
    requires status == Undefined || status == Number(0)
    ensures r == Number(500)
  {
    var c := MountedWithAction(component, select, action, data);
    c.Settle(Rejected(StatusOf(status)));
    r := c.state["errorStatus"];
  }

  /** After a failure, the next successful refresh resets errorStatus to -1. */
  method SuccessAfterFailureResets(component: JsValue, select: JsValue, action: JsValue, data: JsValue)
    returns (afterFailure: JsValue, afterSuccess: JsValue, ghost actionCalls: nat)
    requires IsFunction(component) && IsFunction(select) && IsFunction(action)
    ensures afterFailure == Number(403) && afterSuccess == Number(-1) && actionCalls == 2
  {
    var c := MountedWithAction(component, select, action, data);
    c.Settle(Rejected(StatusOf(Number(403))));
    afterFailure := c.state["errorStatus"];
    var _ := c.TimerFired(BluebirdPromise);
    c.Settle(Fulfilled);
    afterSuccess := c.state["errorStatus"];
    actionCalls := c.callActionCalls;
  }

  /** Unmounting while a request is in flight: when it settles the `finally`
      arms a new timer, and that timer calls callAction a second time. */
  method SettleAfterUnmountCallsActionAgain(component: JsValue, select: JsValue, action: JsValue, data: JsValue)
    returns (rearmed: bool, pendingAgain: bool, ghost actionCalls: nat, ghost removeCalls: nat)
    requires IsFunction(component) && IsFunction(select) && IsFunction(action)
    ensures rearmed && pendingAgain && actionCalls == 2 && removeCalls == 1
  {
    var c := MountedWithAction(component, select, action, data);
    c.ComponentWillUnmount();
    c.Settle(Fulfilled);
    rearmed := c.timerPending;
    var _ := c.TimerFired(BluebirdPromise);
    pendingAgain := c.inFlight;
    actionCalls, removeCalls := c.callActionCalls, c.removeCalls;
  }

  /** `Store: {}` passes the factory's checks. */
  method EmptyObjectStoreAccepted(component: JsValue, select: JsValue) returns (ok: bool)
    requires IsFunction(component) && IsFunction(select)
    ensures ok
  {
    ok := Resolve(map["WrappedComponent" := component, "Store" := Obj(1), "selectData" := select]).Success?;
  }
}
