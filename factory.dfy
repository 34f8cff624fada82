/**
 * The configuration half of the `subscription(options)` factory: the defaults
 * merged under the caller's options and the three type checks that run once per
 * factory call, before any component instance exists.
 */
module Factory {
  import opened Wrappers
  import opened JsValues

  /** `dataKey` when the caller gives none: the state slot is named "data". */
  const DefaultDataKey: JsValue := Str("data")

  /** `interval` when the caller gives none: one minute, in milliseconds. */
  const DefaultInterval: JsValue := Number(60000)

  /** The options after defaulting, one field per name the factory reads. */
  datatype Config = Config(
    wrappedComponent: JsValue,
    store: JsValue,
    selectData: JsValue,
    callAction: JsValue,
    interval: JsValue,
    dataKey: JsValue,
    shouldComponentUpdate: JsValue)

  /** A failed type check: the option it concerns and what `typeof` said about it. */
  datatype ConfigError = ConfigError(option: string, actualType: string)

  /** The object the caller's options are copied onto. */
  function Defaults(): map<string, JsValue> {
    map["dataKey" := DefaultDataKey, "interval" := DefaultInterval]
  }

  /** Reading a property of an options bag: `undefined` when it is absent. */
  function Get(bag: map<string, JsValue>, name: string): JsValue {
    if name in bag then bag[name] else Undefined
  }

  /** Callable values, stated without going through `typeof`. */
  predicate IsFunction(v: JsValue) {
    v.Func?
  }

  /** The values the store check lets through: any object, and also `null`. */
  predicate IsObjectOrNull(v: JsValue) {
    v.Obj? || v.Null?
  }

  /** What a configuration the factory accepted satisfies. */
  predicate WellTyped(c: Config) {
    IsFunction(c.wrappedComponent) && IsObjectOrNull(c.store) && IsFunction(c.selectData)
  }

  /**
   * `subscription(options)` up to the point where the component class is
   * returned: copy the caller's own properties over the defaults, read the
   * seven options, and check the types of WrappedComponent, Store and
   * selectData in that order, failing on the first that does not pass.
   */
  function Resolve(opts: map<string, JsValue>): (r: Result<Config, ConfigError>)
    ensures r.Success? <==>
      IsFunction(Get(opts, "WrappedComponent")) &&
      IsObjectOrNull(Get(opts, "Store")) &&
      IsFunction(Get(opts, "selectData"))
    ensures r.Success? ==> WellTyped(r.value)
    ensures r.Success? ==>
      r.value.dataKey == (if "dataKey" in opts then opts["dataKey"] else DefaultDataKey) &&
      r.value.interval == (if "interval" in opts then opts["interval"] else DefaultInterval)
    ensures r.Success? ==>
      r.value.wrappedComponent == opts["WrappedComponent"] &&
      r.value.store == opts["Store"] &&
      r.value.selectData == opts["selectData"] &&
      r.value.callAction == Get(opts, "callAction") &&
      r.value.shouldComponentUpdate == Get(opts, "shouldComponentUpdate")
    ensures r.Failure? ==>
      r.error.option in {"WrappedComponent", "Store", "selectData"} &&
      r.error.actualType == TypeOf(Get(opts, r.error.option))
  {
    var merged := Defaults() + opts;
    var c := Config(
      Get(merged, "WrappedComponent"),
      Get(merged, "Store"),
      Get(merged, "selectData"),
      Get(merged, "callAction"),
      Get(merged, "interval"),
      Get(merged, "dataKey"),
      Get(merged, "shouldComponentUpdate"));
    if TypeOf(c.wrappedComponent) != "function" then
      Failure(ConfigError("WrappedComponent", TypeOf(c.wrappedComponent)))
    else if TypeOf(c.store) != "object" then
      Failure(ConfigError("Store", TypeOf(c.store)))
    else if TypeOf(c.selectData) != "function" then
      Failure(ConfigError("selectData", TypeOf(c.selectData)))
    else
      Success(c)
  }

  /** The error names the first option, in checking order, whose type is wrong. */
  lemma ResolveReportsFirstBadOption(opts: map<string, JsValue>)
    ensures var r := Resolve(opts);
      (r.Failure? && r.error.option == "WrappedComponent" <==>
         !IsFunction(Get(opts, "WrappedComponent"))) &&
      (r.Failure? && r.error.option == "Store" <==>
         IsFunction(Get(opts, "WrappedComponent")) && !IsObjectOrNull(Get(opts, "Store"))) &&
      (r.Failure? && r.error.option == "selectData" <==>
         IsFunction(Get(opts, "WrappedComponent")) && IsObjectOrNull(Get(opts, "Store")) &&
         !IsFunction(Get(opts, "selectData")))
  {
  }

  /** A store of `null` passes the check, since `typeof null` is "object". */
  lemma NullStoreAccepted(component: JsValue, select: JsValue)
    requires IsFunction(component) && IsFunction(select)
    ensures var r := Resolve(map["WrappedComponent" := component, "Store" := Null, "selectData" := select]);
      r.Success? && r.value.store == Null
  {
  }

  /** With only the three required options, the defaults fill dataKey and interval. */
  lemma DefaultsApply(component: JsValue, store: JsValue, select: JsValue)
    requires IsFunction(component) && IsObjectOrNull(store) && IsFunction(select)
    ensures var r := Resolve(map["WrappedComponent" := component, "Store" := store, "selectData" := select]);
      r.Success? && r.value.dataKey == Str("data") && r.value.interval == Number(60000) &&
      r.value.callAction == Undefined && r.value.shouldComponentUpdate == Undefined
  {
  }

  /** An option explicitly set to `undefined` still replaces the default. */
  lemma ExplicitUndefinedOverridesDefault(component: JsValue, store: JsValue, select: JsValue)
    requires IsFunction(component) && IsObjectOrNull(store) && IsFunction(select)
    ensures var r := Resolve(map["WrappedComponent" := component, "Store" := store,
                                 "selectData" := select, "dataKey" := Undefined]);
      r.Success? && r.value.dataKey == Undefined
  {
  }
}
