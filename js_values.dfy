/**
 * The JavaScript values that the factory's options and the component's state
 * record can hold, and the three pieces of JavaScript semantics the component
 * relies on: the `typeof` operator, truthiness (for `a || b`) and the
 * conversion of a computed property name (`{ [key]: v }`) to a string key.
 */
module JsValues {

  /** A JavaScript value. Numbers are integers here; an object or a function is
      known only by an identity, and a function also carries its source text,
      which is what converting it to a string yields. */
  datatype JsValue =
    | Undefined
    | Null
    | Boolean(b: bool)
    | Number(n: int)
    | Str(s: string)
    | Obj(id: nat)
    | Func(id: nat, source: string)

  /** The string that `typeof v` evaluates to; note that `typeof null` is "object". */
  function TypeOf(v: JsValue): string {
    match v
    case Undefined => "undefined"
    case Null => "object"
    case Boolean(_) => "boolean"
    case Number(_) => "number"
    case Str(_) => "string"
    case Obj(_) => "object"
    case Func(_, _) => "function"
  }

  /** Whether `v` converts to true in a boolean context. */
  predicate Truthy(v: JsValue) {
    match v
    case Undefined => false
    case Null => false
    case Boolean(b) => b
    case Number(n) => n != 0
    case Str(s) => s != ""
    case Obj(_) => true
    case Func(_, _) => true
  }

  /** The value of `a || b`: the left operand when it is truthy, the right one otherwise. */
  function Or(a: JsValue, b: JsValue): (r: JsValue)
    ensures r == a || r == b
    ensures Truthy(r) <==> Truthy(a) || Truthy(b)
    ensures Truthy(a) ==> r == a
    ensures !Truthy(a) ==> r == b
  {
    if Truthy(a) then a else b
  }

  function DigitChar(d: nat): char
    requires d < 10
  {
    "0123456789"[d]
  }

  /** Decimal digits of a natural number, most significant first. */
  function Digits(n: nat): string
    decreases n
  {
    if n < 10 then [DigitChar(n)] else Digits(n / 10) + [DigitChar(n % 10)]
  }

  /** The string an integer-valued number converts to. */
  function NumberToString(n: int): string {
    if n < 0 then "-" + Digits(-n) else Digits(n)
  }

  /** The string key a computed property name `[v]` stands for. An object is
      converted by the default `Object.prototype.toString`. */
  function PropertyKey(v: JsValue): string {
    match v
    case Undefined => "undefined"
    case Null => "null"
    case Boolean(b) => if b then "true" else "false"
    case Number(n) => NumberToString(n)
    case Str(s) => s
    case Obj(_) => "[object Object]"
    case Func(_, source) => source
  }
}
