/** JavaScript values as they reach the core: parsed JSON bodies, cookies,
    configuration files and fetch responses. Only the behaviour the core relies
    on is modelled: property access (which throws on null and undefined),
    truthiness, `typeof`, and conversion to a string in a template literal. */
module Js {

  /** A JSON-like JavaScript value. Numbers are integers in this model. */
  datatype JsValue =
    | Undefined
    | Null
    | Bool(b: bool)
    | Num(n: int)
    | Str(s: string)
    | Arr(items: seq<JsValue>)
    | Obj(fields: map<string, JsValue>)

  /** A thrown value: an `Error` instance with its message, or anything else. */
  datatype Thrown = ErrorObject(message: string) | OtherValue(value: JsValue)

  /** The outcome of evaluating an expression that may throw. */
  datatype Completion<T> = Normal(value: T) | Throw(error: Thrown)

  /** `null` and `undefined`, the two values whose properties cannot be read. */
  predicate IsNullish(v: JsValue) {
    v.Undefined? || v.Null?
  }

  /** The TypeError raised by reading a property of null or undefined. */
  function PropertyError(v: JsValue): (e: Thrown)
    requires IsNullish(v)
    ensures e.ErrorObject?
  {
    ErrorObject("Cannot read properties of " + (if v.Null? then "null" else "undefined"))
  }

  /** `v[key]`: throws on null and undefined; strings and arrays have a
      `length`; an object yields its own field; anything else is undefined. */
  function Get(v: JsValue, key: string): (r: Completion<JsValue>)
    ensures r.Throw? <==> IsNullish(v)
    ensures v.Obj? ==> r == Normal(if key in v.fields then v.fields[key] else Undefined)
  {
    match v
    case Undefined => Throw(PropertyError(v))
    case Null => Throw(PropertyError(v))
    case Str(s) => Normal(if key == "length" then Num(|s|) else Undefined)
    case Arr(items) => Normal(if key == "length" then Num(|items|) else Undefined)
    case Obj(fields) => Normal(if key in fields then fields[key] else Undefined)
    case _ => Normal(Undefined)
  }

  /** `v[key]` when `v` is known not to be null or undefined. */
  function Field(v: JsValue, key: string): JsValue
    requires !IsNullish(v)
  {
    Get(v, key).value
  }

  /** The falsy values: undefined, null, false, 0 and the empty string. */
  predicate Falsy(v: JsValue) {
    match v
    case Undefined => true
    case Null => true
    case Bool(b) => !b
    case Num(n) => n == 0
    case Str(s) => s == ""
    case _ => false
  }

  /** The `typeof` operator. */
  function TypeOf(v: JsValue): string {
    match v
    case Undefined => "undefined"
    case Bool(_) => "boolean"
    case Num(_) => "number"
    case Str(_) => "string"
    case _ => "object"
  }

  lemma TypeOfString(v: JsValue)
    ensures TypeOf(v) == "string" <==> v.Str?
    ensures TypeOf(v) == "boolean" <==> v.Bool?
  {
  }

  /** Decimal digits of a natural number. */
  function NatToString(n: nat): (r: string)
    ensures |r| > 0
    ensures forall i :: 0 <= i < |r| ==> '0' <= r[i] <= '9'
  {
    var d := ['0' + (n % 10) as char];
    if n < 10 then d else NatToString(n / 10) + d
  }

  function IntToString(n: int): string {
    if n < 0 then "-" + NatToString(-n) else NatToString(n)
  }

  /** Joins strings with a separator, as `Array.prototype.join` does. */
  function Join(parts: seq<string>, sep: string): string {
    if |parts| == 0 then ""
    else if |parts| == 1 then parts[0]
    else parts[0] + sep + Join(parts[1..], sep)
  }

  /** `String(v)`, which is also what a template literal inserts. Inside an
      array, null and undefined elements become empty strings. */
  function ToText(v: JsValue): string
    decreases v
  {
    match v
    case Undefined => "undefined"
    case Null => "null"
    case Bool(b) => if b then "true" else "false"
    case Num(n) => IntToString(n)
    case Str(s) => s
    case Arr(items) =>
      Join(seq(|items|, i requires 0 <= i < |items| =>
                 if IsNullish(items[i]) then "" else ToText(items[i])), ",")
    case Obj(_) => "[object Object]"
  }

  lemma ToTextOfString(s: string)
    ensures ToText(Str(s)) == s
  {
  }
}
