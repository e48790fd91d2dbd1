/** The JSON values that reach the views, with JavaScript's truthiness and
    the `||`, `String(...)` and object-spread rules the code relies on.
    `Undefined` stands for a property that is absent from the decoded JSON
    (JSON itself cannot carry `undefined`); `Null` is a property present
    with the value `null`. Numbers are exact reals. */
module Js {
  import Text

  datatype JsValue = Undefined | Null | Bool(b: bool) | Num(n: real) | Str(s: string)

  /** `!!v`. */
  predicate Truthy(v: JsValue)
  {
    match v
    case Undefined => false
    case Null => false
    case Bool(b) => b
    case Num(n) => n != 0.0
    case Str(s) => s != ""
  }

  /** `a || b`: the first operand when it is truthy, else the second. */
  function Or(a: JsValue, b: JsValue): (r: JsValue)
    ensures Truthy(r) <==> Truthy(a) || Truthy(b)
    ensures Truthy(a) ==> r == a
  {
    if Truthy(a) then a else b
  }

  /** `String(v)`. */
  function ToJsString(v: JsValue): string
  {
    match v
    case Undefined => "undefined"
    case Null => "null"
    case Bool(b) => if b then "true" else "false"
    case Num(n) => NumberToString(n)
    case Str(s) => s
  }

  /** `String(n)` for a number: the decimal digits of an integral value;
      a fractional value is rendered as its floor here (`-1.5` as `-2`). */
  function NumberToString(n: real): (r: string)
    ensures r != []
  {
    Text.IntToString(n.Floor)
  }

  /** `v > k` for a numeric bound `k`: booleans and `null` compare as 1/0
      and 0, `undefined` as NaN (never greater); strings are not parsed
      here and never compare greater. */
  predicate GreaterThan(v: JsValue, k: real)
  {
    match v
    case Num(n) => n > k
    case Bool(b) => (if b then 1.0 else 0.0) > k
    case Null => 0.0 > k
    case Undefined => false
    case Str(_) => false
  }

  /** `{ key: default, ...raw }` for one key: the raw property wins whenever
      the raw object has it, whatever its value. */
  function Spread(default: JsValue, raw: JsValue): (r: JsValue)
    ensures raw != Undefined ==> r == raw
    ensures raw == Undefined ==> r == default
  {
    if raw.Undefined? then default else raw
  }

  /** `typeof v === "string" && v.trim() !== ""`. */
  predicate IsNonBlankString(v: JsValue)
  {
    v.Str? && Text.Trim(v.s) != ""
  }
}
