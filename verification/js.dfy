/** The fragment of JavaScript's value semantics that the session code relies on:
    truthiness (`if (x)`, `x || y`), property access (which throws on `undefined`
    and `null`), string coercion (`localStorage.setItem`, template literals) and
    thrown values. Numbers are integers: no floating point, no NaN. Objects are
    plain property maps without a prototype chain. */
module Js {

  datatype Option<+T> = None | Some(value: T)

  datatype JsValue =
    | Undefined
    | Null
    | Bool(b: bool)
    | Num(n: int)
    | Str(s: string)
    | Obj(props: map<string, JsValue>)

  /** How an evaluation ends: with a value, or with a thrown value (a rejected
      promise when awaited). */
  datatype Completion = Normal(value: JsValue) | Throw(thrown: JsValue)

  /** The outcome of running a reducer: the next state, or the value it threw.
      A reducer that throws leaves the store's state as it was. */
  datatype Reduction<S> = Reduced(state: S) | Raised(thrown: JsValue)

  predicate Nullish(v: JsValue) {
    v.Undefined? || v.Null?
  }

  /** JavaScript's ToBoolean: the falsy values are undefined, null, false, 0 and "". */
  predicate Truthy(v: JsValue) {
    match v
    case Undefined => false
    case Null => false
    case Bool(b) => b
    case Num(n) => n != 0
    case Str(s) => s != ""
    case Obj(_) => true
  }

  /** `a || b`: the left operand when it is truthy, the right one otherwise. */
  function Or(a: JsValue, b: JsValue): (r: JsValue)
    ensures r == a || r == b
    ensures Truthy(r) <==> Truthy(a) || Truthy(b)
    ensures Truthy(a) ==> r == a
  {
    if Truthy(a) then a else b
  }

  /** An `Error` instance as `new Error(message)` builds it, or a built-in
      error of another name (`TypeError`). */
  function ErrorObject(name: string, message: string): (e: JsValue)
    ensures e.Obj? && Truthy(e)
    ensures "message" in e.props && e.props["message"] == Str(message)
    ensures "response" !in e.props
  {
    Obj(map["name" := Str(name), "message" := Str(message)])
  }

  /** `v[key]`. Reading a property of `undefined` or `null` throws a
      `TypeError` (the message text is engine-specific; V8's is used). A
      missing property of an object reads as `undefined`. Primitives carry none
      of the property names this code reads. */
  function Get(v: JsValue, key: string): (c: Completion)
    ensures c.Throw? <==> Nullish(v)
    ensures c.Throw? ==> c.thrown.Obj? && "message" in c.thrown.props && "response" !in c.thrown.props
    ensures v.Obj? && key in v.props ==> c == Normal(v.props[key])
    ensures c.Normal? && !(v.Obj? && key in v.props) ==> c.value == Undefined
  {
    match v
    case Undefined =>
      Throw(ErrorObject("TypeError", "Cannot read properties of undefined (reading '" + key + "')"))
    case Null =>
      Throw(ErrorObject("TypeError", "Cannot read properties of null (reading '" + key + "')"))
    case Obj(props) => Normal(if key in props then props[key] else Undefined)
    case _ => Normal(Undefined)
  }

  /** The value of `v[key]` where the read cannot throw. */
  function Prop(v: JsValue, key: string): JsValue
    requires !Nullish(v)
  {
    Get(v, key).value
  }

  /** JavaScript's ToString, as applied by `localStorage.setItem`, by string
      concatenation and by template literals. */
  function ToString(v: JsValue): (r: string)
    ensures r == "" <==> v == Str("")
    ensures v.Str? ==> r == v.s
  {
    match v
    case Undefined => "undefined"
    case Null => "null"
    case Bool(b) => if b then "true" else "false"
    case Num(n) => IntToDecimal(n)
    case Str(s) => s
    case Obj(_) => "[object Object]"
  }

  predicate IsDigit(c: char) {
    '0' <= c <= '9'
  }

  function DigitChar(d: nat): (c: char)
    requires d < 10
    ensures IsDigit(c)
  {
    ('0' as int + d) as char
  }

  /** The decimal spelling of a non-negative integer, without leading zeros. */
  function NatToDecimal(n: nat): (r: string)
    ensures |r| > 0
    ensures forall i :: 0 <= i < |r| ==> IsDigit(r[i])
    ensures |r| > 1 ==> r[0] != '0'
    decreases n
  {
    if n < 10 then [DigitChar(n)] else NatToDecimal(n / 10) + [DigitChar(n % 10)]
  }

  function IntToDecimal(i: int): (r: string)
    ensures |r| > 0
  {
    if i < 0 then "-" + NatToDecimal(-i) else NatToDecimal(i)
  }
}
