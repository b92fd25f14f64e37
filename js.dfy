/** JavaScript values as the browser client sees them: JSON data, `undefined`,
    the truthiness test behind `||` and `if`, string conversion, property
    reads, thrown errors, and the browser's `localStorage`. */
module Js {
  import opened Wrappers

  /** A JavaScript value. Numbers are restricted to integers. */
  datatype Value =
    | Undefined
    | Null
    | Bool(b: bool)
    | Num(n: int)
    | Str(s: string)
    | Arr(elems: seq<Value>)
    | Obj(props: map<string, Value>)

  /** What `!!v` yields. */
  predicate Truthy(v: Value)
  {
    match v
    case Undefined => false
    case Null => false
    case Bool(b) => b
    case Num(n) => n != 0
    case Str(s) => s != ""
    case Arr(_) => true
    case Obj(_) => true
  }

  predicate Nullish(v: Value)
  {
    v.Undefined? || v.Null?
  }

  /** The result of a step that may throw: the value it produced, or the
      `message` of the error it threw. */
  datatype Outcome = Returned(value: Value) | Threw(message: string)

  function DigitChar(d: nat): char
    requires d < 10
  {
    "0123456789"[d]
  }

  /** Decimal digits of a natural number. */
  function NatToString(n: nat): (r: string)
    ensures |r| > 0
    decreases n
  {
    if n < 10 then [DigitChar(n)] else NatToString(n / 10) + [DigitChar(n % 10)]
  }

  function IntToString(n: int): string
  {
    if n < 0 then "-" + NatToString(-n) else NatToString(n)
  }

  function JoinWithComma(parts: seq<string>): string
  {
    if |parts| == 0 then ""
    else if |parts| == 1 then parts[0]
    else parts[0] + "," + JoinWithComma(parts[1..])
  }

  /** `String(v)`: what `new Error(v)`, `localStorage.setItem(k, v)` and a
      template literal make of a value. An array is its elements joined by
      commas, with `null` and `undefined` elements written as empty. */
  function ToJsString(v: Value): (r: string)
    ensures v.Str? ==> r == v.s
    decreases v
  {
    match v
    case Undefined => "undefined"
    case Null => "null"
    case Bool(b) => if b then "true" else "false"
    case Num(n) => IntToString(n)
    case Str(s) => s
    case Arr(elems) =>
      JoinWithComma(seq(|elems|, i requires 0 <= i < |elems| =>
        if Nullish(elems[i]) then "" else ToJsString(elems[i])))
    case Obj(_) => "[object Object]"
  }

  /** `v[key]` on a value that is neither null nor undefined. Only own
      properties of objects are modelled; every key this client reads
      (`detail`, `access_token`, `summary`, `flashcards`) is absent from
      strings, numbers and arrays. */
  function Property(v: Value, key: string): (r: Value)
    requires !Nullish(v)
    ensures v.Obj? && key in v.props ==> r == v.props[key]
    ensures !(v.Obj? && key in v.props) ==> r == Undefined
  {
    match v
    case Obj(props) => if key in props then props[key] else Undefined
    case _ => Undefined
  }

  /** The message V8 gives the TypeError raised by reading a property of
      null or undefined. */
  function NullReadMessage(v: Value, key: string): string
  {
    "Cannot read properties of " + (if v.Null? then "null" else "undefined")
    + " (reading '" + key + "')"
  }

  /** `v.key` as an expression that may throw. */
  function Get(v: Value, key: string): (r: Outcome)
    ensures r.Threw? <==> Nullish(v)
    ensures r.Returned? ==> r.value == Property(v, key)
  {
    if Nullish(v) then Threw(NullReadMessage(v, key)) else Returned(Property(v, key))
  }

  /** `err.message || fallback`. */
  function MessageOr(message: string, fallback: string): (r: string)
    ensures fallback != "" ==> r != ""
    ensures message != "" ==> r == message
    ensures message == "" ==> r == fallback
  {
    if message != "" then message else fallback
  }

  /** The browser's `localStorage`: string keys to string values. */
  class LocalStorage {
    var items: map<string, string>

    constructor (items: map<string, string>)
      ensures this.items == items
    {
      this.items := items;
    }

    /** `localStorage.getItem(key)`; `None` stands for `null`. */
    function GetItem(key: string): (r: Option<string>)
      reads this
      ensures r.Some? <==> key in items
      ensures r.Some? ==> r.value == items[key]
    {
      if key in items then Some(items[key]) else None
    }

    method SetItem(key: string, value: string)
      modifies this
      ensures items == old(items)[key := value]
    {
      items := items[key := value];
    }

    method RemoveItem(key: string)
      modifies this
      ensures items == old(items) - {key}
    {
      items := items - {key};
    }
  }
}
