/**
 * The slice of JavaScript semantics the modelled code relies on: JSON-shaped
 * values, truthiness, the `||` operator, property access with and without
 * optional chaining, string conversion, and thrown errors.
 */
module Js {

  datatype Option<+T> = None | Some(value: T)

  /** A thrown ECMAScript error: its constructor name and its `message`. */
  datatype Exception = Exception(name: string, message: string)

  /** `new Error(message)` */
  function PlainError(message: string): Exception {
    Exception("Error", message)
  }

  /** The settled state of an awaited call that yields a value. */
  datatype Result<+T> = Success(value: T) | Failure(error: Exception)

  /** The settled state of an awaited call that yields nothing. */
  datatype Outcome = Resolved | Rejected(error: Exception)

  /** A value as JSON parsing produces it, plus `undefined`. Numbers are integers here. */
  datatype Value =
    | Undefined
    | Null
    | Bool(b: bool)
    | Num(n: int)
    | Str(s: string)
    | Arr(items: seq<Value>)
    | Obj(fields: map<string, Value>)

  /** JavaScript truthiness. */
  predicate Truthy(v: Value) {
    match v
    case Undefined => false
    case Null => false
    case Bool(b) => b
    case Num(n) => n != 0
    case Str(s) => s != ""
    case Arr(_) => true
    case Obj(_) => true
  }

  /** `a || b`: the left operand when it is truthy, else the right one. */
  function Or(a: Value, b: Value): (r: Value)
    ensures Truthy(b) ==> Truthy(r)
    ensures r == a || r == b
  {
    if Truthy(a) then a else b
  }

  /** The TypeError V8 throws for a call `callee(...)` whose callee is not a function. */
  function NotAFunction(callee: string): Exception {
    Exception("TypeError", callee + " is not a function")
  }

  /** The TypeError V8 throws for `v.key` when `v` is null or undefined. */
  function ReadError(v: Value, key: string): Exception
    requires v.Undefined? || v.Null?
  {
    Exception("TypeError", "Cannot read properties of " + (if v.Null? then "null" else "undefined")
                           + " (reading '" + key + "')")
  }

  /** `v.key`: throws on null and undefined; a missing property, or one of a primitive, is undefined. */
  function Member(v: Value, key: string): (r: Result<Value>)
    ensures r.Failure? <==> v.Undefined? || v.Null?
    ensures v.Obj? && key in v.fields ==> r == Success(v.fields[key])
  {
    match v
    case Undefined => Failure(ReadError(v, key))
    case Null => Failure(ReadError(v, key))
    case Obj(fields) => Success(if key in fields then fields[key] else Undefined)
    case _ => Success(Undefined)
  }

  /** `v?.key`: like `v.key`, but undefined instead of a TypeError. */
  function OptMember(v: Value, key: string): (r: Value)
    ensures Member(v, key).Success? ==> r == Member(v, key).value
    ensures Member(v, key).Failure? ==> r == Undefined
  {
    match v
    case Obj(fields) => if key in fields then fields[key] else Undefined
    case _ => Undefined
  }

  function DigitChar(d: nat): char
    requires d < 10
  {
    "0123456789"[d]
  }

  /** The decimal digits of `n`, most significant first. */
  function Decimal(n: nat): (r: string)
    ensures |r| >= 1
    ensures n < 10 <==> |r| == 1
    decreases n
  {
    if n < 10 then [DigitChar(n)] else Decimal(n / 10) + [DigitChar(n % 10)]
  }

  /** `String(v)`, as template literals and `new Error(v)` apply it. */
  function ToJsString(v: Value): string
    decreases v, 1
  {
    match v
    case Undefined => "undefined"
    case Null => "null"
    case Bool(b) => if b then "true" else "false"
    case Num(n) => if n < 0 then "-" + Decimal(-n) else Decimal(n)
    case Str(s) => s
    case Arr(items) => Join(v, items)
    case Obj(_) => "[object Object]"
  }

  /** `Array.prototype.join(",")`, which writes null and undefined elements as "". */
  function Join(whole: Value, items: seq<Value>): string
    requires forall i :: 0 <= i < |items| ==> items[i] < whole
    decreases whole, 0, |items|
  {
    if items == [] then ""
    else
      var head := if items[0].Undefined? || items[0].Null? then "" else ToJsString(items[0]);
      if |items| == 1 then head else head + "," + Join(whole, items[1..])
  }

  predicate StartsWith(s: string, prefix: string) {
    |prefix| <= |s| && s[..|prefix|] == prefix
  }
}
