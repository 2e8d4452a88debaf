/** Untyped JavaScript values as they arrive in request bodies, form fields
    and responses, with the two conversions the code applies to them:
    truthiness (`if (!x)`, `x || y`, `cond ? a : b`) and the text a template
    literal `${x}` produces. Only integral numbers are modelled. */
module JsValues {
  import opened JsText

  datatype Value = Undefined | Null | Bool(b: bool) | Num(n: int) | Str(s: string)

  /** JavaScript truthiness: undefined, null, false, 0 and "" are falsy. */
  predicate Truthy(v: Value) {
    match v
    case Undefined => false
    case Null => false
    case Bool(b) => b
    case Num(n) => n != 0
    case Str(s) => s != ""
  }

  /** The text `${v}` produces inside a template literal. */
  function Show(v: Value): string {
    match v
    case Undefined => "undefined"
    case Null => "null"
    case Bool(b) => if b then "true" else "false"
    case Num(n) => IntToString(n)
    case Str(s) => s
  }

  /** JavaScript `x || y`: one of its two operands, truthy exactly when
      either operand is: x itself whenever x is truthy, y otherwise. */
  function Or(x: Value, y: Value): (r: Value)
    ensures r == x || r == y
    ensures Truthy(r) <==> Truthy(x) || Truthy(y)
    ensures Truthy(x) ==> r == x
    ensures !Truthy(x) ==> r == y
  {
    if Truthy(x) then x else y
  }

  /** The text `${v || fallback}` produces for a string fallback: the text
      of v when v is truthy, the fallback itself otherwise. */
  function ShowOr(v: Value, fallback: string): (r: string)
    ensures Truthy(v) ==> r == Show(v)
    ensures !Truthy(v) ==> r == fallback
  {
    Show(Or(v, Str(fallback)))
  }

  /** Reading property `key` of a plain object: a missing key reads as undefined. */
  function Get(obj: map<string, Value>, key: string): (r: Value)
    ensures key !in obj ==> r == Undefined
  {
    if key in obj then obj[key] else Undefined
  }

  /** What an awaited call into a foreign service produced: a value, or a
      thrown error whose `message` may be absent. */
  datatype Outcome<+T> = Returned(value: T) | Threw(message: Option<string>)
}
