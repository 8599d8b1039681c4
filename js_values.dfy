/**
  JavaScript values as the console handles them: records fetched from the
  server or parsed from a QR code, and the operators the code applies to
  them (`||`, `??`, truthiness, `String(v)`, `===`).
*/
module JsValues {
  import opened JsStrings

  datatype Option<+T> = None | Some(value: T)

  /** A value as JSON or the server delivers it; numbers are integers here. */
  datatype JsValue =
    | Undefined
    | Null
    | Bool(b: bool)
    | Num(n: int)
    | Str(s: string)
    | Obj(fields: map<string, JsValue>)

  /** A plain object: a missing key reads as `undefined`. */
  type Record = map<string, JsValue>

  function Get(o: Record, key: string): JsValue {
    if key in o then o[key] else Undefined
  }

  /** The values `if (v)` accepts. */
  predicate Truthy(v: JsValue) {
    match v
    case Undefined => false
    case Null => false
    case Bool(b) => b
    case Num(n) => n != 0
    case Str(s) => s != ""
    case Obj(_) => true
  }

  predicate Nullish(v: JsValue) {
    v.Undefined? || v.Null?
  }

  /** `a || b`: the first operand when it is truthy, otherwise the second. */
  function Or(a: JsValue, b: JsValue): (r: JsValue)
    ensures Truthy(r) <==> Truthy(a) || Truthy(b)
    ensures Truthy(a) ==> r == a
    ensures !Truthy(a) ==> r == b
  {
    if Truthy(a) then a else b
  }

  /** `a ?? b`: the first operand unless it is `null` or `undefined`. */
  function Coalesce(a: JsValue, b: JsValue): (r: JsValue)
    ensures !Nullish(a) ==> r == a
    ensures Nullish(a) ==> r == b
    ensures Nullish(r) ==> Nullish(b)
  {
    if Nullish(a) then b else a
  }

  /** `String(v)` for the values above; a plain object prints as `[object Object]`. */
  function ToJsString(v: JsValue): string {
    match v
    case Undefined => "undefined"
    case Null => "null"
    case Bool(b) => if b then "true" else "false"
    case Num(n) => IntToString(n)
    case Str(s) => s
    case Obj(_) => "[object Object]"
  }

  /** A string is printed as itself, and nothing else prints as the empty string. */
  lemma ToJsStringEmpty(v: JsValue)
    ensures ToJsString(v) == "" <==> v == Str("")
  {
  }

  /** `String(x)` for an optional string: `null` prints as "null". */
  function OptionToJsString(x: Option<string>): string {
    match x
    case None => "null"
    case Some(s) => s
  }
}
