/**
  The JavaScript values that reach the modelled code from request bodies,
  query strings, headers, decoded tokens and database rows, together with
  the language rules the source leans on: truthiness, `a || b`, property
  access on a plain object, `String(v)`, and string length counted in
  UTF-16 code units.

  Numbers are modelled as unbounded integers: every number the core handles
  is an id, a row count or a timestamp.
 */
module Js {
  import opened Strings

  datatype JsValue = Undefined | Null | Bool(b: bool) | Num(n: int) | Str(s: string)

  /** A row or body object: property name to value. Missing properties read as `undefined`. */
  type JsObject = map<string, JsValue>

  /** A query-string parameter as Express parses it: absent, one value, or repeated into an array. */
  datatype QueryParam = Absent | Scalar(text: string) | List(items: seq<string>)

  /** A value that may be `null` or `undefined` instead of a `T`. */
  datatype Nullable<T> = IsUndefined | IsNull | Present(value: T)

  /** JavaScript truthiness (numbers are integers here, so NaN does not arise). */
  predicate Truthy(v: JsValue) {
    match v
    case Undefined => false
    case Null => false
    case Bool(b) => b
    case Num(n) => n != 0
    case Str(s) => s != ""
  }

  /** `a || b`: the left operand when it is truthy, otherwise the right one. */
  function Or(a: JsValue, b: JsValue): JsValue {
    if Truthy(a) then a else b
  }

  /** `o.key` on a plain object. */
  function Field(o: JsObject, key: string): JsValue {
    if key in o then o[key] else Undefined
  }

  /** `String(v)`, which string concatenation applies to its operands. */
  function ToJsString(v: JsValue): string {
    match v
    case Undefined => "undefined"
    case Null => "null"
    case Bool(b) => if b then "true" else "false"
    case Num(n) => IntToString(n)
    case Str(s) => s
  }

  /** Characters outside the Basic Multilingual Plane take two UTF-16 code units. */
  function CodeUnits(c: char): nat {
    if c as int >= 0x10000 then 2 else 1
  }

  /** `s.length`: the number of UTF-16 code units of `s`. */
  function Utf16Length(s: string): (n: nat)
    ensures |s| <= n <= 2 * |s|
  {
    if s == [] then 0 else CodeUnits(s[0]) + Utf16Length(s[1..])
  }

  /** The characters the regular-expression class `\s` matches. */
  predicate IsWhitespace(c: char) {
    var u := c as int;
    (9 <= u <= 13) || u == 0x20 || u == 0xA0 || u == 0x1680
    || (0x2000 <= u <= 0x200A) || u == 0x2028 || u == 0x2029
    || u == 0x202F || u == 0x205F || u == 0x3000 || u == 0xFEFF
  }
}
