/**
 * Untyped values of the host language, as the application meets them:
 * results of `JSON.parse`, records read from the REST API, thrown errors.
 * Only own properties are modelled; numbers are integers.
 */
module Js {
  import opened Base

  datatype Value =
    | Undefined
    | Null
    | Bool(b: bool)
    | Num(n: int)
    | Str(s: string)
    | Arr(items: seq<Value>)
    | Obj(fields: map<string, Value>)

  /** Property read `v.key` (also `v?.key`): missing properties read as undefined. */
  function Get(v: Value, key: string): Value {
    if v.Obj? && key in v.fields then v.fields[key] else Undefined
  }

  /** The value used as a condition (`if (v)`, `!v`, `v || w`). */
  predicate Truthy(v: Value) {
    match v
    case Undefined => false
    case Null => false
    case Bool(b) => b
    case Num(n) => n != 0
    case Str(s) => s != ""
    case Arr(_) => true
    case Obj(_) => true
  }

  /** `v === null || v === undefined` */
  predicate Nullish(v: Value) {
    v.Undefined? || v.Null?
  }

  /** `typeof v === 'object'` for a value that is not null. */
  predicate IsObject(v: Value) {
    v.Arr? || v.Obj?
  }

  /** `a ?? b` */
  function Coalesce(a: Value, b: Value): (r: Value)
    ensures !Nullish(a) ==> r == a
    ensures Nullish(a) ==> r == b
  {
    if Nullish(a) then b else a
  }

  /** `s || fallback` for an optional string. */
  function OrElse(s: Option<string>, fallback: string): (r: string)
    ensures s.Some? && s.value != "" ==> r == s.value
    ensures s.None? || s.value == "" ==> r == fallback
  {
    if s.Some? && s.value != "" then s.value else fallback
  }

  /** The `BaseResponse<T>` envelope every REST endpoint answers with. */
  datatype BaseResponse = BaseResponse(code: Option<int>, data: Option<Value>, message: Option<string>)

  /** `response?.code && response.code !== 0`: the envelope reports a failure. */
  predicate RejectsCode(response: Option<BaseResponse>) {
    response.Some? && response.value.code.Some? && response.value.code.value != 0
  }
}
