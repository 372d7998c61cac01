/**
 * The JavaScript values that `JSON.parse` and the yarn lock-file parser hand
 * back, with the two pieces of JavaScript semantics the version resolver
 * depends on: truthiness and reading a named property.
 */
module JsValues {

  /** A JSON value. Numbers are integers here: only whether a number is zero matters. */
  datatype Json =
    | Null
    | Bool(b: bool)
    | Num(n: int)
    | Str(s: string)
    | Arr(items: seq<Json>)
    | Obj(fields: map<string, Json>)

  /** What a property read yields: `undefined`, or a value. */
  datatype JsValue = Undefined | Defined(value: Json)

  /** JavaScript falsiness: `undefined`, `null`, `false`, `0` and `""` are falsy. */
  predicate Falsy(v: JsValue) {
    match v
    case Undefined => true
    case Defined(j) =>
      match j
      case Null => true
      case Bool(b) => !b
      case Num(n) => n == 0
      case Str(s) => s == ""
      case Arr(_) => false
      case Obj(_) => false
  }

  /** `typeof v === 'string'`. */
  predicate IsString(v: JsValue) {
    v.Defined? && v.value.Str?
  }

  /**
   * `v[key]` for a key that names no built-in property of strings, arrays or
   * objects ("dependencies", "typescript", "version"): only an object's own
   * field is found. Reading from `null` or `undefined` throws in JavaScript;
   * the callers rule that out before reading.
   */
  function Member(v: JsValue, key: string): (r: JsValue)
    ensures r.Defined? ==> v.Defined? && v.value.Obj? && key in v.value.fields
    ensures r.Defined? ==> r.value == v.value.fields[key]
    ensures v.Defined? && v.value.Obj? && key in v.value.fields ==> r == Defined(v.value.fields[key])
  {
    if v.Defined? && v.value.Obj? && key in v.value.fields then Defined(v.value.fields[key]) else Undefined
  }
}
