/** JavaScript values as they reach the handlers modelled here: what `JSON.parse`
    produces for a request body, plus `undefined` for a property that is absent,
    and the truthiness test that `if (!x)` and `&&` apply to them. */
module JsValues {

  datatype Option<+T> = None | Some(value: T)

  /** A value produced by `JSON.parse`, or `undefined`. A number is an exact
      real: the rounding of a decimal literal to a double, the infinity that
      an overflowing literal such as `1e999` parses to, and NaN are not
      represented. */
  datatype Json =
    | Undefined
    | Null
    | Bool(b: bool)
    | Num(n: real)
    | Str(s: string)
    | Arr(items: seq<Json>)
    | Obj(fields: map<string, Json>)

  /** JavaScript truthiness: `undefined`, `null`, `false`, `0` and `""` are
      falsy; every other value (including `[]` and `{}`) is truthy. */
  predicate Truthy(v: Json) {
    match v
    case Undefined => false
    case Null => false
    case Bool(b) => b
    case Num(n) => n != 0.0
    case Str(s) => s != ""
    case Arr(_) => true
    case Obj(_) => true
  }

  /** Truthiness of a value typed `string | undefined` (or `| null`). */
  predicate TruthyText(v: Option<string>) {
    v.Some? && v.value != ""
  }

  /** Property read `v.name` for the data keys used by the handlers here
      (none of which is an inherited property of a primitive or an array).
      Reading a property of `null` or `undefined` throws; callers test
      `Readable` first. */
  function Get(v: Json, name: string): (r: Json)
    ensures v.Obj? && name in v.fields ==> r == v.fields[name]
    ensures !(v.Obj? && name in v.fields) ==> r == Undefined
  {
    if v.Obj? && name in v.fields then v.fields[name] else Undefined
  }

  /** Destructuring `const { a } = v` succeeds exactly when `v` is neither
      `null` nor `undefined`. */
  predicate Readable(v: Json) {
    !v.Null? && !v.Undefined?
  }

  /** `s.startsWith(prefix)`. */
  predicate StartsWith(s: string, prefix: string) {
    |prefix| <= |s| && s[..|prefix|] == prefix
  }
}
