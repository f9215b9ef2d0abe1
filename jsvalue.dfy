/**
 * The slice of JavaScript values that the activity core stores, tests and
 * copies: plain objects are finite maps from property names to values, and
 * every `if (x)` in the core is a truthiness test.
 */
module JsValue {

  datatype Option<+T> = None | Some(value: T)

  /** A JavaScript value. Numbers are integers here (no NaN, no fractions). */
  datatype Value =
    | Undefined
    | Null
    | Bool(b: bool)
    | Num(n: int)
    | Str(s: string)
    | Obj(fields: map<string, Value>)

  /** JavaScript truthiness: `undefined`, `null`, `false`, `0` and `""` are falsy. */
  predicate Truthy(v: Value) {
    match v
    case Undefined => false
    case Null => false
    case Bool(b) => b
    case Num(n) => n != 0
    case Str(s) => s != ""
    case Obj(_) => true
  }

  /** Property read `o[k]` on a plain object: a missing property reads as `undefined`. */
  function Get(o: map<string, Value>, k: string): (v: Value) {
    if k in o then o[k] else Undefined
  }

  /**
   * `Object.assign(target, source)` for plain objects: every property of
   * `source` is copied onto `target`, overwriting a property of the same name.
   */
  function Assign(target: map<string, Value>, source: map<string, Value>): (r: map<string, Value>)
    ensures r.Keys == target.Keys + source.Keys
    ensures forall k :: k in source ==> r[k] == source[k]
    ensures forall k :: k in target && k !in source ==> r[k] == target[k]
  {
    target + source
  }
}
