/**
 * The slice of JavaScript's value semantics that the request helper and the
 * node rely on: `Object.keys(v).length`, truthiness and `Array.isArray(v?.docs)`.
 */
module JsValue {
  import opened Wrappers

  /** A JavaScript value as it crosses the host boundary (numbers as integers). */
  datatype Value =
    | Undefined
    | Null
    | Bool(b: bool)
    | Num(n: int)
    | Str(s: string)
    | Arr(elems: seq<Value>)
    | Obj(fields: map<string, Value>)

  /**
   * `Object.keys(v).length`: the own enumerable keys of an object, the indices
   * of an array or of a string's characters, none for a boolean or a number.
   * `None` is the TypeError that `Object.keys` throws on null and undefined.
   */
  function KeyCount(v: Value): Option<nat> {
    match v
    case Undefined => None
    case Null => None
    case Bool(_) => Some(0)
    case Num(_) => Some(0)
    case Str(s) => Some(|s|)
    case Arr(elems) => Some(|elems|)
    case Obj(fields) => Some(|fields.Keys|)
  }

  /** JavaScript truthiness (NaN is not representable here). */
  predicate Truthy(v: Value) {
    match v
    case Undefined => false
    case Null => false
    case Bool(b) => b
    case Num(n) => n != 0
    case Str(s) => s != ""
    case Arr(_) => true
    case Obj(_) => true
  }

  /** The elements of `v.docs` when `Array.isArray(v?.docs)` holds. */
  function DocsArray(v: Value): Option<seq<Value>> {
    if v.Obj? && "docs" in v.fields && v.fields["docs"].Arr? then
      Some(v.fields["docs"].elems)
    else
      None
  }
}
