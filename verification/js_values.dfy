/**
 * Already-parsed JSON values, with the two JavaScript notions the collector
 * relies on: truthiness and property access.
 */
module JsValues {

  /** A JSON value as JavaScript sees it after parsing; numbers are integers here. */
  datatype JsValue =
    | Undefined
    | Null
    | Bool(b: bool)
    | Num(n: int)
    | Str(s: string)
    | Arr(elems: seq<JsValue>)
    | Obj(props: map<string, JsValue>)

  /** JavaScript truthiness: `undefined`, `null`, `false`, `0` and `""` are falsy. */
  predicate Truthy(v: JsValue) {
    match v
    case Undefined => false
    case Null => false
    case Bool(b) => b
    case Num(n) => n != 0
    case Str(s) => s != ""
    case Arr(_) => true
    case Obj(_) => true
  }

  /** Reading a property of these values throws a TypeError. */
  predicate IsNullish(v: JsValue) {
    v.Undefined? || v.Null?
  }

  /** `v.key` for a non-nullish value: an own property of an object, `undefined` otherwise. */
  function Get(v: JsValue, key: string): (r: JsValue)
    requires !IsNullish(v)
    ensures v.Obj? && key in v.props ==> r == v.props[key]
    ensures !(v.Obj? && key in v.props) ==> r.Undefined?
  {
    if v.Obj? && key in v.props then v.props[key] else Undefined
  }
}
