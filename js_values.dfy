/**
 * The JavaScript values the adapter and the queries inspect, with the two
 * notions of "missing" the source relies on: falsy (`!v`) and nullish
 * (`v ?? d`, `v?.f`).
 */
module JsValues {

  /**
   * A JavaScript value. A number is modelled by its integer value, with NaN
   * kept apart; -0 coincides with 0 (both are falsy). Arrays keep their
   * elements; every other object is `Obj`.
   */
  datatype JsValue =
    | Undefined
    | Null
    | Bool(b: bool)
    | Num(n: int)
    | NaN
    | Str(s: string)
    | Arr(elems: seq<JsValue>)
    | Obj

  /** JavaScript truthiness: `!v` holds exactly when this is false. */
  predicate Truthy(v: JsValue) {
    match v
    case Undefined => false
    case Null => false
    case NaN => false
    case Bool(b) => b
    case Num(n) => n != 0
    case Str(s) => s != ""
    case Arr(_) => true
    case Obj => true
  }

  /** The values `??` and `?.` treat as absent. */
  predicate Nullish(v: JsValue) {
    v.Undefined? || v.Null?
  }

  /** `v ?? fallback` */
  function Coalesce(v: JsValue, fallback: JsValue): JsValue {
    if Nullish(v) then fallback else v
  }
}
