/**
 * The JavaScript values held in the plain, dynamically keyed records of the
 * client (the `filters` object), and the three JavaScript operators the
 * modelled code applies to them: truthiness (`!!v`), nullish coalescing
 * (`v ?? d`) and logical or (`v || d`).
 */
module JsValue {

  /** Numbers are the integers the sliders produce; floats are not modelled. */
  datatype Value = Undefined | Null | Bool(b: bool) | Num(n: int) | Str(s: string)

  /** A plain object: a key that is absent reads as `undefined`. */
  type Record = map<string, Value>

  /** `r[key]` */
  function Get(r: Record, key: string): Value {
    if key in r then r[key] else Undefined
  }

  /** `values[i]` on an array of numbers: past the end it is `undefined`. */
  function At(values: seq<int>, i: nat): Value {
    if i < |values| then Num(values[i]) else Undefined
  }

  /** `undefined` and `null`, the two values `??` replaces. */
  predicate IsNullish(v: Value) {
    v == Undefined || v == Null
  }

  /** `!!v` */
  predicate Truthy(v: Value) {
    match v
    case Undefined => false
    case Null => false
    case Bool(b) => b
    case Num(n) => n != 0
    case Str(s) => s != ""
  }

  /** `v ?? d`: only a nullish value is replaced by the default. */
  function Coalesce(v: Value, d: Value): (r: Value)
    ensures IsNullish(v) ==> r == d
    ensures !IsNullish(v) ==> r == v
  {
    match v
    case Undefined => d
    case Null => d
    case _ => v
  }

  /** `v || d`: every falsy value (0 and "" included) is replaced by the default. */
  function Or(v: Value, d: Value): (r: Value)
    ensures !Truthy(v) ==> r == d
    ensures Truthy(v) ==> r == v
  {
    if Truthy(v) then v else d
  }
}
