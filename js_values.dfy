/**
 * The untyped value a response body parses to (TypeScript's `unknown`), with
 * the JavaScript type guards and conversions the validators rely on.
 * Numbers are reals; NaN is kept as its own case because `isNumber` rejects it.
 * A property that an object does not have reads as `Undefined`.
 */
module JsValues {

  datatype Value =
    | Undefined
    | Null
    | Bool(b: bool)
    | Num(n: real)
    | NaN
    | Str(s: string)
    | Arr(items: seq<Value>)
    | Obj(props: map<string, Value>)

  /** `typeof v === 'number' && !isNaN(v)` */
  predicate IsNumber(v: Value) {
    v.Num?
  }

  /** `typeof v === 'string'` */
  predicate IsString(v: Value) {
    v.Str?
  }

  /** `Array.isArray(v)` */
  predicate IsArray(v: Value) {
    v.Arr?
  }

  /** `typeof v === 'object' && v !== null && !Array.isArray(v)` */
  predicate IsObject(v: Value) {
    v.Obj?
  }

  /** Property read `o[key]` on an object, as destructuring performs it. */
  function Prop(o: Value, key: string): (v: Value)
    requires IsObject(o)
    ensures key !in o.props ==> v == Undefined
  {
    if key in o.props then o.props[key] else Undefined
  }

  /** `Boolean(v)`: JavaScript truthiness; exactly the six falsy values read as false. */
  predicate Truthy(v: Value): (r: bool)
    ensures !r <==> v in {Undefined, Null, Bool(false), Num(0.0), NaN, Str("")}
  {
    match v
    case Undefined => false
    case Null => false
    case Bool(b) => b
    case Num(n) => n != 0.0
    case NaN => false
    case Str(s) => s != ""
    case Arr(_) => true
    case Obj(_) => true
  }

  /**
   * The guards partition the values they accept: no value passes two of them,
   * and `null`, `undefined`, NaN and booleans pass none.
   */
  lemma TypeGuardsExclusive(v: Value)
    ensures IsObject(v) ==> !IsArray(v) && !IsNumber(v) && !IsString(v)
    ensures IsArray(v) ==> !IsNumber(v) && !IsString(v)
    ensures IsNumber(v) ==> !IsString(v)
    ensures v.Null? || v.Undefined? || v.NaN? || v.Bool? ==>
              !IsObject(v) && !IsArray(v) && !IsNumber(v) && !IsString(v)
  {
  }
}
