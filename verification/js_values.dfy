/**
 The JavaScript values that reach the panels: fields of the geolocation
 JSON record and `navigator`/`screen` properties. A number is carried by its
 JavaScript string rendering (`String(x)`): apart from `||`, that rendering
 is all the page does with a number shown in a panel. This keeps floating
 point out of the model while keeping the truthiness of numbers exact
 (`String(0) == String(-0) == "0"`).
 */
module JsValues {

  datatype JsValue =
    | Undefined
    | Null
    | Bool(b: bool)
    | Num(text: string)
    | Str(s: string)
    | Obj(text: string)   // an object or array, with its `String(..)` rendering

  /** JavaScript truthiness (ToBoolean): `undefined`, `null`, `false`, `0`,
      `-0`, `NaN` and `""` are falsy; everything else is truthy. */
  predicate Truthy(v: JsValue)
  {
    match v
    case Undefined => false
    case Null => false
    case Bool(b) => b
    case Num(t) => t != "0" && t != "NaN"
    case Str(s) => s != ""
    case Obj(_) => true
  }

  /** What a template literal `${v}` inserts for `v`. */
  function Show(v: JsValue): string
  {
    match v
    case Undefined => "undefined"
    case Null => "null"
    case Bool(b) => if b then "true" else "false"
    case Num(t) => t
    case Str(s) => s
    case Obj(t) => t
  }

  /** `v || fallback`: the left operand when it is truthy, else the right one. */
  function Or(v: JsValue, fallback: JsValue): (r: JsValue)
    ensures Truthy(v) ==> r == v
    ensures !Truthy(v) ==> r == fallback
    ensures Truthy(r) <==> Truthy(v) || Truthy(fallback)
  {
    if Truthy(v) then v else fallback
  }

  const NotApplicable: JsValue := Str("N/A")

  /** `v || 'N/A'`, the fallback every panel field goes through. The result is
      never falsy, a truthy field is kept unchanged, and every falsy field
      (including `0` and `""`) turns into "N/A". */
  function OrNA(v: JsValue): (r: JsValue)
    ensures Truthy(r)
    ensures r == v || r == NotApplicable
    ensures r == v <==> Truthy(v) || v == NotApplicable
  {
    Or(v, NotApplicable)
  }

  /** The two falsy values a reader might not expect to be replaced. */
  lemma ZeroAndEmptyBecomeNA()
    ensures OrNA(Num("0")) == NotApplicable
    ensures OrNA(Num("NaN")) == NotApplicable
    ensures OrNA(Str("")) == NotApplicable
    ensures OrNA(Num("0.5")) == Num("0.5")
  {
  }
}
