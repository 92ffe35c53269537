/** The dynamically typed values a parsed fixture record can hold, with the
    two JavaScript conversions the validator relies on: truthiness (`!v`,
    `a && b`) and rendering into a template literal (`${v}`). */
module JsValue {
  import Decimal

  /** A JavaScript value. Numbers are integral here; objects, arrays and
      functions are `Other`, carrying the text that `String(v)` gives them. */
  datatype Value =
    | Undefined
    | Null
    | Bool(b: bool)
    | Str(s: string)
    | Num(n: int)
    | Other(text: string)

  /** `typeof v === "boolean"` or `typeof v === "undefined"`: the shape every
      optional boolean property of a fixture must have. */
  predicate IsOptionalBool(v: Value)
    ensures IsOptionalBool(v) <==> v in {Undefined, Bool(false), Bool(true)}
  {
    v.Undefined? || v.Bool?
  }

  /** JavaScript truthiness: the falsy values are `undefined`, `null`,
      `false`, the empty string and zero; everything else is truthy. */
  predicate Truthy(v: Value)
    ensures !Truthy(v) <==> v in {Undefined, Null, Bool(false), Str(""), Num(0)}
  {
    match v
    case Undefined => false
    case Null => false
    case Bool(b) => b
    case Str(s) => s != ""
    case Num(n) => n != 0
    case Other(_) => true
  }

  /** On an optional boolean, truthiness is being exactly `true`. */
  lemma TruthyOptionalBool(v: Value)
    requires IsOptionalBool(v)
    ensures Truthy(v) <==> v == Bool(true)
  {
  }

  /** The text a template literal substitutes for `v`. */
  function Display(v: Value): (s: string)
    ensures v.Str? ==> s == v.s
  {
    match v
    case Undefined => "undefined"
    case Null => "null"
    case Bool(b) => if b then "true" else "false"
    case Str(s) => s
    case Num(n) => Decimal.IntToString(n)
    case Other(text) => text
  }
}
