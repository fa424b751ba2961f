/** JavaScript values as the router sees them after the JSON body parser has run. */
module JsValues {

  /** A field of a parsed JSON request body. `Undefined` stands for a field the
      body does not have. A number is modelled by the exact real value of its
      literal: no NaN, no infinities, and no rounding to double precision. Arrays and objects are always
      truthy and the router never looks inside them, so they are one case. */
  datatype Json =
    | Undefined
    | Null
    | Bool(b: bool)
    | Num(n: real)
    | Str(s: string)
    | Structured

  /** JavaScript truthiness: `!v` is `!Truthy(v)`. The falsy values a JSON body
      can hold are a missing field, `null`, `false`, `0` and the empty string. */
  predicate Truthy(v: Json) {
    match v
    case Undefined => false
    case Null => false
    case Bool(b) => b
    case Num(n) => n != 0.0
    case Str(s) => s != ""
    case Structured => true
  }

  /** The falsy values a JSON body can hold are exactly a missing field,
      `null`, `false`, `0` and the empty string; every other value passes a
      presence test. */
  lemma FalsyValues(v: Json)
    ensures !Truthy(v) <==> v in {Undefined, Null, Bool(false), Num(0.0), Str("")}
  {
  }

  /** `Number.isInteger(v)`: a number with no fractional part; never a string,
      so the string "3" is not an integer. */
  predicate IsInteger(v: Json) {
    v.Num? && v.n == v.n.Floor as real
  }

  /** The integers are exactly the numbers that are the image of some `int`. */
  lemma IsIntegerIff(v: Json)
    ensures IsInteger(v) <==> v.Num? && exists k: int {:trigger Num(k as real)} :: v == Num(k as real)
  {
  }
}
