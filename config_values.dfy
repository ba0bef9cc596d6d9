/** The scalar values a configuration file holds, and the two PHP
    conversions the program applies to them: `(string)` and `empty()`. */
module ConfigValues {
  import opened Strings

  /** A scalar of the decoded JSON configuration. */
  datatype Value = Str(s: string) | Num(n: PhpInt) | Flag(b: bool)

  /** One block of the configuration (`parameters` or `image_parameters`). */
  type Params = map<string, Value>

  /** PHP's `(string)` conversion of a scalar. */
  function AsString(v: Value): string {
    match v
    case Str(s) => s
    case Num(n) => IntToString(n)
    case Flag(b) => if b then "1" else ""
  }

  /** PHP's `empty()` on a scalar. */
  predicate IsEmptyValue(v: Value) {
    match v
    case Str(s) => PhpEmpty(s)
    case Num(n) => n == 0
    case Flag(b) => !b
  }

  /** The type name PHP puts in a type error about `v`. */
  function TypeName(v: Value): string {
    match v
    case Str(_) => "string"
    case Num(_) => "int"
    case Flag(_) => "bool"
  }

  predicate HasString(p: Params, key: string) {
    key in p && p[key].Str?
  }

  /** `empty()` gives the same answer on a scalar and on its string
      conversion, so reading a flag with `getValue` or with
      `getStringValue` decides the same way. */
  lemma EmptyAgreesWithString(v: Value)
    ensures PhpEmpty(AsString(v)) <==> IsEmptyValue(v)
  {
  }
}
