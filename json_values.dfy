/** Decoded JSON documents, as the output-schema code receives them: results,
    schemas and the values inside them. Objects are maps from property name to
    value; numbers are integers (floating point is not modelled). */
module JsonValues {

  datatype Json =
    | JNull
    | JBool(b: bool)
    | JNumber(n: int)
    | JString(s: string)
    | JArray(items: seq<Json>)
    | JObject(fields: map<string, Json>)

  /** Python truthiness (`if value:`) of a decoded JSON value: `None`, `False`,
      `0` and the empty string, list and dict are falsy, everything else truthy. */
  predicate Truthy(v: Json)
  {
    match v
    case JNull => false
    case JBool(b) => b
    case JNumber(n) => n != 0
    case JString(s) => s != ""
    case JArray(items) => items != []
    case JObject(fields) => fields != map[]
  }

  /** True when a `for key in value:` loop over `value` runs no iteration and
      raises nothing: the empty dict, the empty list and the empty string. */
  predicate EmptyIterable(v: Json)
  {
    v == JObject(map[]) || v == JArray([]) || v == JString("")
  }
}
