/**
 * JSON values as the TypeScript code receives them in request bodies and
 * `json` columns, with the two JavaScript conversions the modelled code
 * applies to them: truthiness (`if (x)`, `x || y`) and string conversion
 * (template literals).
 */
module Json {
  import opened Core
  import opened Text

  /** Numbers are integers here; fractional JSON numbers are not modelled. */
  datatype Json =
    | JNull
    | JBool(b: bool)
    | JNumber(n: int)
    | JString(s: string)
    | JArray(items: seq<Json>)
    | JObject(fields: map<string, Json>)

  /** `obj?.key`: None (undefined) for a missing key or a value that is not an object. */
  function Get(j: Json, key: string): (r: Option<Json>)
    ensures r.Some? <==> j.JObject? && key in j.fields
  {
    if j.JObject? && key in j.fields then Some(j.fields[key]) else None
  }

  /** JavaScript truthiness of a value that may be undefined. */
  predicate Truthy(v: Option<Json>) {
    v.Some? &&
    match v.value
    case JNull => false
    case JBool(b) => b
    case JNumber(n) => n != 0
    case JString(s) => s != ""
    case _ => true
  }

  /** `${v}` of a value that may be undefined. */
  function Display(v: Option<Json>): string {
    if v.None? then "undefined" else DisplayJson(v.value)
  }

  /** `String(j)`: arrays join their elements with ',' (null elements as ''). */
  function DisplayJson(j: Json): string
    decreases j, 1
  {
    match j
    case JNull => "null"
    case JBool(b) => if b then "true" else "false"
    case JNumber(n) => IntToString(n)
    case JString(s) => s
    case JArray(items) => DisplayItems(j, 0)
    case JObject(_) => "[object Object]"
  }

  function DisplayItems(j: Json, from: nat): string
    requires j.JArray? && from <= |j.items|
    decreases j, 0, |j.items| - from
  {
    if from == |j.items| then ""
    else
      var item := j.items[from];
      var text := if item.JNull? then "" else DisplayJson(item);
      var rest := DisplayItems(j, from + 1);
      if from + 1 == |j.items| then text else text + "," + rest
  }
}
