/**
 * Decoded JSON values, as `encoding/json` hands them to Go code that decodes
 * into `interface{}`: nil, bool, float64, string, []interface{} and
 * map[string]interface{}. Numbers are only stored and copied, so they are
 * reals here.
 */
module Json {

  datatype Json =
    | JNull
    | JBool(b: bool)
    | JNumber(n: real)
    | JString(s: string)
    | JArray(items: seq<Json>)
    | JObject(fields: map<string, Json>)

  /** Go's `m[k]` on a `map[string]interface{}`: a missing key reads as nil. */
  function Get(fields: map<string, Json>, k: string): Json {
    if k in fields then fields[k] else JNull
  }
}
