/**
 * A JSON document, as `JSON.parse` produces it. Parsing itself is not
 * modelled: the session store is given a parse-or-fail function.
 */
module Json {

  datatype Json =
    | JNull
    | JBool(b: bool)
    | JNumber(n: real)
    | JString(s: string)
    | JArray(items: seq<Json>)
    | JObject(fields: map<string, Json>)
}
