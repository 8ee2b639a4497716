/** The values `JSON.parse` produces, shared by the components that parse the
    analysis text.  Numbers are restricted to integers. */
module JsonValue {

  datatype Json =
    | JNull
    | JBool(b: bool)
    | JNumber(n: int)
    | JString(s: string)
    | JArray(items: seq<Json>)
    | JObject(fields: map<string, Json>)
}
