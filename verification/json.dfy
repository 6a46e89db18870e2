/** A decoded JSON document, as `json.loads` hands it to the client: numbers keep
    Python's split between `int` and `float`, objects are dictionaries. */
module Json {

  datatype Json =
    | JNull
    | JBool(b: bool)
    | JInt(i: int)
    | JFloat(f: real)
    | JString(s: string)
    | JArray(items: seq<Json>)
    | JObject(fields: map<string, Json>)
}
