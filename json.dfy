/** The JSON values that tool arguments and tool input schemas are made of. */
module Json {

  /** A JSON document. Numbers are restricted to integers: the tools modelled here
      take only string and integer arguments. */
  datatype Json =
    | JNull
    | JBool(b: bool)
    | JNumber(n: int)
    | JString(s: string)
    | JArray(items: seq<Json>)
    | JObject(fields: map<string, Json>)

  /** The empty JSON object `{}`. */
  const EmptyObject: Json := JObject(map[])
}
