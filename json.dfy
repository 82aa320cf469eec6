/** JSON values, as they arrive in request bodies and travel in status
    payloads and WebSocket messages. Numbers are modelled as reals. */
module Json {

  datatype Json =
    | JNull
    | JBool(b: bool)
    | JNum(n: real)
    | JStr(s: string)
    | JArr(items: seq<Json>)
    | JObj(fields: map<string, Json>)

  /** A JSON object's fields, the shape `Record<string, unknown>` takes in the source. */
  type Fields = map<string, Json>
}
