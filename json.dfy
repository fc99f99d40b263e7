/** Decoded JSON event data: the `map[string]interface{}` the handler builds from a request body. */
module Json {

  /** One decoded JSON value. Numbers are kept as reals; float64 rounding is not modelled. */
  datatype Value =
    | JNull
    | JBool(b: bool)
    | JNumber(n: real)
    | JString(s: string)
    | JArray(items: seq<Value>)
    | JObject(fields: map<string, Value>)

  /** An event is the top-level JSON object of a notification. */
  type Event = map<string, Value>
}
