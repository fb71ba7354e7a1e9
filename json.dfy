/** The values `json.loads` produces. Decoding itself is not modelled: it is
    an abstract partial function `Decoder` supplied by the caller. */
module JsonValue {
  import opened Wrappers

  datatype Json =
    | JNull
    | JBool(b: bool)
    | JNumber(literal: string)
    | JString(text: string)
    | JArray(items: seq<Json>)
    | JObject(fields: map<string, Json>)

  /** `json.loads`: `None` stands for a raised `JSONDecodeError`. */
  type Decoder = string -> Option<Json>
}
