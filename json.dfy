/** The value tree that Go's `encoding/json` parser produces from a message
    body. Turning text into this tree is the library's business and is not
    modelled; what the pipeline's own code decides (which keys it binds, what
    types it accepts) is modelled on this tree. */
module Json {

  datatype Json =
    | JNull
    | JBool(b: bool)
    | JInt(i: int)            // a number literal without fraction or exponent
    | JFloat(literal: string) // a number literal with a fraction or an exponent
    | JString(s: string)
    | JArray(items: seq<Json>)
    | JObject(members: map<string, Json>)

  /** Outcome of the text-level parse of one body: malformed text, or the
      value the text denotes. */
  datatype Document = Malformed | Parsed(value: Json)
}
