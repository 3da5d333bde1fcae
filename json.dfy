/**
 * The JSON token tree (`JToken`) the signer walks, reduced to what flattening looks at:
 * the token type and, for leaves, the value.
 */
module Json {

  /** Leaf token types whose flattened value is the token's own `ToString()` text. */
  datatype TextKind = TimeSpanToken | UriToken | GuidToken | RawToken | BytesToken
                    | StringToken | FloatToken | IntegerToken

  /** Token types the flattener has no case for. */
  datatype OtherKind = ConstructorToken | PropertyToken | CommentToken | UndefinedToken

  datatype Json =
    | JObject(members: seq<(string, Json)>)
    | JArray(items: seq<Json>)
    | JText(kind: TextKind, text: string)
    | JBoolean(b: bool)
    /** A date token, as a point in time counted in ticks. */
    | JDate(ticks: int)
    | JNull
    | JOther(otherKind: OtherKind)

  /** What `JObject.Parse` produces when it succeeds. */
  type JsonObject = j: Json | j.JObject? witness JObject([])

  /** A string token, as the serialiser writes every `string` property. */
  function Str(s: string): Json {
    JText(StringToken, s)
  }
}
