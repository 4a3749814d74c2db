/** A JSON document after it has been parsed: the form in which `JSONDecoder` hands values
    to the `Decodable` initialisers of the app. Turning bytes into this form is not modelled. */
module Json {
  import opened Wrappers

  datatype JsonValue =
    | JNull
    | JBool(b: bool)
    | JNumber(literal: string)
    | JString(s: string)
    | JArray(items: seq<JsonValue>)
    | JObject(fields: map<string, JsonValue>)

  /** A response body: bytes that are not JSON text at all, or a parsed document. */
  datatype Payload = NotJson | Json(value: JsonValue)

  /** `container.decode(String.self, forKey: key)`: succeeds only on a present key whose
      value is a JSON string; a null, a number or a missing key make it throw. */
  function StringField(fields: map<string, JsonValue>, key: string): Option<string>
  {
    if key in fields then StringValue(fields[key]) else None
  }

  /** Decoding a `String` from a value that is present: only a JSON string succeeds. */
  function StringValue(v: JsonValue): Option<string>
  {
    if v.JString? then Some(v.s) else None
  }
}
