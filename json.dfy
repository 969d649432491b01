/**
 * The JSON values that the servers and the client inspect.  Only the flat,
 * top-level shape of a document matters to the code being modelled: every
 * handler checks whether the parsed document is an object and then reads a
 * few named members.  Parsing and serialisation belong to the JSON libraries
 * (nlohmann::json on the server, QJsonDocument on the client) and are not
 * modelled; a parse is represented by its outcome.
 */
module Json {

  /** A member value.  Arrays, nested objects and non-integral numbers are
      never looked into and are all represented by JOther. */
  datatype Json = JNull | JBool(b: bool) | JNumber(n: int) | JString(s: string) | JOther

  type JsonObject = map<string, Json>

  /** The media type both sides put on JSON bodies. */
  const JSON_TYPE := "application/json"

  /** Outcome of parsing a request or reply body: a syntax error and a
      well-formed document that is not an object are treated alike by
      every caller. */
  datatype Parsed = NotObject | Object(fields: JsonObject)

  /** QJsonObject::value(key).toBool(): true only for a boolean member that
      is true; a missing member or one of another type reads as false. */
  function ToBool(o: JsonObject, key: string): bool
  {
    key in o && o[key] == JBool(true)
  }

  /** QJsonObject::value(key).toString(): the member's text when it is a
      string, the empty string otherwise. */
  function ToText(o: JsonObject, key: string): string
  {
    if key in o && o[key].JString? then o[key].s else ""
  }
}
