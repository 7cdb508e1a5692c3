/** The JSON tree the client reads responses into and builds payloads from. */
module Json {
  import opened Wrappers

  /** A JSON value. Numbers are integers; floating-point numbers are not modelled. */
  datatype Json =
    | JNull
    | JBool(b: bool)
    | JInt(n: int)
    | JString(s: string)
    | JArray(items: seq<Json>)
    | JObject(fields: map<string, Json>)

  /** `JsonNode.has(key)`: only an object has keys, and a key holding JSON null is present. */
  predicate Has(node: Json, key: string) {
    node.JObject? && key in node.fields
  }

  /** What `ObjectMapper.readTree` gives back: a tree, or the IOException it throws (with its message, possibly null). */
  datatype ReadOutcome = Parsed(node: Json) | Unreadable(message: Option<string>)

  /**
   * The two library calls whose behaviour the client takes as given:
   * `readTree` parses the body text, `asBoolean` is `JsonNode.asBoolean()`.
   */
  datatype Mapper = Mapper(readTree: string -> ReadOutcome, asBoolean: Json -> bool)

  /** `asBoolean` maps a JSON boolean to itself (what it does to other values is the library's choice). */
  predicate BooleanFaithful(mapper: Mapper) {
    mapper.asBoolean(JBool(true)) && !mapper.asBoolean(JBool(false))
  }
}
