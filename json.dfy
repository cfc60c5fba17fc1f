/** Parsed JSON documents, as the HTTP layer hands them to the client. */
module Json {

  /** A JSON value. Numbers are integers; object keys are strings. */
  datatype Json =
    | JNull
    | JBool(b: bool)
    | JInt(i: int)
    | JString(str: string)
    | JArray(items: seq<Json>)
    | JObject(obj: map<string, Json>)

  /** The keys and values of an object: the keyword arguments of a record constructor. */
  type Fields = map<string, Json>
}
