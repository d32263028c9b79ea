/** JSON documents as values. Rendering a document to text (`json.dumps`)
    and decoding text (`json.loads`) belong to Python's standard library and
    are given to the model as a pair of functions. */
module Json {
  import opened Wrappers

  datatype Json =
    | JNull
    | JBool(b: bool)
    | JInt(i: int)
    | JStr(s: string)
    | JArray(items: seq<Json>)
    | JObject(fields: map<string, Json>)

  /** `json.dumps` and `json.loads`; the latter is None for undecodable text. */
  datatype Codec = Codec(dumps: Json -> string, loads: string -> Option<Json>) {

    /** The library's round trip, for one document. */
    predicate RoundTrips(doc: Json) {
      loads(dumps(doc)) == Some(doc)
    }
  }
}
