// Values shared by the analyser and the request handler: an optional value
// (Python's `None`) and the JSON-shaped dictionaries the analyser returns.

module JsonValues {

  datatype Option<+T> = None | Some(value: T)

  /** The Python values that `json.dumps` receives: nested dicts of strings, ints, bools and None. */
  datatype Json =
    | JNull
    | JBool(b: bool)
    | JInt(n: int)
    | JString(s: string)
    | JObject(fields: map<string, Json>)

  /** `None` becomes JSON null, a string stays a string. */
  function StringOrNull(s: Option<string>): (r: Json)
    ensures r.JNull? <==> s.None?
    ensures s.Some? ==> r == JString(s.value)
  {
    match s
    case None => JNull
    case Some(t) => JString(t)
  }
}
