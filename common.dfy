/** Small value types shared by the whole model. */
module Common {

  /** A value that may be absent: JavaScript's `undefined` / `null`. */
  datatype Option<+T> = None | Some(value: T)

  /** What one call into a collaborator (a repository, the query runner) did:
      it resolved, or it threw / rejected. */
  datatype Outcome = Ok | Fail

  /** The result of one HTTP GET: the parsed payload, or a rejected request. */
  datatype Fetch<+T> = Fetched(payload: T) | FetchFailed

  /** A JSON number. The service only copies numbers from one record into
      another and never computes with them, so an integer stands in for the
      floating-point value. */
  type Number = int

  /** A JSON value the service carries through without looking inside
      (chainTvls, chainCirculating, predictions, breakdowns, methodology). */
  datatype Json =
    | JNull
    | JBool(b: bool)
    | JNumber(n: Number)
    | JString(s: string)
    | JArray(items: seq<Json>)
    | JObject(members: seq<(string, Json)>)
}
