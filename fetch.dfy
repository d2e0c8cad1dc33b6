/** What a settled `fetch` of a JSON catalogue file delivered, as the loaders
    see it: no response, or a response with its status flag and body. */
module Fetch {
  datatype Body<T> = JsonArray(items: seq<T>) | JsonOther | Malformed

  datatype Fetched<T> = NetworkError | Response(ok: bool, body: Body<T>)

  /** An OK response whose body parsed as an array. */
  predicate Delivered<T>(f: Fetched<T>) {
    f.Response? && f.ok && f.body.JsonArray?
  }
}
