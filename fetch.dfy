/** The parts of the browser's Fetch API the caching worker sees, as immutable values.
    A response body is a value here, so cloning a response is copying it. */
module Fetch {

  datatype Option<T> = None | Some(value: T)

  /** A request identity as the cache keys it: URL and HTTP method (`verb`). */
  datatype Request = Request(url: string, verb: string)

  /** A response snapshot. `body == None` is a null body. */
  datatype Response = Response(status: nat, body: Option<string>) {
    /** The Fetch Standard's "ok status": a status in the range 200 to 299, inclusive. */
    predicate Ok() {
      200 <= status <= 299
    }
  }

  /** What `fetch(request)` settles to: a delivered response (whatever its status) or a
      rejection (connection error, DNS failure, offline). */
  datatype NetworkResult = Delivered(response: Response) | NetworkError

  /** A GET request for a path, as `cache.addAll` builds one from a string. */
  function GetRequest(url: string): Request
  {
    Request(url, "GET")
  }
}
