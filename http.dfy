/** What every edge function shares: a reply with an HTTP status, and the
    resource id taken from the last segment of the request path. */
module Http {
  /** A JSON response: a success body, or an `{ error, fields? }` body with its
      status (400, 403, 404, 409, 429, 500). */
  datatype Reply<T> = Ok(status: int, body: T) | Fail(status: int, error: string, fields: seq<string>)

  function Error<T>(status: int, error: string): Reply<T> {
    Fail(status, error, [])
  }

  /** `path.split('/')[parts.length - 1]`: the text after the last '/', or the
      whole path when it has none. */
  function LastSegment(path: string): (seg: string)
    ensures '/' !in seg
    ensures |seg| <= |path| && seg == path[|path| - |seg|..]
    ensures |seg| < |path| ==> path[|path| - |seg| - 1] == '/'
  {
    if |path| == 0 || path[|path| - 1] == '/' then ""
    else LastSegment(path[..|path| - 1]) + [path[|path| - 1]]
  }

  /** `!id || id === resource`: the path names no row of the collection. */
  predicate MissingId(id: string, resource: string) {
    id == "" || id == resource
  }
}
