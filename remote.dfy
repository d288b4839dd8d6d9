/**
 * What a completed call to the remote palette service looks like to a page.
 * `fetch` and `res.json()` are foreign I/O: a handler's completion receives
 * their outcome as a value.
 */
module Remote {
  import opened Wrappers
  import opened JsValue

  /** The result of `await res.json()`: a parsed value or the parse error's message. */
  datatype Body = Json(data: Value) | Malformed(message: string)

  /** A completed request: `fetch` rejected, or a response arrived with a status. */
  datatype Outcome =
    | NetworkFailure(message: string)
    | Response(ok: bool, statusText: string, body: Body)

  /**
   * The value `data` that `await res.json()` binds for the pages that parse the
   * body whatever the HTTP status; None when `fetch` or the parse threw.
   */
  function Parsed(out: Outcome): (r: Option<Value>)
    ensures r.Some? <==> out.Response? && out.body.Json?
    ensures r.Some? ==> r.value == out.body.data
  {
    match out
    case NetworkFailure(_) => None
    case Response(_, _, body) => if body.Json? then Some(body.data) else None
  }
}
