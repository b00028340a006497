/** The upstream HTTP exchange as the server code sees it: a request with
    headers, and either a parsed body or a thrown error that may carry the
    upstream's response. */
module Http {
  import opened Wrappers
  import opened JsValues

  /** The part of an error response the handlers read:
      `error.response.status` and `error.response.data`. */
  datatype ErrorResponse = ErrorResponse(status: int, data: Json)

  /** A thrown JavaScript `Error`: its message and, when the HTTP client
      threw it for an error status, the response. */
  datatype JsError = JsError(message: string, response: Option<ErrorResponse>)

  datatype Request = Request(url: string, headers: map<string, string>)

  /** What one upstream request gave: the parsed body, or a thrown error. */
  datatype Outcome = Received(body: Json) | Threw(error: JsError)

  const InternalServerError := 500

  /** `error.response?.status || 500`: the upstream's status when there is
      a response with a non-zero status, 500 otherwise. */
  function ErrorStatus(e: JsError): (s: int)
    ensures s != 0
    ensures e.response.None? ==> s == InternalServerError
    ensures e.response.Some? && e.response.value.status != 0 ==> s == e.response.value.status
    ensures e.response.Some? && e.response.value.status == 0 ==> s == InternalServerError
  {
    match e.response
    case None => InternalServerError
    case Some(r) => if r.status != 0 then r.status else InternalServerError
  }

  /** `error.response?.data || null`. */
  function ErrorDetails(e: JsError): (d: Json)
    ensures e.response.None? ==> d == Null
    ensures e.response.Some? ==> d == (if Truthy(e.response.value.data) then e.response.value.data else Null)
    ensures d == Null || (e.response.Some? && d == e.response.value.data && Truthy(d))
  {
    match e.response
    case None => Null
    case Some(r) => Or(r.data, Null)
  }
}
