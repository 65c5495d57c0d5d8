/** The middleware that turns an exception escaping a request handler into a
    JSON error response. */
module ErrorHandler {
  import opened Wrappers
  import opened Text

  /** The `error` object of a JSON error body. */
  datatype ErrorBody = ErrorBody(kind: string, message: string, statusCode: int,
                                 requestId: Option<string>)

  /** A request id counts as present when it is set and non-empty. */
  predicate HasRequestId(requestId: Option<string>) {
    requestId.Some? && requestId.value != ""
  }

  /** The error body: type, message and status code always, the request id
      only when one is present. */
  function BuildErrorBody(kind: string, message: string, requestId: Option<string>,
                          statusCode: int): (r: ErrorBody)
    ensures r.kind == kind && r.message == message && r.statusCode == statusCode
    ensures r.requestId.Some? <==> HasRequestId(requestId)
    ensures r.requestId.Some? ==> r.requestId == requestId
  {
    ErrorBody(kind, message, statusCode, if HasRequestId(requestId) then requestId else None)
  }

  /** What the rest of the handler chain does with the request: it answers,
      or raises. The response itself is opaque here. */
  datatype Downstream<R> =
    | Answered(response: R)
    | HttpError(statusCode: int, detail: string)  // `detail` is `str(exc.detail)`
    | ValidationFailed(errorCount: nat)
    | Crashed(text: string)

  /** What the middleware hands back. */
  datatype Response<R> = PassThrough(response: R) | JsonError(statusCode: int, body: ErrorBody)

  /** Map the outcome of the handler chain to the response sent. */
  function Dispatch<R>(requestId: Option<string>, outcome: Downstream<R>): (r: Response<R>)
    ensures outcome.Answered? <==> r.PassThrough?
    ensures outcome.Answered? ==> r == PassThrough(outcome.response)
    ensures r.JsonError? ==> r.statusCode == r.body.statusCode
    ensures r.JsonError? ==> (r.body.requestId.Some? <==> HasRequestId(requestId))
    ensures outcome.HttpError? ==>
      && r.statusCode == outcome.statusCode
      && r.body.kind == "http_error" && r.body.message == outcome.detail
    ensures outcome.ValidationFailed? ==>
      && r.statusCode == 422
      && r.body.kind == "validation_error"
      && r.body.message == "Validation failed with " + NatToString(outcome.errorCount) + " error(s)"
    ensures outcome.Crashed? ==>
      && r.statusCode == 500
      && r.body.kind == "internal_error" && r.body.message == "An unexpected error occurred"
  {
    match outcome
    case Answered(resp) => PassThrough(resp)
    case HttpError(code, detail) =>
      JsonError(code, BuildErrorBody("http_error", detail, requestId, code))
    case ValidationFailed(n) =>
      JsonError(422, BuildErrorBody("validation_error",
                                    "Validation failed with " + NatToString(n) + " error(s)",
                                    requestId, 422))
    case Crashed(_) =>
      JsonError(500, BuildErrorBody("internal_error", "An unexpected error occurred",
                                    requestId, 500))
  }

  /** The text of an unexpected exception never reaches the client: two
      crashes with different texts give the same response. */
  lemma CrashTextHidden<R>(requestId: Option<string>, a: string, b: string)
    ensures Dispatch<R>(requestId, Crashed(a)) == Dispatch<R>(requestId, Crashed(b))
  {
  }

  /** A missing request id and an empty one give the same error body. */
  lemma EmptyRequestIdOmitted<R>(outcome: Downstream<R>)
    ensures Dispatch(Some(""), outcome) == Dispatch(None, outcome)
  {
  }
}
