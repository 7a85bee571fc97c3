/** Outcomes of the client's HTTP requests and the error classification that the
    room handlers (fetch, join, leave, create) each repeat in their `catch` blocks. */
module Http {
  import opened Wrappers

  /** How an axios request can fail: the server answered with an error status (and maybe a
      `message` in its body), the request left but nothing came back, or the request could
      not be set up at all. */
  datatype HttpError =
    | ResponseError(status: int, message: Option<string>)
    | NoResponse
    | Unexpected

  /** The result of one request, handed to the model instead of performing network I/O. */
  datatype HttpOutcome<+T> = Ok(value: T) | Failed(error: HttpError)

  /** A successful response: its status code and its body. */
  datatype Response<+T> = Response(status: int, data: T)

  /** What a handler shows after a failure, and whether it sends the user to `/login`. */
  datatype ErrorReport = ErrorReport(message: string, toLogin: bool)

  const NoResponseMessage: string := "No response from server. Please try again later."
  const UnexpectedMessage: string := "An unexpected error occurred."

  /** `error.response.data.message || fallback`: an absent or empty server message is falsy. */
  predicate HasServerMessage(e: HttpError) {
    e.ResponseError? && e.message.Some? && e.message.value != ""
  }

  /** The shared `catch` block: the server's message (or the handler's fallback) when there
      is a response, with a redirect to the login page on 401 and 403; fixed texts otherwise. */
  function Classify(e: HttpError, fallback: string): (r: ErrorReport)
    ensures r.toLogin <==> e.ResponseError? && (e.status == 401 || e.status == 403)
    ensures HasServerMessage(e) ==> r.message == e.message.value
    ensures e.ResponseError? && !HasServerMessage(e) ==> r.message == fallback
    ensures e.NoResponse? ==> r.message == NoResponseMessage
    ensures e.Unexpected? ==> r.message == UnexpectedMessage
    ensures fallback != "" ==> r.message != ""
  {
    match e
    case ResponseError(status, message) =>
      var text := if message.Some? && message.value != "" then message.value else fallback;
      ErrorReport(text, status == 401 || status == 403)
    case NoResponse => ErrorReport(NoResponseMessage, false)
    case Unexpected => ErrorReport(UnexpectedMessage, false)
  }
}
