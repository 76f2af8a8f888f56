/**
 * The errors a run can end with, and how the route handlers turn an error into
 * an HTTP status. An error is either an HTTP-client error (which may carry the
 * upstream response, or only the fact that a request was sent) or a plain
 * JavaScript Error, which carries neither.
 */
module Errors {
  import opened Wrappers

  /** The `response` part of an HTTP-client error: its status, when there is one. */
  datatype ErrorResponse = ErrorResponse(status: Option<int>)

  /** An error thrown by the HTTP client: with a response, with only a sent request, or neither. */
  datatype ClientError = ClientError(response: Option<ErrorResponse>, requestSent: bool)

  datatype ErrorKind =
    | SubmitFailed       // the submission's own client error, rethrown after the retries
    | VendorRejected     // submission answered with a code that is neither 0 nor pending
    | MalformedResponse  // code 0 without a data object (a TypeError while reading file_link)
    | PollRejected       // a status query answered with a code that is neither complete nor pending
    | PollQueryFailed    // a status query's own client error, rethrown unchanged
    | PollTimeout        // 30 status queries all pending
    | DownloadFailed     // the download failed; rewrapped as a plain Error
    | DecodeFailed       // the demo text could not be decoded

  datatype Error = Error(kind: ErrorKind, response: Option<ErrorResponse>, requestSent: bool)

  /** A client error rethrown as it is. */
  function Rethrown(kind: ErrorKind, e: ClientError): (err: Error)
    ensures err.response == e.response && err.requestSent == e.requestSent
  {
    Error(kind, e.response, e.requestSent)
  }

  /** `new Error(...)`: neither a response nor a request. */
  function Plain(kind: ErrorKind): Error {
    Error(kind, None, false)
  }

  /** `status || 500` for an optional status: a missing or zero status falls back to 500. */
  function StatusOr500(status: Option<int>): int {
    if status.Some? && status.value != 0 then status.value else 500
  }

  /** The HTTP status both route handlers answer an error with. */
  function HttpStatus(e: Error): int {
    if e.response.Some? then StatusOr500(e.response.value.status)
    else if e.requestSent then 504
    else 500
  }

  /** The `type` field of the OpenAI-style error body. */
  function ErrorType(e: Error): string {
    if e.response.Some? then "api_error"
    else if e.requestSent then "timeout_error"
    else "server_error"
  }

  /** The three branches of the error mapping, and that a plain Error is always an internal error. */
  lemma StatusMapping(e: Error)
    ensures e.response.Some? && e.response.value.status.Some? && e.response.value.status.value != 0 ==>
      HttpStatus(e) == e.response.value.status.value && ErrorType(e) == "api_error"
    ensures e.response.Some? && e.response.value.status in {None, Some(0)} ==>
      HttpStatus(e) == 500 && ErrorType(e) == "api_error"
    ensures e.response.None? && e.requestSent ==> HttpStatus(e) == 504 && ErrorType(e) == "timeout_error"
    ensures e.response.None? && !e.requestSent ==> HttpStatus(e) == 500 && ErrorType(e) == "server_error"
    ensures HttpStatus(Plain(e.kind)) == 500
  {
  }

  /** A status of 504 without an upstream response means no answer came back; anything else is a 500 or the vendor's status. */
  lemma StatusCases(e: Error)
    ensures HttpStatus(e) == 500 || HttpStatus(e) == 504 ||
      (e.response.Some? && e.response.value.status == Some(HttpStatus(e)))
    ensures HttpStatus(e) == 504 && e.response.None? ==> e.requestSent
  {
  }
}
