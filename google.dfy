/**
 * The error classification of src/app/js/main/google.ts: `createErrorResponse` turns what the
 * calendar API client reports into a message, a reason and the raw payload. Everything else in
 * that file is the API client itself and is not part of this model.
 */
module GoogleErrors {
  import opened Wrappers

  /** `GoogleCalendarApiErrorReason`. */
  datatype Reason = NotFound | AlreadyExists | Unknown

  /**
   * The raw error of the API client, as far as the classification reads it: its `code`, absent
   * when the error has none or a falsy one.
   */
  datatype ApiError = ApiError(code: Option<int>)

  /** `GoogleCalendarApiErrorResponse`; `payload` is the raw error, `None` for `undefined`. */
  datatype ErrorResponse = ErrorResponse(message: string, reason: Reason, payload: Option<ApiError>)

  /** Reading `code` of `undefined` throws a type error. */
  datatype Thrown = TypeError

  /**
   * `createErrorResponse(message, err)`: 404 is `NotFound`, 409 is `AlreadyExists`, anything
   * else (another code, no code, a zero code) is `Unknown`. When `err` is `undefined` the
   * property read throws instead.
   */
  function CreateErrorResponse(message: string, err: Option<ApiError>): (r: Result<ErrorResponse, Thrown>)
    ensures r.Success? <==> err.Some?
    ensures r.Success? ==> r.value.message == message && r.value.payload == err
    ensures r.Success? ==> (r.value.reason == NotFound <==> err.value.code == Some(404))
    ensures r.Success? ==> (r.value.reason == AlreadyExists <==> err.value.code == Some(409))
  {
    match err
    case None => Failure(TypeError)
    case Some(e) =>
      if e.code.Some? && e.code.value != 0 then
        if e.code.value == 404 then Success(ErrorResponse(message, NotFound, err))
        else if e.code.value == 409 then Success(ErrorResponse(message, AlreadyExists, err))
        else Success(ErrorResponse(message, Unknown, err))
      else Success(ErrorResponse(message, Unknown, err))
  }

  /** A status code that the classification maps to each reason. */
  function CodeOf(reason: Reason): int {
    match reason
    case NotFound => 404
    case AlreadyExists => 409
    case Unknown => 500
  }

  /** Every reason is reached: classifying the code `CodeOf` picks for it gives it back. */
  lemma ReasonRoundTrip(message: string, reason: Reason)
    ensures CreateErrorResponse(message, Some(ApiError(Some(CodeOf(reason))))) == Success(ErrorResponse(message, reason, Some(ApiError(Some(CodeOf(reason))))))
  {
  }

  /** An error without a code is always `Unknown`. */
  lemma MissingCodeIsUnknown(message: string)
    ensures CreateErrorResponse(message, Some(ApiError(None))).value.reason == Unknown
  {
  }
}
