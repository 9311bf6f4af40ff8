/**
 * The application's error handler (`customErrorHandler` in cmd/main.go): how
 * an error a handler returns becomes the HTTP status and the JSON error body.
 */
module ErrorHandler {
  /** An error reaching the handler: a `*fiber.Error` with its code, or any other error. */
  datatype HandlerError =
    | FiberError(code: int, message: string)
    | OtherError(text: string)

  /** The body `{"error": {"code": ..., "message": ...}}`. */
  datatype ErrorBody = ErrorBody(code: int, message: string)

  /** The response: its status and its body. */
  datatype ErrorResponse = ErrorResponse(status: int, body: ErrorBody)

  const InternalServerError := 500

  /**
   * A fiber error keeps its code and message; anything else is a 500 with
   * the generic message, so the error's own text never reaches the client.
   */
  function CustomErrorHandler(err: HandlerError): (r: ErrorResponse)
    ensures r.body.code == r.status
    ensures err.FiberError? ==> r.status == err.code && r.body.message == err.message
    ensures err.OtherError? ==> r.status == InternalServerError && r.body.message == "Internal Server Error"
  {
    match err
    case FiberError(code, message) => ErrorResponse(code, ErrorBody(code, message))
    case OtherError(_) => ErrorResponse(InternalServerError, ErrorBody(InternalServerError, "Internal Server Error"))
  }

  /** Errors other than fiber errors are indistinguishable to the client. */
  lemma OtherErrorsLookAlike(a: string, b: string)
    ensures CustomErrorHandler(OtherError(a)) == CustomErrorHandler(OtherError(b))
  {
  }
}
