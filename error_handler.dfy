/** The terminal error middleware: every failure becomes one HTTP status
    and one JSON body `{status: "error", message, stack?}`. */
module ErrorHandler {
  import opened Common
  import opened Strings
  import opened Errors

  datatype ErrorBody = ErrorBody(status: string, message: string, stack: Option<string>)

  datatype ErrorResponse = ErrorResponse(statusCode: int, body: ErrorBody)

  const UniqueViolation: string := "P2002"
  const RecordNotFound: string := "P2025"
  const DuplicateMessage: string := "A record with this value already exists"
  const NotFoundMessage: string := "Record not found"
  const DefaultMessage: string := "Internal Server Error"

  /** The database client's two recognised error codes, which the
      normaliser answers with its own status and message. */
  predicate IsKnownStoreCode(code: Option<string>)
  {
    code == Some(UniqueViolation) || code == Some(RecordNotFound)
  }

  /** `errorHandler(err, req, res, next)` with `process.env.NODE_ENV` given as
      `nodeEnv`. A status code of 0 is falsy and also falls back to 500. */
  function Handle(err: Failure, nodeEnv: string): (r: ErrorResponse)
    ensures r.body.status == "error"
    ensures r.body.message != "" && r.statusCode != 0
    ensures r.body.stack.Some? ==> nodeEnv == "development" && !IsKnownStoreCode(err.code)
    ensures nodeEnv != "development" ==> r.body.stack.None?
  {
    var statusCode := if err.statusCode.Some? && err.statusCode.value != 0 then err.statusCode.value else 500;
    var message := if err.message != "" then err.message else DefaultMessage;
    if err.code.Some? && StartsWith(err.code.value, "P") && err.code.value == UniqueViolation then
      ErrorResponse(409, ErrorBody("error", DuplicateMessage, None))
    else if err.code.Some? && StartsWith(err.code.value, "P") && err.code.value == RecordNotFound then
      ErrorResponse(404, ErrorBody("error", NotFoundMessage, None))
    else
      ErrorResponse(statusCode, ErrorBody("error", message,
        if nodeEnv == "development" then err.stack else None))
  }

  /** A unique-constraint violation is always a 409 with the fixed message,
      whatever status and message the error itself carries. */
  lemma UniqueViolationIsConflict(err: Failure, nodeEnv: string)
    requires err.code == Some(UniqueViolation)
    ensures Handle(err, nodeEnv) == ErrorResponse(409, ErrorBody("error", DuplicateMessage, None))
  {
  }

  /** A missing record on write or delete is always a 404 with the fixed
      message. */
  lemma RecordNotFoundIsNotFound(err: Failure, nodeEnv: string)
    requires err.code == Some(RecordNotFound)
    ensures Handle(err, nodeEnv) == ErrorResponse(404, ErrorBody("error", NotFoundMessage, None))
  {
  }

  /** Every other error, with or without a code (another `P…` code too),
      keeps its own status when that is non-zero and otherwise gets 500, keeps
      its own message when that is non-empty and otherwise gets the generic
      one, and carries its stack exactly in development mode. */
  lemma OtherErrorsKeepTheirOwnStatus(err: Failure, nodeEnv: string)
    requires !IsKnownStoreCode(err.code)
    ensures var r := Handle(err, nodeEnv);
      && (r.statusCode == if err.statusCode.Some? && err.statusCode.value != 0 then err.statusCode.value else 500)
      && (r.body.message == if err.message != "" then err.message else DefaultMessage)
      && (r.body.stack == if nodeEnv == "development" then err.stack else None)
  {
  }

  /** An `AppError` reaches the client verbatim: its own status and
      message, and in development mode its own stack. */
  lemma AppErrorIsVerbatim(message: string, statusCode: int, trace: Option<string>, nodeEnv: string)
    requires message != "" && statusCode != 0
    ensures Handle(AppError(message, statusCode, trace), nodeEnv).statusCode == statusCode
    ensures Handle(AppError(message, statusCode, trace), nodeEnv).body
      == ErrorBody("error", message, if nodeEnv == "development" then trace else None)
  {
  }

  /** An error that carries nothing of its own is a generic 500. */
  lemma UnexpectedErrorIsGeneric(stack: Option<string>, nodeEnv: string)
    ensures Handle(Failure("", None, None, stack), nodeEnv).statusCode == 500
    ensures Handle(Failure("", None, None, stack), nodeEnv).body.message == DefaultMessage
  {
  }
}
