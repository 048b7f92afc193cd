/** The failures that travel down the pipeline to the error normaliser. */
module Errors {
  import opened Common

  /** What a middleware passes to `next(err)` or a handler throws: an
      `Error` with a message, and optionally the HTTP status an `AppError`
      carries, the code a database client error carries, and a stack trace. */
  datatype Failure = Failure(
    message: string,
    statusCode: Option<int>,
    code: Option<string>,
    stack: Option<string>)

  /** `new AppError(message, statusCode)`: an anticipated failure with a
      status for the client. `trace` is the stack trace the runtime
      captures when the error is constructed. */
  function AppError(message: string, statusCode: int, trace: Option<string>): (e: Failure)
    ensures e.message == message && e.statusCode == Some(statusCode)
    ensures e.code.None? && e.stack == trace
  {
    Failure(message, Some(statusCode), None, trace)
  }
}
