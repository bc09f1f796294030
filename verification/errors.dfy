/** The error objects that controllers and parsers throw, as far as the error
    handler reads them. */
module Errors {

  import opened Wrappers

  /** `name`, `message`, `statusCode`, `code` and the messages of `errors` of a thrown value. */
  datatype AppError = AppError(
    name: string,
    message: string,
    statusCode: Option<int>,
    code: Option<int>,
    fieldMessages: seq<string>)

  /** `Object.assign(new Error(message), { statusCode })`, as every controller throws it. */
  function HttpError(status: int, message: string): AppError {
    AppError("Error", message, Some(status), None, [])
  }

  /** `new Error(message)` with no status code, as the parsers throw it. */
  function PlainError(message: string): AppError {
    AppError("Error", message, None, None, [])
  }

  /** The TypeError the runtime raises when a method is called on `undefined`. */
  function UndefinedTrimError(): AppError {
    AppError("TypeError", "Cannot read properties of undefined (reading 'trim')", None, None, [])
  }

  /** Mongoose's ValidationError, carrying one message per failing path. */
  function ValidationError(messages: seq<string>): AppError {
    AppError("ValidationError", "Validation failed", None, None, messages)
  }

  /** Mongoose's CastError for an identifier that is not an ObjectId. */
  function CastError(): AppError {
    AppError("CastError", "Cast to ObjectId failed", None, None, [])
  }
}
