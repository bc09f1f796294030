/** The error middleware: every thrown error becomes an HTTP status and a JSON body
    `{ error: { message, status } }`. */
module ErrorHandler {

  import opened Wrappers
  import opened Text
  import opened Errors

  /** The response: the HTTP status and the body's `message` and `status` fields. */
  datatype ErrorResponse = ErrorResponse(httpStatus: int, message: string, bodyStatus: int)

  const DuplicateMessage: string := "Duplicate entry. This record already exists."
  const InvalidIdMessage: string := "Invalid ID format"
  const InternalMessage: string := "Internal Server Error"

  /** `err.statusCode || 500`: an absent or zero status code is falsy. */
  function StatusOrDefault(statusCode: Option<int>): int {
    match statusCode
    case Some(c) => if c == 0 then 500 else c
    case None => 500
  }

  /** `errorHandler(err)`: validation errors, then cast errors, then duplicate keys, then
      the error's own status code and message. */
  function HandleError(err: AppError): (r: ErrorResponse)
    ensures r.bodyStatus == r.httpStatus
  {
    if err.name == "ValidationError" then
      ErrorResponse(400, Join(err.fieldMessages, ", "), 400)
    else if err.name == "CastError" then
      ErrorResponse(400, InvalidIdMessage, 400)
    else if err.code == Some(11000) then
      ErrorResponse(409, DuplicateMessage, 409)
    else
      var status := StatusOrDefault(err.statusCode);
      ErrorResponse(status, if err.message == "" then InternalMessage else err.message, status)
  }

  /** Which branch classifies an error; the first that applies wins. */
  datatype ErrorClass = Validation | Cast | Duplicate | Generic

  function Classify(err: AppError): ErrorClass {
    if err.name == "ValidationError" then Validation
    else if err.name == "CastError" then Cast
    else if err.code == Some(11000) then Duplicate
    else Generic
  }

  /** Each class gets its own status and message, and the body always repeats the status. */
  lemma HandleErrorByClass(err: AppError)
    ensures var r := HandleError(err);
      && r.bodyStatus == r.httpStatus
      && (Classify(err) == Validation ==> r == ErrorResponse(400, Join(err.fieldMessages, ", "), 400))
      && (Classify(err) == Cast ==> r == ErrorResponse(400, InvalidIdMessage, 400))
      && (Classify(err) == Duplicate ==> r == ErrorResponse(409, DuplicateMessage, 409))
      && (Classify(err) == Generic ==>
        && (err.statusCode.Some? && err.statusCode.value != 0 ==> r.httpStatus == err.statusCode.value)
        && (err.statusCode.None? || err.statusCode == Some(0) ==> r.httpStatus == 500)
        && (err.message != "" ==> r.message == err.message)
        && (err.message == "" ==> r.message == InternalMessage))
  {
  }

  /** A validation error wins over a duplicate-key code it also carries. */
  lemma ValidationBeforeDuplicate(messages: seq<string>)
    ensures HandleError(ValidationError(messages).(code := Some(11000))).httpStatus == 400
  {
  }

  /** A cast error wins over a duplicate-key code it also carries. */
  lemma CastBeforeDuplicate()
    ensures HandleError(CastError().(code := Some(11000))).httpStatus == 400
  {
  }

  /** A controller's own error is answered with its status and message. */
  lemma HttpErrorPassesThrough(status: int, message: string)
    requires status != 0 && message != ""
    ensures HandleError(HttpError(status, message)) == ErrorResponse(status, message, status)
  {
  }

  /** An error thrown without a status code, as the parsers throw them, is a 500. */
  lemma PlainErrorIsInternal(message: string)
    ensures HandleError(PlainError(message)).httpStatus == 500
  {
  }

  /** Two validation messages are joined with a comma and a space. */
  lemma TwoValidationMessages(a: string, b: string)
    ensures HandleError(ValidationError([a, b])).message == a + ", " + b
  {
    JoinCons(a, [b], ", ");
  }
}
