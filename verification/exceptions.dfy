/** The exceptions the server throws, as the global filter sees them: the
    application's own `AppException` (and its subclasses), Nest's built-in
    `HttpException`s, and every other thrown value. */
module Exceptions {
  import opened Wrappers

  /** `ErrorCode`; its string values live in error-code.enum.ts, which is not
      part of this model, so the codes stay symbolic. */
  datatype ErrorCode = InternalError | Unauthorized | Forbidden | NotFound | ValidationError

  /** The `message` of a response body: a string, or the array of strings
      Nest's validation pipe puts there. */
  datatype MessageValue = Text(text: string) | Lines(lines: seq<string>)

  /** What `HttpException.getResponse()` returns: the string passed to the
      constructor, or an object that may carry a `message`. */
  datatype ResponseBody = StringBody(text: string) | ObjectBody(message: Option<MessageValue>)

  datatype Exception =
      /** `new AppException(code, message, status)`: `super(message, status)`
          makes the response body the message string. */
    | AppException(code: ErrorCode, message: string, status: nat)
      /** Any other `HttpException`. */
    | HttpException(status: nat, response: ResponseBody, message: string)
      /** Anything thrown that is not an `HttpException` (a database error,
          a failed decryption). */
    | PlainError(message: string)

  const BadRequestStatus: nat := 400
  const UnauthorizedStatus: nat := 401
  const ForbiddenStatus: nat := 403
  const NotFoundStatus: nat := 404
  const ConflictStatus: nat := 409
  const InternalServerErrorStatus: nat := 500

  /** `new XxxException(message)` for one of Nest's built-in exceptions,
      whose class supplies the status and its description ('Bad Request',
      'Not Found', ...). A missing or empty message is replaced by the
      description, both in the body and in `exception.message`. */
  function BuiltIn(status: nat, description: string, message: string): (e: Exception)
    ensures e.HttpException? && e.status == status
    ensures message != "" ==> e.message == message
    ensures message == "" ==> e.message == description
    ensures e.response == ObjectBody(Some(Text(e.message)))
  {
    var shown := if message == "" then description else message;
    HttpException(status, ObjectBody(Some(Text(shown))), shown)
  }

  function BadRequestException(message: string): Exception { BuiltIn(BadRequestStatus, "Bad Request", message) }
  function UnauthorizedException(message: string): Exception { BuiltIn(UnauthorizedStatus, "Unauthorized", message) }
  function NotFoundException(message: string): Exception { BuiltIn(NotFoundStatus, "Not Found", message) }
  function ConflictException(message: string): Exception { BuiltIn(ConflictStatus, "Conflict", message) }
}
