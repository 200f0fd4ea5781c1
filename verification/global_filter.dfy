/** `GlobalExceptionFilter.catch`: every exception becomes an HTTP status and
    an `ErrorResponse` body. */
module GlobalFilter {
  import opened Wrappers
  import opened Exceptions

  datatype ErrorMeta = ErrorMeta(requestId: Option<string>, timestamp: string)

  datatype ErrorResponse = ErrorResponse(success: bool, code: ErrorCode, message: MessageValue, meta: ErrorMeta)

  /** What is written with `res.status(status).json(body)`. */
  datatype Reply = Reply(status: nat, body: ErrorResponse)

  const InternalErrorMessage := "Internal server error"

  /** JavaScript truthiness of a body `message`: an array is always truthy. */
  predicate TruthyMessage(m: MessageValue) {
    m.Lines? || m.text != ""
  }

  /** The error code of an `HttpException` that is not an `AppException`. */
  function CodeForStatus(status: nat): (code: ErrorCode)
    ensures code == Unauthorized <==> status == UnauthorizedStatus
    ensures code == Forbidden <==> status == ForbiddenStatus
    ensures code == NotFound <==> status == NotFoundStatus
    ensures code == ValidationError <==> status !in {UnauthorizedStatus, ForbiddenStatus, NotFoundStatus}
    ensures code != InternalError
  {
    if status == 401 then Unauthorized
    else if status == 403 then Forbidden
    else if status == 404 then NotFound
    else ValidationError
  }

  /** `(exception.getResponse() as any)?.message`: a string body has no
      `message` property. */
  function BodyMessage(body: ResponseBody): (m: Option<MessageValue>)
    ensures body.StringBody? ==> m == None
    ensures body.ObjectBody? ==> m == body.message
  {
    match body
    case StringBody(_) => None
    case ObjectBody(message) => message
  }

  function Catch(e: Exception, requestId: Option<string>, timestamp: string): (r: Reply)
    ensures !r.body.success && r.body.meta == ErrorMeta(requestId, timestamp)
    ensures e.PlainError? ==>
              r.status == InternalServerErrorStatus && r.body.code == InternalError
              && r.body.message == Text(InternalErrorMessage)
    ensures e.AppException? ==>
              r.status == e.status && r.body.code == e.code && r.body.message == Text(e.message)
    ensures e.HttpException? ==> r.status == e.status && r.body.code == CodeForStatus(e.status)
    ensures e.HttpException? && BodyMessage(e.response).Some? && TruthyMessage(BodyMessage(e.response).value) ==>
              r.body.message == BodyMessage(e.response).value
    ensures e.HttpException? && !(BodyMessage(e.response).Some? && TruthyMessage(BodyMessage(e.response).value)) ==>
              r.body.message == Text(e.message)
  {
    var (status, code, message) :=
      match e
      case AppException(code, message, status) => (status, code, Text(message))
      case HttpException(status, response, message) =>
        var fromBody := BodyMessage(response);
        (status, CodeForStatus(status),
         if fromBody.Some? && TruthyMessage(fromBody.value) then fromBody.value else Text(message))
      case PlainError(_) => (InternalServerErrorStatus, InternalError, Text(InternalErrorMessage));
    Reply(status, ErrorResponse(false, code, message, ErrorMeta(requestId, timestamp)))
  }

  /** A built-in exception reaches the client with its status, the
      status's code and its message, or its class's description when it was
      given none. */
  lemma {:induction false} BuiltInReply(status: nat, description: string, message: string,
                                        requestId: Option<string>, timestamp: string)
    ensures var shown := if message == "" then description else message;
            Catch(BuiltIn(status, description, message), requestId, timestamp)
            == Reply(status, ErrorResponse(false, CodeForStatus(status), Text(shown), ErrorMeta(requestId, timestamp)))
  {
    if message == "" && description == "" {
      assert !TruthyMessage(Text(description));
    }
  }

  /** `new BadRequestException('')` and the metrics controller's bare
      `new NotFoundException()` reach the client with the class description. */
  lemma EmptyMessageDescribed(requestId: Option<string>, timestamp: string)
    ensures Catch(BadRequestException(""), requestId, timestamp).body.message == Text("Bad Request")
    ensures Catch(NotFoundException(""), requestId, timestamp).body.message == Text("Not Found")
  {
    BuiltInReply(BadRequestStatus, "Bad Request", "", requestId, timestamp);
    BuiltInReply(NotFoundStatus, "Not Found", "", requestId, timestamp);
  }

  /** The four exceptions the authentication service throws: a conflict and
      a bad request both read VALIDATION_ERROR to the client. */
  lemma AuthErrorCodes(message: string, requestId: Option<string>, timestamp: string)
    ensures Catch(ConflictException(message), requestId, timestamp).body.code == ValidationError
    ensures Catch(BadRequestException(message), requestId, timestamp).body.code == ValidationError
    ensures Catch(UnauthorizedException(message), requestId, timestamp).body.code == Unauthorized
    ensures Catch(NotFoundException(message), requestId, timestamp).body.code == NotFound
  {
  }
}
