/** The domain error classes of src/ultis/CustomErrors.ts as one closed
    datatype: each kind fixes an HTTP status, an application error code and
    the operational flag; a few kinds also carry a default message. */
module CustomErrors {
  import opened Text

  /** HTTP status numbers used by the error classes and the error handler. */
  const BAD_REQUEST := 400
  const UNAUTHORIZED := 401
  const FORBIDDEN := 403
  const NOT_FOUND := 404
  const CONFLICT := 409
  const UNPROCESSABLE_ENTITY := 422
  const INTERNAL_SERVER_ERROR := 500
  const BAD_GATEWAY := 502

  /** The application error codes (the `ErrorCodes` enumeration). */
  datatype ErrorCode =
    | AuthenticationCode
    | AuthorizationCode
    | ConflictCode
    | NotFoundCode
    | BadRequestCode
    | BlockchainErrorCode
    | InternalCode
    | ValidationCode

  /** One constructor per `BaseError` subclass. */
  datatype ErrorKind =
    | Authentication
    | Authorization
    | Conflict
    | NotFound
    | BadRequest
    | Upload
    | Watermark
    | Metadata
    | Blockchain
    | Config
  {
    /** The kinds that answer like a bad request. */
    predicate IsBadRequestFamily() {
      this in {BadRequest, Upload, Watermark, Metadata}
    }
  }

  /** A thrown domain error: its class and its `message`. */
  datatype AppError = AppError(kind: ErrorKind, message: string)

  /** `statusCode` of each class. */
  function StatusCode(k: ErrorKind): (s: int)
    ensures 400 <= s < 600
    ensures s == BAD_REQUEST <==> k.IsBadRequestFamily()
    ensures s >= 500 <==> k in {Blockchain, Config}
  {
    match k
    case Authentication => UNAUTHORIZED
    case Authorization => FORBIDDEN
    case Conflict => CONFLICT
    case NotFound => NOT_FOUND
    case BadRequest => BAD_REQUEST
    case Upload => BAD_REQUEST
    case Watermark => BAD_REQUEST
    case Metadata => BAD_REQUEST
    case Blockchain => BAD_GATEWAY
    case Config => INTERNAL_SERVER_ERROR
  }

  /** `errorCode` of each class. */
  function Code(k: ErrorKind): (c: ErrorCode)
    ensures c != ValidationCode
    ensures c == BadRequestCode <==> k.IsBadRequestFamily()
  {
    match k
    case Authentication => AuthenticationCode
    case Authorization => AuthorizationCode
    case Conflict => ConflictCode
    case NotFound => NotFoundCode
    case BadRequest => BadRequestCode
    case Upload => BadRequestCode
    case Watermark => BadRequestCode
    case Metadata => BadRequestCode
    case Blockchain => BlockchainErrorCode
    case Config => InternalCode
  }

  /** `isOperational` of each class. */
  function IsOperational(k: ErrorKind): bool {
    match k
    case Authentication => true
    case Authorization => true
    case Conflict => true
    case NotFound => true
    case BadRequest => true
    case Upload => true
    case Watermark => true
    case Metadata => true
    case Blockchain => true
    case Config => true
  }

  /** The constructor's default for `message`, for the classes that have one. */
  function DefaultMessage(k: ErrorKind): Option<string> {
    match k
    case Upload => Some("Upload error")
    case Watermark => Some("Watermark error")
    case Metadata => Some("Metadata error")
    case Blockchain => Some("Blockchain error")
    case Config => Some("Invalid configuration")
    case _ => None
  }

  /** `new XError(message)`: an omitted message takes the class default; the
      classes without a default demand a message. */
  function NewError(k: ErrorKind, message: Option<string>): (e: AppError)
    requires message.Some? || DefaultMessage(k).Some?
    ensures e.kind == k
    ensures message.Some? ==> e.message == message.value
    ensures message.None? ==> Some(e.message) == DefaultMessage(k)
  {
    AppError(k, if message.Some? then message.value else DefaultMessage(k).value)
  }

  /** `new BadRequestError(message)`, the error every service throws. */
  function BadRequestError(message: string): (e: AppError)
    ensures e.kind == BadRequest && e.message == message
    ensures e.kind.IsBadRequestFamily() && StatusCode(e.kind) == BAD_REQUEST
  {
    NewError(BadRequest, Some(message))
  }

  /** `new NotFoundError(message)` */
  function NotFoundError(message: string): (e: AppError)
    ensures e.kind == NotFound && e.message == message
    ensures StatusCode(e.kind) == NOT_FOUND
  {
    NewError(NotFound, Some(message))
  }

  /** The fixed (status, code) pairs of the five classes that take a message. */
  lemma FixedStatusAndCode()
    ensures StatusCode(Authentication) == UNAUTHORIZED && Code(Authentication) == AuthenticationCode
    ensures StatusCode(Authorization) == FORBIDDEN && Code(Authorization) == AuthorizationCode
    ensures StatusCode(Conflict) == CONFLICT && Code(Conflict) == ConflictCode
    ensures StatusCode(NotFound) == NOT_FOUND && Code(NotFound) == NotFoundCode
    ensures StatusCode(BadRequest) == BAD_REQUEST && Code(BadRequest) == BadRequestCode
  {
  }

  /** Upload, watermark and metadata errors answer exactly like a bad request. */
  lemma UploadFamilyIsBadRequest(k: ErrorKind)
    requires k in {Upload, Watermark, Metadata}
    ensures StatusCode(k) == StatusCode(BadRequest) && Code(k) == Code(BadRequest)
  {
  }

  /** Blockchain and configuration errors are the two server-side kinds. */
  lemma ServerSideKinds()
    ensures StatusCode(Blockchain) == BAD_GATEWAY && Code(Blockchain) == BlockchainErrorCode
    ensures StatusCode(Config) == INTERNAL_SERVER_ERROR && Code(Config) == InternalCode
  {
  }

  /** Every domain error is operational. */
  lemma AllOperational(k: ErrorKind)
    ensures IsOperational(k)
  {
  }

  /** The error code determines the HTTP status: no two kinds share a code but
      differ in status. */
  lemma CodeDeterminesStatus(k1: ErrorKind, k2: ErrorKind)
    requires Code(k1) == Code(k2)
    ensures StatusCode(k1) == StatusCode(k2)
  {
  }

  /** The default messages, and the passed message winning over them. */
  lemma DefaultMessages(message: string)
    ensures NewError(Upload, None).message == "Upload error"
    ensures NewError(Watermark, None).message == "Watermark error"
    ensures NewError(Metadata, None).message == "Metadata error"
    ensures NewError(Blockchain, None).message == "Blockchain error"
    ensures NewError(Config, None).message == "Invalid configuration"
    ensures forall k :: NewError(k, Some(message)).message == message
  {
  }
}
