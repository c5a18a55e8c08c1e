/** internal/apperrors and the error path of internal/graphql/client.go and
    internal/director/directorclient.go: how the Director's "not found" reaches DeleteRuntime. */
module AppErrors {
  import opened Wrappers

  datatype ErrCode = BadGatewayCode | InternalCode | ExternalCode | ForbiddenCode | BadRequestCode | NotFoundCode
  datatype CauseCode = Unknown | GlobalAccountNotFound | RuntimeNotFound

  datatype AppError = AppError(code: ErrCode, cause: CauseCode, message: string) {
    /** A wrapped error tells more but means the same. */
    function Append(text: string): (e: AppError)
      ensures e.code == code && e.cause == cause
    {
      this.(message := text + ", " + message)
    }
  }

  function Internal(message: string): AppError { AppError(InternalCode, Unknown, message) }
  function External(message: string): AppError { AppError(ExternalCode, Unknown, message) }
  function BadGateway(message: string): AppError { AppError(BadGatewayCode, Unknown, message) }
  function BadRequest(message: string): AppError { AppError(BadRequestCode, Unknown, message) }
  function NotFound(message: string): AppError { AppError(NotFoundCode, RuntimeNotFound, message) }
  function InvalidGlobalAccount(message: string): AppError { AppError(BadRequestCode, GlobalAccountNotFound, message) }

  /** The Director's error types, by name. */
  datatype ErrorType =
    | InternalError | UnknownError | NotFoundError | NotUnique | InvalidData | InsufficientScopes
    | Unauthorized | TenantRequired | TenantNotFound | InvalidOperation | OtherType(code: int)

  /** The `error_code` extension of a GraphQL error: the Go type matters. */
  datatype ExtensionValue = Missing | Float64(code: ErrorType) | Int64(code: ErrorType) | OtherKind

  /** A Go error as errors.As sees it: not an ExtendedError, one, or a list made by errors.Join. */
  datatype GqlError = Plain | Extended(value: ExtensionValue) | Joined(first: GqlError, second: GqlError)

  /** errors.As for ExtendedError: depth first. */
  function AsExtended(err: GqlError): Option<ExtensionValue> {
    match err
    case Plain => None
    case Extended(value) => Some(value)
    case Joined(first, second) => if AsExtended(first).Some? then AsExtended(first) else AsExtended(second)
  }

  /** What the GraphQL client's Do returns for an error of the call. With graceful unregistration it
      looks for an int64 error code, which JSON never yields, and wraps the error otherwise. */
  function Rewrap(err: GqlError, graceful: bool): GqlError {
    match AsExtended(err)
    case Some(value) =>
      if !graceful then err
      else if value == Missing || !value.Int64? then Joined(Plain, Extended(value))
      else err
    case None => err
  }

  /** The wrapping hides nothing from the next errors.As. */
  lemma RewrapKeepsExtension(err: GqlError, graceful: bool)
    ensures AsExtended(Rewrap(err, graceful)) == AsExtended(err)
  {
    var value := AsExtended(err);
    if value.Some? {
      assert AsExtended(Joined(Plain, Extended(value.value))) == value;
    }
  }

  /** mapDirectorErrorToProvisionerError. "Runtime not found" is reported for one combination only. */
  function MapDirectorError(value: ExtensionValue, graceful: bool): (e: AppError)
    ensures e.cause == RuntimeNotFound <==> graceful && value == Float64(NotFoundError)
    ensures e.cause == GlobalAccountNotFound <==> value in {Float64(TenantRequired), Float64(TenantNotFound)}
    ensures e.code == InternalCode <==>
            || !value.Float64?
            || value.code in {InternalError, UnknownError} || value.code.OtherType?
    ensures e.code == BadGatewayCode <==> value in {Float64(InsufficientScopes), Float64(Unauthorized)}
    ensures e.code == NotFoundCode <==> graceful && value == Float64(NotFoundError)
    ensures e.code == BadRequestCode <==>
            || value in {Float64(NotUnique), Float64(InvalidData), Float64(InvalidOperation)}
            || value in {Float64(TenantRequired), Float64(TenantNotFound)}
            || (!graceful && value == Float64(NotFoundError))
  {
    match value
    case Missing => Internal("Failed to read the error code from the error response")
    case Int64(_) => Internal("Failed to cast the error code from the error response")
    case OtherKind => Internal("Failed to cast the error code from the error response")
    case Float64(code) =>
      match code
      case InternalError => Internal("graphql")
      case UnknownError => Internal("graphql")
      case InsufficientScopes => BadGateway("graphql")
      case Unauthorized => BadGateway("graphql")
      case NotFoundError => if graceful then NotFound("graphql") else BadRequest("graphql")
      case NotUnique => BadRequest("graphql")
      case InvalidData => BadRequest("graphql")
      case InvalidOperation => BadRequest("graphql")
      case TenantRequired => InvalidGlobalAccount("graphql")
      case TenantNotFound => InvalidGlobalAccount("graphql")
      case OtherType(_) => Internal("Did not recognize the error code from the error response")
  }

  /** How an error of a GraphQL call comes out of executeDirectorGraphQLCall. */
  function CallError(err: GqlError, graceful: bool): AppError {
    match AsExtended(Rewrap(err, graceful))
    case Some(value) => MapDirectorError(value, graceful).Append("Failed to execute GraphQL request to Director")
    case None => Internal("Failed to execute GraphQL request to Director")
  }

  /** The not-found cause survives Do's re-wrapping and Append exactly when the Director's error code
      arrived as a float64, the type that JSON decoding gives it. An int64 code, which Do looks for,
      would be lost in the mapping. */
  lemma NotFoundSurvives(err: GqlError, graceful: bool)
    ensures CallError(err, graceful).cause == RuntimeNotFound <==>
            graceful && AsExtended(err) == Some(Float64(NotFoundError))
  {
    RewrapKeepsExtension(err, graceful);
  }
}
