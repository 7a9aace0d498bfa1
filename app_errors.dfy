/** src/index.ts, declarations: the positional `createError`, the
    `ValidationError` kind, the `httpErrors` table, its inversion by status
    code, and the error table the plugin merges from defaults and the
    caller's own kinds. */
module AppErrors {
  import opened Wrappers
  import opened Kinds
  import Format
  import Validation
  import BetterErrors
  import HttpsErrors

  /** The optional fourth argument of `createError`. */
  datatype KindOptions = KindOptions(description: Option<string>, example: Option<Example>)

  /** `createError(statusCode, code, message, options?)`: a kind whose fields
      are the arguments; description and example are absent without options. */
  function CreateError(statusCode: int, code: string, message: string, options: Option<KindOptions>): (kind: ErrorKind)
    ensures kind.statusCode == statusCode && kind.code == code && kind.message == message
    ensures kind.description == (if options.Some? then options.value.description else None)
    ensures kind.example == (if options.Some? then options.value.example else None)
  {
    var description := if options.Some? then options.value.description else None;
    var example := if options.Some? then options.value.example else None;
    ErrorKind(statusCode, code, message, description, example)
  }

  /** The `ValidationError` kind: status 400, code `FST_ERR_VALIDATION`, the
      template `%s`, and its documentation example. */
  const ValidationErrorKind: ErrorKind :=
    CreateError(400, "FST_ERR_VALIDATION", "%s", Some(KindOptions(
      Some("A validation error occurred in the request parameters, query, or body"),
      Some(Example(
        Some("params/id must match format \"uuid\""),
        Some([ValidationItem("/id", "#/properties/id/format", "format", map["format" := "uuid"], "must match format \"uuid\"")]),
        Some("params"))))))

  /** `ValidationError.fromSchemaValidator(validation, validationContext)`. The
      validator never reports zero failures; with none the source throws. */
  method FromSchemaValidator(input: FailureInput, context: Option<string>) returns (e: BetterErrors.BetterError)
    requires Validation.Failures(input) != []
    ensures fresh(e)
    ensures e.statusCode == 400 && e.code == "FST_ERR_VALIDATION"
    ensures e.message == Validation.Headline(Validation.Failures(input)[0], context)
    ensures e.validation == Some(Validation.ToItems(Validation.Failures(input)))
    ensures e.validationContext == context && e.cause == None
  {
    var errors := Validation.Failures(input);
    var firstError := errors[0];
    var headline := Validation.Headline(firstError, context);
    e := new BetterErrors.BetterError(ValidationErrorKind, [headline]);
    Format.RenderSolePlaceholder(headline);
    e.validation := Some(Validation.ToItems(errors));
    e.validationContext := context;
  }

  /** The keys of `httpErrors`. */
  datatype HttpErrorName =
    | BadRequestError
    | UnauthorizedError
    | PaymentRequiredError
    | ForbiddenError
    | NotFoundError
    | MethodNotAllowedError
    | ProxyAuthenticationRequiredError
    | RequestTimeoutError
    | ConflictError
    | GoneError
    | LengthRequiredError
    | PreconditionFailedError
    | UriTooLongError
    | UnsupportedMediaTypeError
    | RangeNotSatisfiableError
    | ExpectationFailedError
    | ImATeapotError
    | MisdirectedRequestError
    | UnprocessableEntityError
    | LockedError
    | FailedDependencyError
    | TooEarlyError
    | UpgradeRequiredError
    | PreconditionRequiredError
    | TooManyRequestsError
    | RequestHeaderFieldsTooLargeError
    | UnavailableForLegalReasonsError
    | InternalServerError
    | NotImplementedError
    | BadGatewayError
    | ServiceUnavailableError
    | GatewayTimeoutError
    | HttpVersionNotSupportedError
    | VariantAlsoNegotiatesError
    | InsufficientStorageError
    | LoopDetectedError
    | BandwidthLimitExceededError
    | NotExtendedError
    | NetworkAuthenticationRequiredError

  /** `httpErrors[name]`: one `createError` call per key, with the status
      code, code and message given below column by column. */
  function HttpError(name: HttpErrorName): ErrorKind {
    CreateError(StatusOf(name), CodeOf(name), MessageOf(name), None)
  }

  /** The first argument of each key's `createError`. */
  function StatusOf(name: HttpErrorName): int {
    match name
    case BadRequestError                    => 400
    case UnauthorizedError                  => 401
    case PaymentRequiredError               => 402
    case ForbiddenError                     => 403
    case NotFoundError                      => 404
    case MethodNotAllowedError              => 405
    case ProxyAuthenticationRequiredError   => 407
    case RequestTimeoutError                => 408
    case ConflictError                      => 409
    case GoneError                          => 410
    case LengthRequiredError                => 411
    case PreconditionFailedError            => 412
    case UriTooLongError                    => 414
    case UnsupportedMediaTypeError          => 415
    case RangeNotSatisfiableError           => 416
    case ExpectationFailedError             => 417
    case ImATeapotError                     => 418
    case MisdirectedRequestError            => 421
    case UnprocessableEntityError           => 422
    case LockedError                        => 423
    case FailedDependencyError              => 424
    case TooEarlyError                      => 425
    case UpgradeRequiredError               => 426
    case PreconditionRequiredError          => 428
    case TooManyRequestsError               => 429
    case RequestHeaderFieldsTooLargeError   => 431
    case UnavailableForLegalReasonsError    => 451
    case InternalServerError                => 500
    case NotImplementedError                => 501
    case BadGatewayError                    => 502
    case ServiceUnavailableError            => 503
    case GatewayTimeoutError                => 504
    case HttpVersionNotSupportedError       => 505
    case VariantAlsoNegotiatesError         => 506
    case InsufficientStorageError           => 507
    case LoopDetectedError                  => 508
    case BandwidthLimitExceededError        => 509
    case NotExtendedError                   => 510
    case NetworkAuthenticationRequiredError => 511
  }

  /** The second argument of each key's `createError`. */
  function CodeOf(name: HttpErrorName): string {
    match name
    case BadRequestError                    => "ERR_BAD_REQUEST"
    case UnauthorizedError                  => "ERR_UNAUTHORIZED"
    case PaymentRequiredError               => "ERR_PAYMENT_REQUIRED"
    case ForbiddenError                     => "ERR_FORBIDDEN"
    case NotFoundError                      => "ERR_NOT_FOUND"
    case MethodNotAllowedError              => "ERR_METHOD_NOT_ALLOWED"
    case ProxyAuthenticationRequiredError   => "ERR_PROXY_AUTHENTICATION_REQUIRED"
    case RequestTimeoutError                => "ERR_REQUEST_TIMEOUT"
    case ConflictError                      => "ERR_CONFLICT"
    case GoneError                          => "ERR_GONE"
    case LengthRequiredError                => "ERR_LENGTH_REQUIRED"
    case PreconditionFailedError            => "ERR_PRECONDITION_FAILED"
    case UriTooLongError                    => "ERR_URI_TOO_LONG"
    case UnsupportedMediaTypeError          => "ERR_UNSUPPORTED_MEDIA_TYPE"
    case RangeNotSatisfiableError           => "ERR_RANGE_NOT_SATISFIABLE"
    case ExpectationFailedError             => "ERR_EXPECTATION_FAILED"
    case ImATeapotError                     => "ERR_IM_A_TEAPOT"
    case MisdirectedRequestError            => "ERR_MISDIRECTED_REQUEST"
    case UnprocessableEntityError           => "ERR_UNPROCESSABLE_ENTITY"
    case LockedError                        => "ERR_LOCKED"
    case FailedDependencyError              => "ERR_FAILED_DEPENDENCY"
    case TooEarlyError                      => "ERR_TOO_EARLY"
    case UpgradeRequiredError               => "ERR_UPGRADE_REQUIRED"
    case PreconditionRequiredError          => "ERR_PRECONDITION_REQUIRED"
    case TooManyRequestsError               => "ERR_TOO_MANY_REQUESTS"
    case RequestHeaderFieldsTooLargeError   => "ERR_REQUEST_HEADER_FIELDS_TOO_LARGE"
    case UnavailableForLegalReasonsError    => "ERR_UNAVAILABLE_FOR_LEGAL_REASONS"
    case InternalServerError                => "ERR_INTERNAL_SERVER_ERROR"
    case NotImplementedError                => "ERR_NOT_IMPLEMENTED"
    case BadGatewayError                    => "ERR_BAD_GATEWAY"
    case ServiceUnavailableError            => "ERR_SERVICE_UNAVAILABLE"
    case GatewayTimeoutError                => "ERR_GATEWAY_TIMEOUT"
    case HttpVersionNotSupportedError       => "ERR_HTTP_VERSION_NOT_SUPPORTED"
    case VariantAlsoNegotiatesError         => "ERR_VARIANT_ALSO_NEGOTIATES"
    case InsufficientStorageError           => "ERR_INSUFFICIENT_STORAGE"
    case LoopDetectedError                  => "ERR_LOOP_DETECTED"
    case BandwidthLimitExceededError        => "ERR_BANDWIDTH_LIMIT_EXCEEDED"
    case NotExtendedError                   => "ERR_NOT_EXTENDED"
    case NetworkAuthenticationRequiredError => "ERR_NETWORK_AUTHENTICATION_REQUIRED"
  }

  /** The third argument of each key's `createError`. */
  function MessageOf(name: HttpErrorName): string {
    match name
    case BadRequestError                    => "Bad Request"
    case UnauthorizedError                  => "Unauthorized"
    case PaymentRequiredError               => "Payment Required"
    case ForbiddenError                     => "Forbidden"
    case NotFoundError                      => "Not Found"
    case MethodNotAllowedError              => "Method Not Allowed"
    case ProxyAuthenticationRequiredError   => "Proxy Authentication Required"
    case RequestTimeoutError                => "Request Timeout"
    case ConflictError                      => "Conflict"
    case GoneError                          => "Gone"
    case LengthRequiredError                => "Length Required"
    case PreconditionFailedError            => "Precondition Failed"
    case UriTooLongError                    => "URI Too Long"
    case UnsupportedMediaTypeError          => "Unsupported Media Type"
    case RangeNotSatisfiableError           => "Range Not Satisfiable"
    case ExpectationFailedError             => "Expectation Failed"
    case ImATeapotError                     => "I'm a teapot"
    case MisdirectedRequestError            => "Misdirected Request"
    case UnprocessableEntityError           => "Unprocessable Entity"
    case LockedError                        => "Locked"
    case FailedDependencyError              => "Failed Dependency"
    case TooEarlyError                      => "Too Early"
    case UpgradeRequiredError               => "Upgrade Required"
    case PreconditionRequiredError          => "Precondition Required"
    case TooManyRequestsError               => "Too Many Requests"
    case RequestHeaderFieldsTooLargeError   => "Request Header Fields Too Large"
    case UnavailableForLegalReasonsError    => "Unavailable For Legal Reasons"
    case InternalServerError                => "Internal Server Error"
    case NotImplementedError                => "Not Implemented"
    case BadGatewayError                    => "Bad Gateway"
    case ServiceUnavailableError            => "Service Unavailable"
    case GatewayTimeoutError                => "Gateway Timeout"
    case HttpVersionNotSupportedError       => "HTTP Version Not Supported"
    case VariantAlsoNegotiatesError         => "Variant Also Negotiates"
    case InsufficientStorageError           => "Insufficient Storage"
    case LoopDetectedError                  => "Loop Detected"
    case BandwidthLimitExceededError        => "Bandwidth Limit Exceeded"
    case NotExtendedError                   => "Not Extended"
    case NetworkAuthenticationRequiredError => "Network Authentication Required"
  }

  /** The key whose kind declares a status code, if any. */
  function NameOfStatus(statusCode: int): Option<HttpErrorName> {
    match statusCode
    case 400 => Some(BadRequestError)
    case 401 => Some(UnauthorizedError)
    case 402 => Some(PaymentRequiredError)
    case 403 => Some(ForbiddenError)
    case 404 => Some(NotFoundError)
    case 405 => Some(MethodNotAllowedError)
    case 407 => Some(ProxyAuthenticationRequiredError)
    case 408 => Some(RequestTimeoutError)
    case 409 => Some(ConflictError)
    case 410 => Some(GoneError)
    case 411 => Some(LengthRequiredError)
    case 412 => Some(PreconditionFailedError)
    case 414 => Some(UriTooLongError)
    case 415 => Some(UnsupportedMediaTypeError)
    case 416 => Some(RangeNotSatisfiableError)
    case 417 => Some(ExpectationFailedError)
    case 418 => Some(ImATeapotError)
    case 421 => Some(MisdirectedRequestError)
    case 422 => Some(UnprocessableEntityError)
    case 423 => Some(LockedError)
    case 424 => Some(FailedDependencyError)
    case 425 => Some(TooEarlyError)
    case 426 => Some(UpgradeRequiredError)
    case 428 => Some(PreconditionRequiredError)
    case 429 => Some(TooManyRequestsError)
    case 431 => Some(RequestHeaderFieldsTooLargeError)
    case 451 => Some(UnavailableForLegalReasonsError)
    case 500 => Some(InternalServerError)
    case 501 => Some(NotImplementedError)
    case 502 => Some(BadGatewayError)
    case 503 => Some(ServiceUnavailableError)
    case 504 => Some(GatewayTimeoutError)
    case 505 => Some(HttpVersionNotSupportedError)
    case 506 => Some(VariantAlsoNegotiatesError)
    case 507 => Some(InsufficientStorageError)
    case 508 => Some(LoopDetectedError)
    case 509 => Some(BandwidthLimitExceededError)
    case 510 => Some(NotExtendedError)
    case 511 => Some(NetworkAuthenticationRequiredError)
    case _ => None
  }

  /** `httpErrorsByStatusCode[statusCode]`: the table inverted by status code. */
  function HttpErrorsByStatusCode(statusCode: int): Option<ErrorKind> {
    match NameOfStatus(statusCode)
    case Some(name) => Some(HttpError(name))
    case None => None
  }

  /** The keys of `defaultErrors`, each the name its kind is declared under. */
  const BadRequestErrorKey: string := "BadRequestError"
  const UnauthorizedErrorKey: string := "UnauthorizedError"
  const PaymentRequiredErrorKey: string := "PaymentRequiredError"
  const ForbiddenErrorKey: string := "ForbiddenError"
  const NotFoundErrorKey: string := "NotFoundError"
  const MethodNotAllowedErrorKey: string := "MethodNotAllowedError"
  const ProxyAuthenticationRequiredErrorKey: string := "ProxyAuthenticationRequiredError"
  const RequestTimeoutErrorKey: string := "RequestTimeoutError"
  const ConflictErrorKey: string := "ConflictError"
  const GoneErrorKey: string := "GoneError"
  const LengthRequiredErrorKey: string := "LengthRequiredError"
  const PreconditionFailedErrorKey: string := "PreconditionFailedError"
  const UriTooLongErrorKey: string := "UriTooLongError"
  const UnsupportedMediaTypeErrorKey: string := "UnsupportedMediaTypeError"
  const RangeNotSatisfiableErrorKey: string := "RangeNotSatisfiableError"
  const ExpectationFailedErrorKey: string := "ExpectationFailedError"
  const ImATeapotErrorKey: string := "ImATeapotError"
  const MisdirectedRequestErrorKey: string := "MisdirectedRequestError"
  const UnprocessableEntityErrorKey: string := "UnprocessableEntityError"
  const LockedErrorKey: string := "LockedError"
  const FailedDependencyErrorKey: string := "FailedDependencyError"
  const TooEarlyErrorKey: string := "TooEarlyError"
  const UpgradeRequiredErrorKey: string := "UpgradeRequiredError"
  const PreconditionRequiredErrorKey: string := "PreconditionRequiredError"
  const TooManyRequestsErrorKey: string := "TooManyRequestsError"
  const RequestHeaderFieldsTooLargeErrorKey: string := "RequestHeaderFieldsTooLargeError"
  const UnavailableForLegalReasonsErrorKey: string := "UnavailableForLegalReasonsError"
  const InternalServerErrorKey: string := "InternalServerError"
  const NotImplementedErrorKey: string := "NotImplementedError"
  const BadGatewayErrorKey: string := "BadGatewayError"
  const ServiceUnavailableErrorKey: string := "ServiceUnavailableError"
  const GatewayTimeoutErrorKey: string := "GatewayTimeoutError"
  const HttpVersionNotSupportedErrorKey: string := "HttpVersionNotSupportedError"
  const VariantAlsoNegotiatesErrorKey: string := "VariantAlsoNegotiatesError"
  const InsufficientStorageErrorKey: string := "InsufficientStorageError"
  const LoopDetectedErrorKey: string := "LoopDetectedError"
  const BandwidthLimitExceededErrorKey: string := "BandwidthLimitExceededError"
  const NotExtendedErrorKey: string := "NotExtendedError"
  const NetworkAuthenticationRequiredErrorKey: string := "NetworkAuthenticationRequiredError"
  const ValidationErrorKey: string := "ValidationError"

  /** `defaultErrors`: `httpErrors` under their keys, plus `ValidationError`. */
  function DefaultErrors(): map<string, ErrorKind> {
    map[
      BadRequestErrorKey := HttpError(BadRequestError),
      UnauthorizedErrorKey := HttpError(UnauthorizedError),
      PaymentRequiredErrorKey := HttpError(PaymentRequiredError),
      ForbiddenErrorKey := HttpError(ForbiddenError),
      NotFoundErrorKey := HttpError(NotFoundError),
      MethodNotAllowedErrorKey := HttpError(MethodNotAllowedError),
      ProxyAuthenticationRequiredErrorKey := HttpError(ProxyAuthenticationRequiredError),
      RequestTimeoutErrorKey := HttpError(RequestTimeoutError),
      ConflictErrorKey := HttpError(ConflictError),
      GoneErrorKey := HttpError(GoneError),
      LengthRequiredErrorKey := HttpError(LengthRequiredError),
      PreconditionFailedErrorKey := HttpError(PreconditionFailedError),
      UriTooLongErrorKey := HttpError(UriTooLongError),
      UnsupportedMediaTypeErrorKey := HttpError(UnsupportedMediaTypeError),
      RangeNotSatisfiableErrorKey := HttpError(RangeNotSatisfiableError),
      ExpectationFailedErrorKey := HttpError(ExpectationFailedError),
      ImATeapotErrorKey := HttpError(ImATeapotError),
      MisdirectedRequestErrorKey := HttpError(MisdirectedRequestError),
      UnprocessableEntityErrorKey := HttpError(UnprocessableEntityError),
      LockedErrorKey := HttpError(LockedError),
      FailedDependencyErrorKey := HttpError(FailedDependencyError),
      TooEarlyErrorKey := HttpError(TooEarlyError),
      UpgradeRequiredErrorKey := HttpError(UpgradeRequiredError),
      PreconditionRequiredErrorKey := HttpError(PreconditionRequiredError),
      TooManyRequestsErrorKey := HttpError(TooManyRequestsError),
      RequestHeaderFieldsTooLargeErrorKey := HttpError(RequestHeaderFieldsTooLargeError),
      UnavailableForLegalReasonsErrorKey := HttpError(UnavailableForLegalReasonsError),
      InternalServerErrorKey := HttpError(InternalServerError),
      NotImplementedErrorKey := HttpError(NotImplementedError),
      BadGatewayErrorKey := HttpError(BadGatewayError),
      ServiceUnavailableErrorKey := HttpError(ServiceUnavailableError),
      GatewayTimeoutErrorKey := HttpError(GatewayTimeoutError),
      HttpVersionNotSupportedErrorKey := HttpError(HttpVersionNotSupportedError),
      VariantAlsoNegotiatesErrorKey := HttpError(VariantAlsoNegotiatesError),
      InsufficientStorageErrorKey := HttpError(InsufficientStorageError),
      LoopDetectedErrorKey := HttpError(LoopDetectedError),
      BandwidthLimitExceededErrorKey := HttpError(BandwidthLimitExceededError),
      NotExtendedErrorKey := HttpError(NotExtendedError),
      NetworkAuthenticationRequiredErrorKey := HttpError(NetworkAuthenticationRequiredError),
      ValidationErrorKey := ValidationErrorKind
    ]
  }

  /** The default table holds `NotFoundError` under its own name. */
  lemma DefaultErrorsHoldNotFound()
    ensures "NotFoundError" in DefaultErrors() && DefaultErrors()["NotFoundError"] == HttpError(NotFoundError)
  {
  }

  /** The default table holds `BadRequestError` under its own name. */
  lemma DefaultErrorsHoldBadRequest()
    ensures "BadRequestError" in DefaultErrors() && DefaultErrors()["BadRequestError"] == HttpError(BadRequestError)
  {
  }

  /** The default table holds the `ValidationError` kind under its own name. */
  lemma DefaultErrorsHoldValidation()
    ensures "ValidationError" in DefaultErrors() && DefaultErrors()["ValidationError"] == ValidationErrorKind
  {
  }

  /** The class of src/https-errors.ts with the same name as a key. */
  function ClassOf(name: HttpErrorName): HttpsErrors.CatalogClass {
    match name
    case BadRequestError                    => HttpsErrors.BadRequestError
    case UnauthorizedError                  => HttpsErrors.UnauthorizedError
    case PaymentRequiredError               => HttpsErrors.PaymentRequiredError
    case ForbiddenError                     => HttpsErrors.ForbiddenError
    case NotFoundError                      => HttpsErrors.NotFoundError
    case MethodNotAllowedError              => HttpsErrors.MethodNotAllowedError
    case ProxyAuthenticationRequiredError   => HttpsErrors.ProxyAuthenticationRequiredError
    case RequestTimeoutError                => HttpsErrors.RequestTimeoutError
    case ConflictError                      => HttpsErrors.ConflictError
    case GoneError                          => HttpsErrors.GoneError
    case LengthRequiredError                => HttpsErrors.LengthRequiredError
    case PreconditionFailedError            => HttpsErrors.PreconditionFailedError
    case UriTooLongError                    => HttpsErrors.UriTooLongError
    case UnsupportedMediaTypeError          => HttpsErrors.UnsupportedMediaTypeError
    case RangeNotSatisfiableError           => HttpsErrors.RangeNotSatisfiableError
    case ExpectationFailedError             => HttpsErrors.ExpectationFailedError
    case ImATeapotError                     => HttpsErrors.ImATeapotError
    case MisdirectedRequestError            => HttpsErrors.MisdirectedRequestError
    case UnprocessableEntityError           => HttpsErrors.UnprocessableEntityError
    case LockedError                        => HttpsErrors.LockedError
    case FailedDependencyError              => HttpsErrors.FailedDependencyError
    case TooEarlyError                      => HttpsErrors.TooEarlyError
    case UpgradeRequiredError               => HttpsErrors.UpgradeRequiredError
    case PreconditionRequiredError          => HttpsErrors.PreconditionRequiredError
    case TooManyRequestsError               => HttpsErrors.TooManyRequestsError
    case RequestHeaderFieldsTooLargeError   => HttpsErrors.RequestHeaderFieldsTooLargeError
    case UnavailableForLegalReasonsError    => HttpsErrors.UnavailableForLegalReasonsError
    case InternalServerError                => HttpsErrors.InternalServerError
    case NotImplementedError                => HttpsErrors.NotImplementedError
    case BadGatewayError                    => HttpsErrors.BadGatewayError
    case ServiceUnavailableError            => HttpsErrors.ServiceUnavailableError
    case GatewayTimeoutError                => HttpsErrors.GatewayTimeoutError
    case HttpVersionNotSupportedError       => HttpsErrors.HttpVersionNotSupportedError
    case VariantAlsoNegotiatesError         => HttpsErrors.VariantAlsoNegotiatesError
    case InsufficientStorageError           => HttpsErrors.InsufficientStorageError
    case LoopDetectedError                  => HttpsErrors.LoopDetectedError
    case BandwidthLimitExceededError        => HttpsErrors.BandwidthLimitExceededError
    case NotExtendedError                   => HttpsErrors.NotExtendedError
    case NetworkAuthenticationRequiredError => HttpsErrors.NetworkAuthenticationRequiredError
  }

  /** `{...defaults, ...user}`: every key of either table, the caller's kind
      where both declare one. */
  function Merge(defaults: map<string, ErrorKind>, user: map<string, ErrorKind>): (all: map<string, ErrorKind>)
    ensures all.Keys == defaults.Keys + user.Keys
    ensures forall name :: name in user ==> all[name] == user[name]
    ensures forall name :: name in defaults && name !in user ==> all[name] == defaults[name]
  {
    defaults + user
  }

  /** `allErrors` for the kinds a caller registers with the plugin. */
  function AllErrors(user: map<string, ErrorKind>): map<string, ErrorKind> {
    Merge(DefaultErrors(), user)
  }

  /** `ByStatusFindsEveryKey` for the keys with status codes up to 405. */
  lemma ByStatusFindsEveryKeyUpTo405(name: HttpErrorName)
    requires StatusOf(name) <= 405
    ensures NameOfStatus(StatusOf(name)) == Some(name)
  {
  }

  /** `ByStatusFindsEveryKey` for the keys with status codes from 406 to 411. */
  lemma ByStatusFindsEveryKeyFrom406To411(name: HttpErrorName)
    requires 405 < StatusOf(name) <= 411
    ensures NameOfStatus(StatusOf(name)) == Some(name)
  {
  }

  /** `ByStatusFindsEveryKey` for the keys with status codes from 412 to 418. */
  lemma ByStatusFindsEveryKeyFrom412To418(name: HttpErrorName)
    requires 411 < StatusOf(name) <= 418
    ensures NameOfStatus(StatusOf(name)) == Some(name)
  {
  }

  /** `ByStatusFindsEveryKey` for the keys with status codes from 419 to 429. */
  lemma ByStatusFindsEveryKeyFrom419To429(name: HttpErrorName)
    requires 418 < StatusOf(name) <= 429
    ensures NameOfStatus(StatusOf(name)) == Some(name)
  {
  }

  /** `ByStatusFindsEveryKey` for the keys with status codes from 430 to 503. */
  lemma ByStatusFindsEveryKeyFrom430To503(name: HttpErrorName)
    requires 429 < StatusOf(name) <= 503
    ensures NameOfStatus(StatusOf(name)) == Some(name)
  {
  }

  /** `ByStatusFindsEveryKey` for the keys with status codes from 504 on. */
  lemma ByStatusFindsEveryKeyFrom504(name: HttpErrorName)
    requires 503 < StatusOf(name)
    ensures NameOfStatus(StatusOf(name)) == Some(name)
  {
  }

  /** The inversion finds each key under its own status code.
      The proof takes a few status codes at a time. */
  lemma ByStatusFindsEveryKey(name: HttpErrorName)
    ensures NameOfStatus(StatusOf(name)) == Some(name)
  {
    var s := StatusOf(name);
    if s <= 405 {
      ByStatusFindsEveryKeyUpTo405(name);
    } else if s <= 411 {
      ByStatusFindsEveryKeyFrom406To411(name);
    } else if s <= 418 {
      ByStatusFindsEveryKeyFrom412To418(name);
    } else if s <= 429 {
      ByStatusFindsEveryKeyFrom419To429(name);
    } else if s <= 503 {
      ByStatusFindsEveryKeyFrom430To503(name);
    } else {
      ByStatusFindsEveryKeyFrom504(name);
    }
  }

  /** The inversion holds nothing else: it finds a key exactly for the status
      codes the table declares, and that key declares the status asked for. */
  lemma ByStatusFindsOnlyTableKeys(statusCode: int)
    ensures NameOfStatus(statusCode).Some? ==> StatusOf(NameOfStatus(statusCode).value) == statusCode
    ensures NameOfStatus(statusCode).Some? <==> exists name :: StatusOf(name) == statusCode
  {
    if NameOfStatus(statusCode).None? {
      forall name ensures StatusOf(name) != statusCode {
        ByStatusFindsEveryKey(name);
      }
    } else {
      ByStatusFindsEveryKey(NameOfStatus(statusCode).value);
    }
  }

  /** No two keys of the table share a status code, so the inversion loses
      no kind. */
  lemma TableStatusesDistinct(a: HttpErrorName, b: HttpErrorName)
    requires a != b
    ensures StatusOf(a) != StatusOf(b)
  {
    ByStatusFindsEveryKey(a);
    ByStatusFindsEveryKey(b);
  }

  /** `StatusAgreesWithClass` for the keys with status codes up to 405. */
  lemma StatusAgreesWithClassUpTo405(name: HttpErrorName)
    requires StatusOf(name) <= 405
    ensures HttpsErrors.StatusCode(ClassOf(name)) == StatusOf(name)
  {
  }

  /** `StatusAgreesWithClass` for the keys with status codes from 406 to 411. */
  lemma StatusAgreesWithClassFrom406To411(name: HttpErrorName)
    requires 405 < StatusOf(name) <= 411
    ensures HttpsErrors.StatusCode(ClassOf(name)) == StatusOf(name)
  {
  }

  /** `StatusAgreesWithClass` for the keys with status codes from 412 to 418. */
  lemma StatusAgreesWithClassFrom412To418(name: HttpErrorName)
    requires 411 < StatusOf(name) <= 418
    ensures HttpsErrors.StatusCode(ClassOf(name)) == StatusOf(name)
  {
  }

  /** `StatusAgreesWithClass` for the keys with status codes from 419 to 429. */
  lemma StatusAgreesWithClassFrom419To429(name: HttpErrorName)
    requires 418 < StatusOf(name) <= 429
    ensures HttpsErrors.StatusCode(ClassOf(name)) == StatusOf(name)
  {
  }

  /** `StatusAgreesWithClass` for the keys with status codes from 430 to 503. */
  lemma StatusAgreesWithClassFrom430To503(name: HttpErrorName)
    requires 429 < StatusOf(name) <= 503
    ensures HttpsErrors.StatusCode(ClassOf(name)) == StatusOf(name)
  {
  }

  /** `StatusAgreesWithClass` for the keys with status codes from 504 on. */
  lemma StatusAgreesWithClassFrom504(name: HttpErrorName)
    requires 503 < StatusOf(name)
    ensures HttpsErrors.StatusCode(ClassOf(name)) == StatusOf(name)
  {
  }

  /** Each key declares the status code of the class of the same name.
      The proof takes a few status codes at a time. */
  lemma StatusAgreesWithClass(name: HttpErrorName)
    ensures HttpsErrors.StatusCode(ClassOf(name)) == StatusOf(name)
  {
    var s := StatusOf(name);
    if s <= 405 {
      StatusAgreesWithClassUpTo405(name);
    } else if s <= 411 {
      StatusAgreesWithClassFrom406To411(name);
    } else if s <= 418 {
      StatusAgreesWithClassFrom412To418(name);
    } else if s <= 429 {
      StatusAgreesWithClassFrom419To429(name);
    } else if s <= 503 {
      StatusAgreesWithClassFrom430To503(name);
    } else {
      StatusAgreesWithClassFrom504(name);
    }
  }

  /** `MissingFromTable` for the classes with status codes up to 405. */
  lemma MissingFromTableUpTo405(c: HttpsErrors.CatalogClass)
    requires HttpsErrors.StatusCode(c) <= 405
    ensures NameOfStatus(HttpsErrors.StatusCode(c)).None? <==>
      c == HttpsErrors.NotAcceptableError || c == HttpsErrors.PayloadTooLargeError
  {
  }

  /** `MissingFromTable` for the classes with status codes from 406 to 411. */
  lemma MissingFromTableFrom406To411(c: HttpsErrors.CatalogClass)
    requires 405 < HttpsErrors.StatusCode(c) <= 411
    ensures NameOfStatus(HttpsErrors.StatusCode(c)).None? <==>
      c == HttpsErrors.NotAcceptableError || c == HttpsErrors.PayloadTooLargeError
  {
  }

  /** `MissingFromTable` for the classes with status codes from 412 to 418. */
  lemma MissingFromTableFrom412To418(c: HttpsErrors.CatalogClass)
    requires 411 < HttpsErrors.StatusCode(c) <= 418
    ensures NameOfStatus(HttpsErrors.StatusCode(c)).None? <==>
      c == HttpsErrors.NotAcceptableError || c == HttpsErrors.PayloadTooLargeError
  {
  }

  /** `MissingFromTable` for the classes with status codes from 419 to 429. */
  lemma MissingFromTableFrom419To429(c: HttpsErrors.CatalogClass)
    requires 418 < HttpsErrors.StatusCode(c) <= 429
    ensures NameOfStatus(HttpsErrors.StatusCode(c)).None? <==>
      c == HttpsErrors.NotAcceptableError || c == HttpsErrors.PayloadTooLargeError
  {
  }

  /** `MissingFromTable` for the classes with status codes from 430 to 503. */
  lemma MissingFromTableFrom430To503(c: HttpsErrors.CatalogClass)
    requires 429 < HttpsErrors.StatusCode(c) <= 503
    ensures NameOfStatus(HttpsErrors.StatusCode(c)).None? <==>
      c == HttpsErrors.NotAcceptableError || c == HttpsErrors.PayloadTooLargeError
  {
  }

  /** `MissingFromTable` for the classes with status codes from 504 on. */
  lemma MissingFromTableFrom504(c: HttpsErrors.CatalogClass)
    requires 503 < HttpsErrors.StatusCode(c)
    ensures NameOfStatus(HttpsErrors.StatusCode(c)).None? <==>
      c == HttpsErrors.NotAcceptableError || c == HttpsErrors.PayloadTooLargeError
  {
  }

  /** Only 406 and 413 of src/https-errors.ts are missing from the inversion.
      The proof takes a few status codes at a time. */
  lemma MissingFromTable(c: HttpsErrors.CatalogClass)
    ensures NameOfStatus(HttpsErrors.StatusCode(c)).None? <==>
      c == HttpsErrors.NotAcceptableError || c == HttpsErrors.PayloadTooLargeError
  {
    var s := HttpsErrors.StatusCode(c);
    if s <= 405 {
      MissingFromTableUpTo405(c);
    } else if s <= 411 {
      MissingFromTableFrom406To411(c);
    } else if s <= 418 {
      MissingFromTableFrom412To418(c);
    } else if s <= 429 {
      MissingFromTableFrom419To429(c);
    } else if s <= 503 {
      MissingFromTableFrom430To503(c);
    } else {
      MissingFromTableFrom504(c);
    }
  }

  /** The two catalogs differ exactly at 406 and 413: the inversion finds
      every other class's status code, under the key of the same name, and
      finds nothing for those two. */
  lemma TablesDifferAtNotAcceptableAndPayloadTooLarge(c: HttpsErrors.CatalogClass)
    ensures HttpsErrors.StatusCode(c) in {406, 413} <==> NameOfStatus(HttpsErrors.StatusCode(c)).None?
    ensures HttpsErrors.StatusCode(c) !in {406, 413} ==>
      && NameOfStatus(HttpsErrors.StatusCode(c)).Some?
      && ClassOf(NameOfStatus(HttpsErrors.StatusCode(c)).value) == c
  {
    var s := HttpsErrors.StatusCode(c);
    MissingFromTable(c);
    HttpsErrors.StatusIdentifiesClass(c);
    if NameOfStatus(s).Some? {
      var name := NameOfStatus(s).value;
      ByStatusFindsOnlyTableKeys(s);
      StatusAgreesWithClass(name);
      HttpsErrors.StatusIdentifiesClass(ClassOf(name));
    }
  }
}
