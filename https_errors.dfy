/** src/https-errors.ts: the class-based standard catalog. Each exported class
    fixes a status code, a code, a message and `overrideMessage = true`; the
    datatype below has one constructor per class, in the source's order, and
    each static is a function of the class. */
module HttpsErrors {
  import opened Wrappers
  import opened Kinds
  import opened JsValues
  import Format
  import BetterErrors

  /** The classes of the catalog. */
  datatype CatalogClass =
    | BadRequestError
    | UnauthorizedError
    | PaymentRequiredError
    | ForbiddenError
    | NotFoundError
    | MethodNotAllowedError
    | NotAcceptableError
    | ProxyAuthenticationRequiredError
    | RequestTimeoutError
    | ConflictError
    | GoneError
    | LengthRequiredError
    | PreconditionFailedError
    | PayloadTooLargeError
    | UriTooLongError
    | UnsupportedMediaTypeError
    | RangeNotSatisfiableError
    | ExpectationFailedError
    | ImATeapotError
    | MisdirectedRequestError
    | UnprocessableEntityError
    | LockedError
    | FailedDependencyError
    | TooEarlyError
    | UpgradeRequiredError
    | PreconditionRequiredError
    | TooManyRequestsError
    | RequestHeaderFieldsTooLargeError
    | UnavailableForLegalReasonsError
    | InternalServerError
    | NotImplementedError
    | BadGatewayError
    | ServiceUnavailableError
    | GatewayTimeoutError
    | HttpVersionNotSupportedError
    | VariantAlsoNegotiatesError
    | InsufficientStorageError
    | LoopDetectedError
    | BandwidthLimitExceededError
    | NotExtendedError
    | NetworkAuthenticationRequiredError

  /** `static statusCode`. */
  function StatusCode(c: CatalogClass): int {
    match c
    case BadRequestError                    => 400
    case UnauthorizedError                  => 401
    case PaymentRequiredError               => 402
    case ForbiddenError                     => 403
    case NotFoundError                      => 404
    case MethodNotAllowedError              => 405
    case NotAcceptableError                 => 406
    case ProxyAuthenticationRequiredError   => 407
    case RequestTimeoutError                => 408
    case ConflictError                      => 409
    case GoneError                          => 410
    case LengthRequiredError                => 411
    case PreconditionFailedError            => 412
    case PayloadTooLargeError               => 413
    case UriTooLongError                    => 414
    case UnsupportedMediaTypeError          => 415
    case RangeNotSatisfiableError           => 416
    case ExpectationFailedError             => 417
    case ImATeapotError                     => 418
    case MisdirectedRequestError            => 421
    case UnprocessableEntityError           => 422
    case LockedError                        => 423
    case FailedDependencyError              => 424
    case TooEarlyError                      => 425
    case UpgradeRequiredError               => 426
    case PreconditionRequiredError          => 428
    case TooManyRequestsError               => 429
    case RequestHeaderFieldsTooLargeError   => 431
    case UnavailableForLegalReasonsError    => 451
    case InternalServerError                => 500
    case NotImplementedError                => 501
    case BadGatewayError                    => 502
    case ServiceUnavailableError            => 503
    case GatewayTimeoutError                => 504
    case HttpVersionNotSupportedError       => 505
    case VariantAlsoNegotiatesError         => 506
    case InsufficientStorageError           => 507
    case LoopDetectedError                  => 508
    case BandwidthLimitExceededError        => 509
    case NotExtendedError                   => 510
    case NetworkAuthenticationRequiredError => 511
  }

  /** The codes, one per class, as the classes declare them. */
  const BadRequestCode                   : string := "ERR_BAD_REQUEST"
  const UnauthorizedCode                 : string := "ERR_UNAUTHORIZED"
  const PaymentRequiredCode              : string := "ERR_PAYMENT_REQUIRED"
  const ForbiddenCode                    : string := "ERR_FORBIDDEN"
  const NotFoundCode                     : string := "ERR_NOT_FOUND"
  const MethodNotAllowedCode             : string := "ERR_METHOD_NOT_ALLOWED"
  const NotAcceptableCode                : string := "ERR_NOT_ACCEPTABLE"
  const ProxyAuthenticationRequiredCode  : string := "ERR_PROXY_AUTHENTICATION_REQUIRED"
  const RequestTimeoutCode               : string := "ERR_REQUEST_TIMEOUT"
  const ConflictCode                     : string := "ERR_CONFLICT"
  const GoneCode                         : string := "ERR_GONE"
  const LengthRequiredCode               : string := "ERR_LENGTH_REQUIRED"
  const PreconditionFailedCode           : string := "ERR_PRECONDITION_FAILED"
  const PayloadTooLargeCode              : string := "ERR_PAYLOAD_TOO_LARGE"
  const UriTooLongCode                   : string := "ERR_URI_TOO_LONG"
  const UnsupportedMediaTypeCode         : string := "ERR_UNSUPPORTED_MEDIA_TYPE"
  const RangeNotSatisfiableCode          : string := "ERR_RANGE_NOT_SATISFIABLE"
  const ExpectationFailedCode            : string := "ERR_EXPECTATION_FAILED"
  const ImATeapotCode                    : string := "ERR_IM_A_TEAPOT"
  const MisdirectedRequestCode           : string := "ERR_MISDIRECTED_REQUEST"
  const UnprocessableEntityCode          : string := "ERR_UNPROCESSABLE_ENTITY"
  const LockedCode                       : string := "ERR_LOCKED"
  const FailedDependencyCode             : string := "ERR_FAILED_DEPENDENCY"
  const TooEarlyCode                     : string := "ERR_TOO_EARLY"
  const UpgradeRequiredCode              : string := "ERR_UPGRADE_REQUIRED"
  const PreconditionRequiredCode         : string := "ERR_PRECONDITION_REQUIRED"
  const TooManyRequestsCode              : string := "ERR_TOO_MANY_REQUESTS"
  const RequestHeaderFieldsTooLargeCode  : string := "ERR_REQUEST_HEADER_FIELDS_TOO_LARGE"
  const UnavailableForLegalReasonsCode   : string := "ERR_UNAVAILABLE_FOR_LEGAL_REASONS"
  const InternalServerCode               : string := "ERR_INTERNAL_SERVER_ERROR"
  const NotImplementedCode               : string := "ERR_NOT_IMPLEMENTED"
  const BadGatewayCode                   : string := "ERR_BAD_GATEWAY"
  const ServiceUnavailableCode           : string := "ERR_SERVICE_UNAVAILABLE"
  const GatewayTimeoutCode               : string := "ERR_GATEWAY_TIMEOUT"
  const HttpVersionNotSupportedCode      : string := "ERR_HTTP_VERSION_NOT_SUPPORTED"
  const VariantAlsoNegotiatesCode        : string := "ERR_VARIANT_ALSO_NEGOTIATES"
  const InsufficientStorageCode          : string := "ERR_INSUFFICIENT_STORAGE"
  const LoopDetectedCode                 : string := "ERR_LOOP_DETECTED"
  const BandwidthLimitExceededCode       : string := "ERR_BANDWIDTH_LIMIT_EXCEEDED"
  const NotExtendedCode                  : string := "ERR_NOT_EXTENDED"
  const NetworkAuthenticationRequiredCode: string := "ERR_NETWORK_AUTHENTICATION_REQUIRED"

  /** `static code`. */
  function Code(c: CatalogClass): string {
    match c
    case BadRequestError                    => BadRequestCode
    case UnauthorizedError                  => UnauthorizedCode
    case PaymentRequiredError               => PaymentRequiredCode
    case ForbiddenError                     => ForbiddenCode
    case NotFoundError                      => NotFoundCode
    case MethodNotAllowedError              => MethodNotAllowedCode
    case NotAcceptableError                 => NotAcceptableCode
    case ProxyAuthenticationRequiredError   => ProxyAuthenticationRequiredCode
    case RequestTimeoutError                => RequestTimeoutCode
    case ConflictError                      => ConflictCode
    case GoneError                          => GoneCode
    case LengthRequiredError                => LengthRequiredCode
    case PreconditionFailedError            => PreconditionFailedCode
    case PayloadTooLargeError               => PayloadTooLargeCode
    case UriTooLongError                    => UriTooLongCode
    case UnsupportedMediaTypeError          => UnsupportedMediaTypeCode
    case RangeNotSatisfiableError           => RangeNotSatisfiableCode
    case ExpectationFailedError             => ExpectationFailedCode
    case ImATeapotError                     => ImATeapotCode
    case MisdirectedRequestError            => MisdirectedRequestCode
    case UnprocessableEntityError           => UnprocessableEntityCode
    case LockedError                        => LockedCode
    case FailedDependencyError              => FailedDependencyCode
    case TooEarlyError                      => TooEarlyCode
    case UpgradeRequiredError               => UpgradeRequiredCode
    case PreconditionRequiredError          => PreconditionRequiredCode
    case TooManyRequestsError               => TooManyRequestsCode
    case RequestHeaderFieldsTooLargeError   => RequestHeaderFieldsTooLargeCode
    case UnavailableForLegalReasonsError    => UnavailableForLegalReasonsCode
    case InternalServerError                => InternalServerCode
    case NotImplementedError                => NotImplementedCode
    case BadGatewayError                    => BadGatewayCode
    case ServiceUnavailableError            => ServiceUnavailableCode
    case GatewayTimeoutError                => GatewayTimeoutCode
    case HttpVersionNotSupportedError       => HttpVersionNotSupportedCode
    case VariantAlsoNegotiatesError         => VariantAlsoNegotiatesCode
    case InsufficientStorageError           => InsufficientStorageCode
    case LoopDetectedError                  => LoopDetectedCode
    case BandwidthLimitExceededError        => BandwidthLimitExceededCode
    case NotExtendedError                   => NotExtendedCode
    case NetworkAuthenticationRequiredError => NetworkAuthenticationRequiredCode
  }

  /** `static message`, the template every instance renders. */
  function Message(c: CatalogClass): string {
    match c
    case BadRequestError                    => "Bad Request"
    case UnauthorizedError                  => "Unauthorized"
    case PaymentRequiredError               => "Payment Required"
    case ForbiddenError                     => "Forbidden"
    case NotFoundError                      => "Not Found"
    case MethodNotAllowedError              => "Method Not Allowed"
    case NotAcceptableError                 => "Not Acceptable"
    case ProxyAuthenticationRequiredError   => "Proxy Authentication Required"
    case RequestTimeoutError                => "Request Timeout"
    case ConflictError                      => "Conflict"
    case GoneError                          => "Gone"
    case LengthRequiredError                => "Length Required"
    case PreconditionFailedError            => "Precondition Failed"
    case PayloadTooLargeError               => "Payload Too Large"
    case UriTooLongError                    => "URI Too Long"
    case UnsupportedMediaTypeError          => "Unsupported Media Type"
    case RangeNotSatisfiableError           => "Range Not Satisfiable"
    case ExpectationFailedError             => "Expectation Failed"
    case ImATeapotError                     => "I'm a teapot"
    case MisdirectedRequestError            => "Misdirected Request"
    case UnprocessableEntityError           => "Unprocessable Entity"
    case LockedError                        => "Locked"
    case FailedDependencyError              => "Failed Dependency"
    case TooEarlyError                      => "Too Early"
    case UpgradeRequiredError               => "Upgrade Required"
    case PreconditionRequiredError          => "Precondition Required"
    case TooManyRequestsError               => "Too Many Requests"
    case RequestHeaderFieldsTooLargeError   => "Request Header Fields Too Large"
    case UnavailableForLegalReasonsError    => "Unavailable For Legal Reasons"
    case InternalServerError                => "Internal Server Error"
    case NotImplementedError                => "Not Implemented"
    case BadGatewayError                    => "Bad Gateway"
    case ServiceUnavailableError            => "Service Unavailable"
    case GatewayTimeoutError                => "Gateway Timeout"
    case HttpVersionNotSupportedError       => "HTTP Version Not Supported"
    case VariantAlsoNegotiatesError         => "Variant Also Negotiates"
    case InsufficientStorageError           => "Insufficient Storage"
    case LoopDetectedError                  => "Loop Detected"
    case BandwidthLimitExceededError        => "Bandwidth Limit Exceeded"
    case NotExtendedError                   => "Not Extended"
    case NetworkAuthenticationRequiredError => "Network Authentication Required"
  }

  /** `static overrideMessage`. */
  function OverrideMessage(c: CatalogClass): bool {
    match c
    case BadRequestError                    => true
    case UnauthorizedError                  => true
    case PaymentRequiredError               => true
    case ForbiddenError                     => true
    case NotFoundError                      => true
    case MethodNotAllowedError              => true
    case NotAcceptableError                 => true
    case ProxyAuthenticationRequiredError   => true
    case RequestTimeoutError                => true
    case ConflictError                      => true
    case GoneError                          => true
    case LengthRequiredError                => true
    case PreconditionFailedError            => true
    case PayloadTooLargeError               => true
    case UriTooLongError                    => true
    case UnsupportedMediaTypeError          => true
    case RangeNotSatisfiableError           => true
    case ExpectationFailedError             => true
    case ImATeapotError                     => true
    case MisdirectedRequestError            => true
    case UnprocessableEntityError           => true
    case LockedError                        => true
    case FailedDependencyError              => true
    case TooEarlyError                      => true
    case UpgradeRequiredError               => true
    case PreconditionRequiredError          => true
    case TooManyRequestsError               => true
    case RequestHeaderFieldsTooLargeError   => true
    case UnavailableForLegalReasonsError    => true
    case InternalServerError                => true
    case NotImplementedError                => true
    case BadGatewayError                    => true
    case ServiceUnavailableError            => true
    case GatewayTimeoutError                => true
    case HttpVersionNotSupportedError       => true
    case VariantAlsoNegotiatesError         => true
    case InsufficientStorageError           => true
    case LoopDetectedError                  => true
    case BandwidthLimitExceededError        => true
    case NotExtendedError                   => true
    case NetworkAuthenticationRequiredError => true
  }

  /** The class as an error kind (no description, no example). */
  function Kind(c: CatalogClass): (k: ErrorKind)
    ensures k.statusCode == StatusCode(c) && k.code == Code(c) && k.message == Message(c)
    ensures k.description == None && k.example == None
  {
    ErrorKind(StatusCode(c), Code(c), Message(c), None, None)
  }

  /** The class declaring a status code, if any. */
  function ClassOfStatus(statusCode: int): Option<CatalogClass> {
    match statusCode
    case 400 => Some(BadRequestError)
    case 401 => Some(UnauthorizedError)
    case 402 => Some(PaymentRequiredError)
    case 403 => Some(ForbiddenError)
    case 404 => Some(NotFoundError)
    case 405 => Some(MethodNotAllowedError)
    case 406 => Some(NotAcceptableError)
    case 407 => Some(ProxyAuthenticationRequiredError)
    case 408 => Some(RequestTimeoutError)
    case 409 => Some(ConflictError)
    case 410 => Some(GoneError)
    case 411 => Some(LengthRequiredError)
    case 412 => Some(PreconditionFailedError)
    case 413 => Some(PayloadTooLargeError)
    case 414 => Some(UriTooLongError)
    case 415 => Some(UnsupportedMediaTypeError)
    case 416 => Some(RangeNotSatisfiableError)
    case 417 => Some(ExpectationFailedError)
    case 418 => Some(ImATeapotError)
    case 421 => Some(MisdirectedRequestError)
    case 422 => Some(UnprocessableEntityError)
    case 423 => Some(LockedError)
    case 424 => Some(FailedDependencyError)
    case 425 => Some(TooEarlyError)
    case 426 => Some(UpgradeRequiredError)
    case 428 => Some(PreconditionRequiredError)
    case 429 => Some(TooManyRequestsError)
    case 431 => Some(RequestHeaderFieldsTooLargeError)
    case 451 => Some(UnavailableForLegalReasonsError)
    case 500 => Some(InternalServerError)
    case 501 => Some(NotImplementedError)
    case 502 => Some(BadGatewayError)
    case 503 => Some(ServiceUnavailableError)
    case 504 => Some(GatewayTimeoutError)
    case 505 => Some(HttpVersionNotSupportedError)
    case 506 => Some(VariantAlsoNegotiatesError)
    case 507 => Some(InsufficientStorageError)
    case 508 => Some(LoopDetectedError)
    case 509 => Some(BandwidthLimitExceededError)
    case 510 => Some(NotExtendedError)
    case 511 => Some(NetworkAuthenticationRequiredError)
    case _ => None
  }

  /** Length of each class's code; a helper that lets code comparisons be
      settled by length first. */
  function CodeLength(c: CatalogClass): nat {
    match c
    case BadRequestError                    => 15
    case UnauthorizedError                  => 16
    case PaymentRequiredError               => 20
    case ForbiddenError                     => 13
    case NotFoundError                      => 13
    case MethodNotAllowedError              => 22
    case NotAcceptableError                 => 18
    case ProxyAuthenticationRequiredError   => 33
    case RequestTimeoutError                => 19
    case ConflictError                      => 12
    case GoneError                          => 8
    case LengthRequiredError                => 19
    case PreconditionFailedError            => 23
    case PayloadTooLargeError               => 21
    case UriTooLongError                    => 16
    case UnsupportedMediaTypeError          => 26
    case RangeNotSatisfiableError           => 25
    case ExpectationFailedError             => 22
    case ImATeapotError                     => 15
    case MisdirectedRequestError            => 23
    case UnprocessableEntityError           => 24
    case LockedError                        => 10
    case FailedDependencyError              => 21
    case TooEarlyError                      => 13
    case UpgradeRequiredError               => 20
    case PreconditionRequiredError          => 25
    case TooManyRequestsError               => 21
    case RequestHeaderFieldsTooLargeError   => 35
    case UnavailableForLegalReasonsError    => 33
    case InternalServerError                => 25
    case NotImplementedError                => 19
    case BadGatewayError                    => 15
    case ServiceUnavailableError            => 23
    case GatewayTimeoutError                => 19
    case HttpVersionNotSupportedError       => 30
    case VariantAlsoNegotiatesError         => 27
    case InsufficientStorageError           => 24
    case LoopDetectedError                  => 17
    case BandwidthLimitExceededError        => 28
    case NotExtendedError                   => 16
    case NetworkAuthenticationRequiredError => 35
  }

  /** Every status code is a client or server error code, 400 to 511. */
  lemma StatusInRange(c: CatalogClass)
    ensures 400 <= StatusCode(c) <= 511
  {
  }

  /** `StatusIdentifiesClass` for the classes with status codes up to 405. */
  lemma StatusIdentifiesClassUpTo405(c: CatalogClass)
    requires StatusCode(c) <= 405
    ensures ClassOfStatus(StatusCode(c)) == Some(c)
  {
  }

  /** `StatusIdentifiesClass` for the classes with status codes from 406 to 411. */
  lemma StatusIdentifiesClassFrom406To411(c: CatalogClass)
    requires 405 < StatusCode(c) <= 411
    ensures ClassOfStatus(StatusCode(c)) == Some(c)
  {
  }

  /** `StatusIdentifiesClass` for the classes with status codes from 412 to 418. */
  lemma StatusIdentifiesClassFrom412To418(c: CatalogClass)
    requires 411 < StatusCode(c) <= 418
    ensures ClassOfStatus(StatusCode(c)) == Some(c)
  {
  }

  /** `StatusIdentifiesClass` for the classes with status codes from 419 to 429. */
  lemma StatusIdentifiesClassFrom419To429(c: CatalogClass)
    requires 418 < StatusCode(c) <= 429
    ensures ClassOfStatus(StatusCode(c)) == Some(c)
  {
  }

  /** `StatusIdentifiesClass` for the classes with status codes from 430 to 503. */
  lemma StatusIdentifiesClassFrom430To503(c: CatalogClass)
    requires 429 < StatusCode(c) <= 503
    ensures ClassOfStatus(StatusCode(c)) == Some(c)
  {
  }

  /** `StatusIdentifiesClass` for the classes with status codes from 504 on. */
  lemma StatusIdentifiesClassFrom504(c: CatalogClass)
    requires 503 < StatusCode(c)
    ensures ClassOfStatus(StatusCode(c)) == Some(c)
  {
  }

  /** Looking a class's status code up finds that class.
      The proof takes a few status codes at a time. */
  lemma StatusIdentifiesClass(c: CatalogClass)
    ensures ClassOfStatus(StatusCode(c)) == Some(c)
  {
    var s := StatusCode(c);
    if s <= 405 {
      StatusIdentifiesClassUpTo405(c);
    } else if s <= 411 {
      StatusIdentifiesClassFrom406To411(c);
    } else if s <= 418 {
      StatusIdentifiesClassFrom412To418(c);
    } else if s <= 429 {
      StatusIdentifiesClassFrom419To429(c);
    } else if s <= 503 {
      StatusIdentifiesClassFrom430To503(c);
    } else {
      StatusIdentifiesClassFrom504(c);
    }
  }

  /** Whatever the lookup finds declares the status it was asked for. */
  lemma ClassOfStatusDeclaresIt(statusCode: int)
    ensures ClassOfStatus(statusCode).Some? ==> StatusCode(ClassOfStatus(statusCode).value) == statusCode
    ensures ClassOfStatus(statusCode).Some? <==> exists c :: StatusCode(c) == statusCode
  {
    if ClassOfStatus(statusCode).None? {
      forall c ensures StatusCode(c) != statusCode {
        StatusIdentifiesClass(c);
      }
    }
  }

  /** No two classes share a status code. */
  lemma StatusesDistinct(a: CatalogClass, b: CatalogClass)
    requires a != b
    ensures StatusCode(a) != StatusCode(b)
  {
    StatusIdentifiesClass(a);
    StatusIdentifiesClass(b);
  }

  /** A code of the shape the catalog uses: `ERR_` first, and as long as
      `CodeLength` says. */
  predicate CodeShaped(c: CatalogClass) {
    "ERR_" <= Code(c) && |Code(c)| == CodeLength(c)
  }

  /** `CodeShaped` for the classes with status codes from 400 to 404. */
  lemma CodeShapedFrom400To404(c: CatalogClass)
    requires 400 <= StatusCode(c) <= 404
    ensures CodeShaped(c)
  {
  }

  /** `CodeShaped` for the classes with status codes from 405 to 409. */
  lemma CodeShapedFrom405To409(c: CatalogClass)
    requires 405 <= StatusCode(c) <= 409
    ensures CodeShaped(c)
  {
  }

  /** `CodeShaped` for the classes with status codes from 410 to 414. */
  lemma CodeShapedFrom410To414(c: CatalogClass)
    requires 410 <= StatusCode(c) <= 414
    ensures CodeShaped(c)
  {
  }

  /** `CodeShaped` for the classes with status codes from 415 to 421. */
  lemma CodeShapedFrom415To421(c: CatalogClass)
    requires 415 <= StatusCode(c) <= 421
    ensures CodeShaped(c)
  {
  }

  /** `CodeShaped` for the classes with status codes from 422 to 426. */
  lemma CodeShapedFrom422To426(c: CatalogClass)
    requires 422 <= StatusCode(c) <= 426
    ensures CodeShaped(c)
  {
  }

  /** `CodeShaped` for the classes with status codes from 428 to 451. */
  lemma CodeShapedFrom428To451(c: CatalogClass)
    requires 428 <= StatusCode(c) <= 451
    ensures CodeShaped(c)
  {
  }

  /** `CodeShaped` for the classes with status codes from 500 to 504. */
  lemma CodeShapedFrom500To504(c: CatalogClass)
    requires 500 <= StatusCode(c) <= 504
    ensures CodeShaped(c)
  {
  }

  /** `CodeShaped` for the classes with status codes from 505 to 508. */
  lemma CodeShapedFrom505To508(c: CatalogClass)
    requires 505 <= StatusCode(c) <= 508
    ensures CodeShaped(c)
  {
  }

  /** `CodeShaped` for the classes with status codes from 509 to 511. */
  lemma CodeShapedFrom509To511(c: CatalogClass)
    requires 509 <= StatusCode(c) <= 511
    ensures CodeShaped(c)
  {
  }

  /** Every code is shaped as `CodeShaped` says; the classes are taken a
      few status codes at a time. */
  lemma CodeShape(c: CatalogClass)
    ensures CodeShaped(c)
  {
    var s := StatusCode(c);
    StatusInRange(c);
    if s <= 404 {
      CodeShapedFrom400To404(c);
    } else if s <= 409 {
      CodeShapedFrom405To409(c);
    } else if s <= 414 {
      CodeShapedFrom410To414(c);
    } else if s <= 421 {
      CodeShapedFrom415To421(c);
    } else if s <= 426 {
      CodeShapedFrom422To426(c);
    } else if s <= 451 {
      CodeShapedFrom428To451(c);
    } else if s <= 504 {
      CodeShapedFrom500To504(c);
    } else if s <= 508 {
      CodeShapedFrom505To508(c);
    } else {
      CodeShapedFrom509To511(c);
    }
  }

  /** `CodeLength` is the length of the code; it lets distinctness be
      checked one length at a time. */
  lemma CodeLengthIsLength(c: CatalogClass)
    ensures |Code(c)| == CodeLength(c)
  {
    CodeShape(c);
  }

  /** The lengths that more than one code has. */
  lemma SharedCodeLength(a: CatalogClass, b: CatalogClass)
    requires a != b && CodeLength(a) == CodeLength(b)
    ensures CodeLength(a) in {13, 15, 16, 19, 20, 21, 22, 23, 24, 25, 33, 35}
  {
  }

  /** Codes of length 13 differ. */
  lemma CodesOfLength13Distinct(a: CatalogClass, b: CatalogClass)
    requires a != b && CodeLength(a) == CodeLength(b) == 13
    ensures Code(a) != Code(b)
  {
  }

  /** Codes of length 15 differ. */
  lemma CodesOfLength15Distinct(a: CatalogClass, b: CatalogClass)
    requires a != b && CodeLength(a) == CodeLength(b) == 15
    ensures Code(a) != Code(b)
  {
  }

  /** Codes of length 16 differ. */
  lemma CodesOfLength16Distinct(a: CatalogClass, b: CatalogClass)
    requires a != b && CodeLength(a) == CodeLength(b) == 16
    ensures Code(a) != Code(b)
  {
  }

  /** Codes of length 19 differ. */
  lemma CodesOfLength19Distinct(a: CatalogClass, b: CatalogClass)
    requires a != b && CodeLength(a) == CodeLength(b) == 19
    ensures Code(a) != Code(b)
  {
  }

  /** Codes of length 20 differ. */
  lemma CodesOfLength20Distinct(a: CatalogClass, b: CatalogClass)
    requires a != b && CodeLength(a) == CodeLength(b) == 20
    ensures Code(a) != Code(b)
  {
  }

  /** Codes of length 21 differ. */
  lemma CodesOfLength21Distinct(a: CatalogClass, b: CatalogClass)
    requires a != b && CodeLength(a) == CodeLength(b) == 21
    ensures Code(a) != Code(b)
  {
  }

  /** Codes of length 22 differ. */
  lemma CodesOfLength22Distinct(a: CatalogClass, b: CatalogClass)
    requires a != b && CodeLength(a) == CodeLength(b) == 22
    ensures Code(a) != Code(b)
  {
  }

  /** Codes of length 23 differ. */
  lemma CodesOfLength23Distinct(a: CatalogClass, b: CatalogClass)
    requires a != b && CodeLength(a) == CodeLength(b) == 23
    ensures Code(a) != Code(b)
  {
  }

  /** Codes of length 24 differ. */
  lemma CodesOfLength24Distinct(a: CatalogClass, b: CatalogClass)
    requires a != b && CodeLength(a) == CodeLength(b) == 24
    ensures Code(a) != Code(b)
  {
  }

  /** Codes of length 25 differ. */
  lemma CodesOfLength25Distinct(a: CatalogClass, b: CatalogClass)
    requires a != b && CodeLength(a) == CodeLength(b) == 25
    ensures Code(a) != Code(b)
  {
  }

  /** Codes of length 33 differ. */
  lemma CodesOfLength33Distinct(a: CatalogClass, b: CatalogClass)
    requires a != b && CodeLength(a) == CodeLength(b) == 33
    ensures Code(a) != Code(b)
  {
  }

  /** Codes of length 35 differ. */
  lemma CodesOfLength35Distinct(a: CatalogClass, b: CatalogClass)
    requires a != b && CodeLength(a) == CodeLength(b) == 35
    ensures Code(a) != Code(b)
  {
  }

  /** Codes of the same length differ; each shared length is taken on its
      own. */
  lemma CodesOfEqualLengthDistinct(a: CatalogClass, b: CatalogClass)
    requires a != b && CodeLength(a) == CodeLength(b)
    ensures Code(a) != Code(b)
  {
    var n := CodeLength(a);
    SharedCodeLength(a, b);
    if n == 13 {
      CodesOfLength13Distinct(a, b);
    } else if n == 15 {
      CodesOfLength15Distinct(a, b);
    } else if n == 16 {
      CodesOfLength16Distinct(a, b);
    } else if n == 19 {
      CodesOfLength19Distinct(a, b);
    } else if n == 20 {
      CodesOfLength20Distinct(a, b);
    } else if n == 21 {
      CodesOfLength21Distinct(a, b);
    } else if n == 22 {
      CodesOfLength22Distinct(a, b);
    } else if n == 23 {
      CodesOfLength23Distinct(a, b);
    } else if n == 24 {
      CodesOfLength24Distinct(a, b);
    } else if n == 25 {
      CodesOfLength25Distinct(a, b);
    } else if n == 33 {
      CodesOfLength33Distinct(a, b);
    } else {
      CodesOfLength35Distinct(a, b);
    }
  }

  /** No two classes share a code. */
  lemma CodesDistinct(a: CatalogClass, b: CatalogClass)
    requires a != b
    ensures Code(a) != Code(b)
  {
    if CodeLength(a) != CodeLength(b) {
      CodeLengthIsLength(a);
      CodeLengthIsLength(b);
    } else {
      CodesOfEqualLengthDistinct(a, b);
    }
  }

  /** Every code starts with `ERR_`. */
  lemma CodeHasPrefix(c: CatalogClass)
    ensures "ERR_" <= Code(c)
  {
    CodeShape(c);
  }

  /** Every class sets `overrideMessage`. */
  lemma EveryClassOverridesMessage(c: CatalogClass)
    ensures OverrideMessage(c)
  {
  }

  /** `NotFoundError` as the source declares it. */
  lemma NotFoundClass()
    ensures Kind(NotFoundError) == ErrorKind(404, "ERR_NOT_FOUND", "Not Found", None, None)
  {
  }

  /** `InternalServerError` as the source declares it. */
  lemma InternalServerErrorClass()
    ensures Kind(InternalServerError) == ErrorKind(500, "ERR_INTERNAL_SERVER_ERROR", "Internal Server Error", None, None)
  {
  }

  /** This catalog declares 406 and 413. */
  lemma DeclaresNotAcceptableAndPayloadTooLarge()
    ensures ClassOfStatus(406) == Some(NotAcceptableError) && Code(NotAcceptableError) == "ERR_NOT_ACCEPTABLE"
    ensures ClassOfStatus(413) == Some(PayloadTooLargeError) && Code(PayloadTooLargeError) == "ERR_PAYLOAD_TOO_LARGE"
  {
  }

  /** `new C()`: no class overrides the constructor, so an instance built
      without arguments carries exactly its class's status, code and message. */
  method NewInstance(c: CatalogClass) returns (e: BetterErrors.BetterError)
    ensures fresh(e)
    ensures e.statusCode == StatusCode(c) && e.code == Code(c) && e.message == Message(c)
    ensures e.validation == None && e.validationContext == None && e.cause == None
  {
    e := new BetterErrors.BetterError(Kind(c), []);
    Format.RenderWithoutArgs(Message(c));
  }

  /** An instance of class `c`, seen by `equals` as an object with `c`'s code,
      is recognised by `c.equals` and by no other class of the catalog. */
  lemma EqualsRecognisesOwnClassOnly(c: CatalogClass, d: CatalogClass)
    ensures BetterErrors.Equals(Kind(d), Object(Str(Code(c)))) <==> c == d
  {
    CodeHasPrefix(d);
    if c != d {
      CodesDistinct(c, d);
    }
  }
}
