/** GlobalExceptionHandler: each failure the request path can raise becomes an
    HTTP status and a body that repeats that status. The handler for a failure
    is the most specific one declared for its exception class. */
module ErrorResponses {
  import opened Common
  import opened RequestValidation
  import Domain
  import CustomerValidation

  const UNPROCESSABLE_ENTITY := 422
  const CONFLICT := 409
  const NOT_FOUND := 404
  const INTERNAL_SERVER_ERROR := 500

  const RECORD_NOT_FOUND_MESSAGE := "Record not found"
  const KEYCLOAK_MESSAGE := "An error occurred while processing Keycloak operation"
  const UNHANDLED_MESSAGE := "Unhandled error, contact development"

  /** What reaches the handler: a request that failed field validation
      (`MethodArgumentNotValidException`), or a runtime exception. */
  datatype Failure = ValidationFailed(violations: seq<Violation>) | Raised(error: Error)

  datatype FieldError = FieldError(field: string, message: string)

  /** `ValidationErrorResponse` and `ErrorResponse`, without their timestamp. */
  datatype Body =
    | ValidationBody(status: int, errors: seq<FieldError>)
    | ErrorBody(status: int, message: string)

  datatype Response = Response(httpStatus: int, body: Body)

  /** The stream `map(...).toList()` over the binding result's field errors. */
  function FieldErrors(violations: seq<Violation>): (errors: seq<FieldError>)
    ensures |errors| == |violations|
    ensures forall i :: 0 <= i < |errors| ==> errors[i] == FieldError(violations[i].field, violations[i].message)
  {
    if violations == [] then []
    else [FieldError(violations[0].field, violations[0].message)] + FieldErrors(violations[1..])
  }

  function ErrorResponse(status: int, message: string): Response {
    Response(status, ErrorBody(status, message))
  }

  /** The handler chosen for a failure builds the response; every body repeats
      the HTTP status, and only a validation failure has a field-error body. */
  function Handle(f: Failure): (resp: Response)
    ensures resp.body.status == resp.httpStatus
    ensures resp.body.ValidationBody? <==> f.ValidationFailed?
    ensures resp.httpStatus == CONFLICT <==> f.Raised? && f.error.DuplicateRecord?
    ensures f.Raised? ==> resp.httpStatus == CONFLICT || resp.httpStatus == NOT_FOUND || resp.httpStatus == INTERNAL_SERVER_ERROR
  {
    match f
    case ValidationFailed(violations) =>
      Response(UNPROCESSABLE_ENTITY, ValidationBody(UNPROCESSABLE_ENTITY, FieldErrors(violations)))
    case Raised(DuplicateRecord(message)) => ErrorResponse(CONFLICT, message)
    case Raised(RecordNotFound(_)) => ErrorResponse(NOT_FOUND, RECORD_NOT_FOUND_MESSAGE)
    case Raised(KeycloakFailure(_)) => ErrorResponse(INTERNAL_SERVER_ERROR, KEYCLOAK_MESSAGE)
    // BusinessRuleException, NullPointerException and IncorrectResultSizeDataAccessException
    // have no handler of their own
    case Raised(BusinessRule(_)) => ErrorResponse(INTERNAL_SERVER_ERROR, UNHANDLED_MESSAGE)
    case Raised(NullReference) => ErrorResponse(INTERNAL_SERVER_ERROR, UNHANDLED_MESSAGE)
    case Raised(NonUniqueResult) => ErrorResponse(INTERNAL_SERVER_ERROR, UNHANDLED_MESSAGE)
  }

  /** A validation failure is 422 with one entry per violation, in order. */
  lemma ValidationFailureIs422(violations: seq<Violation>)
    ensures Handle(ValidationFailed(violations)).httpStatus == 422
    ensures Handle(ValidationFailed(violations)).body.ValidationBody?
    ensures |Handle(ValidationFailed(violations)).body.errors| == |violations|
    ensures forall i :: 0 <= i < |violations| ==>
      Handle(ValidationFailed(violations)).body.errors[i].field == violations[i].field
      && Handle(ValidationFailed(violations)).body.errors[i].message == violations[i].message
  {
  }

  /** The status of each exception kind. */
  lemma StatusTable(e: Error)
    ensures Handle(Raised(e)).httpStatus == (match e
      case DuplicateRecord(_) => 409
      case RecordNotFound(_) => 404
      case KeycloakFailure(_) => 500
      case BusinessRule(_) => 500
      case NullReference => 500
      case NonUniqueResult => 500)
    ensures Handle(Raised(e)).body.ErrorBody?
  {
  }

  /** The `@ExceptionHandler` that catches each kind. */
  datatype HandlerKind = DuplicateHandler | NotFoundHandler | KeycloakHandler | RuntimeHandler

  function HandlerClass(e: Error): HandlerKind {
    match e
    case DuplicateRecord(_) => DuplicateHandler
    case RecordNotFound(_) => NotFoundHandler
    case KeycloakFailure(_) => KeycloakHandler
    case BusinessRule(_) => RuntimeHandler
    case NullReference => RuntimeHandler
    case NonUniqueResult => RuntimeHandler
  }

  /** Only DuplicateRecord reports the exception's own message; every other kind
      reports a fixed text that does not depend on the exception. */
  lemma OnlyDuplicateEchoesMessage(e: Error, other: Error)
    ensures e.DuplicateRecord? ==> Handle(Raised(e)).body.message == e.message
    ensures e.RecordNotFound? ==> Handle(Raised(e)).body.message == "Record not found"
    ensures e.KeycloakFailure? ==> Handle(Raised(e)).body.message == "An error occurred while processing Keycloak operation"
    ensures e.BusinessRule? || e.NullReference? || e.NonUniqueResult? ==> Handle(Raised(e)).body.message == "Unhandled error, contact development"
    ensures HandlerClass(e) == HandlerClass(other) && !e.DuplicateRecord? ==>
      Handle(Raised(e)) == Handle(Raised(other))
  {
  }

  /** End to end: a rejected address request is answered with 422 and exactly
      its violations, and one with a blank field only with "Required field". */
  lemma RejectedAddressRequestResponse(r: Domain.AddressRequest)
    requires ValidateAddressRequest(r) != []
    ensures Handle(ValidationFailed(ValidateAddressRequest(r))).httpStatus == 422
    ensures !AddressRequestAcceptable(r)
    ensures SomeAddressFieldBlank(r) ==>
      forall e :: e in Handle(ValidationFailed(ValidateAddressRequest(r))).body.errors ==> e.message == REQUIRED
  {
    if SomeAddressFieldBlank(r) {
      AddressBlankReportsOnlyRequired(r);
      var errors := Handle(ValidationFailed(ValidateAddressRequest(r))).body.errors;
      forall e | e in errors
        ensures e.message == REQUIRED
      {
        var i :| 0 <= i < |errors| && errors[i] == e;
        assert ValidateAddressRequest(r)[i] in ValidateAddressRequest(r);
      }
    }
  }

  /** A create whose e-mail two stored customers already share is not a 409: the
      e-mail lookup throws, and the runtime handler answers 500. */
  lemma SharedEmailOnCreateIs500(customers: map<Id, Domain.Customer>, customer: Domain.Customer, j: Id, k: Id)
    requires j in customers && k in customers && j != k
    requires customers[j].email == customer.email && customers[k].email == customer.email
    ensures CustomerValidation.ValidateOnCreate(customers, customer) == Fail(NonUniqueResult)
    ensures Handle(Raised(NonUniqueResult)) == Response(INTERNAL_SERVER_ERROR, ErrorBody(INTERNAL_SERVER_ERROR, UNHANDLED_MESSAGE))
  {
    CustomerValidation.SharedEmailIsNonUnique(customers, customer, j, k);
  }
}
