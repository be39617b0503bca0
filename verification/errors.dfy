/** The application's error type and the mapping from a thrown value to the
    HTTP error response. */
module Errors {
  import opened Wrappers
  import opened Types

  /** The `ErrorStatusCode` table. */
  function StatusCode(n: ErrorName): (code: int)
    ensures 400 <= code <= 500
    ensures code == 500 <==> n == InternalServer
  {
    match n
    case NotFound => 404
    case Forbidden => 403
    case BadRequest => 400
    case Unauthorized => 401
    case InternalServer => 500
  }

  /** Reverse lookup in the status-code table. */
  function NameOfStatus(code: int): (r: Option<ErrorName>)
    ensures r.Some? ==> StatusCode(r.value) == code
  {
    if code == 404 then Some(NotFound)
    else if code == 403 then Some(Forbidden)
    else if code == 400 then Some(BadRequest)
    else if code == 401 then Some(Unauthorized)
    else if code == 500 then Some(InternalServer)
    else None
  }

  /** The table is one-to-one: a status code determines the error name. */
  lemma StatusCodeRoundTrip(n: ErrorName)
    ensures NameOfStatus(StatusCode(n)) == Some(n)
  {
  }

  lemma StatusCodeInjective(a: ErrorName, b: ErrorName)
    ensures StatusCode(a) == StatusCode(b) ==> a == b
  {
  }

  /** A `CustomError`: the inherited `message` plus `name` and `statusCode`. */
  datatype CustomError = CustomError(name: ErrorName, message: string, statusCode: int)

  /** `new CustomError(name, description)`. */
  function NewCustomError(name: ErrorName, description: string): (e: CustomError)
    ensures e.name == name && e.message == description
    ensures NameOfStatus(e.statusCode) == Some(name)
  {
    CustomError(name, description, StatusCode(name))
  }

  /** What reaches `handleError`: a `CustomError`, another `Error` with its
      message, or a value that is not an `Error` at all. */
  datatype Thrown =
    | ThrownCustom(error: CustomError)
    | ThrownError(message: string)
    | ThrownValue

  /** The HTTP status together with the JSON body `{ name, status, message }`. */
  datatype ErrorResponse = ErrorResponse(statusCode: int, name: ErrorName, status: bool, message: string)

  const GenericMessage: string := "Something went wrong"

  function HandleError(e: Thrown): (r: ErrorResponse)
    ensures !r.status
    ensures e.ThrownCustom? ==>
      r.statusCode == e.error.statusCode && r.name == e.error.name && r.message == e.error.message
    ensures e.ThrownError? ==>
      r.statusCode == 500 && r.name == InternalServer && r.message == e.message
    ensures e.ThrownValue? ==> r == ErrorResponse(500, InternalServer, false, GenericMessage)
  {
    var initial := ErrorResponse(500, InternalServer, false, GenericMessage);
    match e
    case ThrownCustom(c) => initial.(name := c.name, message := c.message, statusCode := c.statusCode)
    case ThrownError(m) => initial.(message := m)
    case ThrownValue => initial
  }

  /** A `CustomError` built by the constructor reaches the client with the
      status its name maps to, its name and its description. */
  lemma HandleCustomError(name: ErrorName, description: string)
    ensures HandleError(ThrownCustom(NewCustomError(name, description)))
         == ErrorResponse(StatusCode(name), name, false, description)
  {
  }

  /** The ways a service call can fail: a `CustomError` it throws, a schema
      validation failure on the listed paths, or an insert whose `_id` is
      already taken. The last two are the store's own `Error`s. */
  datatype ServiceError =
    | Raised(error: CustomError)
    | ValidationFailed(model: string, paths: set<string>)
    | DuplicateKey(id: Id)

  function AsThrown(e: ServiceError): Thrown
  {
    match e
    case Raised(c) => ThrownCustom(c)
    case ValidationFailed(model, _) => ThrownError(model + " validation failed")
    case DuplicateKey(_) => ThrownError("E11000 duplicate key error")
  }

  /** Only a service's own `CustomError` keeps its status; a store error is
      reported as a 500 `INTERNAL_SERVER`. */
  lemma HandleServiceError(e: ServiceError)
    ensures e.Raised? && e.error == NewCustomError(e.error.name, e.error.message) ==>
      HandleError(AsThrown(e)).statusCode == StatusCode(e.error.name)
    ensures !e.Raised? ==>
      HandleError(AsThrown(e)).statusCode == 500 && HandleError(AsThrown(e)).name == InternalServer
  {
  }
}
