/**
 * Shared vocabulary: optional values, the HTTP errors the routers raise,
 * and request-body fields that may be omitted.
 */
module Base {

  datatype Option<T> = None | Some(value: T)

  /** The HTTP error statuses the backend handlers raise. */
  datatype Error =
    | BadRequest      // 400
    | Unauthorized    // 401
    | Forbidden       // 403
    | NotFound        // 404
    | Unprocessable   // 422: request-body validation
    | ServerError     // 500: an exception the handler does not catch

  function Status(e: Error): (code: int)
    ensures 400 <= code <= 500
  {
    match e
    case BadRequest => 400
    case Unauthorized => 401
    case Forbidden => 403
    case NotFound => 404
    case Unprocessable => 422
    case ServerError => 500
  }

  datatype Result<T> = Ok(value: T) | Err(error: Error)

  /**
   * A field of a request body: left out of the JSON, or sent with a value.
   * This is the distinction `dict(exclude_unset=True)` draws.
   */
  datatype Input<T> = Omitted | Given(value: T)

  function OrDefault<T>(i: Input<T>, d: T): T
  {
    match i
    case Omitted => d
    case Given(v) => v
  }

  /** The authenticated user a handler receives (`get_current_user`). */
  datatype Caller = Caller(id: int, companyId: int, role: string)

  predicate IsAdmin(c: Caller) { c.role == "admin" }

  /** Python truthiness of a nullable string: present and not empty. */
  predicate Truthy(s: Option<string>) { s.Some? && s.value != "" }

  /** `x or 0` on a nullable integer column. */
  function OrZero(x: Option<int>): int
  {
    if x.Some? then x.value else 0
  }
}
