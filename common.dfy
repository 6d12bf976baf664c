/** Shared value types: optional values, endpoint results and the HTTP error taxonomy
    the FastAPI routers raise (HTTPException and database integrity failures). */
module Common {

  datatype Option<T> = None | Some(value: T)

  /** A point in time (datetime columns, JS Date values), as ticks. */
  type Timestamp = int

  /** The errors an endpoint can end with. */
  datatype ApiError =
    | NotFound(detail: string)        // HTTPException(status_code=404)
    | Forbidden(detail: string)       // HTTPException(status_code=403)
    | BadRequest(detail: string)      // HTTPException(status_code=400)
    | Unauthorized(detail: string)    // HTTPException(status_code=401)
    | IntegrityError                  // a unique or foreign-key constraint refused the commit (500)
    | ValidationFailed(fields: seq<string>)  // request body refused by pydantic (422)
    | ResponseInvalid                 // a response model refused a stored row (500)

  function StatusCode(e: ApiError): (code: int)
    ensures 400 <= code < 600
  {
    match e
    case NotFound(_) => 404
    case Forbidden(_) => 403
    case BadRequest(_) => 400
    case Unauthorized(_) => 401
    case IntegrityError => 500
    case ValidationFailed(_) => 422
    case ResponseInvalid => 500
  }

  datatype Result<T> = Ok(value: T) | Err(error: ApiError)

  /** The claims `create_access_token` signs, and the body the login endpoints return.
      Signing (HS256 with an expiry taken from the clock) is a parameter of the model. */
  datatype Claims = Claims(sub: string, role: string)
  datatype Token = Token(accessToken: string, tokenType: string)

  /** A mail handed to FastAPI's BackgroundTasks or to the mail endpoint. */
  datatype MailKind = OrderConfirmation | CancellationConfirmation | EnquiryReceived | EnquiryNotification
  datatype Mail = Mail(to: Option<string>, kind: MailKind)

  /** Python truthiness of an optional float column: None and 0.0 are falsy. */
  predicate TruthyAmount(a: Option<real>) {
    a.Some? && a.value != 0.0
  }

  /** `x or 0` for an optional float. */
  function AmountOr0(a: Option<real>): real {
    if TruthyAmount(a) then a.value else 0.0
  }

  /** Python truthiness of an optional string. */
  predicate TruthyString(s: Option<string>) {
    s.Some? && s.value != ""
  }

  /** `s or d` for an optional string: `d` when `s` is None or empty. */
  function StringOr(s: Option<string>, d: string): (r: string)
    ensures d != "" ==> r != ""
    ensures TruthyString(s) ==> r == s.value
  {
    if TruthyString(s) then s.value else d
  }

  function Min(a: int, b: int): int { if a <= b then a else b }
  function Max(a: int, b: int): int { if a >= b then a else b }
}
