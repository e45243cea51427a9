/** Shared vocabulary of the CRM back end and front end: optional values, the HTTP
    outcomes the controllers answer with, the role strings and the authenticated caller. */
module Common {

  datatype Option<+T> = None | Some(value: T) {
    function GetOr(default: T): T {
      match this
      case Some(v) => v
      case None => default
    }
  }

  /** Record identifiers (Mongo ObjectIds), abstracted to natural numbers. */
  type Id = nat

  /** The role strings that occur anywhere in the code: the schema's admin|manager|client
      and the "user" that registration assigns. */
  datatype Role = Admin | Manager | Client | User

  function RoleName(r: Role): string {
    match r
    case Admin => "admin"
    case Manager => "manager"
    case Client => "client"
    case User => "user"
  }

  /** `req.user` as the token middleware leaves it: id, username and role claims. */
  datatype Caller = Caller(id: Id, username: string, role: Role)

  predicate IsAdmin(c: Caller) {
    c.role == Admin
  }

  /** One case per status code a controller answers with; `message` is the JSON message
      field ("" where the success answer has none). */
  datatype Response<+T> =
    | Created(message: string, body: T)
    | Ok(message: string, body: T)
    | BadRequest(message: string)
    | Unauthorized(message: string)
    | Forbidden(message: string)
    | NotFound(message: string)
    | ServerError(message: string)
  {
    function StatusCode(): nat {
      match this
      case Created(_, _) => 201
      case Ok(_, _) => 200
      case BadRequest(_) => 400
      case Unauthorized(_) => 401
      case Forbidden(_) => 403
      case NotFound(_) => 404
      case ServerError(_) => 500
    }

    predicate IsSuccess() {
      Created? || Ok?
    }
  }

  /** How a client-side request came back: the parsed answer, or the rejection with the
      message the page reads from it ("" when there is none). */
  datatype ApiOutcome<+T> = Success(value: T) | Failure(message: string)

  /** `message || fallback`. */
  function MessageOr(message: string, fallback: string): (r: string)
    ensures message != "" ==> r == message
    ensures message == "" ==> r == fallback
  {
    if message != "" then message else fallback
  }

  const NotAuthenticated: string := "User not authenticated"
  const AccessDenied: string := "Access denied"
  const GenericServerError: string := "Server error"
}
