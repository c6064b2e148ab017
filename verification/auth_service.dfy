/**
 * The auth gateway: account operations with their failure policies.
 * Registration and login report a failure as an `ErrorResponse`; the
 * current-user lookup reports it as `null`; logout swallows it.
 */
module AuthService {
  import opened Types
  import DatabaseService

  /**
   * The text the auth gateway keeps of a failure: an Error's stack trace, any
   * other value's `String()` form. Only on an `Error` does it differ from what
   * the document gateway keeps, which is the message.
   */
  function ErrorText(e: Thrown): (t: string)
    ensures e.ErrorObject? ==> t == e.stack
    ensures e.OtherValue? ==> t == DatabaseService.ErrorText(e)
    ensures e.ErrorObject? && e.stack != e.message ==> t != DatabaseService.ErrorText(e)
  {
    match e
    case ErrorObject(_, stack) => stack
    case OtherValue(text) => text
  }

  /** The auth gateway's `getErrorResponse`: an `ErrorResponse` carrying `ErrorText`. */
  function GetErrorResponse<T>(e: Thrown): (r: Response<T>)
    ensures DatabaseService.IsErrorResponse(r)
    ensures DatabaseService.ErrorField(r) == Some(ErrorText(e))
  {
    Failure(ErrorText(e))
  }

  /** `register`: creates the account under a generated id; the account itself on success. */
  function Register(email: string, password: string, newId: string, outcome: Outcome<UserSession>)
    : (r: Traced<Response<UserSession>>)
    ensures r.calls == [AccountCreate(newId, email, password)]
    ensures DatabaseService.IsErrorResponse(r.result) <==> outcome.Threw?
    ensures outcome.Threw? ==> r.result == Failure(ErrorText(outcome.thrown))
    ensures outcome.Returned? ==> r.result == Value(outcome.value)
  {
    var call := AccountCreate(newId, email, password);
    match outcome
    case Returned(user) => Traced(Value(user), [call])
    case Threw(e) => Traced(GetErrorResponse(e), [call])
  }

  /** `login`: opens an email/password session; the session itself on success. */
  function Login(email: string, password: string, outcome: Outcome<Session>): (r: Traced<Response<Session>>)
    ensures r.calls == [AccountCreateSession(email, password)]
    ensures DatabaseService.IsErrorResponse(r.result) <==> outcome.Threw?
    ensures outcome.Threw? ==> r.result == Failure(ErrorText(outcome.thrown))
    ensures outcome.Returned? ==> r.result == Value(outcome.value)
  {
    var call := AccountCreateSession(email, password);
    match outcome
    case Returned(session) => Traced(Value(session), [call])
    case Threw(e) => Traced(GetErrorResponse(e), [call])
  }

  /** `getUser`: the current account, or `null` when the lookup fails; never an `ErrorResponse`. */
  function GetUser(outcome: Outcome<UserSession>): (r: Traced<Response<UserSession>>)
    ensures r.calls == [AccountGet]
    ensures !DatabaseService.IsErrorResponse(r.result)
    ensures r.result.Null? <==> outcome.Threw?
    ensures outcome.Returned? ==> r.result == Value(outcome.value)
  {
    match outcome
    case Returned(user) => Traced(Value(user), [AccountGet])
    case Threw(_) => Traced(Null, [AccountGet])
  }

  /** `logout`: deletes the current session; completes with no value whether or not the backend failed. */
  function Logout(outcome: Outcome<()>): (r: Traced<()>)
    ensures r.calls == [AccountDeleteSession("current")]
  {
    Traced((), [AccountDeleteSession("current")])
  }
}
