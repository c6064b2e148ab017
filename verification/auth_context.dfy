/**
 * The auth controller: the session-check, login, register and logout flows,
 * each chaining auth-gateway calls with session-store updates. Every flow
 * raises the loading flag, and every flow ends with it lowered.
 */
module AuthContext {
  import opened Types
  import opened AuthStore
  import AuthService
  import DatabaseService

  /** What the backend answers, one outcome per kind of account request a flow can make. */
  datatype AccountReplies = AccountReplies(
    newId: string,
    created: Outcome<UserSession>,
    session: Outcome<Session>,
    current: Outcome<UserSession>,
    signedOut: Outcome<()>)

  /** A flow's final session state, the value it resolves to, and the requests it made. */
  datatype Step<R> = Step(state: AuthState, reply: R, calls: seq<Call>)

  /** The user a `getUser` answer stands for: the account, or nobody for `null`. */
  function UserOf(r: Response<UserSession>): Option<UserSession> {
    match r
    case Value(u) => Some(u)
    case _ => None
  }

  /** The account a successful current-user lookup would return. */
  function CurrentUser(replies: AccountReplies): Option<UserSession> {
    if replies.current.Returned? then Some(replies.current.value) else None
  }

  /** `checkUser`: look the current account up and store it, or nobody when the lookup fails. */
  function CheckUser(s: AuthState, replies: AccountReplies): (r: Step<()>)
    ensures !r.state.loading
    ensures r.state.user == CurrentUser(replies)
    ensures r.calls == [AccountGet]
  {
    var looked := AuthService.GetUser(replies.current);
    var s1 := SetLoading(SetLoading(s, true), false);
    if DatabaseService.IsErrorResponse(looked.result) then Step(SetUser(s1, None), (), looked.calls)
    else Step(SetUser(s1, UserOf(looked.result)), (), looked.calls)
  }

  /**
   * `login`: a failure is handed back as it came and the stored user stays
   * as it was; a success re-runs `checkUser` and resolves to `{ success: true }`
   * (modelled as `Value(true)`).
   */
  function Login(s: AuthState, email: string, password: string, replies: AccountReplies): (r: Step<Response<bool>>)
    ensures !r.state.loading
    ensures DatabaseService.IsErrorResponse(r.reply) <==> replies.session.Threw?
    ensures replies.session.Threw? ==>
              && r.reply == Failure(AuthService.ErrorText(replies.session.thrown))
              && r.state.user == s.user
              && r.calls == [AccountCreateSession(email, password)]
    ensures replies.session.Returned? ==>
              && r.reply == Value(true)
              && r.state.user == CurrentUser(replies)
              && r.calls == [AccountCreateSession(email, password), AccountGet]
  {
    var attempt := AuthService.Login(email, password, replies.session);
    var s1 := SetLoading(SetLoading(s, true), false);
    if DatabaseService.IsErrorResponse(attempt.result) then
      Step(s1, Failure(DatabaseService.ErrorField(attempt.result).value), attempt.calls)
    else
      var checked := CheckUser(s1, replies);
      Step(checked.state, Value(true), attempt.calls + checked.calls)
  }

  /**
   * `register`: a failure is handed back and no login is attempted; a
   * success continues as `login` with the same credentials.
   */
  function Register(s: AuthState, email: string, password: string, replies: AccountReplies)
    : (r: Step<Response<bool>>)
    ensures !r.state.loading
    ensures |r.calls| >= 1 && r.calls[0] == AccountCreate(replies.newId, email, password)
    ensures replies.created.Threw? ==>
              && r.reply == Failure(AuthService.ErrorText(replies.created.thrown))
              && r.state.user == s.user
              && r.calls == [AccountCreate(replies.newId, email, password)]
    ensures replies.created.Returned? ==>
              var signedIn := Login(s.(loading := false), email, password, replies);
              r.reply == signedIn.reply && r.state == signedIn.state && r.calls[1..] == signedIn.calls
  {
    var created := AuthService.Register(email, password, replies.newId, replies.created);
    var s1 := SetLoading(SetLoading(s, true), false);
    if DatabaseService.IsErrorResponse(created.result) then
      Step(s1, Failure(DatabaseService.ErrorField(created.result).value), created.calls)
    else
      var signedIn := Login(s1, email, password, replies);
      Step(signedIn.state, signedIn.reply, created.calls + signedIn.calls)
  }

  /**
   * `logout`: deletes the session (a failure is swallowed), clears the user,
   * then re-runs `checkUser`, whose answer is what the store finally holds.
   */
  function Logout(s: AuthState, replies: AccountReplies): (r: Step<()>)
    ensures !r.state.loading
    ensures r.state.user == CurrentUser(replies)
    ensures r.calls == [AccountDeleteSession("current"), AccountGet]
  {
    var out := AuthService.Logout(replies.signedOut);
    var s1 := SetUser(SetLoading(SetLoading(s, true), false), None);
    var checked := CheckUser(s1, replies);
    Step(checked.state, (), out.calls + checked.calls)
  }

  /** The check on mount, from the store's initial state. */
  function Mount(replies: AccountReplies): (r: Step<()>)
    ensures !r.state.loading && r.state.user == CurrentUser(replies)
  {
    CheckUser(AuthStore.Initial(), replies)
  }

  /** Auto-login: a successful registration followed by a successful login leaves the looked-up account signed in. */
  lemma RegisterThenSignedIn(s: AuthState, email: string, password: string, replies: AccountReplies)
    requires replies.created.Returned? && replies.session.Returned? && replies.current.Returned?
    ensures var r := Register(s, email, password, replies);
            r.reply == Value(true) && r.state.user == Some(replies.current.value)
            && r.calls == [AccountCreate(replies.newId, email, password),
                           AccountCreateSession(email, password), AccountGet]
  {
  }
}
