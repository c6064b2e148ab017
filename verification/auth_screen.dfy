/**
 * The sign-in screen: the form's local state, the `handleAuth` validation
 * and dispatch to the auth controller, and the login/register mode toggle.
 */
module AuthScreen {
  import opened Types
  import opened Text
  import AuthStore
  import AuthContext
  import DatabaseService

  const MissingCredentialsError := "Email and password are required"
  const PasswordMismatchError := "Passwords do not match"

  datatype AuthForm = AuthForm(
    email: string,
    password: string,
    confirmPassword: string,
    isRegistering: bool,
    error: Option<string>)

  /** The result of one submission: the form, the session store, emitted events and backend requests. */
  datatype Submission = Submission(form: AuthForm, auth: AuthStore.AuthState, events: seq<Event>, calls: seq<Call>)

  /** The local validation of `handleAuth`, in its order: emptiness first, then (registering only) confirmation. */
  function Validate(f: AuthForm): (e: Option<string>)
    ensures e.None? <==> !Blank(f.email) && !Blank(f.password) && (f.isRegistering ==> f.password == f.confirmPassword)
    ensures (Blank(f.email) || Blank(f.password)) ==> e == Some(MissingCredentialsError)
    ensures !Blank(f.email) && !Blank(f.password) && f.isRegistering && f.password != f.confirmPassword ==>
              e == Some(PasswordMismatchError)
  {
    if Blank(f.email) || Blank(f.password) then Some(MissingCredentialsError)
    else if f.isRegistering && f.password != f.confirmPassword then Some(PasswordMismatchError)
    else None
  }

  /** The controller call a valid submission makes: `register` when registering, `login` otherwise. */
  function Dispatch(f: AuthForm, auth: AuthStore.AuthState, replies: AuthContext.AccountReplies)
    : AuthContext.Step<Response<bool>>
  {
    if f.isRegistering then AuthContext.Register(auth, f.email, f.password, replies)
    else AuthContext.Login(auth, f.email, f.password, replies)
  }

  /** What the screen does with the controller's answer: alert a failure's message, or navigate to `/notes`. */
  function Respond(f: AuthForm, step: AuthContext.Step<Response<bool>>): (r: Submission)
    ensures r.form == f && r.auth == step.state && r.calls == step.calls
    ensures Navigate("/notes") in r.events <==> !DatabaseService.IsErrorResponse(step.reply)
    ensures DatabaseService.IsErrorResponse(step.reply) ==> r.events == [Alert(step.reply.error, None)]
    ensures !DatabaseService.IsErrorResponse(step.reply) ==> r.events == [Navigate("/notes")]
  {
    if DatabaseService.IsErrorResponse(step.reply) then
      Submission(f, step.state, [Alert(DatabaseService.ErrorField(step.reply).value, None)], step.calls)
    else
      Submission(f, step.state, [Navigate("/notes")], step.calls)
  }

  /**
   * `handleAuth`: a validation failure is shown in the form and nothing is
   * requested; otherwise register (registering) or login is dispatched with
   * the untrimmed credentials, a failure is alerted, a success navigates to `/notes`.
   */
  function HandleAuth(f: AuthForm, auth: AuthStore.AuthState, replies: AuthContext.AccountReplies): (r: Submission)
    ensures Validate(f).Some? ==> r == Submission(f.(error := Validate(f)), auth, [], [])
    ensures Validate(f).None? ==>
              var step := Dispatch(f, auth, replies);
              && r.form == f && r.auth == step.state && r.calls == step.calls
              && (Navigate("/notes") in r.events <==> !DatabaseService.IsErrorResponse(step.reply))
              && (DatabaseService.IsErrorResponse(step.reply) ==> r.events == [Alert(step.reply.error, None)])
              && (!DatabaseService.IsErrorResponse(step.reply) ==> r.events == [Navigate("/notes")])
  {
    var invalid := Validate(f);
    if invalid.Some? then Submission(f.(error := invalid), auth, [], [])
    else
      var step := Dispatch(f, auth, replies);
      Respond(f, step)
  }

  /** The mode toggle. */
  function ToggleMode(f: AuthForm): (r: AuthForm)
    ensures r.isRegistering != f.isRegistering
    ensures r.email == f.email && r.password == f.password && r.confirmPassword == f.confirmPassword
    ensures r.error == f.error
  {
    f.(isRegistering := !f.isRegistering)
  }

  /** Toggling twice returns to the same form. */
  lemma ToggleTwiceIsIdentity(f: AuthForm)
    ensures ToggleMode(ToggleMode(f)) == f
  {
  }

  /** In login mode the confirmation field plays no part in the outcome. */
  lemma LoginIgnoresConfirmation(f: AuthForm, confirm: string, auth: AuthStore.AuthState,
                                 replies: AuthContext.AccountReplies)
    requires !f.isRegistering
    ensures var a := HandleAuth(f, auth, replies);
            var b := HandleAuth(f.(confirmPassword := confirm), auth, replies);
            a.auth == b.auth && a.events == b.events && a.calls == b.calls && a.form.error == b.form.error
  {
  }

  /** A submission that makes any backend request has passed validation, so both credentials are non-blank. */
  lemma RequestsOnlyAfterValidation(f: AuthForm, auth: AuthStore.AuthState, replies: AuthContext.AccountReplies)
    ensures HandleAuth(f, auth, replies).calls != [] ==> !Blank(f.email) && !Blank(f.password)
  {
  }

  /**
   * A navigation to `/notes` follows a completed controller flow, so the
   * session check has settled by then and the notes screen either fetches
   * (a user was found) or sends the user back.
   */
  lemma NavigationSettlesSession(f: AuthForm, auth: AuthStore.AuthState, replies: AuthContext.AccountReplies)
    ensures var r := HandleAuth(f, auth, replies);
            Navigate("/notes") in r.events ==> r.calls != [] && !r.auth.loading
  {
  }
}
