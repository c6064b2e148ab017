/**
 * The session store: the signed-in user (or none) and a loading flag,
 * changed only through its two setters.
 */
module AuthStore {
  import opened Types

  datatype AuthState = AuthState(user: Option<UserSession>, loading: bool)

  /** Before the first session check: nobody signed in, check pending. */
  function Initial(): (s: AuthState)
    ensures s.user == None && s.loading
  {
    AuthState(None, true)
  }

  function SetUser(s: AuthState, user: Option<UserSession>): (r: AuthState)
    ensures r.user == user && r.loading == s.loading
  {
    s.(user := user)
  }

  function SetLoading(s: AuthState, loading: bool): (r: AuthState)
    ensures r.loading == loading && r.user == s.user
  {
    s.(loading := loading)
  }

  /** Setting the same user twice is setting it once; likewise for the flag. */
  lemma SettersIdempotent(s: AuthState, user: Option<UserSession>, loading: bool)
    ensures SetUser(SetUser(s, user), user) == SetUser(s, user)
    ensures SetLoading(SetLoading(s, loading), loading) == SetLoading(s, loading)
  {
  }

  /** The two setters touch disjoint fields, so their order does not matter. */
  lemma SettersCommute(s: AuthState, user: Option<UserSession>, loading: bool)
    ensures SetUser(SetLoading(s, loading), user) == SetLoading(SetUser(s, user), loading)
  {
  }
}
