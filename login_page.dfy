/**
 * The login page: its submit handler, a second client of the shared reducer,
 * and its effect that leaves for the dashboard whenever a user is present.
 */
module LoginPage {
  import opened Wrappers
  import opened Provider
  import opened Router
  import opened AuthReducer
  import opened AuthContext
  import ProtectedRoute

  /** The effect on `state.user`: `router.replace("/dashboard")` whenever a user is present. */
  function AutoRedirect(s: AuthState): Option<Navigation> {
    if s.user.Some? then Some(Replace(DashboardRoute)) else None
  }

  /** The answer carries an error, which the page reports in its own `error` field. */
  predicate ReturnedError(answer: AuthAnswer) {
    answer.Answered? && answer.error.Some?
  }

  /**
   * After a successful login the state holds the returned user, so the effect asks for the
   * dashboard as well: the page requests the same navigation twice.
   */
  lemma SuccessfulLoginAlsoTriggersEffect(s: AuthState, answer: AuthAnswer)
    requires Succeeded(answer)
    ensures AutoRedirect(Run(s, CredentialActions(answer))) == Some(Replace(DashboardRoute))
  {
    CredentialOutcome(s, answer);
  }

  /**
   * A rejected login leaves the shared state loading, with user and session as they were,
   * so a protected page shows its placeholder until another action settles the state.
   */
  lemma RejectedLoginLeavesSharedLoading(s: AuthState, answer: AuthAnswer)
    requires ReturnedError(answer)
    ensures var r := Run(s, CredentialActions(answer));
      r.loading && r.user == s.user && r.session == s.session &&
      ProtectedRoute.Render(r) == ProtectedRoute.Placeholder
  {}

  /** The login form: its fields, its local error and loading flag, and the navigations it requests. */
  class LoginForm {
    const store: AuthStore
    var email: string
    var password: string
    var error: Option<string>
    var isLoading: bool
    var navigations: seq<Navigation>

    constructor (store: AuthStore)
      ensures this.store == store
      ensures email == [] && password == [] && error.None? && !isLoading && navigations == []
    {
      this.store := store;
      email, password := "", "";
      error := None;
      isLoading := false;
      navigations := [];
    }

    /**
     * `handleLogin`. It raises the local flag, clears the local error and dispatches
     * `LOADING` before asking the provider; the shared state then receives exactly the
     * actions `signIn` would dispatch. A returned error is shown and the local flag reset,
     * but the shared state stays loading; a success logs the returned user and session in and
     * leaves for the dashboard; an answer without session or user, or a rejected call, changes
     * nothing more, and the local flag stays raised.
     */
    method HandleLogin(answer: AuthAnswer)
      requires store.Valid()
      modifies this`error, this`isLoading, this`navigations, store`state, store`dispatched, store.client`calls
      ensures store.Valid()
      ensures store.client.calls == old(store.client.calls) + [SignInWithPassword(email, password)]
      ensures store.dispatched == old(store.dispatched) + CredentialActions(answer)
      ensures ReturnedError(answer) ==> error == Some(answer.error.value.message) && !isLoading
      ensures !ReturnedError(answer) ==> error.None? && isLoading
      ensures Succeeded(answer) ==>
        store.state == LoggedIn(answer.user.value, answer.session.value) &&
        navigations == old(navigations) + [Replace(DashboardRoute)]
      ensures !Succeeded(answer) ==>
        store.state == old(store.state).(loading := true) && navigations == old(navigations)
    {
      isLoading := true;
      error := None;
      store.Dispatch(Loading);

      store.client.Invoke(SignInWithPassword(email, password));
      match answer {
        case Threw(_) =>
        case Answered(user, session, err) =>
          if err.Some? {
            error := Some(err.value.message);
            isLoading := false;
          } else if session.Some? && user.Some? {
            store.Dispatch(Login(user.value, session.value));
            navigations := navigations + [Replace(DashboardRoute)];
          }
      }
    }
  }
}
