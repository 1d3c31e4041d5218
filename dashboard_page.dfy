/**
 * The dashboard's settings menu: its "Log Out" item signs out through the
 * provider directly and only then leaves for the login screen.
 */
module DashboardPage {
  import opened Wrappers
  import opened Provider
  import opened Router
  import opened AuthReducer
  import opened AuthContext

  /** The actions `handleLogout` dispatches: `LOGOUT` only when sign-out returned no error. */
  function MenuLogoutActions(answer: SignOutAnswer): seq<Action> {
    if answer == SignedOut(None) then [Logout] else []
  }

  /**
   * Unlike the context's `signOut`, the menu leaves the state untouched when sign-out fails,
   * and never raises `loading`; on success both end signed out.
   */
  lemma MenuLogoutComparedToSignOut(s: AuthState, answer: SignOutAnswer)
    ensures answer == SignedOut(None) ==>
      Run(s, MenuLogoutActions(answer)) == Run(s, SignOutActions(answer)) == LoggedOut()
    ensures answer != SignedOut(None) ==> Run(s, MenuLogoutActions(answer)) == s
    ensures answer.SignedOut? && answer.error.Some? ==> Run(s, SignOutActions(answer)) == LoggedOut()
  {
    SignOutOutcome(s, answer);
  }

  /** The settings dropdown, with the store it dispatches to and the navigations it requests. */
  class SettingsMenu {
    const store: AuthStore
    var navigations: seq<Navigation>

    constructor (store: AuthStore)
      ensures this.store == store && navigations == []
    {
      this.store := store;
      navigations := [];
    }

    /** `handleLogout`: on an error-free sign-out, go to the login screen and then dispatch `LOGOUT`. */
    method HandleLogout(answer: SignOutAnswer)
      requires store.Valid()
      modifies this`navigations, store`state, store`dispatched, store.client`calls
      ensures store.Valid()
      ensures store.client.calls == old(store.client.calls) + [Call.SignOut]
      ensures store.dispatched == old(store.dispatched) + MenuLogoutActions(answer)
      ensures answer == SignedOut(None) ==>
        store.state == LoggedOut() && navigations == old(navigations) + [Replace(LoginRoute)]
      ensures answer != SignedOut(None) ==>
        store.state == old(store.state) && navigations == old(navigations)
    {
      store.client.Invoke(Call.SignOut);
      if answer == SignedOut(None) {
        navigations := navigations + [Replace(LoginRoute)];
        store.Dispatch(Logout);
      }
    }
  }
}
