/**
 * The route guard: what it renders for a given auth state, and when its
 * effect asks the router to replace the page with the login screen.
 */
module ProtectedRoute {
  import opened Wrappers
  import opened Provider
  import opened AuthReducer

  /** The loading placeholder, nothing at all (`null`), or the wrapped children. */
  datatype View = Placeholder | Blank | Children

  /**
   * What the guard renders: nothing exactly when its effect asks for the login screen,
   * and the children only when a user is present.
   */
  function Render(s: AuthState): (v: View)
    ensures v == Blank <==> RedirectsToLogin(s)
    ensures v == Children ==> s.user.Some?
  {
    if s.loading then Placeholder
    else if s.user.None? then Blank
    else Children
  }

  /** The condition under which the effect calls `router.replace("/login")`. */
  predicate RedirectsToLogin(s: AuthState) {
    !s.loading && s.user.None?
  }

  /**
   * The three renderings split the states: the placeholder exactly while loading,
   * nothing exactly when a redirect is requested, the children exactly when settled
   * with a user. While loading no redirect is requested, whatever the user.
   */
  lemma GuardDecision(s: AuthState)
    ensures Render(s) == Placeholder <==> s.loading
    ensures Render(s) == Children <==> !s.loading && s.user.Some?
    ensures s.loading ==> !RedirectsToLogin(s)
  {}

  /** Before anything is dispatched the guard shows its placeholder and requests no redirect. */
  lemma FirstRenderWaits()
    ensures Render(InitialState()) == Placeholder && !RedirectsToLogin(InitialState())
  {}

  /** In any reachable state, the children are shown only with both a user and a session present. */
  lemma ChildrenNeedSession(actions: seq<Action>)
    ensures var s := Run(InitialState(), actions);
      Render(s) == Children ==> s.user.Some? && s.session.Some?
  {
    ReachableIsPaired(actions);
  }

  /** In any reachable state, a redirect is requested exactly when the state is the settled `LOGOUT` state. */
  lemma RedirectsExactlyWhenSignedOut(actions: seq<Action>)
    ensures var s := Run(InitialState(), actions);
      RedirectsToLogin(s) <==> s == LoggedOut()
  {
    ReachableIsPaired(actions);
  }

  /** The values the effect lists as dependencies: `state.loading` and `state.user`. */
  function Deps(s: AuthState): (bool, Option<User>) {
    (s.loading, s.user)
  }

  /**
   * How many times the guard calls `router.replace("/login")` over successive renders:
   * the effect runs after the first render and after every render whose dependencies
   * changed, and redirects when the state asks for it. `prev` is the previous render.
   */
  function RedirectCount(prev: Option<AuthState>, renders: seq<AuthState>): (n: nat)
    ensures n <= |renders|
    decreases |renders|
  {
    if renders == [] then 0
    else
      var s := renders[0];
      var runs := prev.None? || Deps(prev.value) != Deps(s);
      (if runs && RedirectsToLogin(s) then 1 else 0) + RedirectCount(Some(s), renders[1..])
  }

  /** Renders while loading never redirect. */
  lemma {:induction false} LoadingRendersNeverRedirect(prev: Option<AuthState>, renders: seq<AuthState>)
    requires forall i :: 0 <= i < |renders| ==> renders[i].loading
    ensures RedirectCount(prev, renders) == 0
    decreases |renders|
  {
    if renders != [] {
      LoadingRendersNeverRedirect(Some(renders[0]), renders[1..]);
    }
  }

  /** Re-rendering with the same dependencies, whatever else changed, does not run the effect again. */
  lemma {:induction false} RepeatedRendersNeverRedirect(u: AuthState, renders: seq<AuthState>)
    requires forall i :: 0 <= i < |renders| ==> Deps(renders[i]) == Deps(u)
    ensures RedirectCount(Some(u), renders) == 0
    decreases |renders|
  {
    if renders != [] {
      RepeatedRendersNeverRedirect(renders[0], renders[1..]);
    }
  }

  /** Counting over two stretches of renders adds up, the second continuing from the last of the first. */
  lemma {:induction false} RedirectCountAppend(prev: Option<AuthState>, first: seq<AuthState>, second: seq<AuthState>)
    requires first != []
    ensures RedirectCount(prev, first + second) ==
      RedirectCount(prev, first) + RedirectCount(Some(first[|first| - 1]), second)
    decreases |first|
  {
    assert (first + second)[0] == first[0];
    assert (first + second)[1..] == first[1..] + second;
    if |first| > 1 {
      RedirectCountAppend(Some(first[0]), first[1..], second);
    }
  }

  /**
   * A visit that renders while loading and then settles signed out, staying there
   * for any number of renders, is redirected to the login screen exactly once.
   */
  lemma SettledSignedOutRedirectsOnce(loadingRenders: seq<AuthState>, u: AuthState, settled: seq<AuthState>)
    requires forall i :: 0 <= i < |loadingRenders| ==> loadingRenders[i].loading
    requires RedirectsToLogin(u)
    requires settled != [] && forall i :: 0 <= i < |settled| ==> settled[i] == u
    ensures RedirectCount(None, loadingRenders + settled) == 1
  {
    var last: Option<AuthState> := if loadingRenders == [] then None else Some(loadingRenders[|loadingRenders| - 1]);
    if loadingRenders != [] {
      RedirectCountAppend(None, loadingRenders, settled);
      LoadingRendersNeverRedirect(None, loadingRenders);
    } else {
      assert loadingRenders + settled == settled;
    }
    assert last.None? || Deps(last.value) != Deps(u);
    RepeatedRendersNeverRedirect(u, settled[1..]);
    assert RedirectCount(last, settled) == 1 + RedirectCount(Some(u), settled[1..]);
  }
}
