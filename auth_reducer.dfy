/**
 * The shared authentication state `{ user, session, loading }` and the reducer
 * that the context provider hands to `useReducer`.
 */
module AuthReducer {
  import opened Wrappers
  import opened Provider

  datatype AuthState = AuthState(user: Option<User>, session: Option<Session>, loading: bool)

  /** `LOGIN` with its payload, `LOGOUT`, `LOADING`. */
  datatype Action = Login(user: User, session: Session) | Logout | Loading

  /** User and session are both absent or both present. */
  predicate Paired(s: AuthState) {
    s.user.Some? <==> s.session.Some?
  }

  /** The state the reducer starts from: nobody signed in, still loading. */
  function InitialState(): (s: AuthState)
    ensures s.user.None? && s.session.None? && s.loading
    ensures Paired(s)
  {
    AuthState(None, None, true)
  }

  /** The settled state after `LOGIN(user, session)`. */
  function LoggedIn(user: User, session: Session): AuthState {
    AuthState(Some(user), Some(session), false)
  }

  /** The settled state after `LOGOUT`. */
  function LoggedOut(): AuthState {
    AuthState(None, None, false)
  }

  /**
   * `authReducer`. Every action decides `loading` by itself, keeps the pairing of
   * user and session, and only `LOGIN` and `LOGOUT` touch user and session.
   */
  function Reduce(s: AuthState, a: Action): (r: AuthState)
    ensures r.loading <==> a.Loading?
    ensures Paired(s) ==> Paired(r)
    ensures a.Loading? ==> r.user == s.user && r.session == s.session
  {
    match a
    case Login(user, session) => s.(user := Some(user), session := Some(session), loading := false)
    case Logout => s.(user := None, session := None, loading := false)
    case Loading => s.(loading := true)
  }

  /** The state after dispatching `actions` in order, starting from `s`. */
  function Run(s: AuthState, actions: seq<Action>): AuthState
    decreases |actions|
  {
    if actions == [] then s else Run(Reduce(s, actions[0]), actions[1..])
  }

  /** `LOGIN` puts exactly its payload in the state and settles it. */
  lemma LoginStoresPayload(s: AuthState, user: User, session: Session)
    ensures Reduce(s, Login(user, session)) == LoggedIn(user, session)
  {}

  /** `LOGOUT` clears the state from anywhere, and a second `LOGOUT` changes nothing. */
  lemma LogoutClearsAndIsIdempotent(s: AuthState)
    ensures Reduce(s, Logout) == LoggedOut()
    ensures Reduce(Reduce(s, Logout), Logout) == Reduce(s, Logout)
  {}

  /** `LOADING` only raises the flag, and a second `LOADING` changes nothing. */
  lemma LoadingIsIdempotent(s: AuthState)
    ensures Reduce(s, Loading) == s.(loading := true)
    ensures Reduce(Reduce(s, Loading), Loading) == Reduce(s, Loading)
  {}

  /** Dispatching one more action is one more reducer step. */
  lemma {:induction false} RunSnoc(s: AuthState, actions: seq<Action>, a: Action)
    ensures Run(s, actions + [a]) == Reduce(Run(s, actions), a)
    decreases |actions|
  {
    if actions != [] {
      assert (actions + [a])[1..] == actions[1..] + [a];
      RunSnoc(Reduce(s, actions[0]), actions[1..], a);
    }
  }

  /** Dispatching two batches one after the other is dispatching their concatenation. */
  lemma {:induction false} RunAppend(s: AuthState, first: seq<Action>, second: seq<Action>)
    ensures Run(s, first + second) == Run(Run(s, first), second)
    decreases |first|
  {
    if first != [] {
      assert (first + second)[1..] == first[1..] + second;
      RunAppend(Reduce(s, first[0]), first[1..], second);
    } else {
      assert first + second == second;
    }
  }

  /** No sequence of actions breaks the pairing of user and session. */
  lemma {:induction false} RunKeepsPaired(s: AuthState, actions: seq<Action>)
    requires Paired(s)
    ensures Paired(Run(s, actions))
    decreases |actions|
  {
    if actions != [] {
      RunKeepsPaired(Reduce(s, actions[0]), actions[1..]);
    }
  }

  /** Every state reachable from the initial state has user and session both absent or both present. */
  lemma ReachableIsPaired(actions: seq<Action>)
    ensures Paired(Run(InitialState(), actions))
  {
    RunKeepsPaired(InitialState(), actions);
  }

  /** The last action dispatched decides `loading`; a trailing `LOGIN` or `LOGOUT` decides the whole state. */
  lemma LastActionDecides(s: AuthState, actions: seq<Action>)
    requires actions != []
    ensures var r, a := Run(s, actions), actions[|actions| - 1];
      (r.loading <==> a.Loading?) &&
      (a.Logout? ==> r == LoggedOut()) &&
      (a.Login? ==> r == LoggedIn(a.user, a.session))
  {
    var init := actions[..|actions| - 1];
    assert actions == init + [actions[|actions| - 1]];
    RunSnoc(s, init, actions[|actions| - 1]);
  }
}
