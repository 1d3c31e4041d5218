/**
 * The context provider around the reducer: the lazily created shared client,
 * the session bootstrap run on mount, the change-notification callback, and
 * `signIn`, `signUp` and `signOut`. Each of these is modelled as one atomic
 * method over the shared store; the provider's answer is a parameter.
 */
module AuthContext {
  import opened Wrappers
  import opened Provider
  import opened AuthReducer

  /** The module-level `supabase` variable, filled in on first use. */
  class ClientSlot {
    var client: SupabaseClient?
    ghost var constructions: nat

    ghost predicate Valid()
      reads this
    {
      constructions <= 1 && (client == null <==> constructions == 0)
    }

    constructor ()
      ensures Valid() && client == null && constructions == 0
    {
      client := null;
      constructions := 0;
    }

    /** `getSupabaseClient`: creates the client on the first call and returns that same object ever after. */
    method GetSupabaseClient(url: string, key: string) returns (c: SupabaseClient)
      requires Valid()
      modifies this
      ensures Valid() && client == c
      ensures old(client) != null ==> c == old(client) && constructions == old(constructions)
      ensures old(client) == null ==> fresh(c) && c.url == url && c.key == key && c.calls == [] && constructions == 1
    {
      if client == null {
        client := new SupabaseClient(url, key);
        constructions := constructions + 1;
      }
      c := client;
    }
  }

  /** Any number of calls to `getSupabaseClient` hand out one object, constructed once. */
  method RepeatedAccessIsShared(slot: ClientSlot, url: string, key: string) returns (first: SupabaseClient, second: SupabaseClient)
    requires slot.Valid()
    modifies slot
    ensures slot.Valid() && first == second && slot.constructions == 1
  {
    first := slot.GetSupabaseClient(url, key);
    second := slot.GetSupabaseClient(url, key);
  }

  /** How an `async` operation of the context ends: it resolves, or it rejects with what it throws. */
  datatype Completion = Resolved | Rejected(reason: Rejection)
  datatype Rejection = ProviderRejected(error: AuthError) | Exception(message: Option<string>)

  /** The dispatch shared by bootstrap and change notifications: `LOGIN` when the session carries a user, else `LOGOUT`. */
  function SettleActions(session: Option<Session>): seq<Action> {
    if HasUser(session) then [Login(session.value.user.value, session.value)] else [Logout]
  }

  /** The actions `init` dispatches: `LOADING`, then a settling action once `getSession` resolves. */
  function BootstrapActions(probe: SessionProbe): seq<Action> {
    [Loading] + if probe.Probed? then SettleActions(probe.session) else []
  }

  /** The answer to a credential request carries no error, a session and a user. */
  predicate Succeeded(answer: AuthAnswer) {
    answer.Answered? && answer.error.None? && answer.session.Some? && answer.user.Some?
  }

  /**
   * The actions `signIn` and `signUp` dispatch (and the login page too):
   * `LOADING`, then `LOGIN` only for a successful answer.
   */
  function CredentialActions(answer: AuthAnswer): seq<Action> {
    [Loading] + if Succeeded(answer) then [Login(answer.user.value, answer.session.value)] else []
  }

  /** How `signIn` and `signUp` end: an error in the answer is thrown, a rejection propagates. */
  function CredentialCompletion(answer: AuthAnswer): (c: Completion)
    ensures c.Resolved? <==> answer.Answered? && answer.error.None?
  {
    match answer
    case Answered(_, _, error) => if error.Some? then Rejected(ProviderRejected(error.value)) else Resolved
    case Threw(message) => Rejected(Exception(message))
  }

  /** The actions `signOut` dispatches: `LOADING`, then `LOGOUT` once the provider call resolves. */
  function SignOutActions(answer: SignOutAnswer): seq<Action> {
    [Loading] + if answer.SignedOut? then [Logout] else []
  }

  /** Bootstrap shows the loading state first, then settles on what `getSession` found. */
  lemma BootstrapSettles(s: AuthState, probe: SessionProbe)
    ensures Reduce(s, BootstrapActions(probe)[0]).loading
    ensures var r := Run(s, BootstrapActions(probe));
      (probe.Probed? && HasUser(probe.session) ==> r == LoggedIn(probe.session.value.user.value, probe.session.value)) &&
      (probe.Probed? && !HasUser(probe.session) ==> r == LoggedOut()) &&
      (probe.ProbeThrew? ==> r == s.(loading := true))
  {
    RunAppend(s, [Loading], BootstrapActions(probe)[1..]);
    assert BootstrapActions(probe) == [Loading] + BootstrapActions(probe)[1..];
  }

  /** A change notification settles the state on the session it carries, from any state. */
  lemma NotificationSettles(s: AuthState, session: Option<Session>)
    ensures var r := Run(s, SettleActions(session));
      (HasUser(session) ==> r == LoggedIn(session.value.user.value, session.value)) &&
      (!HasUser(session) ==> r == LoggedOut())
  {}

  /**
   * After `signIn` or `signUp` the state holds exactly the returned user and session when
   * the answer succeeded; otherwise user and session are untouched and `loading` stays true.
   */
  lemma CredentialOutcome(s: AuthState, answer: AuthAnswer)
    ensures var r := Run(s, CredentialActions(answer));
      (Succeeded(answer) ==> r == LoggedIn(answer.user.value, answer.session.value)) &&
      (!Succeeded(answer) ==> r == s.(loading := true))
  {
    RunAppend(s, [Loading], CredentialActions(answer)[1..]);
    assert CredentialActions(answer) == [Loading] + CredentialActions(answer)[1..];
  }

  /** Whatever `signOut` resolves to, the state ends signed out; only a rejection leaves it loading. */
  lemma SignOutOutcome(s: AuthState, answer: SignOutAnswer)
    ensures var r := Run(s, SignOutActions(answer));
      (answer.SignedOut? ==> r == LoggedOut()) &&
      (answer.SignOutThrew? ==> r == s.(loading := true))
  {
    RunAppend(s, [Loading], SignOutActions(answer)[1..]);
    assert SignOutActions(answer) == [Loading] + SignOutActions(answer)[1..];
  }

  /** The reducer-held state, its dispatch log and the client the provider was given. */
  class AuthStore {
    const client: SupabaseClient
    var state: AuthState
    var dispatched: seq<Action>

    /** The state is always the initial state with every dispatched action applied. */
    ghost predicate Valid()
      reads this
    {
      state == Run(InitialState(), dispatched)
    }

    constructor (client: SupabaseClient)
      ensures Valid() && this.client == client && state == InitialState() && dispatched == []
    {
      this.client := client;
      state := InitialState();
      dispatched := [];
    }

    /** `dispatch(action)` */
    method Dispatch(a: Action)
      requires Valid()
      modifies this`state, this`dispatched
      ensures Valid()
      ensures dispatched == old(dispatched) + [a]
      ensures state == Reduce(old(state), a)
    {
      RunSnoc(InitialState(), dispatched, a);
      state := Reduce(state, a);
      dispatched := dispatched + [a];
    }

    /** `init`, run on mount: `LOADING`, `getSession`, then `LOGIN` or `LOGOUT`. */
    method Bootstrap(probe: SessionProbe)
      requires Valid()
      modifies this`state, this`dispatched, client`calls
      ensures Valid()
      ensures client.calls == old(client.calls) + [GetSession]
      ensures dispatched == old(dispatched) + BootstrapActions(probe)
      ensures probe.Probed? && HasUser(probe.session) ==>
        state == LoggedIn(probe.session.value.user.value, probe.session.value)
      ensures probe.Probed? && !HasUser(probe.session) ==> state == LoggedOut()
      ensures probe.ProbeThrew? ==> state == old(state).(loading := true)
    {
      Dispatch(Loading);
      client.Invoke(GetSession);
      if probe.Probed? {
        SettleOn(probe.session);
      }
    }

    /** The `onAuthStateChange` callback; the event name is not consulted. */
    method SettleOn(session: Option<Session>)
      requires Valid()
      modifies this`state, this`dispatched
      ensures Valid()
      ensures dispatched == old(dispatched) + SettleActions(session)
      ensures HasUser(session) ==> state == LoggedIn(session.value.user.value, session.value)
      ensures !HasUser(session) ==> state == LoggedOut()
    {
      if HasUser(session) {
        Dispatch(Login(session.value.user.value, session.value));
      } else {
        Dispatch(Logout);
      }
    }

    /** `signIn(email, password)` */
    method SignIn(email: string, password: string, answer: AuthAnswer) returns (c: Completion)
      requires Valid()
      modifies this`state, this`dispatched, client`calls
      ensures Valid()
      ensures client.calls == old(client.calls) + [SignInWithPassword(email, password)]
      ensures dispatched == old(dispatched) + CredentialActions(answer)
      ensures c == CredentialCompletion(answer)
      ensures Succeeded(answer) ==> state == LoggedIn(answer.user.value, answer.session.value)
      ensures !Succeeded(answer) ==> state == old(state).(loading := true)
    {
      Dispatch(Loading);
      client.Invoke(SignInWithPassword(email, password));
      c := SettleCredentials(answer);
    }

    /** `signUp(email, password)`, which sends no profile attributes. */
    method SignUp(email: string, password: string, answer: AuthAnswer) returns (c: Completion)
      requires Valid()
      modifies this`state, this`dispatched, client`calls
      ensures Valid()
      ensures client.calls == old(client.calls) + [Call.SignUp(email, password, None)]
      ensures dispatched == old(dispatched) + CredentialActions(answer)
      ensures c == CredentialCompletion(answer)
      ensures Succeeded(answer) ==> state == LoggedIn(answer.user.value, answer.session.value)
      ensures !Succeeded(answer) ==> state == old(state).(loading := true)
    {
      Dispatch(Loading);
      client.Invoke(Call.SignUp(email, password, None));
      c := SettleCredentials(answer);
    }

    /** What `signIn` and `signUp` do once the provider has answered: throw, log in, or nothing. */
    method SettleCredentials(answer: AuthAnswer) returns (c: Completion)
      requires Valid() && state.loading
      modifies this`state, this`dispatched
      ensures Valid()
      ensures dispatched == old(dispatched) + CredentialActions(answer)[1..]
      ensures c == CredentialCompletion(answer)
      ensures Succeeded(answer) ==> state == LoggedIn(answer.user.value, answer.session.value)
      ensures !Succeeded(answer) ==> state == old(state)
    {
      match answer
      case Threw(message) =>
        c := Rejected(Exception(message));
      case Answered(user, session, error) =>
        if error.Some? {
          c := Rejected(ProviderRejected(error.value));
        } else {
          if session.Some? && user.Some? {
            Dispatch(Login(user.value, session.value));
          }
          c := Resolved;
        }
    }

    /** `signOut`: `LOADING`, the provider call (its result ignored), then `LOGOUT`. */
    method SignOut(answer: SignOutAnswer) returns (c: Completion)
      requires Valid()
      modifies this`state, this`dispatched, client`calls
      ensures Valid()
      ensures client.calls == old(client.calls) + [Call.SignOut]
      ensures dispatched == old(dispatched) + SignOutActions(answer)
      ensures answer.SignedOut? ==> c == Resolved && state == LoggedOut()
      ensures answer.SignOutThrew? ==> c == Rejected(Exception(None)) && state == old(state).(loading := true)
    {
      Dispatch(Loading);
      client.Invoke(Call.SignOut);
      if answer.SignedOut? {
        Dispatch(Logout);
        c := Resolved;
      } else {
        c := Rejected(Exception(None));
      }
    }
  }
}
