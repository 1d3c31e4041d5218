/**
 * The identity provider's SDK, seen only through what its calls return.
 * Each datatype below is the set of ways one call can settle; the model
 * receives the answer as a parameter and never computes it.
 */
module Provider {
  import opened Wrappers

  /** The provider's user record; only its identity matters to the core. */
  datatype User = User(id: string, email: string)

  /** A provider session: its access token and the user it belongs to (`session.user`). */
  datatype Session = Session(accessToken: string, user: Option<User>)

  /** An `AuthError` returned (not thrown) by the SDK; `message` may be empty. */
  datatype AuthError = AuthError(message: string)

  /**
   * How `signInWithPassword` and `signUp` settle: a resolved `{ data: { user, session }, error }`,
   * or a rejected promise carrying an exception whose `message` may be missing.
   */
  datatype AuthAnswer =
    | Answered(user: Option<User>, session: Option<Session>, error: Option<AuthError>)
    | Threw(message: Option<string>)

  /** How `getSession` settles: `{ data: { session }, error }`, or a rejection. */
  datatype SessionProbe =
    | Probed(session: Option<Session>, error: Option<AuthError>)
    | ProbeThrew

  /** How `signOut` settles: `{ error }`, or a rejection. */
  datatype SignOutAnswer =
    | SignedOut(error: Option<AuthError>)
    | SignOutThrew

  /** How the server-side `getUser(token)` settles: `{ data: { user }, error }`, or a rejection. */
  datatype UserLookup =
    | Looked(user: Option<User>, error: Option<AuthError>)
    | LookupThrew

  /** A request sent to the provider, in the order the core sends them. */
  datatype Call =
    | GetSession
    | SignInWithPassword(email: string, password: string)
    | SignUp(email: string, password: string, fullName: Option<string>)
    | SignOut
    | GetUser(token: string)

  /** `session?.user` is truthy: there is a session and it carries a user. */
  predicate HasUser(session: Option<Session>) {
    session.Some? && session.value.user.Some?
  }

  /** A client bound to an endpoint and key; it records the requests sent through it. */
  class SupabaseClient {
    const url: string
    const key: string
    var calls: seq<Call>

    constructor (url: string, key: string)
      ensures this.url == url && this.key == key && calls == []
    {
      this.url := url;
      this.key := key;
      calls := [];
    }

    /** Sends one request to the provider. */
    method Invoke(call: Call)
      modifies this`calls
      ensures calls == old(calls) + [call]
    {
      calls := calls + [call];
    }
  }
}
