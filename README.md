# Authentication core of the contour-lms student dashboard

This project models the small sequential core of a student dashboard web
application whose authentication is delegated to a hosted identity provider
(Supabase). It covers:

- **The shared auth state** `{user, session, loading}` and its reducer over
  `LOGIN`, `LOGOUT` and `LOADING` (`AuthReducer`). Every sequence of actions is
  folded by `Run`. User and session are proved to stay both absent or both
  present in every reachable state.
- **The context provider** (`AuthContext`):
  - the lazily created shared client (`ClientSlot`);
  - the store that holds the reducer state and the log of dispatched actions (`AuthStore`);
  - the session bootstrap run on mount, and the change-notification callback;
  - `signIn`, `signUp` and `signOut`.

  Each operation is a method whose dispatched actions are given by a
  specification function. Lemmas say where each sequence of actions leaves the state.
- **The route guard** (`ProtectedRoute`). It chooses between a placeholder,
  nothing, and the protected children. A model of the guard's effect over
  successive renders counts the redirects to `/login`.
- **The API's bearer-token middleware** (`AuthMiddleware`). A pure decision
  (`Decide`) maps the header and the provider's answer to exactly one of
  401 "Missing token", 401 "Invalid token", 500 "Auth error", or "attach the
  user and call `next`". `RequireAuth` performs that decision on request,
  response and handler-chain objects.
- **The registration page's submit handler** (`RegisterPage`): the ordered
  checks, the profile attribute, and the message shown for each answer of `signUp`.
- **The login page's submit handler and redirect effect** (`LoginPage`).
- **The dashboard's "Log Out" menu item** (`DashboardPage`).

The identity provider is an oracle. Each call's possible outcomes are a
datatype (`Provider`): a resolved answer with data and/or an error, or a
rejection. A method that calls the provider takes the answer as a parameter
and records the request on the client object's `calls` log. That log is how
the contracts say whether the provider was called, and with what.
Navigation requests are recorded as `Router.Navigation` events.

JavaScript string semantics that the code relies on are modelled explicitly in
`JsString`:

- `trim`, with the ECMAScript white-space and line-terminator set;
- `startsWith`;
- `replace` with a string pattern, which replaces only the first occurrence;
- `length`, which counts UTF-16 code units, so a character above U+FFFF counts twice.

Some consequences of the code are easy to miss:

- `signIn` and `signUp` dispatch `LOADING` first and never settle it when the
  provider returns an error or an answer without both a session and a user
  (apps/web/src/context/AuthContext.tsx:120-126 and 135-141): `loading` stays
  true. The login page does the same on its error path, and so does a rejected
  `getSession` or `signOut`. The lemmas `CredentialOutcome`,
  `RejectedLoginLeavesSharedLoading`, `BootstrapSettles` and `SignOutOutcome`
  state this.
- `signIn` and `signUp` log in only when both `data.session` and `data.user`
  are present (AuthContext.tsx:121 and 136).
- `signOut` dispatches `LOGOUT` only once the provider call resolves
  (AuthContext.tsx:148-149); a rejected call leaves `loading` true.
- The header check is not the bearer scheme of section 2.1 of RFC 6750. It is
  the case-sensitive prefix `"Bearer "` with exactly one space, and an empty
  token is still sent to the provider.

## Model

| member | source | states |
|---|---|---|
| `AuthReducer.InitialState` | apps/web/src/context/AuthContext.tsx:51-55 | the reducer starts with no user, no session and `loading` true, a paired state |
| `AuthReducer.Reduce` | apps/web/src/context/AuthContext.tsx:57-73 | after any action, `loading` is true exactly for `LOADING`; every action preserves the pairing of user and session; `LOADING` keeps user and session |
| `AuthReducer.Run` | apps/web/src/context/AuthContext.tsx:78 | the state `useReducer` holds after a sequence of dispatches: the reducer folded over the actions in order; its properties are stated by `RunSnoc`, `RunAppend`, `RunKeepsPaired` and `ReachableIsPaired` |
| `AuthReducer.LoginStoresPayload` | apps/web/src/context/AuthContext.tsx:59-65 | `LOGIN` yields exactly its payload's user and session with `loading` false, from any state |
| `AuthReducer.LogoutClearsAndIsIdempotent` | apps/web/src/context/AuthContext.tsx:66-67 | `LOGOUT` yields `{null, null, false}` from any state, and applying it twice equals applying it once |
| `AuthReducer.LoadingIsIdempotent` | apps/web/src/context/AuthContext.tsx:68-69 | `LOADING` sets only `loading`, and is idempotent |
| `AuthReducer.RunSnoc` | apps/web/src/context/AuthContext.tsx:57-73 | dispatching one more action is one more reducer step over the folded state |
| `AuthReducer.RunAppend` | apps/web/src/context/AuthContext.tsx:57-73 | dispatching two batches in turn equals dispatching their concatenation |
| `AuthReducer.RunKeepsPaired` | apps/web/src/context/AuthContext.tsx:37-40 | no sequence of actions breaks the pairing of user and session |
| `AuthReducer.ReachableIsPaired` | apps/web/src/context/AuthContext.tsx:51-73 | every state reachable from the initial state has user and session both null or both non-null |
| `AuthReducer.LastActionDecides` | apps/web/src/context/AuthContext.tsx:57-73 | the last action decides `loading`; a trailing `LOGOUT` or `LOGIN` decides the whole state |
| `AuthContext.ClientSlot.constructor` | apps/web/src/context/AuthContext.tsx:19 | the module-level client starts unset, nothing constructed |
| `AuthContext.ClientSlot.GetSupabaseClient` | apps/web/src/context/AuthContext.tsx:21-29 | the first call constructs a fresh client from the configuration; every later call returns that same object and constructs nothing |
| `AuthContext.RepeatedAccessIsShared` | apps/web/src/context/AuthContext.tsx:21-29 | two calls return the same client, and exactly one was ever constructed |
| `AuthContext.CredentialCompletion` | apps/web/src/context/AuthContext.tsx:120 | `signIn`/`signUp` resolve exactly when the provider's answer resolves without an error; otherwise they reject |
| `AuthContext.BootstrapSettles` | apps/web/src/context/AuthContext.tsx:84-96 | the bootstrap passes through `loading` true; it then settles on `LOGIN(session.user, session)` when the session carries a user, and on the `LOGOUT` state otherwise; a rejected probe leaves it loading |
| `AuthContext.NotificationSettles` | apps/web/src/context/AuthContext.tsx:100-106 | from any state, a change notification settles on `LOGIN(session.user, session)` or on the `LOGOUT` state |
| `AuthContext.CredentialOutcome` | apps/web/src/context/AuthContext.tsx:113-144 | after `signIn`/`signUp`, a successful answer leaves exactly the returned user and session; any other answer leaves user and session untouched and `loading` true |
| `AuthContext.SignOutOutcome` | apps/web/src/context/AuthContext.tsx:146-150 | `signOut` ends in the `LOGOUT` state whatever the provider returns; only a rejection leaves it loading |
| `AuthContext.AuthStore.constructor` | apps/web/src/context/AuthContext.tsx:78 | the store starts in the initial state with nothing dispatched |
| `AuthContext.AuthStore.Dispatch` | apps/web/src/context/AuthContext.tsx:78 | dispatch appends the action to the log and applies the reducer; the state stays the fold of the log |
| `AuthContext.AuthStore.Bootstrap` | apps/web/src/context/AuthContext.tsx:84-96 | `init` asks for the session once, dispatches `LOADING` and then the settling action, and ends signed in, signed out, or (rejected probe) loading |
| `AuthContext.AuthStore.SettleOn` | apps/web/src/context/AuthContext.tsx:100-106 | the callback dispatches one `LOGIN` or `LOGOUT` and ends in the corresponding state |
| `AuthContext.AuthStore.SignIn` | apps/web/src/context/AuthContext.tsx:113-129 | one `signInWithPassword` request; `LOADING` then `LOGIN` only on success; an error in the answer is thrown and leaves `loading` true |
| `AuthContext.AuthStore.SignUp` | apps/web/src/context/AuthContext.tsx:131-144 | one `signUp` request without profile attributes; same dispatches and completion as `signIn` |
| `AuthContext.AuthStore.SettleCredentials` | apps/web/src/context/AuthContext.tsx:120-126 | after the answer: throw on error, `LOGIN` with the returned user and session when both are present, nothing otherwise |
| `AuthContext.AuthStore.SignOut` | apps/web/src/context/AuthContext.tsx:146-150 | one sign-out request; `LOADING`, then `LOGOUT` whenever the call resolves, whatever its error |
| `ProtectedRoute.Render` | apps/web/src/components/ProtectedRoutes.tsx:21-33 | the guard renders nothing exactly when its effect requests `/login`, and the children only when a user is present |
| `ProtectedRoute.RedirectsToLogin` | apps/web/src/components/ProtectedRoutes.tsx:15-19 | the effect's condition for `router.replace("/login")`: settled and no user; `GuardDecision` and `RedirectsExactlyWhenSignedOut` state what it means |
| `ProtectedRoute.RedirectsExactlyWhenSignedOut` | apps/web/src/components/ProtectedRoutes.tsx:15-19 | in every reachable state a redirect to `/login` is requested exactly when the state is the settled `LOGOUT` state |
| `ProtectedRoute.RedirectCount` | apps/web/src/components/ProtectedRoutes.tsx:15-19 | the number of redirects over a run of renders, the effect running on the first render and whenever `(loading, user)` changed; at most one per render |
| `ProtectedRoute.GuardDecision` | apps/web/src/components/ProtectedRoutes.tsx:15-33 | placeholder iff loading, nothing iff a redirect to `/login` is requested (`!loading && user == null`), children iff `!loading && user != null`; no redirect while loading |
| `ProtectedRoute.FirstRenderWaits` | apps/web/src/components/ProtectedRoutes.tsx:21-27 | before any dispatch the guard shows the placeholder and requests no redirect |
| `ProtectedRoute.ChildrenNeedSession` | apps/web/src/components/ProtectedRoutes.tsx:29-33 | in every reachable state the children are shown only with both a user and a session |
| `ProtectedRoute.LoadingRendersNeverRedirect` | apps/web/src/components/ProtectedRoutes.tsx:15-19 | renders while loading never call `router.replace("/login")`, whatever the user |
| `ProtectedRoute.RepeatedRendersNeverRedirect` | apps/web/src/components/ProtectedRoutes.tsx:15-19 | re-rendering with unchanged `(loading, user)`, whatever the session, does not run the effect again |
| `ProtectedRoute.RedirectCountAppend` | apps/web/src/components/ProtectedRoutes.tsx:15-19 | redirect counts over consecutive stretches of renders add up |
| `ProtectedRoute.SettledSignedOutRedirectsOnce` | apps/web/src/components/ProtectedRoutes.tsx:15-19 | loading renders followed by a settled signed-out state redirect to `/login` exactly once |
| `AuthMiddleware.ExtractToken` | apps/api/src/middleware/auth.ts:17-19 | a token is found iff the header is present and starts with the case-sensitive `"Bearer "`; the prefix followed by the token gives back the header |
| `AuthMiddleware.TokenRoundTrip` | apps/api/src/middleware/auth.ts:19 | for `"Bearer " + t` the token is exactly `t`, even when `t` itself contains `"Bearer "` (only the first occurrence is removed) |
| `AuthMiddleware.Decide` | apps/api/src/middleware/auth.ts:16-32 | every request ends in one of the three error replies or in passing on the request |
| `AuthMiddleware.Judge` | apps/api/src/middleware/auth.ts:23-32 | the request goes on exactly when the provider returns a user and no error, and it carries that user; otherwise one of the two error replies |
| `AuthMiddleware.MissingTokenIff` | apps/api/src/middleware/auth.ts:18 | 401 "Missing token" iff the header is absent or lacks the prefix |
| `AuthMiddleware.InvalidTokenIff` | apps/api/src/middleware/auth.ts:23-24 | 401 "Invalid token" iff the header is well formed and the provider reports an error or no user |
| `AuthMiddleware.AuthErrorIff` | apps/api/src/middleware/auth.ts:29-32 | 500 "Auth error" iff the header is well formed and the provider call throws |
| `AuthMiddleware.ProceedIff` | apps/api/src/middleware/auth.ts:27-28 | the request goes on with user `u` iff the provider returns `u` and no error |
| `AuthMiddleware.LowerCaseSchemeIsMissing` | apps/api/src/middleware/auth.ts:18 | `"bearer abc"` has no token: the scheme is matched case-sensitively |
| `AuthMiddleware.ExtraSpaceStaysInToken` | apps/api/src/middleware/auth.ts:19 | `"Bearer  abc"` yields the token `" abc"` |
| `AuthMiddleware.BarePrefixGivesEmptyToken` | apps/api/src/middleware/auth.ts:18-19 | the header `"Bearer "` yields the empty token |
| `AuthMiddleware.RequireAuth` | apps/api/src/middleware/auth.ts:15-33 | the provider is asked only for a well-formed header, with the extracted token; either status and error body are written and `next` is not called, or `req.user` is the provider's user, `next` is called once and the response is untouched |
| `RegisterPage.Validate` | apps/web/src/app/register/page.tsx:31-44 | the checks run in order and the first failing one wins: blank email or empty password, then a password under 6 UTF-16 code units, then a mismatching confirmation; all pass iff none fails |
| `RegisterPage.AstralPasswordIsLongEnough` | apps/web/src/app/register/page.tsx:36 | three characters above U+FFFF are six code units and pass the length check |
| `RegisterPage.FullNameAttribute` | apps/web/src/app/register/page.tsx:55 | the `full_name` attribute, never longer than the typed name; its shape is stated by `FullNameAttributeShape` |
| `RegisterPage.FullNameAttributeShape` | apps/web/src/app/register/page.tsx:55 | `full_name` is omitted only for an empty name; a white-space name is sent as `""`; otherwise it carries no surrounding white space |
| `RegisterPage.SignUpNotice` | apps/web/src/app/register/page.tsx:60-84 | error notice iff the answer threw or carried an error; a returned error shows its own message, or "Could not register. Try again." when that is empty; a thrown message is kept as is, with the default only when there is none; a success shows the redirecting text and redirects iff a session came back, and the check-your-email text otherwise |
| `RegisterPage.SettledSignUpShowsMessage` | apps/web/src/app/register/page.tsx:60-84 | once `signUp` settles a non-empty message is shown, except when the thrown exception's message is empty |
| `RegisterPage.RegisterForm.constructor` | apps/web/src/app/register/page.tsx:16-22 | the form starts empty, not loading, with no messages |
| `RegisterPage.RegisterForm.HandleSubmit` | apps/web/src/app/register/page.tsx:26-88 | a failing check shows its message, clears the other, calls nothing and leaves `isLoading`; otherwise one `signUp` with the untrimmed email and the `full_name` attribute, then the answer's notice, and `isLoading` false |
| `RegisterPage.RegisterForm.SignUpAndReport` | apps/web/src/app/register/page.tsx:46-87 | the provider call and the handling of its answer end with `isLoading` false and exactly one of the two messages set; a session schedules `/dashboard` after 700 ms |
| `LoginPage.SuccessfulLoginAlsoTriggersEffect` | apps/web/src/app/login/page.tsx:18-23 | after a successful login the already-logged-in effect also requests `/dashboard` |
| `LoginPage.RejectedLoginLeavesSharedLoading` | apps/web/src/app/login/page.tsx:36-38 | a returned error leaves the shared state loading with user and session unchanged, so protected pages show the placeholder |
| `LoginPage.AutoRedirect` | apps/web/src/app/login/page.tsx:18-23 | the effect on `state.user`: `replace("/dashboard")` whenever a user is present; `SuccessfulLoginAlsoTriggersEffect` states its consequence |
| `LoginPage.LoginForm.constructor` | apps/web/src/app/login/page.tsx:13-16 | the form starts empty, without error, not loading |
| `LoginPage.LoginForm.HandleLogin` | apps/web/src/app/login/page.tsx:25-46 | one `signInWithPassword` request; the shared store receives exactly `signIn`'s actions; an error sets the local error and resets `isLoading` only; success logs in the returned pair and replaces the page with `/dashboard`; otherwise nothing more happens and `isLoading` stays true |
| `DashboardPage.MenuLogoutComparedToSignOut` | apps/web/src/app/dashboard/page.tsx:92-103 | the menu's logout and the context's `signOut` agree on an error-free sign-out; on an error the menu leaves the state untouched while `signOut` still signs out |
| `DashboardPage.MenuLogoutActions` | apps/web/src/app/dashboard/page.tsx:96-99 | the menu dispatches `LOGOUT` only for an error-free sign-out; `MenuLogoutComparedToSignOut` compares it with the context's `signOut` |
| `DashboardPage.SettingsMenu.HandleLogout` | apps/web/src/app/dashboard/page.tsx:92-103 | one sign-out request; only an error-free answer navigates to `/login` and dispatches `LOGOUT` |
| `JsString.TrimStart` | apps/web/src/app/register/page.tsx:31 | the result is a suffix of the input and does not start with white space |
| `JsString.TrimStartRemovesWhiteSpace` | apps/web/src/app/register/page.tsx:31 | everything the leading trim removes is white space |
| `JsString.TrimEnd` | apps/web/src/app/register/page.tsx:31 | the result is a prefix of the input and does not end with white space |
| `JsString.TrimEndRemovesWhiteSpace` | apps/web/src/app/register/page.tsx:31 | everything the trailing trim removes is white space |
| `JsString.Trim` | apps/web/src/app/register/page.tsx:31 | `s.trim()` as the trailing trim of the leading trim; `TrimEmptyIff`, `TrimIsInnerSlice` and `TrimHasNoOuterWhiteSpace` state what it returns |
| `JsString.TrimEmptyIff` | apps/web/src/app/register/page.tsx:31 | `s.trim()` is empty iff every character of `s` is white space |
| `JsString.TrimIsInnerSlice` | apps/web/src/app/register/page.tsx:55 | the trimmed string is the slice of the original that starts after the leading white space |
| `JsString.TrimHasNoOuterWhiteSpace` | apps/web/src/app/register/page.tsx:55 | the trimmed string neither starts nor ends with white space |
| `JsString.StartsWith` | apps/api/src/middleware/auth.ts:18 | `startsWith`: the pattern is a prefix of the string; `ExtractToken` and `MissingTokenIff` rely on it |
| `JsString.IndexFrom` | apps/api/src/middleware/auth.ts:19 | the position found is an occurrence with none before it; none is found only when there is no occurrence |
| `JsString.ReplaceFirst` | apps/api/src/middleware/auth.ts:19 | `replace` with a string pattern changes only the first occurrence; `RemovePrefixOccurrence` and `TokenRoundTrip` state its effect on the bearer prefix |
| `JsString.RemovePrefixOccurrence` | apps/api/src/middleware/auth.ts:19 | replacing the first occurrence of a pattern the string starts with removes exactly that prefix |
| `JsString.Utf16Length` | apps/web/src/app/register/page.tsx:36 | `length` in UTF-16 code units, two for a character above U+FFFF; bounded by `Utf16LengthBounds` |
| `JsString.Utf16LengthBounds` | apps/web/src/app/register/page.tsx:36 | `length` is between one and two code units per character and zero only for the empty string |

## Left out

- The identity provider's SDK (`createClient`, `getSession`, `signInWithPassword`, `signUp`, `signOut`, `getUser`, `onAuthStateChange`) is not modelled. Each call is an oracle answer passed as a parameter and a request recorded on the client.
- Asynchrony and interleaving are not modelled. Each handler, and each change notification, is one atomic step over the shared state, so a stale notification racing an in-flight `signIn` is not represented.
- The relative order of a handler's dispatches and its provider request is fixed by the method bodies. The contracts state them as two separate logs.
- The subscription's `unsubscribe` on unmount, and `useAuth` throwing outside the provider, are not modelled: neither changes the auth state.
- The reducer's `default` branch is not modelled. No well-typed action reaches it, and the action datatype has exactly the three cases.
- Reading the environment configuration, and the failure when it is missing, are not modelled. The configuration values are parameters of `GetSupabaseClient`.
- The server's own client (created at module load with the service-role key) is the `provider` parameter of `RequireAuth`.
- `RequireAuth` assumes that `next()` does not throw. Express catches exceptions raised by later handlers itself. If `next()` threw, the `catch` would also write a 500 reply.
- `console.error` / `console.log` output is not modelled.
- The `setTimeout` delay before the post-registration push is not modelled; it is recorded as `PushAfter("/dashboard", 700)`.
- The effect dependencies compare the user by value, where React compares object identity. `router` and `supabase` are treated as stable dependencies.
- React batching of state updates is not modelled. The setters apply in program order, and only the final values are stated.
- Typing into the form fields (the `onChange` handlers) is not modelled. The field values are the form objects' fields.
- The presentational parts of the dashboard, login and registration pages, the mock data, the colour constants, the type declarations and the shared UI components are not modelled: they hold no behaviour of the core.
- AuthContext.AuthStore.SignOut: a rejected sign-out is reported as `Rejected(Exception(None))`, without the rejection's own message.
