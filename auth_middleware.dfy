/**
 * The API's `requireAuth` middleware: it takes a bearer token from the
 * `Authorization` header, asks the provider who it belongs to, and either
 * answers the request with an error or attaches the user and calls `next`.
 *
 * The prefix test is the code's, not the bearer scheme of section 2.1 of
 * RFC 6750: `Bearer` is matched case-sensitively and followed by exactly one
 * space, and whatever follows that space is the token.
 */
module AuthMiddleware {
  import opened Wrappers
  import opened JsString
  import opened Provider

  const BearerPrefix: string := "Bearer "
  const MissingToken: string := "Missing token"
  const InvalidToken: string := "Invalid token"
  const AuthErrorText: string := "Auth error"

  /** `res.status(status).json({ error })` */
  datatype Reply = Reply(status: nat, error: string)

  /** The middleware either replies, or attaches the user and passes the request on. */
  datatype Verdict = Respond(reply: Reply) | Proceed(user: User)

  /**
   * The token, when the header is present and starts with `"Bearer "`; the token is the
   * rest of the header, so that prefix and token put back together give the header again.
   */
  function ExtractToken(header: Option<string>): (token: Option<string>)
    ensures token.Some? <==> header.Some? && StartsWith(header.value, BearerPrefix)
    ensures token.Some? ==> BearerPrefix + token.value == header.value
  {
    if header.Some? && StartsWith(header.value, BearerPrefix) then
      RemovePrefixOccurrence(header.value, BearerPrefix);
      Some(ReplaceFirst(header.value, BearerPrefix, ""))
    else
      None
  }

  /** Any token sent with the prefix comes back unchanged, even one that itself contains `"Bearer "`. */
  lemma TokenRoundTrip(token: string)
    ensures ExtractToken(Some(BearerPrefix + token)) == Some(token)
  {}

  /** What the provider's answer about the token leads to. */
  function Judge(lookup: UserLookup): (v: Verdict)
    ensures v.Proceed? <==> lookup.Looked? && lookup.error.None? && lookup.user.Some?
    ensures v.Proceed? ==> v.user == lookup.user.value
  {
    match lookup
    case LookupThrew => Respond(Reply(500, AuthErrorText))
    case Looked(user, error) =>
      if error.Some? || user.None? then Respond(Reply(401, InvalidToken)) else Proceed(user.value)
  }

  /**
   * The outcome of one request, given its header and what the provider answers if asked.
   * Every request ends in exactly one of three error replies or in passing the request on.
   */
  function Decide(header: Option<string>, lookup: UserLookup): (v: Verdict)
    ensures v.Respond? ==>
      v.reply in {Reply(401, MissingToken), Reply(401, InvalidToken), Reply(500, AuthErrorText)}
  {
    match ExtractToken(header)
    case None => Respond(Reply(401, MissingToken))
    case Some(_) => Judge(lookup)
  }

  /** "Missing token" is the answer exactly when the header is absent or lacks the prefix. */
  lemma MissingTokenIff(header: Option<string>, lookup: UserLookup)
    ensures Decide(header, lookup) == Respond(Reply(401, MissingToken)) <==>
      header.None? || !StartsWith(header.value, BearerPrefix)
  {}

  /** "Invalid token" is the answer exactly when the provider reports an error or no user for a well-formed header. */
  lemma InvalidTokenIff(header: Option<string>, lookup: UserLookup)
    ensures Decide(header, lookup) == Respond(Reply(401, InvalidToken)) <==>
      ExtractToken(header).Some? && lookup.Looked? && (lookup.error.Some? || lookup.user.None?)
  {}

  /** "Auth error" (500) is the answer exactly when the provider call throws. */
  lemma AuthErrorIff(header: Option<string>, lookup: UserLookup)
    ensures Decide(header, lookup) == Respond(Reply(500, AuthErrorText)) <==>
      ExtractToken(header).Some? && lookup.LookupThrew?
  {}

  /** The request goes on exactly when the provider returns a user and no error, and it carries that user. */
  lemma ProceedIff(header: Option<string>, lookup: UserLookup, user: User)
    ensures Decide(header, lookup) == Proceed(user) <==>
      ExtractToken(header).Some? && lookup == Looked(Some(user), None)
  {}

  /** The scheme name is matched case-sensitively, unlike RFC 6750. */
  lemma LowerCaseSchemeIsMissing()
    ensures ExtractToken(Some("bearer abc")) == None
  {
    assert "bearer abc"[0] != BearerPrefix[0];
  }

  /** A second space is not skipped: it becomes part of the token. */
  lemma ExtraSpaceStaysInToken()
    ensures ExtractToken(Some("Bearer  abc")) == Some(" abc")
  {}

  /** A header that is exactly the prefix yields the empty token, which is still sent to the provider. */
  lemma BarePrefixGivesEmptyToken()
    ensures ExtractToken(Some(BearerPrefix)) == Some("")
  {}

  /** The incoming request: its `Authorization` header and the `user` the middleware may attach. */
  class Request {
    const authorization: Option<string>
    var user: Option<User>

    constructor (authorization: Option<string>)
      ensures this.authorization == authorization && user.None?
    {
      this.authorization := authorization;
      user := None;
    }
  }

  /** The response: its status code and the `error` field of the JSON body once one is sent. */
  class Response {
    var statusCode: nat
    var body: Option<string>

    constructor ()
      ensures statusCode == 200 && body.None?
    {
      statusCode := 200;
      body := None;
    }

    /** `res.status(code)` */
    method Status(code: nat)
      modifies this`statusCode
      ensures statusCode == code
    {
      statusCode := code;
    }

    /** `res.json({ error })` */
    method Json(error: string)
      modifies this`body
      ensures body == Some(error)
    {
      body := Some(error);
    }
  }

  /** The rest of the handler chain; it counts how often it is invoked. */
  class NextHandler {
    var calls: nat

    constructor ()
      ensures calls == 0
    {
      calls := 0;
    }

    /** `next()` */
    method Call()
      modifies this
      ensures calls == old(calls) + 1
    {
      calls := calls + 1;
    }
  }

  /**
   * `requireAuth(req, res, next)`. `lookup` is what the provider answers if it is asked.
   * The provider is asked only for a well-formed header, and then with the extracted
   * token; a reply is written, or the user is attached and `next` is called once, never both.
   */
  method RequireAuth(req: Request, res: Response, next: NextHandler, provider: SupabaseClient, lookup: UserLookup)
    modifies req`user, res, next, provider`calls
    ensures var token := ExtractToken(req.authorization);
      provider.calls == old(provider.calls) + (if token.Some? then [GetUser(token.value)] else [])
    ensures match Decide(req.authorization, lookup)
      case Respond(reply) =>
        res.statusCode == reply.status && res.body == Some(reply.error) &&
        next.calls == old(next.calls) && req.user == old(req.user)
      case Proceed(user) =>
        req.user == Some(user) && next.calls == old(next.calls) + 1 &&
        res.statusCode == old(res.statusCode) && res.body == old(res.body)
  {
    var token := ExtractToken(req.authorization);
    if token.None? {
      res.Status(401);
      res.Json(MissingToken);
      return;
    }
    provider.Invoke(GetUser(token.value));
    match lookup
    case LookupThrew =>
      res.Status(500);
      res.Json(AuthErrorText);
    case Looked(user, error) =>
      if error.Some? || user.None? {
        res.Status(401);
        res.Json(InvalidToken);
        return;
      }
      req.user := user;
      next.Call();
  }
}
