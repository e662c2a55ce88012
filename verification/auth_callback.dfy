/** The OAuth callback, `GET /api/auth/callback/instagram`
    (src/app/api/auth/callback/instagram/route.ts): exchanges the code for a
    token, stores the token and the user id in cookies, and redirects to the
    dashboard. POST hands the request to GET unchanged. */
module AuthCallback {
  import opened Optional
  import opened Text
  import opened Domain
  import opened Cookies
  import opened InstagramLib
  import SessionRoute

  const TokenUrl: string := "https://api.instagram.com/oauth/access_token"
  const DefaultClientId: string := "742086725267609"
  const DefaultRedirectUri: string := "https://0190ec42c1ca.ngrok-free.app/api/auth/callback/instagram"

  /** Sixty days, in seconds. */
  const SessionMaxAge: int := 60 * 60 * 24 * 60

  /** The environment variables the handler reads; None is an unset one. */
  datatype Env = Env(
    instagramClientId: Option<string>,
    publicClientId: Option<string>,
    clientSecret: Option<string>,
    publicRedirectUri: Option<string>,
    nodeEnv: Option<string>,
    nextAuthUrl: Option<string>)

  /** The parts of the incoming request the handler reads: the `code` and
      `state` query parameters and the URL's origin. */
  datatype CallbackRequest = CallbackRequest(code: Option<string>, state: Option<string>, origin: string)

  /** `axios.post(TokenUrl, form)`, the form in the order it is built. */
  datatype TokenRequest = TokenRequest(url: string, form: seq<Param>)

  /** The exchange's outcome: the token body, or the failure axios rejected
      with. */
  datatype TokenReply = TokenResolved(accessToken: string, userId: int) | TokenRejected(failure: Failure)

  datatype Outcome =
    | Redirect(location: string)
    | JsonError(status: int, message: string, error: Option<string>)

  datatype Handled = Handled(outcome: Outcome, calls: seq<TokenRequest>, jar: SessionRoute.Jar)

  /** `INSTAGRAM_CLIENT_ID || NEXT_PUBLIC_INSTAGRAM_CLIENT_ID || <fallback>`. */
  function ClientId(env: Env): (r: string)
    ensures r != ""
    ensures Truthy(env.instagramClientId) ==> r == env.instagramClientId.value
    ensures !Truthy(env.instagramClientId) && Truthy(env.publicClientId) ==> r == env.publicClientId.value
    ensures !Truthy(env.instagramClientId) && !Truthy(env.publicClientId) ==> r == DefaultClientId
  {
    Or(env.instagramClientId, Or(env.publicClientId, DefaultClientId))
  }

  function RedirectUri(env: Env): (r: string)
    ensures r != ""
    ensures Truthy(env.publicRedirectUri) ==> r == env.publicRedirectUri.value
    ensures !Truthy(env.publicRedirectUri) ==> r == DefaultRedirectUri
  {
    Or(env.publicRedirectUri, DefaultRedirectUri)
  }

  /** The token request body. */
  function TokenForm(env: Env, clientSecret: string, code: string): (r: seq<Param>)
    ensures |r| == 5
    ensures Lookup(r, "client_id") == Some(ClientId(env))
    ensures Lookup(r, "client_secret") == Some(clientSecret)
    ensures Lookup(r, "grant_type") == Some("authorization_code")
    ensures Lookup(r, "redirect_uri") == Some(RedirectUri(env))
    ensures Lookup(r, "code") == Some(code)
  {
    var r := [Param("client_id", ClientId(env)), Param("client_secret", clientSecret),
              Param("grant_type", "authorization_code"), Param("redirect_uri", RedirectUri(env)),
              Param("code", code)];
    forall key | key in ["client_id", "client_secret", "grant_type", "redirect_uri", "code"]
      ensures Lookup(r, key) == Lookup(r[1..], key) || key == "client_id"
      ensures Lookup(r[1..], key) == Lookup(r[2..], key) || key == "client_secret"
      ensures Lookup(r[2..], key) == Lookup(r[3..], key) || key == "grant_type"
      ensures Lookup(r[3..], key) == Lookup(r[4..], key) || key == "redirect_uri"
    {
      assert r[1..][1..] == r[2..];
      assert r[2..][1..] == r[3..];
      assert r[3..][1..] == r[4..];
    }
    r
  }

  /** The options both session cookies are written with. */
  function SessionCookieOptions(env: Env): (r: CookieOptions)
    ensures r.httpOnly && r.sameSite == Lax && r.path == "/"
    ensures r.maxAge == 5184000
    ensures r.secure <==> env.nodeEnv == Some("production")
  {
    CookieOptions(true, env.nodeEnv == Some("production"), Lax, SessionMaxAge, "/")
  }

  /** The two writes, token first. */
  function SessionWrites(env: Env, accessToken: string, userId: int): seq<CookieWrite> {
    [CookieWrite(AccessTokenCookie, accessToken, SessionCookieOptions(env)),
     CookieWrite(UserIdCookie, IntToString(userId), SessionCookieOptions(env))]
  }

  /** `${NEXTAUTH_URL}/dashboard` when set, otherwise the request's origin. */
  function DashboardLocation(env: Env, origin: string): (r: string)
    ensures EndsWith(r, "/dashboard")
    ensures Truthy(env.nextAuthUrl) ==> r == env.nextAuthUrl.value + "/dashboard"
    ensures !Truthy(env.nextAuthUrl) ==> r == origin + "/dashboard"
  {
    (if Truthy(env.nextAuthUrl) then env.nextAuthUrl.value else origin) + "/dashboard"
  }

  /** How the outer `catch` answers: an axios error carrying response data
      forwards the upstream status with the upstream's `error` and
      `error_description` (an absent one renders as "undefined"); anything
      else is a 500. */
  function CatchOutcome(f: Failure): (r: Outcome)
    ensures r.JsonError?
    ensures f.AxiosFailure? && f.response.Some? && f.response.value.body.Some? ==>
      var b := f.response.value.body.value;
      r == JsonError(f.response.value.status,
                     "Instagram API error: " + b.error.GetOr("undefined") + " - " + b.errorDescription.GetOr("undefined"),
                     None)
    ensures !(f.AxiosFailure? && f.response.Some? && f.response.value.body.Some?) ==>
      r == JsonError(500, "Internal server error", Some(ErrorText(f)))
  {
    if f.AxiosFailure? && f.response.Some? && f.response.value.body.Some? then
      var b := f.response.value.body.value;
      JsonError(f.response.value.status,
                "Instagram API error: " + b.error.GetOr("undefined") + " - " + b.errorDescription.GetOr("undefined"),
                None)
    else JsonError(500, "Internal server error", Some(ErrorText(f)))
  }

  /** The message `NextResponse.redirect` throws when its target does not
      parse as an absolute URL. */
  function MalformedUrlText(url: string): string {
    "URL is malformed \"" + url + "\". Please use only absolute URLs - https://nextjs.org/docs/messages/middleware-relative-urls"
  }

  /** The handler. `jar` is what `cookies()` yields, read only after the
      exchange has succeeded. `parseUrl` stands for `new URL(url)` without a
      base, which `NextResponse.redirect` applies to its target: the
      serialized URL, or None when the string is not an absolute URL. */
  function Callback(request: CallbackRequest, env: Env, exchange: TokenRequest -> TokenReply,
                    jar: SessionRoute.Jar, parseUrl: string -> Option<string>): (r: Handled)
    ensures !Truthy(request.code) ==>
      r == Handled(JsonError(400, "Authorization code not received", None), [], jar)
    ensures Truthy(request.code) && !Truthy(env.clientSecret) ==>
      r == Handled(JsonError(500, "Instagram client secret not configured", None), [], jar)
    ensures Truthy(request.code) && Truthy(env.clientSecret) ==>
      r.calls == [TokenRequest(TokenUrl, TokenForm(env, env.clientSecret.value, request.code.value))]
    ensures r.outcome.Redirect? ==>
      && Truthy(request.code) && Truthy(env.clientSecret) && jar.Available?
      && parseUrl(DashboardLocation(env, request.origin)).Some?
      && r.outcome.location == parseUrl(DashboardLocation(env, request.origin)).value
      && var reply := exchange(r.calls[0]);
      && reply.TokenResolved?
      && r.jar == SessionRoute.Available(ApplyWrites(jar.store, SessionWrites(env, reply.accessToken, reply.userId)))
    ensures Truthy(request.code) && Truthy(env.clientSecret) && exchange(r.calls[0]).TokenRejected? ==>
      r.outcome == CatchOutcome(exchange(r.calls[0]).failure) && r.jar == jar
    ensures Truthy(request.code) && Truthy(env.clientSecret) && jar.Available? ==>
      var reply := exchange(r.calls[0]);
      var location := DashboardLocation(env, request.origin);
      reply.TokenResolved? && parseUrl(location).Some? ==>
        && r.outcome == Redirect(parseUrl(location).value)
        && r.jar == SessionRoute.Available(ApplyWrites(jar.store, SessionWrites(env, reply.accessToken, reply.userId)))
    ensures Truthy(request.code) && Truthy(env.clientSecret) && jar.Available? ==>
      var reply := exchange(r.calls[0]);
      var location := DashboardLocation(env, request.origin);
      reply.TokenResolved? && parseUrl(location).None? ==>
        && r.outcome == JsonError(500, "Internal server error", Some(MalformedUrlText(location)))
        && r.jar == SessionRoute.Available(ApplyWrites(jar.store, SessionWrites(env, reply.accessToken, reply.userId)))
    ensures Truthy(request.code) && Truthy(env.clientSecret) && jar.Unavailable? ==>
      exchange(r.calls[0]).TokenResolved? ==> r.outcome == CatchOutcome(jar.failure) && r.jar == jar
  {
    if !Truthy(request.code) then
      Handled(JsonError(400, "Authorization code not received", None), [], jar)
    else if !Truthy(env.clientSecret) then
      Handled(JsonError(500, "Instagram client secret not configured", None), [], jar)
    else
      var call := TokenRequest(TokenUrl, TokenForm(env, env.clientSecret.value, request.code.value));
      match exchange(call)
      case TokenRejected(f) => Handled(CatchOutcome(f), [call], jar)
      case TokenResolved(accessToken, userId) =>
        match jar
        case Unavailable(f) => Handled(CatchOutcome(f), [call], jar)
        case Available(store) => Finish(env, request.origin, call, accessToken, userId, store, parseUrl)
  }

  /** The tail of a successful exchange with a writable jar: both cookies
      are set before the redirect is built, so a target the redirect
      refuses still leaves them on the response; the refusal is an Error,
      which the catch answers with a 500. */
  function Finish(env: Env, origin: string, call: TokenRequest, accessToken: string, userId: int,
                  store: map<string, string>, parseUrl: string -> Option<string>): (r: Handled)
    ensures r.calls == [call]
    ensures r.jar == SessionRoute.Available(ApplyWrites(store, SessionWrites(env, accessToken, userId)))
    ensures parseUrl(DashboardLocation(env, origin)).Some? ==>
      r.outcome == Redirect(parseUrl(DashboardLocation(env, origin)).value)
    ensures parseUrl(DashboardLocation(env, origin)).None? ==>
      r.outcome == JsonError(500, "Internal server error", Some(MalformedUrlText(DashboardLocation(env, origin))))
  {
    var written := SessionRoute.Available(ApplyWrites(store, SessionWrites(env, accessToken, userId)));
    var location := DashboardLocation(env, origin);
    match parseUrl(location)
    case Some(url) => Handled(Redirect(url), [call], written)
    case None => Handled(JsonError(500, "Internal server error", Some(MalformedUrlText(location))), [call], written)
  }

  /** The callback redirects exactly when the code and the secret are set,
      the exchange succeeds, the jar can be written and the dashboard target
      is an absolute URL. */
  lemma RedirectIff(request: CallbackRequest, env: Env, exchange: TokenRequest -> TokenReply,
                    jar: SessionRoute.Jar, parseUrl: string -> Option<string>)
    ensures Callback(request, env, exchange, jar, parseUrl).outcome.Redirect? <==>
      && Truthy(request.code) && Truthy(env.clientSecret) && jar.Available?
      && exchange(TokenRequest(TokenUrl, TokenForm(env, env.clientSecret.value, request.code.value))).TokenResolved?
      && parseUrl(DashboardLocation(env, request.origin)).Some?
  {
  }

  /** The cookies and the upstream call do not depend on whether the
      dashboard target parses: a refused redirect answers 500 but sends the
      same cookies a redirect would. */
  lemma CookiesIgnoreRedirectTarget(request: CallbackRequest, env: Env, exchange: TokenRequest -> TokenReply,
                                    jar: SessionRoute.Jar, p1: string -> Option<string>, p2: string -> Option<string>)
    ensures Callback(request, env, exchange, jar, p1).jar == Callback(request, env, exchange, jar, p2).jar
    ensures Callback(request, env, exchange, jar, p1).calls == Callback(request, env, exchange, jar, p2).calls
  {
  }

  /** The `state` parameter is read but plays no part in the outcome. */
  lemma StateIsIgnored(code: Option<string>, s1: Option<string>, s2: Option<string>, origin: string,
                       env: Env, exchange: TokenRequest -> TokenReply, jar: SessionRoute.Jar,
                       parseUrl: string -> Option<string>)
    ensures Callback(CallbackRequest(code, s1, origin), env, exchange, jar, parseUrl)
         == Callback(CallbackRequest(code, s2, origin), env, exchange, jar, parseUrl)
  {
  }

  /** After a callback whose exchange succeeded with a writable jar, the
      session endpoint finds the stored session, whether the redirect went
      out or its target was refused: it answers 200 with exactly the token
      and the decimal user id when the token is non-empty, and 401 when the
      upstream sent an empty token. Any other cookie in the jar is kept. */
  lemma CallbackThenSession(request: CallbackRequest, env: Env, exchange: TokenRequest -> TokenReply,
                            jar: SessionRoute.Jar, parseUrl: string -> Option<string>)
    requires Truthy(request.code) && Truthy(env.clientSecret) && jar.Available?
    requires exchange(TokenRequest(TokenUrl, TokenForm(env, env.clientSecret.value, request.code.value))).TokenResolved?
    ensures var h := Callback(request, env, exchange, jar, parseUrl);
      var reply := exchange(h.calls[0]);
      var session := SessionRoute.Get(h.jar);
      && HasSessionCookies(h.jar.store)
      && (session.status == 200 <==> reply.accessToken != "")
      && (reply.accessToken != "" ==>
            session.body.data == Some(Session(IntToString(reply.userId), reply.accessToken)))
      && (forall k :: k in jar.store && k != AccessTokenCookie && k != UserIdCookie ==>
            k in h.jar.store && h.jar.store[k] == jar.store[k])
  {
    var h := Callback(request, env, exchange, jar, parseUrl);
    var reply := exchange(h.calls[0]);
    var writes := SessionWrites(env, reply.accessToken, reply.userId);
    var once := jar.store[AccessTokenCookie := reply.accessToken];
    assert writes[1..] == [writes[1]];
    assert ApplyWrites(jar.store, writes) == ApplyWrites(once, [writes[1]]);
    assert ApplyWrites(once, [writes[1]]) == ApplyWrites(once[UserIdCookie := IntToString(reply.userId)], []);
  }

  /** A non-negative user id stored by the callback reads back as the same
      number. */
  lemma StoredUserIdReadsBack(userId: nat)
    ensures AllDigits(IntToString(userId))
    ensures ParseDigits(IntToString(userId)) == userId
  {
    NatToStringRoundTrip(userId);
  }
}
