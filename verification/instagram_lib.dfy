/** Browser-side helpers (src/lib/instagram.ts): token masking, the
    authorization URL, and the two session calls with their fallbacks. */
module InstagramLib {
  import opened Optional
  import opened Text
  import opened Domain

  // ----- token masking -----

  /** `formatTokenForDisplay(token, visibleChars)`: an empty token shows as
      nothing; a longer one as its first `visibleChars` characters and
      "...". */
  function FormatTokenForDisplay(token: string, visibleChars: int): (r: string)
    ensures token == "" ==> r == ""
    ensures token != "" && |token| <= visibleChars ==> r == token
    ensures token != "" && |token| > visibleChars ==>
      EndsWith(r, Ellipsis) && IsPrefix(r[..|r| - 3], token) && |r| == Max0(visibleChars) + 3
    ensures |r| <= Max0(visibleChars) + 3
  {
    if token == "" then "" else Ellipsize(token, visibleChars)
  }

  /** The masked token is always a prefix of the token, possibly followed
      by "...", and masking it again changes nothing. */
  lemma MaskedTokenShape(token: string, visibleChars: int)
    ensures var r := FormatTokenForDisplay(token, visibleChars);
      exists k :: 0 <= k <= |token| && (r == token[..k] || r == token[..k] + Ellipsis)
    ensures visibleChars >= 0 ==>
      FormatTokenForDisplay(FormatTokenForDisplay(token, visibleChars), visibleChars)
      == FormatTokenForDisplay(token, visibleChars)
  {
    if token == "" {
      assert FormatTokenForDisplay(token, visibleChars) == token[..0];
    } else {
      EllipsizeIsPrefixPlusEllipsis(token, visibleChars);
      if visibleChars >= 0 {
        EllipsizeIdempotent(token, visibleChars);
      }
    }
  }

  /** The empty-token guard matters only for a negative width: without it
      the empty token would show as "...". */
  lemma EmptyTokenGuardMatters()
    ensures FormatTokenForDisplay("", -1) == ""
    ensures Ellipsize("", -1) == Ellipsis
  {
  }

  // ----- authorization URL -----

  const AuthorizeBase: string := "https://api.instagram.com/oauth/authorize"
  const AuthScope: string := "user_profile,user_media"

  datatype Param = Param(key: string, value: string)

  /** The query parameters of the authorization URL, in order; `state` is
      appended last, and only when it is non-empty. */
  function AuthParams(clientId: string, redirectUri: string, state: Option<string>): (r: seq<Param>)
    ensures |r| == if Truthy(state) then 5 else 4
    ensures r[..4] == [Param("client_id", clientId), Param("redirect_uri", redirectUri),
                       Param("scope", AuthScope), Param("response_type", "code")]
    ensures Truthy(state) ==> r[4] == Param("state", state.value)
  {
    var fixed := [Param("client_id", clientId), Param("redirect_uri", redirectUri),
                  Param("scope", AuthScope), Param("response_type", "code")];
    if Truthy(state) then fixed + [Param("state", state.value)] else fixed
  }

  /** The value of the first parameter named `key`. */
  function Lookup(params: seq<Param>, key: string): Option<string>
    decreases |params|
  {
    if params == [] then None
    else if params[0].key == key then Some(params[0].value)
    else Lookup(params[1..], key)
  }

  /** Reading the parameters back gives the inputs: each key carries its
      argument, and a `state` key exists exactly when a non-empty state was
      given. */
  lemma AuthParamsReadBack(clientId: string, redirectUri: string, state: Option<string>)
    ensures var ps := AuthParams(clientId, redirectUri, state);
      && Lookup(ps, "client_id") == Some(clientId)
      && Lookup(ps, "redirect_uri") == Some(redirectUri)
      && Lookup(ps, "scope") == Some(AuthScope)
      && Lookup(ps, "response_type") == Some("code")
      && Lookup(ps, "state") == (if Truthy(state) then Some(state.value) else None)
  {
    var ps := AuthParams(clientId, redirectUri, state);
    var keys := ["client_id", "redirect_uri", "scope", "response_type"];
    forall key | key in keys + ["state"]
      ensures Lookup(ps, key) == Lookup(ps[1..], key) || key == "client_id"
      ensures Lookup(ps[1..], key) == Lookup(ps[2..], key) || key == "redirect_uri"
      ensures Lookup(ps[2..], key) == Lookup(ps[3..], key) || key == "scope"
      ensures Lookup(ps[3..], key) == Lookup(ps[4..], key) || key == "response_type"
    {
      assert ps[1..][1..] == ps[2..];
      assert ps[2..][1..] == ps[3..];
      assert ps[3..][1..] == ps[4..];
    }
    if Truthy(state) {
      assert ps[4..][1..] == [];
    } else {
      assert ps[4..] == [];
    }
  }

  /** `buildInstagramAuthUrl`. `serialize` stands for `URLSearchParams`'
      `toString()` (the application/x-www-form-urlencoded serializer of the
      WHATWG URL Standard, section 5.2). */
  function BuildAuthUrl(clientId: string, redirectUri: string, state: Option<string>,
                        serialize: seq<Param> -> string): (r: string)
    ensures StartsWith(r, AuthorizeBase + "?")
    ensures r[|AuthorizeBase| + 1..] == serialize(AuthParams(clientId, redirectUri, state))
  {
    AuthorizeBase + "?" + serialize(AuthParams(clientId, redirectUri, state))
  }

  // ----- session calls from the browser -----

  /** What `fetch('/api/instagram/session', ...)` followed by `.json()`
      produced: the parsed body, or the failure it threw. */
  datatype FetchReply = Parsed(body: SessionResponse) | FetchFailed(failure: Failure)

  /** What both session calls return: the parsed body whatever the HTTP
      status, or an unauthenticated error response carrying `failureMessage`
      when the call throws. */
  function SessionCallResult(reply: FetchReply, failureMessage: string): SessionResponse {
    match reply
    case Parsed(body) => body
    case FetchFailed(f) => SessionResponse("error", failureMessage, false, None, Some(ErrorText(f)))
  }

  /** `checkInstagramSession`, the GET call. */
  function CheckInstagramSession(reply: FetchReply): (r: SessionResponse)
    ensures reply.Parsed? ==> r == reply.body
    ensures reply.FetchFailed? ==>
      r.status == "error" && !r.authenticated && r.data.None?
      && r.message == "Erro ao verificar sessão" && r.error == Some(ErrorText(reply.failure))
  {
    SessionCallResult(reply, "Erro ao verificar sessão")
  }

  /** `clearInstagramSession`, the DELETE call. */
  function ClearInstagramSession(reply: FetchReply): (r: SessionResponse)
    ensures reply.Parsed? ==> r == reply.body
    ensures reply.FetchFailed? ==>
      r.status == "error" && !r.authenticated && r.data.None?
      && r.message == "Erro ao limpar sessão" && r.error == Some(ErrorText(reply.failure))
  {
    SessionCallResult(reply, "Erro ao limpar sessão")
  }
}
