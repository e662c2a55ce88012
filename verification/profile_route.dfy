/** The profile endpoint, `GET /api/instagram/profile`
    (src/app/api/instagram/profile/route.ts): one upstream call, whose body
    is forwarded as is. */
module ProfileRoute {
  import opened Optional
  import opened Domain
  import opened Cookies

  /** `GET /me?fields=id,user_id,name,...,media_count&access_token=<token>`. */
  datatype ProfileRequest = ProfileRequest(accessToken: string)

  datatype ProfileReply = ProfileResolved(status: int, body: Profile) | ProfileRejected(failure: Failure)

  datatype ProfileBody =
    | ProfileError(error: string, message: string)
    | ProfileData(data: Profile)   // `{ success: true, data }`

  datatype Handled = Handled(status: int, body: ProfileBody, calls: seq<ProfileRequest>)

  const NoSession := ProfileError("Sessão Instagram não encontrada",
                                  "Você precisa estar logado no Instagram para acessar este recurso")
  const UpstreamStatusError := ProfileError("Erro da API do Instagram", "Falha ao buscar dados do perfil")
  const InvalidToken := ProfileError("Token de acesso inválido ou expirado", "Faça login novamente no Instagram")
  const InternalError := ProfileError("Erro interno do servidor", "Falha ao processar requisição do perfil Instagram")

  /** The handler. */
  function Get(cookies: CookieStore, profile: ProfileRequest -> ProfileReply): (r: Handled)
    ensures !HasSessionCookies(cookies) ==> r == Handled(401, NoSession, [])
    ensures HasSessionCookies(cookies) ==> r.calls == [ProfileRequest(cookies[AccessTokenCookie])]
    ensures r.body.ProfileData? <==> r.status == 200
    ensures r.body.ProfileData? ==>
      HasSessionCookies(cookies) && profile(ProfileRequest(cookies[AccessTokenCookie])) == ProfileResolved(200, r.body.data)
    ensures HasSessionCookies(cookies) ==>
      var reply := profile(ProfileRequest(cookies[AccessTokenCookie]));
      && (reply.ProfileResolved? && reply.status == 200 ==>
            r == Handled(200, ProfileData(reply.body), [ProfileRequest(cookies[AccessTokenCookie])]))
      && (reply.ProfileResolved? && reply.status != 200 && JsonStatus(reply.status) ==>
            r.status == reply.status && r.body == UpstreamStatusError)
      && (reply.ProfileResolved? && reply.status != 200 && !JsonStatus(reply.status) ==>
            r.status == 500 && r.body == InternalError)
      && (reply.ProfileRejected? && IsAuthFailure(reply.failure) ==> r.status == 401 && r.body == InvalidToken)
      && (reply.ProfileRejected? && !IsAuthFailure(reply.failure) ==> r.status == 500 && r.body == InternalError)
  {
    if !HasSessionCookies(cookies) then Handled(401, NoSession, [])
    else
      var request := ProfileRequest(cookies[AccessTokenCookie]);
      match profile(request)
      case ProfileResolved(status, body) =>
        if status != 200 then
          // A status the JSON response refuses throws inside the `try`; the
          // `catch` sees no axios error and answers 500.
          if JsonStatus(status) then Handled(status, UpstreamStatusError, [request])
          else Handled(500, InternalError, [request])
        else Handled(200, ProfileData(body), [request])
      case ProfileRejected(f) =>
        if IsAuthFailure(f) then Handled(401, InvalidToken, [request])
        else Handled(500, InternalError, [request])
  }

  /** The handler answers 401 exactly when a session cookie is missing or
      the upstream call was rejected as unauthorised (or forwarded a 401). */
  lemma UnauthorizedIff(cookies: CookieStore, profile: ProfileRequest -> ProfileReply)
    ensures Get(cookies, profile).status == 401 <==>
      || !HasSessionCookies(cookies)
      || (var reply := profile(ProfileRequest(cookies[AccessTokenCookie]));
          (reply.ProfileRejected? && IsAuthFailure(reply.failure))
          || (reply.ProfileResolved? && reply.status == 401))
  {
  }
}
