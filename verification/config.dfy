/** Centralised configuration (src/lib/config.ts). Environment variables and
    `window.location.origin` are parameters: None stands for an unset
    variable, or for code running where there is no `window`. */
module Config {
  import opened Optional
  import opened Text

  const CallbackPath: string := "/api/auth/callback/instagram"
  const DashboardPath: string := "/dashboard"

  /** `getRedirectUri(origin)`: a non-empty `NEXT_PUBLIC_REDIRECT_URI` wins;
      otherwise the callback path is appended to the first non-empty of the
      origin argument and the window's origin (or to nothing). */
  function RedirectUri(envRedirectUri: Option<string>, origin: Option<string>,
                       windowOrigin: Option<string>): (r: string)
    ensures Truthy(envRedirectUri) ==> r == envRedirectUri.value
    ensures !Truthy(envRedirectUri) ==> EndsWith(r, CallbackPath)
    ensures !Truthy(envRedirectUri) && Truthy(origin) ==> r == origin.value + CallbackPath
    ensures !Truthy(envRedirectUri) && !Truthy(origin) && windowOrigin.Some? ==>
      r == windowOrigin.value + CallbackPath
    ensures !Truthy(envRedirectUri) && !Truthy(origin) && windowOrigin.None? ==> r == CallbackPath
  {
    if Truthy(envRedirectUri) then envRedirectUri.value
    else
      var base := if Truthy(origin) then origin.value
                  else if windowOrigin.Some? then windowOrigin.value else "";
      base + CallbackPath
  }

  /** The configured redirect URI makes the origin irrelevant. */
  lemma ConfiguredRedirectIgnoresOrigin(env: string, o1: Option<string>, w1: Option<string>,
                                        o2: Option<string>, w2: Option<string>)
    requires env != ""
    ensures RedirectUri(Some(env), o1, w1) == RedirectUri(Some(env), o2, w2)
  {
  }

  /** Without a configured URI, the origin is recovered by removing the
      callback path: the redirect URI is the origin followed by the path,
      nothing added, nothing lost. */
  lemma RedirectUriStripsToOrigin(env: Option<string>, origin: string, w: Option<string>)
    requires !Truthy(env) && origin != ""
    ensures var r := RedirectUri(env, Some(origin), w);
      r[..|r| - |CallbackPath|] == origin
  {
    var r := RedirectUri(env, Some(origin), w);
    assert r == origin + CallbackPath;
  }

  /** `getDashboardUrl()`: a template literal, so an unset
      `INSTAGRAM_API_BASE_URL` renders as the text "undefined". */
  function DashboardUrl(apiBaseUrl: Option<string>): (r: string)
    ensures EndsWith(r, DashboardPath)
    ensures apiBaseUrl.Some? ==> r[..|r| - |DashboardPath|] == apiBaseUrl.value
    ensures apiBaseUrl.None? ==> r == "undefined/dashboard"
  {
    apiBaseUrl.GetOr("undefined") + DashboardPath
  }
}
