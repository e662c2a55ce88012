/** The session endpoint (src/app/api/instagram/session/route.ts): GET
    reports the session cookies, DELETE removes them. `cookies()` either
    yields the request's jar or throws; both handlers catch what it throws. */
module SessionRoute {
  import opened Optional
  import opened Text
  import opened Domain
  import opened Cookies

  /** The outcome of `await cookies()`. */
  datatype Jar = Available(store: CookieStore) | Unavailable(failure: Failure)

  datatype Reply = Reply(status: int, body: SessionResponse)

  const NotFound := SessionResponse("error", "Instagram session not found", false, None, None)

  /** GET: 200 with both values when both cookies hold non-empty values,
      401 otherwise, 500 when the jar cannot be read. */
  function Get(jar: Jar): (r: Reply)
    ensures r.status in {200, 401, 500}
    ensures r.status == 200 <==> r.body.authenticated
    ensures r.status == 200 <==>
      jar.Available? && Truthy(Cookies.Get(jar.store, AccessTokenCookie)) && Truthy(Cookies.Get(jar.store, UserIdCookie))
    ensures r.status == 200 ==>
      r.body.status == "success" && r.body.message == "Instagram session found"
      && r.body.data == Some(Session(jar.store[UserIdCookie], jar.store[AccessTokenCookie]))
    ensures r.status == 401 ==> jar.Available? && r.body == NotFound
    ensures jar.Available? && !Truthy(Cookies.Get(jar.store, AccessTokenCookie)) ==> r == Reply(401, NotFound)
    ensures jar.Available? && !Truthy(Cookies.Get(jar.store, UserIdCookie)) ==> r == Reply(401, NotFound)
    ensures jar.Unavailable? ==>
      r == Reply(500, SessionResponse("error", "Internal server error", false, None, Some(ErrorText(jar.failure))))
    ensures r.body.data.Some? ==> r.body.data.value.accessToken != "" && r.body.data.value.userId != ""
  {
    match jar
    case Unavailable(f) =>
      Reply(500, SessionResponse("error", "Internal server error", false, None, Some(ErrorText(f))))
    case Available(store) =>
      var accessToken := Cookies.Get(store, AccessTokenCookie);
      var userId := Cookies.Get(store, UserIdCookie);
      if !Truthy(accessToken) || !Truthy(userId) then Reply(401, NotFound)
      else
        Reply(200, SessionResponse("success", "Instagram session found", true,
                                   Some(Session(userId.value, accessToken.value)), None))
  }

  /** DELETE: removes both session cookies and reports success. */
  function Delete(jar: Jar): (r: (Reply, Jar))
    ensures jar.Available? ==>
      && r.0 == Reply(200, SessionResponse("success", "Instagram session cleared", false, None, None))
      && r.1.Available?
      && AccessTokenCookie !in r.1.store && UserIdCookie !in r.1.store
      && r.1.store.Keys == jar.store.Keys - {AccessTokenCookie, UserIdCookie}
      && (forall k :: k in r.1.store ==> r.1.store[k] == jar.store[k])
    ensures jar.Unavailable? ==>
      r == (Reply(500, SessionResponse("error", "Error clearing session", false, None, Some(ErrorText(jar.failure)))), jar)
  {
    match jar
    case Unavailable(f) =>
      (Reply(500, SessionResponse("error", "Error clearing session", false, None, Some(ErrorText(f)))), jar)
    case Available(store) =>
      var cleared := Cookies.Delete(Cookies.Delete(store, AccessTokenCookie), UserIdCookie);
      (Reply(200, SessionResponse("success", "Instagram session cleared", false, None, None)), Available(cleared))
  }

  /** After a DELETE the session is gone: a GET on the resulting jar answers
      401 (or 500, when the jar could not be read in the first place). */
  lemma GetAfterDeleteIsUnauthenticated(jar: Jar)
    ensures var after := Delete(jar).1;
      jar.Available? ==> Get(after) == Reply(401, NotFound)
    ensures !Get(Delete(jar).1).body.authenticated
  {
  }

  /** Deleting twice is deleting once. */
  lemma DeleteIdempotent(jar: Jar)
    ensures Delete(Delete(jar).1) == Delete(jar)
  {
    if jar.Available? {
      var once := Delete(jar).1;
      assert Delete(once).1.store == once.store;
    }
  }

  /** The two gates disagree on empty values: a jar whose token cookie is
      present but empty passes the presence check of the media and profile
      handlers, while this handler reports no session. */
  lemma EmptyTokenPassesDataGateOnly()
    ensures var store := map[AccessTokenCookie := "", UserIdCookie := "17841400000000000"];
      HasSessionCookies(store) && Get(Available(store)).status == 401
  {
  }
}
