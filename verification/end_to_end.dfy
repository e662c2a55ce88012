/** How the server handlers and the browser code fit together: a handler's
    response, carried to the browser, and what the hook or page then shows.
    axios resolves 2xx responses and rejects every other status with the
    response attached; `fetch` resolves every status. */
module EndToEnd {
  import opened Optional
  import opened Text
  import opened Domain
  import opened Cookies
  import opened Client
  import MediaRoute
  import ProfileRoute
  import SessionRoute
  import AuthCallback
  import MediaHook
  import ProfileHook
  import InstagramLib
  import Dashboard
  import InsightsRead
  import MediaGrid

  predicate IsSuccessStatus(status: int) {
    200 <= status < 300
  }

  /** An error body `{ error, message }` as axios attaches it to a rejection. */
  function Rejection<B>(status: int, error: string, message: string): Reply<B> {
    Rejected(AxiosFailure(Some(ErrorResponse(status, Some(ErrorBody(Some(message), Some(error), None)))),
                          "Request failed with status code " + IntToString(status)))
  }

  /** The media handler's response as the media hook receives it. */
  function CarryMedia(h: MediaRoute.Handled): Reply<MediaHook.MediaResponse> {
    match h.body
    case MediaPage(data, paging) =>
      if IsSuccessStatus(h.status) then Resolved(h.status, Some(MediaHook.MediaResponse(true, Some(data), paging)))
      else Rejection(h.status, "", "")
    case MediaError(error, message) =>
      if IsSuccessStatus(h.status) then Resolved(h.status, Some(MediaHook.MediaResponse(false, None, None)))
      else Rejection(h.status, error, message)
  }

  /** The profile handler's response as the profile hook receives it. */
  function CarryProfile(h: ProfileRoute.Handled): Reply<ProfileHook.ProfileResponse> {
    match h.body
    case ProfileData(data) =>
      if IsSuccessStatus(h.status) then Resolved(h.status, Some(ProfileHook.ProfileResponse(true, Some(data), None)))
      else Rejection(h.status, "", "")
    case ProfileError(error, message) =>
      if IsSuccessStatus(h.status) then Resolved(h.status, Some(ProfileHook.ProfileResponse(false, None, Some(message))))
      else Rejection(h.status, error, message)
  }

  /** The media hook shows what the handler answered: the posts of a 200
      page, the login screen (no error, no posts) for a 401, and the
      handler's own message for any other error status. */
  lemma MediaRouteToHook(s: MediaHook.MediaState, isLoadMore: bool,
                         cookies: CookieStore, limitParam: Option<string>,
                         listing: MediaRoute.ListingRequest -> MediaRoute.ListingReply,
                         insights: MediaRoute.InsightsRequest -> MediaRoute.InsightsReply)
    ensures var h := MediaRoute.Get(cookies, limitParam, listing, insights);
      var r := MediaHook.Settle(s, isLoadMore, CarryMedia(h));
      && (r.authenticated <==> h.status == 200)
      && (h.status == 200 ==> r.media == (if isLoadMore then s.media else []) + h.body.data)
      && (h.status == 401 ==> r.error.None? && r.media == [])
      && (h.status != 401 && !IsSuccessStatus(h.status) ==> r.error == Some(h.body.message))
  {
  }

  /** Without both session cookies, mounting the media hook ends on the
      login screen: not authenticated, no error, no posts, nothing loading. */
  lemma NoCookiesMeansLoginScreen(limit: int, cookies: CookieStore,
                                  listing: MediaRoute.ListingRequest -> MediaRoute.ListingReply,
                                  insights: MediaRoute.InsightsRequest -> MediaRoute.InsightsReply)
    requires !HasSessionCookies(cookies)
    ensures var api := (url: string) => CarryMedia(MediaRoute.Get(cookies, Some(IntToString(limit)), listing, insights));
      var r := MediaHook.Mount(limit, api);
      !r.authenticated && r.error.None? && r.media == [] && !r.loading
  {
  }

  /** The profile hook likewise: the profile of a 200, nothing for a 401,
      the handler's message for other error statuses. */
  lemma ProfileRouteToHook(s: ProfileHook.ProfileState, cookies: CookieStore,
                           profile: ProfileRoute.ProfileRequest -> ProfileRoute.ProfileReply)
    ensures var h := ProfileRoute.Get(cookies, profile);
      var r := ProfileHook.Settle(s, CarryProfile(h));
      && (r.authenticated <==> h.status == 200)
      && (h.status == 200 ==> r.profile == Some(h.body.data))
      && (h.status == 401 ==> r.error.None? && r.profile.None?)
      && (h.status != 401 && !IsSuccessStatus(h.status) ==> r.error == Some(h.body.message))
  {
  }

  /** The dashboard header, after checking the session against the session
      handler, shows "connected" with the cookie's user id exactly when both
      cookies hold values, and otherwise the handler's message. */
  lemma SessionRouteToHeader(jar: SessionRoute.Jar)
    ensures var reply := SessionRoute.Get(jar);
      var header := Dashboard.Header(Dashboard.CheckSession(Dashboard.InitialPanel, InstagramLib.Parsed(reply.body)));
      && (header.Connected? <==> reply.status == 200)
      && (header.Connected? ==> header.userId == jar.store[UserIdCookie])
      && (!header.Connected? ==> header == Dashboard.NotConnected(reply.body.message))
  {
  }

  /** Disconnecting through the session handler always lands on the
      confirmation text when the jar is readable. */
  lemma ClearThroughRoute(p: Dashboard.SessionPanel, jar: SessionRoute.Jar)
    requires !p.loading && jar.Available?
    ensures var reply := SessionRoute.Delete(jar).0;
      Dashboard.Header(Dashboard.ClearSession(p, InstagramLib.Parsed(reply.body)))
      == Dashboard.NotConnected(Dashboard.ClearedText)
  {
  }

  /** After the OAuth callback has stored a non-empty token and redirected,
      the dashboard header shows the account as connected, with the user id
      the token exchange returned, written in decimal. */
  lemma CallbackThenDashboard(request: AuthCallback.CallbackRequest, env: AuthCallback.Env,
                              exchange: AuthCallback.TokenRequest -> AuthCallback.TokenReply,
                              jar: SessionRoute.Jar, parseUrl: string -> Option<string>)
    requires Truthy(request.code) && Truthy(env.clientSecret) && jar.Available?
    requires parseUrl(AuthCallback.DashboardLocation(env, request.origin)).Some?
    requires var call := AuthCallback.TokenRequest(AuthCallback.TokenUrl,
                                                   AuthCallback.TokenForm(env, env.clientSecret.value, request.code.value));
      exchange(call).TokenResolved? && exchange(call).accessToken != ""
    ensures var h := AuthCallback.Callback(request, env, exchange, jar, parseUrl);
      var reply := SessionRoute.Get(h.jar);
      && h.outcome.Redirect?
      && Dashboard.Header(Dashboard.CheckSession(Dashboard.InitialPanel, InstagramLib.Parsed(reply.body)))
         == Dashboard.Connected(IntToString(exchange(h.calls[0]).userId))
  {
    AuthCallback.CallbackThenSession(request, env, exchange, jar, parseUrl);
  }

  /** Every metric of an insights body is one the media handler asked for. */
  predicate OnlyRequested(ins: Insights, requested: seq<string>) {
    forall j :: 0 <= j < |ins.data| ==> ins.data[j].name in requested
  }

  /** A grid position whose metric the handler never requests reads 0 on
      every insights body that holds only requested metrics. */
  lemma UnrequestedMetricsReadZero(ins: Insights, mediaType: string, f: InsightsRead.Field)
    requires MediaRoute.MetricsFor(mediaType).Some?
    requires OnlyRequested(ins, MediaRoute.MetricsFor(mediaType).value)
    requires f.metric !in MediaRoute.MetricsFor(mediaType).value
    ensures InsightsRead.InsightValue(Some(ins), f.metric) == 0
  {
  }

  /** The "Salvos" position of a reel reads "saved", while reels request
      "saves". */
  lemma ReelsSavedNotRequested()
    ensures InsightsRead.Saved in MediaGrid.Fields(MediaGrid.Slots(REELS))
    ensures InsightsRead.Saved.metric !in MediaRoute.MetricsFor(REELS).value
    ensures "saves" in MediaRoute.MetricsFor(REELS).value
  {
    assert MediaGrid.Fields(MediaGrid.Slots(REELS))[6] == InsightsRead.Saved;
  }

  /** Videos show the four engagement positions and request none of them. */
  lemma VideoEngagementNotRequested()
    ensures forall f :: f in InsightsRead.EngagementFields ==>
      f in MediaGrid.Fields(MediaGrid.Slots(VIDEO)) && f.metric !in MediaRoute.MetricsFor(VIDEO).value
  {
    assert MediaGrid.Fields(MediaGrid.Slots(VIDEO))[3..] == InsightsRead.EngagementFields;
  }

  /** Carousels show the four engagement positions and request none of them. */
  lemma CarouselEngagementNotRequested()
    ensures forall f :: f in InsightsRead.EngagementFields ==>
      f in MediaGrid.Fields(MediaGrid.Slots(CAROUSEL_ALBUM)) && f.metric !in MediaRoute.MetricsFor(CAROUSEL_ALBUM).value
  {
    assert MediaGrid.Fields(MediaGrid.Slots(CAROUSEL_ALBUM))[2..] == InsightsRead.EngagementFields;
  }
}
