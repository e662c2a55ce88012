/** The media endpoint, `GET /api/instagram/media`
    (src/app/api/instagram/media/route.ts). The upstream Graph API is a pair
    of functions from request to reply; the handler's result records the
    upstream calls it made, in the order it issued them. */
module MediaRoute {
  import opened Optional
  import opened Text
  import opened Domain
  import opened Cookies

  const DefaultLimit: string := "25"

  /** `GET /me/media?fields=...&limit=<limit>&access_token=<token>`. */
  datatype ListingRequest = ListingRequest(limit: string, accessToken: string)

  /** `GET /<media id>/insights?metric=<metrics joined by commas>&access_token=<token>`. */
  datatype InsightsRequest = InsightsRequest(mediaId: string, metrics: seq<string>, accessToken: string)

  datatype Call = ListingCall(listing: ListingRequest) | InsightsCall(insights: InsightsRequest)

  /** The body of a listing reply; `data` is None when the field is absent. */
  datatype ListingBody = ListingBody(data: Option<seq<RawMedia>>, paging: Option<Paging>)

  /** How the listing call ended: a response axios resolved with, or the
      failure it rejected with (axios rejects every non-2xx status). */
  datatype ListingReply = ListingResolved(status: int, body: ListingBody) | ListingRejected(failure: Failure)

  datatype InsightsReply = InsightsResolved(status: int, body: Insights) | InsightsRejected(failure: Failure)

  /** The JSON body the handler sends. */
  datatype MediaBody =
    | MediaError(error: string, message: string)
    | MediaPage(data: seq<Media>, paging: Option<Paging>)   // `{ success: true, data, paging }`

  datatype Handled = Handled(status: int, body: MediaBody, calls: seq<Call>)

  const NoSession := MediaError("Sessão Instagram não encontrada",
                                "Você precisa estar logado no Instagram para acessar este recurso")
  const UpstreamStatusError := MediaError("Erro da API do Instagram", "Falha ao buscar dados de mídia")
  const InvalidToken := MediaError("Token de acesso inválido ou expirado", "Faça login novamente no Instagram")
  const InternalError := MediaError("Erro interno do servidor", "Falha ao processar requisição de mídia Instagram")

  /** `searchParams.get('limit') || '25'`. */
  function Limit(param: Option<string>): (r: string)
    ensures r != ""
    ensures Truthy(param) ==> r == param.value
    ensures !Truthy(param) ==> r == DefaultLimit
  {
    Or(param, DefaultLimit)
  }

  /** The metrics requested for a media type; None for the types whose
      insights are never requested (IMAGE and anything unknown). */
  function MetricsFor(mediaType: string): (r: Option<seq<string>>)
    ensures r.Some? <==> mediaType in {VIDEO, REELS, CAROUSEL_ALBUM}
    ensures mediaType == VIDEO ==> r == Some(["video_views", "impressions", "reach", "engagement"])
    ensures mediaType == REELS ==>
      r == Some(["plays", "reach", "impressions", "total_interactions", "likes", "comments", "shares", "saves"])
    ensures mediaType == CAROUSEL_ALBUM ==> r == Some(["impressions", "reach", "engagement"])
  {
    if mediaType == VIDEO then Some(["video_views", "impressions", "reach", "engagement"])
    else if mediaType == REELS then
      Some(["plays", "reach", "impressions", "total_interactions", "likes", "comments", "shares", "saves"])
    else if mediaType == CAROUSEL_ALBUM then Some(["impressions", "reach", "engagement"])
    else None
  }

  /** The insights kept from a reply: the body of a 200 response; nothing
      for any other status or for a rejection, which is swallowed. */
  function KeptInsights(reply: InsightsReply): Option<Insights> {
    if reply.InsightsResolved? && reply.status == 200 then Some(reply.body) else None
  }

  /** The upstream calls made for one item. */
  function ItemCalls(raw: RawMedia, token: string): (r: seq<Call>)
    ensures |r| <= 1
    ensures |r| == 1 <==> MetricsFor(raw.mediaType).Some?
  {
    match MetricsFor(raw.mediaType)
    case None => []
    case Some(ms) => [InsightsCall(InsightsRequest(raw.id, ms, token))]
  }

  /** One item of the `Promise.all` map: the raw fields plus `insights`. */
  function AttachInsights(raw: RawMedia, token: string, insights: InsightsRequest -> InsightsReply): (m: Media)
    ensures RawPart(m) == raw
    ensures m.insightsError.None?
    ensures MetricsFor(raw.mediaType).None? ==> m.insights.None?
    ensures MetricsFor(raw.mediaType).Some? ==>
      m.insights == KeptInsights(insights(InsightsRequest(raw.id, MetricsFor(raw.mediaType).value, token)))
  {
    match MetricsFor(raw.mediaType)
    case None => WithInsights(raw, None)
    case Some(ms) => WithInsights(raw, KeptInsights(insights(InsightsRequest(raw.id, ms, token))))
  }

  /** The whole map, item by item, in listing order. */
  function AttachAll(items: seq<RawMedia>, token: string, insights: InsightsRequest -> InsightsReply)
    : (r: seq<Media>)
    ensures |r| == |items|
    ensures forall k :: 0 <= k < |items| ==> r[k] == AttachInsights(items[k], token, insights)
    decreases |items|
  {
    if items == [] then []
    else [AttachInsights(items[0], token, insights)] + AttachAll(items[1..], token, insights)
  }

  /** The insight calls for a list of items, issued in item order. */
  function AllItemCalls(items: seq<RawMedia>, token: string): (r: seq<Call>)
    ensures forall c :: c in r ==> c.InsightsCall?
    decreases |items|
  {
    if items == [] then [] else ItemCalls(items[0], token) + AllItemCalls(items[1..], token)
  }

  /** The status mapping of the `catch` block: an axios error whose response
      is 401 or 400 means the token is bad; anything else is a server error. */
  function CatchResponse(f: Failure): (r: (int, MediaBody))
    ensures IsAuthFailure(f) ==> r == (401, InvalidToken)
    ensures !IsAuthFailure(f) ==> r == (500, InternalError)
  {
    if IsAuthFailure(f) then (401, InvalidToken)
    else (500, InternalError)
  }

  /** The handler. */
  function Get(cookies: CookieStore, limitParam: Option<string>,
               listing: ListingRequest -> ListingReply,
               insights: InsightsRequest -> InsightsReply): (r: Handled)
    ensures !HasSessionCookies(cookies) ==> r == Handled(401, NoSession, [])
    ensures HasSessionCookies(cookies) ==>
      |r.calls| >= 1 && r.calls[0] == ListingCall(ListingRequest(Limit(limitParam), cookies[AccessTokenCookie]))
    ensures r.body.MediaPage? <==> r.status == 200
    ensures HasSessionCookies(cookies) ==>
      var reply := listing(ListingRequest(Limit(limitParam), cookies[AccessTokenCookie]));
      && (reply.ListingResolved? && reply.status != 200 ==>
            r.calls == [ListingCall(ListingRequest(Limit(limitParam), cookies[AccessTokenCookie]))])
      && (reply.ListingResolved? && reply.status != 200 && JsonStatus(reply.status) ==>
            r.status == reply.status && r.body == UpstreamStatusError)
      && (reply.ListingResolved? && reply.status != 200 && !JsonStatus(reply.status) ==>
            r.status == 500 && r.body == InternalError)
      && (reply.ListingRejected? && IsAuthFailure(reply.failure) ==> r.status == 401 && r.body == InvalidToken)
      && (reply.ListingRejected? && !IsAuthFailure(reply.failure) ==> r.status == 500 && r.body == InternalError)
      && (reply.ListingRejected? ==> |r.calls| == 1)
      && (reply.ListingResolved? && reply.status == 200 && reply.body.data.None? ==>
            r == Handled(500, InternalError, [ListingCall(ListingRequest(Limit(limitParam), cookies[AccessTokenCookie]))]))
      && (reply.ListingResolved? && reply.status == 200 && reply.body.data.Some? ==>
            var token := cookies[AccessTokenCookie];
            r == Handled(200, MediaPage(AttachAll(reply.body.data.value, token, insights), reply.body.paging),
                         [ListingCall(ListingRequest(Limit(limitParam), token))]
                         + AllItemCalls(reply.body.data.value, token)))
    ensures r.body.MediaPage? ==>
      var reply := listing(ListingRequest(Limit(limitParam), cookies[AccessTokenCookie]));
      && HasSessionCookies(cookies)
      && reply.ListingResolved? && reply.status == 200 && reply.body.data.Some?
      && |r.body.data| == |reply.body.data.value|
      && (forall k :: 0 <= k < |r.body.data| ==> RawPart(r.body.data[k]) == reply.body.data.value[k])
      && r.body.paging == reply.body.paging
  {
    if !HasSessionCookies(cookies) then Handled(401, NoSession, [])
    else
      var token := cookies[AccessTokenCookie];
      var request := ListingRequest(Limit(limitParam), token);
      match listing(request)
      case ListingResolved(status, body) =>
        if status != 200 then
          // A status the JSON response refuses throws inside the `try`; the
          // `catch` sees no axios error and answers 500.
          if JsonStatus(status) then Handled(status, UpstreamStatusError, [ListingCall(request)])
          else Handled(500, InternalError, [ListingCall(request)])
        else if body.data.None? then
          // `mediaData.data.map` throws a TypeError, which is not an axios error.
          Handled(500, InternalError, [ListingCall(request)])
        else
          Handled(200, MediaPage(AttachAll(body.data.value, token, insights), body.paging),
                  [ListingCall(request)] + AllItemCalls(body.data.value, token))
      case ListingRejected(f) =>
        var (status, err) := CatchResponse(f);
        Handled(status, err, [ListingCall(request)])
  }

  /** Insight failures never reach the page: whatever the insights calls
      return, the status, the order and the raw fields of every item, and
      the paging are the same. */
  lemma InsightsNeverFailThePage(cookies: CookieStore, limitParam: Option<string>,
                                 listing: ListingRequest -> ListingReply,
                                 i1: InsightsRequest -> InsightsReply, i2: InsightsRequest -> InsightsReply)
    ensures var a := Get(cookies, limitParam, listing, i1);
      var b := Get(cookies, limitParam, listing, i2);
      && a.status == b.status
      && a.calls == b.calls
      && (a.body.MediaPage? ==>
            b.body.MediaPage? && |a.body.data| == |b.body.data| && a.body.paging == b.body.paging
            && forall k :: 0 <= k < |a.body.data| ==> RawPart(a.body.data[k]) == RawPart(b.body.data[k]))
  {
  }

  /** On a page, an item carries insights only when its type is one of the
      three supported ones, and then exactly the 200 body of its own insights
      call, for the metric list of its type; no item ever carries an
      `insightsError`. */
  lemma PageInsightsPerItem(cookies: CookieStore, limitParam: Option<string>,
                            listing: ListingRequest -> ListingReply,
                            insights: InsightsRequest -> InsightsReply)
    requires Get(cookies, limitParam, listing, insights).body.MediaPage?
    ensures var r := Get(cookies, limitParam, listing, insights);
      var token := cookies[AccessTokenCookie];
      var items := listing(ListingRequest(Limit(limitParam), token)).body.data.value;
      forall k :: 0 <= k < |r.body.data| ==>
        && r.body.data[k].insightsError.None?
        && (r.body.data[k].insights.Some? ==> MetricsFor(items[k].mediaType).Some?)
        && (MetricsFor(items[k].mediaType).Some? ==>
              r.body.data[k].insights
              == KeptInsights(insights(InsightsRequest(items[k].id, MetricsFor(items[k].mediaType).value, token))))
  {
  }

  /** The insight calls for a list of items: one per item of a supported
      type, for that item's id and its type's metrics, and no other. */
  lemma {:induction false} InsightCallsMatchItems(items: seq<RawMedia>, token: string)
    ensures |AllItemCalls(items, token)| <= |items|
    ensures forall c :: c in AllItemCalls(items, token) <==>
      exists k :: 0 <= k < |items| && MetricsFor(items[k].mediaType).Some?
        && c == InsightsCall(InsightsRequest(items[k].id, MetricsFor(items[k].mediaType).value, token))
    decreases |items|
  {
    if items != [] {
      InsightCallsMatchItems(items[1..], token);
      forall c
        ensures c in AllItemCalls(items, token) <==>
          exists k :: 0 <= k < |items| && MetricsFor(items[k].mediaType).Some?
            && c == InsightsCall(InsightsRequest(items[k].id, MetricsFor(items[k].mediaType).value, token))
      {
        if exists k :: 0 <= k < |items| && MetricsFor(items[k].mediaType).Some?
            && c == InsightsCall(InsightsRequest(items[k].id, MetricsFor(items[k].mediaType).value, token)) {
          var k :| 0 <= k < |items| && MetricsFor(items[k].mediaType).Some?
            && c == InsightsCall(InsightsRequest(items[k].id, MetricsFor(items[k].mediaType).value, token));
          if k > 0 {
            assert items[1..][k - 1] == items[k];
          }
        }
      }
    }
  }

  /** A page's calls are the listing followed by the item calls. */
  lemma PageCalls(cookies: CookieStore, limitParam: Option<string>,
                  listing: ListingRequest -> ListingReply,
                  insights: InsightsRequest -> InsightsReply)
    requires Get(cookies, limitParam, listing, insights).body.MediaPage?
    ensures var token := cookies[AccessTokenCookie];
      var request := ListingRequest(Limit(limitParam), token);
      Get(cookies, limitParam, listing, insights).calls
      == [ListingCall(request)] + AllItemCalls(listing(request).body.data.value, token)
  {
  }
}
