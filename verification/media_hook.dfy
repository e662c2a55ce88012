/** The media hook (src/hooks/useInstagramMedia.ts): its state, the first
    fetch, `refetch` and `loadMore`. The request function `api` maps a URL to
    the reply; a fetch is its start, made visible at once, and its
    completion, which runs the response handler and then `finally`. */
module MediaHook {
  import opened Optional
  import opened Text
  import opened Domain
  import opened Client

  /** The media endpoint's JSON body as the hook reads it. */
  datatype MediaResponse = MediaResponse(success: bool, data: Option<seq<Media>>, paging: Option<Paging>)

  datatype MediaState = MediaState(
    media: seq<Media>,
    loading: bool,
    loadingMore: bool,
    error: Option<string>,
    authenticated: bool,
    nextPageUrl: Option<string>)

  const LoadError: string := "Erro ao carregar mídia"
  const UnexpectedError: string := "Erro inesperado ao carregar mídia"
  const MediaPath: string := "/api/instagram/media?limit="

  const Initial := MediaState([], true, false, None, false, None)

  /** What every state the hook reaches satisfies: it is never both
      authenticated and in error, an error is never an empty text, and a
      stored next-page URL is never empty. */
  predicate Inv(s: MediaState) {
    && !(s.authenticated && s.error.Some?)
    && (s.error.Some? ==> s.error.value != "")
    && (s.nextPageUrl.Some? ==> s.nextPageUrl.value != "")
  }

  /** `hasNextPage: !!nextPageUrl`. */
  predicate HasNextPage(s: MediaState) {
    Truthy(s.nextPageUrl)
  }

  /** `url || /api/instagram/media?limit=${limit}`. */
  function RequestUrl(url: Option<string>, limit: int): (r: string)
    ensures Truthy(url) ==> r == url.value
    ensures !Truthy(url) ==> StartsWith(r, MediaPath) && r[|MediaPath|..] == IntToString(limit)
  {
    Or(url, MediaPath + IntToString(limit))
  }

  /** The synchronous start of `fetchMedia`. */
  function Start(s: MediaState, isLoadMore: bool): (r: MediaState)
    ensures isLoadMore ==> r.loadingMore && r.error == s.error && r.loading == s.loading
    ensures !isLoadMore ==> r.loading && r.error.None? && r.loadingMore == s.loadingMore
    ensures r.media == s.media && r.authenticated == s.authenticated && r.nextPageUrl == s.nextPageUrl
  {
    if isLoadMore then s.(loadingMore := true) else s.(loading := true, error := None)
  }

  /** A successful body: `success` set and `data` present. */
  predicate IsPage(reply: Reply<MediaResponse>) {
    && reply.Resolved? && reply.status != 401
    && reply.body.Some? && reply.body.value.success && reply.body.value.data.Some?
  }

  /** The `then`/`catch` handlers. */
  function Settle(s: MediaState, isLoadMore: bool, reply: Reply<MediaResponse>): (r: MediaState)
    ensures r.loading == s.loading && r.loadingMore == s.loadingMore
    ensures r.authenticated <==> IsPage(reply)
    ensures IsUnauthorized(reply) ==> r.media == [] && r.error.None? && r.nextPageUrl == s.nextPageUrl
    ensures IsPage(reply) ==>
      && r.error.None?
      && r.media == (if isLoadMore then s.media else []) + reply.body.value.data.value
      && r.nextPageUrl == (var p := reply.body.value.paging; if p.Some? && Truthy(p.value.next) then p.value.next else None)
    ensures !IsPage(reply) && !IsUnauthorized(reply) ==>
      r.media == s.media && r.nextPageUrl == s.nextPageUrl && r.error.Some? && r.error.value != ""
    ensures reply.Rejected? && !IsUnauthorized(reply) ==> r.error == CaughtError(reply.failure, UnexpectedError)
    ensures reply.Resolved? && reply.status != 401 && reply.body.None? ==> r.error == Some(UnexpectedError)
    ensures reply.Resolved? && reply.status != 401 && reply.body.Some? && !IsPage(reply) ==>
      r.error == Some(LoadError)
  {
    match reply
    case Resolved(status, body) =>
      if status == 401 then s.(authenticated := false, media := [], error := None)
      else if body.None? then
        // Reading `success` of a missing body throws a TypeError, which is
        // not an axios error.
        s.(error := Some(UnexpectedError), authenticated := false)
      else if body.value.success && body.value.data.Some? then
        var next := if body.value.paging.Some? && Truthy(body.value.paging.value.next)
                    then body.value.paging.value.next else None;
        s.(media := (if isLoadMore then s.media else []) + body.value.data.value,
           nextPageUrl := next, authenticated := true, error := None)
      else s.(error := Some(LoadError), authenticated := false)
    case Rejected(f) =>
      match CaughtError(f, UnexpectedError)
      case None => s.(authenticated := false, media := [], error := None)
      case Some(message) => s.(error := Some(message), authenticated := false)
  }

  /** The `finally` handler. */
  function Finish(s: MediaState, isLoadMore: bool): MediaState {
    if isLoadMore then s.(loadingMore := false) else s.(loading := false)
  }

  /** `fetchMedia(isLoadMore, url)` from start to `finally`. */
  function Fetch(s: MediaState, isLoadMore: bool, url: Option<string>, limit: int,
                 api: string -> Reply<MediaResponse>): (r: MediaState)
    ensures isLoadMore ==> !r.loadingMore && r.loading == s.loading
    ensures !isLoadMore ==> !r.loading && r.loadingMore == s.loadingMore
    ensures r.authenticated <==> IsPage(api(RequestUrl(url, limit)))
  {
    Finish(Settle(Start(s, isLoadMore), isLoadMore, api(RequestUrl(url, limit))), isLoadMore)
  }

  /** The effect on mount: one fetch of the first page. */
  function Mount(limit: int, api: string -> Reply<MediaResponse>): (r: MediaState)
    ensures !r.loading && !r.loadingMore
    ensures r.authenticated <==> IsPage(api(MediaPath + IntToString(limit)))
    ensures IsPage(api(MediaPath + IntToString(limit))) ==>
      r.media == api(MediaPath + IntToString(limit)).body.value.data.value
    ensures !IsPage(api(MediaPath + IntToString(limit))) ==> r.media == []
  {
    Fetch(Initial, false, None, limit, api)
  }

  /** `refetch`: forget the posts and the next page, then fetch page one. */
  function Refetch(s: MediaState, limit: int, api: string -> Reply<MediaResponse>): (r: MediaState)
    ensures !r.loading
    ensures IsPage(api(MediaPath + IntToString(limit))) ==>
      r.media == api(MediaPath + IntToString(limit)).body.value.data.value
    ensures !IsPage(api(MediaPath + IntToString(limit))) ==> r.media == [] && r.nextPageUrl.None?
  {
    Fetch(s.(media := [], nextPageUrl := None), false, None, limit, api)
  }

  /** The request `loadMore` sends, if any, and the state while it is in
      flight. */
  function BeginLoadMore(s: MediaState): (r: (MediaState, Option<string>))
    ensures r.1.Some? <==> HasNextPage(s) && !s.loadingMore
    ensures r.1.Some? ==> r.1 == s.nextPageUrl && r.0 == s.(loadingMore := true)
    ensures r.1.None? ==> r.0 == s
  {
    if HasNextPage(s) && !s.loadingMore then (Start(s, true), s.nextPageUrl) else (s, None)
  }

  /** `loadMore`, run to completion. */
  function LoadMore(s: MediaState, api: string -> Reply<MediaResponse>): (r: MediaState)
    ensures !HasNextPage(s) || s.loadingMore ==> r == s
    ensures HasNextPage(s) && !s.loadingMore && IsPage(api(s.nextPageUrl.value)) ==>
      r.media == s.media + api(s.nextPageUrl.value).body.value.data.value
  {
    var (inFlight, url) := BeginLoadMore(s);
    if url.None? then s else Finish(Settle(inFlight, true, api(url.value)), true)
  }

  /** Every step keeps the invariant. */
  lemma StepsKeepInv(s: MediaState, isLoadMore: bool, url: Option<string>, limit: int,
                     api: string -> Reply<MediaResponse>)
    requires Inv(s)
    ensures Inv(Initial) && Inv(Mount(limit, api))
    ensures Inv(Fetch(s, isLoadMore, url, limit, api))
    ensures Inv(Refetch(s, limit, api))
    ensures Inv(BeginLoadMore(s).0) && Inv(LoadMore(s, api))
  {
    SettleKeepsInv(Start(Initial, false), false, api(RequestUrl(None, limit)));
    SettleKeepsInv(Start(s, isLoadMore), isLoadMore, api(RequestUrl(url, limit)));
    var cleared := s.(media := [], nextPageUrl := None);
    SettleKeepsInv(Start(cleared, false), false, api(RequestUrl(None, limit)));
    if HasNextPage(s) && !s.loadingMore {
      SettleKeepsInv(BeginLoadMore(s).0, true, api(s.nextPageUrl.value));
    }
  }

  /** The response handlers keep the invariant. */
  lemma SettleKeepsInv(s: MediaState, isLoadMore: bool, reply: Reply<MediaResponse>)
    requires Inv(s)
    ensures Inv(Settle(s, isLoadMore, reply))
  {
  }

  /** In every reachable state the button's `hasNextPage` is exactly "a
      next-page URL is stored". */
  lemma HasNextPageIffStored(s: MediaState)
    requires Inv(s)
    ensures HasNextPage(s) <==> s.nextPageUrl.Some?
  {
  }

  /** While a load-more is in flight a second `loadMore` sends nothing. */
  lemma NoSecondLoadMoreInFlight(s: MediaState)
    requires BeginLoadMore(s).1.Some?
    ensures BeginLoadMore(BeginLoadMore(s).0).1.None?
  {
  }

  /** `loadMore` applied `n` times. */
  function LoadMoreTimes(s: MediaState, api: string -> Reply<MediaResponse>, n: nat): MediaState
    decreases n
  {
    if n == 0 then s else LoadMoreTimes(LoadMore(s, api), api, n - 1)
  }

  /** Unless the server answers 401, loading more pages never loses a post
      already shown: the old list stays a prefix of the new one. */
  lemma {:induction false} LoadMoreKeepsPosts(s: MediaState, api: string -> Reply<MediaResponse>, n: nat)
    requires forall url :: !IsUnauthorized(api(url))
    ensures IsPrefix(s.media, LoadMoreTimes(s, api, n).media)
    decreases n
  {
    if n > 0 {
      var t := LoadMore(s, api);
      assert IsPrefix(s.media, t.media);
      LoadMoreKeepsPosts(t, api, n - 1);
      var u := LoadMoreTimes(t, api, n - 1);
      assert u.media[..|s.media|] == t.media[..|t.media|][..|s.media|];
    }
  }
}
