# Instagram dashboard — a Dafny model of its decision logic

This project models the logic under a Next.js Instagram dashboard, as pure Dafny functions over explicit inputs.

- **Server handlers.** The media handler, the profile handler, the session handler (GET and DELETE) and the OAuth callback.
- **Browser helpers.** The insight lookup, the per-type metric lists, caption shortening, token masking, the authorization URL and redirect-URI precedence.
- **UI state.** The media grid's paging arithmetic, the profile card, the dashboard's pager and session panel, and the two data hooks as state-transition functions.

The modelling choices:

- Every upstream HTTP call is a function parameter from request to reply. A handler's result records the calls it made, in issue order, so "no upstream request" is a property about that trace.
- The cookie jar is a `map<string, string>`.
- Environment variables and the window origin are `Option<string>` parameters, where None stands for unset.
- axios resolves 2xx responses and rejects every other status. `fetch` resolves every status.
- POST on the callback hands the request to GET unchanged, so `AuthCallback.Callback` models both.

Modules, one per file:

| module | file |
|---|---|
| `Optional` | optional.dfy |
| `Text` | text.dfy |
| `Domain` | domain.dfy (the records of src/types/instagram.ts) |
| `Cookies` | cookies.dfy |
| `InsightsRead` | insights.dfy |
| `MediaGrid` | media_grid.dfy |
| `TestInsights` | test_insights.dfy |
| `ProfileCard` | profile_card.dfy |
| `InstagramLib` | instagram_lib.dfy |
| `Config` | config.dfy |
| `MediaRoute` | media_route.dfy |
| `ProfileRoute` | profile_route.dfy |
| `SessionRoute` | session_route.dfy |
| `AuthCallback` | auth_callback.dfy |
| `Client` | client.dfy |
| `MediaHook` | media_hook.dfy |
| `ProfileHook` | profile_hook.dfy |
| `Dashboard` | dashboard.dfy |
| `EndToEnd` | end_to_end.dfy (handler → hook/page lemmas) |

Behaviour worth knowing that the model makes explicit:

- **Two different session gates.** The media and profile handlers gate on cookie *presence*, so an empty value passes. The session handler gates on non-empty *values*.
- **No insights-resolution engine.** The code has no recency check, no failure-reason classification and no second engagement request. The media handler drops insight failures silently and never sets `insightsError`, so the grid's red error box and yellow fallback box are never rendered.
- **Metric names the handler never requests.**
  - For reels, the handler requests `saves`, while the grid's "Salvos" position reads `saved`.
  - Videos and carousels never request `likes`, `comments`, `shares` or `saved`.
  - On bodies that hold only requested metrics, those positions read 0.
- **Negative `initialVisibleCount`.** The grid does not reject it. `slice` then counts from the back, and "load more" can hide posts.
- **Unset `INSTAGRAM_API_BASE_URL`.** `getDashboardUrl()` renders the literal text `undefined/dashboard`.

## Model

| member | source | states |
|---|---|---|
| Text.SliceEnd | src/components/InstagramMediaGrid.tsx:290 | Where `slice(0, end)` stops. A non-negative end is clamped to the length, and a negative end counts back from the length, floored at 0. |
| Text.Ellipsize | src/lib/instagram.ts:87-89 | A string no longer than n is unchanged. A longer one becomes exactly its first max(n,0) characters plus "...". The result never exceeds max(n,0)+3 characters. |
| Text.EllipsizeIdempotent | src/lib/instagram.ts:87-89 | For a non-negative bound, shortening an already-shortened string with the same bound changes nothing. |
| Text.EllipsizeIsPrefixPlusEllipsis | src/components/InstagramMediaGrid.tsx:176-178 | The shortened text is always a prefix of the input, of at most max(n,0) characters, possibly followed by "...". |
| Text.NatToString | src/components/InstagramProfileCard.tsx:23 | The decimal rendering of a natural number is non-empty and all digits, with a leading zero only for 0. |
| Text.NatToStringRoundTrip | src/app/api/auth/callback/instagram/route.ts:101 | Parsing the decimal rendering of n gives back n. |
| Text.NatToStringInjective | src/app/api/auth/callback/instagram/route.ts:101 | Distinct numbers have distinct decimal renderings. |
| Text.IntToString | src/components/InstagramProfileCard.tsx:23 | `toString()` of an integer is the decimal digits, with a leading "-" exactly for negatives. |
| Cookies.ApplyWrites | src/app/api/auth/callback/instagram/route.ts:92-107 | After a sequence of `set` calls, the jar's names are the old ones plus every written name. Each written name holds the value of its last write, and a cookie no write names keeps its value. |
| Cookies.Delete | src/app/api/instagram/session/route.ts:67-68 | `delete(name)` removes that name and keeps every other cookie with its value. |
| InsightsRead.FindMetric | src/components/InstagramMediaGrid.tsx:25 | `find` returns the first metric with the name, and returns nothing exactly when no metric has it. |
| InsightsRead.InsightValue | src/components/InstagramMediaGrid.tsx:24-28 | It reads 0 without insights or without a matching metric, and otherwise the first value of the first matching metric. A non-zero result is the first value of the first metric with the name. |
| InsightsRead.ShadowedMetricIgnored | src/app/dashboard/page.tsx:104-107 | Appending a later metric with an existing name never changes the value read. |
| InsightsRead.ReadFields | src/components/InstagramMediaGrid.tsx:33-62 | Reading a field list yields one entry per field, in order, carrying the field's title and its metric's value. |
| InsightsRead.KeepPositive | src/app/test-insights/page.tsx:42-61 | Keeps exactly the entries with positive values, in their original order. Every copy of a positive entry is kept, as the multiset counts state, and no copy of another entry is. |
| MediaGrid.DisplayMetrics | src/components/InstagramMediaGrid.tsx:30-78 | Videos and reels get 7 entries, carousels 6, and any other type none. Each entry carries its position's title and icon and the value `getInsightValue` reads. |
| MediaGrid.DisplayTitlesIgnoreValues | src/components/InstagramMediaGrid.tsx:30-78 | The titles shown depend on the media type only, never on the metric values. |
| MediaGrid.DisplayMetricsNonEmptyIff | src/components/InstagramMediaGrid.tsx:38-75 | A card lists metrics if and only if the type is VIDEO, REELS or CAROUSEL_ALBUM. |
| MediaGrid.BadgeLabel | src/components/InstagramMediaGrid.tsx:162-164 | The badge reads "Reels", "Vídeo" or "Carrossel" for the three types, and "Mídia" exactly for every other type. |
| MediaGrid.ShownCaption | src/components/InstagramMediaGrid.tsx:174-180 | A caption is shown iff it is non-empty. When shown, it is unchanged up to 100 characters; a longer one is its first 100 characters plus "...", 103 in total. |
| MediaGrid.HandleLoadMore | src/components/InstagramMediaGrid.tsx:280-288 | With local posts left, the count becomes exactly min(count+6, length), which is larger than before, and no page is fetched. Otherwise, with a next page and no load in flight, a page is fetched and the count grows by 6. Otherwise nothing changes. |
| MediaGrid.Displayed | src/components/InstagramMediaGrid.tsx:290 | The displayed posts are a prefix of the loaded ones, of length min(count, length) for a non-negative count. |
| MediaGrid.LoadMoreKeepsDisplayed | src/components/InstagramMediaGrid.tsx:280-290 | From a non-negative count, a click keeps every displayed post displayed, at the front and in order. |
| MediaGrid.NegativeCountLoadMoreHidesPosts | src/components/InstagramMediaGrid.tsx:12-14 | With ten posts and a count of -1, nine posts are shown. A click sets the count to 5 and shows five. |
| MediaGrid.LoadMoreIsNoOpIff | src/components/InstagramMediaGrid.tsx:280-291 | A click changes nothing iff the button has nothing to do: nothing more exists, or only an upstream page while one is loading. |
| MediaGrid.PostsWithInsights | src/components/InstagramMediaGrid.tsx:294-296 | Keeps exactly the posts that have insights and a non-empty metric list, in their original order. |
| MediaGrid.PostsWithoutInsights | src/components/InstagramMediaGrid.tsx:297-299 | Keeps exactly the other posts, in their original order. |
| MediaGrid.SectionsPartitionDisplayed | src/components/InstagramMediaGrid.tsx:294-299 | The two sections together hold every displayed post exactly once (as multisets), and their lengths add up. |
| MediaGrid.CardBoxes | src/components/InstagramMediaGrid.tsx:183-266 | The metric grid appears iff there are insights and metrics. With messages on, the grey note appears iff there are insights but no metrics, the red box iff insights are missing and an `insightsError` is set, and the yellow box iff both are missing. With messages off, no message box appears. |
| MediaGrid.NoInsightMessageEverRendered | src/components/InstagramMediaGrid.tsx:410-427 | As the page renders the two sections, no card ever shows the grey note, the red error box or the yellow fallback box. |
| TestInsights.PickPositive | src/app/test-insights/page.tsx:42-61 | Every entry emitted is positive and is some field's title with that field's value. There are never more entries than fields. |
| TestInsights.PositiveMetrics | src/app/test-insights/page.tsx:20-66 | At most 7 entries, all positive. Any type other than VIDEO and REELS yields none. |
| TestInsights.PickIsReadThenFilter | src/app/test-insights/page.tsx:37-62 | Testing values while reading is the same as reading every field and then keeping the positive entries, in order. |
| TestInsights.SameFieldsAsGrid | src/app/test-insights/page.tsx:37-62 | For videos and reels, the page considers the grid's fields in the grid's order. |
| TestInsights.PositiveMetricsAreGridsPositives | src/app/test-insights/page.tsx:20-66 | For videos and reels, the page shows exactly the grid card's positive entries, in the grid's order. An entry is shown iff it is positive and on the grid card. |
| TestInsights.ZeroMetricNeverShown | src/app/test-insights/page.tsx:9-18 | A field whose metric reads 0 (missing, empty or zero) never appears on the page. |
| ProfileCard.FormatNumber | src/components/InstagramProfileCard.tsx:16-24 | At least a million gives the scaled digits plus "M". From a thousand up to a million gives the scaled digits plus "K". Below that gives the plain decimal string. |
| ProfileCard.SmallCountsShownExactly | src/components/InstagramProfileCard.tsx:23 | A count below a thousand is shown as digits that read back as the count. |
| ProfileCard.SuffixDeterminesMagnitude | src/components/InstagramProfileCard.tsx:16-24 | For non-negative counts, "M" ⇔ at least a million, "K" ⇔ thousands, and all-digits ⇔ below a thousand, whatever digits the scaling gives. |
| ProfileCard.Heading | src/components/InstagramProfileCard.tsx:98 | The heading is the name, or the username when the name is empty. |
| ProfileCard.WebsiteHref | src/components/InstagramProfileCard.tsx:122 | The link target always starts with "http". A site already starting with "http" is kept; any other gets "https://" in front. |
| ProfileCard.WebsiteLabel | src/components/InstagramProfileCard.tsx:130 | Removes one leading "https://" or "http://" and nothing else. |
| ProfileCard.LabelOfHrefIsLabel | src/components/InstagramProfileCard.tsx:119-133 | The link text computed from the link target equals the text computed from the website. |
| ProfileCard.Card | src/components/InstagramProfileCard.tsx:95-155 | The heading is `Heading(p)` and the account type is the profile's. The biography and website blocks appear iff those fields are non-empty. The link is the website's target and label. The handle is "@" plus the username. The stats are Posts, Seguidores and Seguindo, from the media, follower and follows counts, each through `formatNumber`. |
| InstagramLib.FormatTokenForDisplay | src/lib/instagram.ts:85-90 | An empty token shows as nothing. A token up to `visibleChars` is shown whole. A longer one shows as its first `visibleChars` characters plus "...". |
| InstagramLib.MaskedTokenShape | src/lib/instagram.ts:85-90 | The masked token is always a prefix of the token, possibly followed by "...". For a non-negative width, masking again with the same width changes nothing. |
| InstagramLib.EmptyTokenGuardMatters | src/lib/instagram.ts:86 | Without the empty-token guard, an empty token at a negative width would show as "...". |
| InstagramLib.AuthParams | src/lib/instagram.ts:68-77 | The parameters are client_id, redirect_uri, scope "user_profile,user_media" and response_type "code", in order. A state is appended last iff it is non-empty. |
| InstagramLib.AuthParamsReadBack | src/lib/instagram.ts:68-77 | Looking each key up gives back its argument, and a `state` key exists exactly when a non-empty state was given. |
| InstagramLib.BuildAuthUrl | src/lib/instagram.ts:62-80 | The URL is the authorize endpoint, "?", and the serialised parameter list. |
| InstagramLib.CheckInstagramSession | src/lib/instagram.ts:17-38 | The parsed body is returned as is. A thrown failure yields an unauthenticated error with "Erro ao verificar sessão" and the failure's text. |
| InstagramLib.ClearInstagramSession | src/lib/instagram.ts:43-57 | The same for the DELETE call, with "Erro ao limpar sessão". |
| Config.RedirectUri | src/lib/config.ts:14-17 | A non-empty configured URI wins. Otherwise the callback path is appended to the first non-empty origin: the argument, then the window's origin when there is a window. The result is the bare path when neither applies. |
| Config.ConfiguredRedirectIgnoresOrigin | src/lib/config.ts:15 | With a non-empty configured URI, no origin argument or window origin changes the result. |
| Config.RedirectUriStripsToOrigin | src/lib/config.ts:16 | Removing the callback path from the result gives back the origin, when there is no configured URI. |
| Config.DashboardUrl | src/lib/config.ts:19-21 | The result is the base followed by "/dashboard", and the text "undefined/dashboard" when the base is unset. |
| MediaRoute.Limit | src/app/api/instagram/media/route.ts:58 | The `limit` parameter is used when non-empty, otherwise "25". |
| MediaRoute.MetricsFor | src/app/api/instagram/media/route.ts:91-102 | Insights are requested iff the type is VIDEO, REELS or CAROUSEL_ALBUM, with each type's fixed metric list. |
| MediaRoute.AttachInsights | src/app/api/instagram/media/route.ts:86-120 | An item keeps its raw fields and never gets an `insightsError`. Its insights are the 200 body of its own request, and absent for unsupported types, other statuses and rejections. |
| MediaRoute.AttachAll | src/app/api/instagram/media/route.ts:86-122 | The output has the listing's length and order, and item k is item k of the listing with its insights attached. |
| MediaRoute.Get | src/app/api/instagram/media/route.ts:45-156 | Missing a session cookie gives 401 with no upstream call. Otherwise the first call is the listing with the limit and the token. A 200 listing with `data` gives exactly the page: every item with its insights attached, the listing's paging, and the listing call followed by the item calls. A 200 listing without `data` gives 500. Another resolved status is forwarded after the listing call alone, unless the JSON response refuses it (204, 205, 304, or outside 200..599), which gives 500. Rejections map to 401 for 401/400 and to 500 otherwise. A page is answered iff the status is 200. |
| MediaRoute.InsightsNeverFailThePage | src/app/api/instagram/media/route.ts:105-114 | Whatever the insights calls return, the status, the calls, the items' raw fields and the paging are the same. |
| MediaRoute.PageInsightsPerItem | src/app/api/instagram/media/route.ts:88-120 | On a page, an item has insights only if its type is supported, and then exactly the 200 body of its own request. No item has an `insightsError`. |
| MediaRoute.InsightCallsMatchItems | src/app/api/instagram/media/route.ts:91-105 | The insight calls are one per item of a supported type, for that item's id and its type's metrics, and no others. |
| MediaRoute.PageCalls | src/app/api/instagram/media/route.ts:66-105 | A page's calls are the listing followed by the item calls. |
| ProfileRoute.Get | src/app/api/instagram/profile/route.ts:19-86 | Missing a session cookie gives 401 with no call. Otherwise exactly one call is made with the token. A 200 forwards the profile unchanged. Another resolved status is forwarded, unless the JSON response refuses it (204, 205, 304, or outside 200..599), which gives 500. Rejections map to 401 for 401/400 and to 500 otherwise. |
| ProfileRoute.UnauthorizedIff | src/app/api/instagram/profile/route.ts:19-77 | The answer is 401 iff a cookie is missing, the call was rejected with 401/400, or upstream answered 401. |
| SessionRoute.Get | src/app/api/instagram/session/route.ts:4-59 | The answer is 200 and authenticated iff both cookies hold non-empty values, and then the data is exactly the two values. A readable jar with either cookie missing or empty gives 401 "Instagram session not found". An unreadable jar gives 500 with the error text. |
| SessionRoute.Delete | src/app/api/instagram/session/route.ts:62-89 | Removes exactly the two session cookies and keeps every other one, answering 200 "Instagram session cleared". When the jar cannot be read, it answers 500 and changes nothing. |
| SessionRoute.GetAfterDeleteIsUnauthenticated | src/app/api/instagram/session/route.ts:21-31 | A GET after a DELETE answers 401, and is never authenticated. |
| SessionRoute.DeleteIdempotent | src/app/api/instagram/session/route.ts:67-68 | Deleting twice is the same as deleting once. |
| SessionRoute.EmptyTokenPassesDataGateOnly | src/app/api/instagram/session/route.ts:21 | An empty token cookie passes the media/profile presence gate, but this handler answers 401. |
| AuthCallback.ClientId | src/app/api/auth/callback/instagram/route.ts:35 | The client id is the first non-empty of the two variables, else the built-in id. |
| AuthCallback.RedirectUri | src/app/api/auth/callback/instagram/route.ts:37 | The redirect URI is the configured one when non-empty, else the built-in one. |
| AuthCallback.TokenForm | src/app/api/auth/callback/instagram/route.ts:54-59 | The form carries client_id, client_secret, grant_type "authorization_code", redirect_uri and code, each readable back. |
| AuthCallback.SessionCookieOptions | src/app/api/auth/callback/instagram/route.ts:92-107 | Both cookies are httpOnly, sameSite lax, path "/", with a max age of 5184000 seconds, and secure iff NODE_ENV is "production". |
| AuthCallback.DashboardLocation | src/app/api/auth/callback/instagram/route.ts:112-114 | The target is NEXTAUTH_URL plus "/dashboard" when that is set, otherwise the request origin plus "/dashboard". |
| AuthCallback.CatchOutcome | src/app/api/auth/callback/instagram/route.ts:120-150 | An axios error with response data forwards its status, with "Instagram API error: <error> - <error_description>". Anything else gives 500 with the error text. |
| AuthCallback.Callback | src/app/api/auth/callback/instagram/route.ts:15-156 | A missing code gives 400 before anything else. A missing secret gives 500 with no exchange. Otherwise exactly one exchange is made. A failed exchange, or a successful one with an unreadable jar, answers as the `catch` block does and leaves the jar untouched. A successful exchange with a writable jar writes both cookies. It then redirects to the parsed dashboard URL, or answers 500 "Internal server error" with the malformed-URL message when the target is not absolute. |
| AuthCallback.Finish | src/app/api/auth/callback/instagram/route.ts:92-119 | After a successful exchange both cookies are written whatever the target. An absolute target gives a redirect to its serialized form. Any other target gives the 500 the `catch` block makes from the redirect's "URL is malformed" error. |
| AuthCallback.RedirectIff | src/app/api/auth/callback/instagram/route.ts:23-119 | The callback redirects exactly when the code and the secret are set, the exchange succeeds, the jar can be written and the dashboard target is an absolute URL. |
| AuthCallback.CookiesIgnoreRedirectTarget | src/app/api/auth/callback/instagram/route.ts:92-119 | Whether the dashboard target parses changes neither the cookies sent nor the upstream calls. A refused redirect still sends the session cookies. |
| AuthCallback.StateIsIgnored | src/app/api/auth/callback/instagram/route.ts:19-21 | The `state` parameter never changes the outcome, the calls or the jar. |
| AuthCallback.CallbackThenSession | src/app/api/auth/callback/instagram/route.ts:88-107 | After a successful exchange with a writable jar, both session cookies are present, whether the redirect goes out or its target is refused. The session handler answers 200 with the token and the decimal user id iff the token is non-empty. Other cookies are kept. |
| AuthCallback.StoredUserIdReadsBack | src/app/api/auth/callback/instagram/route.ts:101 | The stored user id is digits that read back as the id. |
| Client.CaughtError | src/hooks/useInstagramMedia.ts:98-122 | No error exactly for an axios 401. Another axios error gives the server's message or "Erro ao conectar com a API". Anything else gives the hook's own text. |
| MediaHook.RequestUrl | src/hooks/useInstagramMedia.ts:58 | A given URL is used as is. Otherwise the URL is the media path with `limit=` and the limit in decimal. |
| MediaHook.Start | src/hooks/useInstagramMedia.ts:49-54 | A load-more sets only `loadingMore` and keeps the error. An initial fetch sets `loading` and clears the error. |
| MediaHook.Settle | src/hooks/useInstagramMedia.ts:60-122 | Authenticated iff the reply is a page. A page replaces the posts, or appends them on a load-more, takes `paging.next` (or nothing) and clears the error. A 401 of either kind empties the posts with no error. Other failures keep the posts and the next page. The error text is the hook's `catch` text for a rejection, "Erro inesperado ao carregar mídia" for a missing body, and "Erro ao carregar mídia" for an unsuccessful body. |
| MediaHook.Fetch | src/hooks/useInstagramMedia.ts:48-131 | Completion clears exactly the flag the fetch set. The hook ends authenticated iff the reply was a page. |
| MediaHook.Mount | src/hooks/useInstagramMedia.ts:145-148 | The first fetch asks for the first page and ends with nothing loading, showing that page's posts or none. |
| MediaHook.Refetch | src/hooks/useInstagramMedia.ts:133-137 | After a refetch the posts are the fresh first page, or none with no next page. Stale posts are never shown. |
| MediaHook.BeginLoadMore | src/hooks/useInstagramMedia.ts:139-143 | A request is sent iff a next-page URL is stored and no load-more is in flight, and it goes to that URL. |
| MediaHook.LoadMore | src/hooks/useInstagramMedia.ts:139-143 | Without a next page, or with a load in flight, nothing changes. A page reply appends its posts after the existing ones. |
| MediaHook.StepsKeepInv | src/hooks/useInstagramMedia.ts:41-143 | Every step keeps the invariant: never authenticated and in error at once, no empty error text, no empty next-page URL. |
| MediaHook.SettleKeepsInv | src/hooks/useInstagramMedia.ts:60-122 | The response handlers keep the invariant from every state that has it. |
| MediaHook.HasNextPageIffStored | src/hooks/useInstagramMedia.ts:156 | In every reachable state, `hasNextPage` is exactly "a next-page URL is stored". |
| MediaHook.NoSecondLoadMoreInFlight | src/hooks/useInstagramMedia.ts:140 | While a load-more is in flight, a second one sends nothing. |
| MediaHook.LoadMoreKeepsPosts | src/hooks/useInstagramMedia.ts:83-87 | Unless the server answers 401, any number of load-mores keeps the earlier posts as a prefix. |
| ProfileHook.Start | src/hooks/useInstagramProfile.ts:32-34 | Starting a fetch sets `loading` and clears the error. |
| ProfileHook.Settle | src/hooks/useInstagramProfile.ts:40-97 | Authenticated iff the reply carries a profile, which is then stored with no error. A 401 of either kind clears the profile and the error. Other failures keep the profile. The error text is the body's message or "Erro ao carregar perfil" for an unsuccessful body, "Erro inesperado ao carregar perfil" for a missing body, and the hook's `catch` text for a rejection. |
| ProfileHook.Fetch | src/hooks/useInstagramProfile.ts:32-102 | Completion always clears `loading`. The hook ends authenticated iff the reply carries a profile. |
| ProfileHook.FetchKeepsInv | src/hooks/useInstagramProfile.ts:27-102 | Every fetch keeps the invariant: never authenticated with an error or without a profile, and no empty error text. |
| ProfileHook.FailedRefetchKeepsProfile | src/hooks/useInstagramProfile.ts:104-106 | A failed refetch keeps the profile shown. A 401 removes it. |
| Dashboard.Tick | src/app/dashboard/page.tsx:88-94 | The timer sets the count to count+6, capped at the number of videos. |
| Dashboard.TicksClosedForm | src/app/dashboard/page.tsx:31 | After n ≥ 1 timer callbacks from 6, the count is min(6+6n, number of videos). |
| Dashboard.TicksBounded | src/app/dashboard/page.tsx:88-94 | The count never exceeds max(6, number of videos). |
| Dashboard.DisplayedVideos | src/app/dashboard/page.tsx:109 | The displayed videos are a prefix of the list, of length min(count, length). |
| Dashboard.TickNeverHidesVideos | src/app/dashboard/page.tsx:88-110 | A timer callback keeps every displayed video displayed, even when it lowers the count. Once all videos are shown, the button stays gone. |
| Dashboard.CheckSession | src/app/dashboard/page.tsx:38-70 | The session is stored iff the reply is authenticated with data. Otherwise the error is the reply's message or "Sessão do Instagram não encontrada". Loading ends. |
| Dashboard.ClearSession | src/app/dashboard/page.tsx:72-86 | Success clears the session with "Sessão removida com sucesso". Failure keeps it and shows the message or "Erro ao remover sessão". |
| Dashboard.Header | src/app/dashboard/page.tsx:133-156 | The header shows the checking text iff loading, and connected with the user id iff a session is stored. Otherwise it shows the error or "Não conectado", never empty. |
| Dashboard.ClearThenHeader | src/app/dashboard/page.tsx:72-86 | After a successful clear the header shows the confirmation. After a failed one, a header that showed a session is unchanged. |
| EndToEnd.MediaRouteToHook | src/hooks/useInstagramMedia.ts:60-122 | The media hook is authenticated iff the handler answered 200, with that page's posts. A 401 gives the login state. Other error statuses show the handler's message. |
| EndToEnd.NoCookiesMeansLoginScreen | src/app/api/instagram/media/route.ts:45-54 | Without the session cookies, mounting the media hook ends unauthenticated, with no error, no posts and nothing loading. |
| EndToEnd.ProfileRouteToHook | src/hooks/useInstagramProfile.ts:40-97 | The profile hook holds exactly the handler's profile iff it answered 200. A 401 clears it. Other error statuses show the handler's message. |
| EndToEnd.SessionRouteToHeader | src/app/dashboard/page.tsx:38-70 | The header shows connected with the cookie's user id iff the session handler answered 200, and otherwise the handler's message. |
| EndToEnd.ClearThroughRoute | src/app/dashboard/page.tsx:72-86 | Disconnecting through the session handler always shows the confirmation text. |
| EndToEnd.CallbackThenDashboard | src/app/api/auth/callback/instagram/route.ts:88-119 | After a callback that stored a non-empty token and redirected, the header shows connected with the exchanged user id in decimal. |
| EndToEnd.UnrequestedMetricsReadZero | src/app/api/instagram/media/route.ts:95-110 | A grid position whose metric the handler never requests reads 0 on any body holding only requested metrics. |
| EndToEnd.ReelsSavedNotRequested | src/app/api/instagram/media/route.ts:98-99 | The reel card's "Salvos" position reads "saved", while reels request "saves" and not "saved". |
| EndToEnd.VideoEngagementNotRequested | src/app/api/instagram/media/route.ts:96-97 | Every one of the four engagement positions is on the video card, and none of their metrics is requested for videos. |
| EndToEnd.CarouselEngagementNotRequested | src/app/api/instagram/media/route.ts:100-101 | Every one of the four engagement positions is on the carousel card, and none of their metrics is requested for carousels. |

## Left out

- **Real I/O.** axios, `fetch`, the Next.js cookie store and `NextResponse` are left out. Upstream replies are parameters, the jar is a map, and responses are values.
- **Logging.** Every `console` call is left out.
- **Concurrency.** The `Promise.all` fan-out is modelled as a sequential map. Issue order equals item order because each callback issues its request before its first `await`. Overlapping hook fetches (a refetch while a load-more is pending) are not modelled: each fetch runs from start to `finally` on its own, except that `MediaHook.BeginLoadMore` exposes the in-flight state.
- **Rendering.** React rendering, markup, icons' SVG, `next/image`, and locale formatting (`toLocaleString`, `toLocaleDateString`) are left out.
- **Browser side effects.** The `setTimeout` delay and `loadingMore` flag of the dashboard, `window.location` redirects and `uuidv4` are left out.
- ProfileCard.FormatNumber: the digits of the scaled forms come from floating-point division and `toFixed(1)`. They are a parameter, and only the suffix choice is proved.
- InstagramLib.BuildAuthUrl: the `URLSearchParams` percent-encoding (the application/x-www-form-urlencoded serializer, section 5.2 of the WHATWG URL Standard) is a parameter that serialises the ordered parameter list. The upstream request URLs of the handlers are kept as structured requests rather than strings.
- **Untyped bodies.**
  - Metric values are integers. Non-integral and `NaN` values are not modelled.
  - User ids beyond 2^53, which JavaScript numbers cannot hold exactly, are not modelled.
  - Malformed upstream JSON is not modelled, beyond a missing `data` array (500 in the media handler) and a missing response body in the hooks.
- **The dashboard's fixtures.** The list of videos is a parameter. The dashboard's own `getInsightValue` and caption shortening are the grid's (`InsightsRead.InsightValue`, `MediaGrid.ShownCaption`).
- **The dashboard's unreachable catches.** Its `catch` blocks around `checkInstagramSession` and `clearInstagramSession` are not modelled, because those helpers never throw.
- **Fixtures and test wrappers.** The static fixtures and the test-only pieces are not part of this model: the media test endpoint, the test hook with its hard-coded `authenticated`, the manual test page, the landing page's click handler and the mock data.
- **The insights-resolution engine.** A recency check, failure reasons and a second engagement request do not exist in the code, so they are not modelled. The `insightsError` field exists only in the types, and the handler never sets it.
- **Error bodies.** The 500 body of the session DELETE carries no `authenticated` field. The model records it as false, which is how the browser code reads a missing field.
- MediaGrid.ShownCaption: lengths count Unicode code points, while JavaScript's `length` and `substring` count UTF-16 code units. The two agree for captions whose characters all lie in the Basic Multilingual Plane. A caption with emoji or other astral characters is cut later in the model than in the browser, and the browser's cut can split a surrogate pair, which a Dafny string cannot hold.
- Text.Ellipsize: counts code points, not UTF-16 code units, for the same reason. The access tokens it shortens are ASCII, where the two agree.
- **Default arguments.** `formatTokenForDisplay`'s default width of 20 and `useInstagramMedia`'s default limit of 25 are not modelled; the width and the limit are always parameters. The dashboard's `tokenPreview`, the only caller relying on the default width, is not modelled.
- AuthCallback.CatchOutcome: forwards the upstream status as given. A status the JSON response refuses (304, or one outside 200..599) would make the `catch` block itself throw, and the framework's own error answer is not modelled.
- AuthCallback.Callback: the URL parsing `NextResponse.redirect` applies to its target (the basic URL parser and serializer of the WHATWG URL Standard) is a parameter. The model does not decide which strings are absolute URLs or how they are normalised.
- MediaGrid.LoadMoreKeepsDisplayed: stated only for a non-negative visible count, because a negative count really does hide posts (see `MediaGrid.NegativeCountLoadMoreHidesPosts`).
