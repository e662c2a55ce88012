/** The media grid component (src/components/InstagramMediaGrid.tsx): which
    metrics a card shows, the type badge, caption shortening, the "load
    more" arithmetic, and the split of the visible posts into those with and
    those without insights. */
module MediaGrid {
  import opened Optional
  import opened Text
  import opened Domain
  import opened InsightsRead

  // ----- metrics shown on a card -----

  /** A card position: the field it shows and the icon drawn beside it. */
  datatype Slot = Slot(field: Field, icon: string)

  datatype DisplayMetric = DisplayMetric(title: string, value: int, icon: string)

  /** The positions a card of the given type shows, in order. The four
      engagement positions close every supported type. */
  function Slots(mediaType: string): seq<Slot> {
    var engagement := [Slot(Likes, "heart"), Slot(Comments, "message"),
                       Slot(Shares, "share"), Slot(Saved, "bookmark")];
    if mediaType == VIDEO then
      [Slot(Views, "play"), Slot(Impressions, "eye"), Slot(Reach, "users")] + engagement
    else if mediaType == REELS then
      [Slot(Plays, "play"), Slot(Reach, "users"), Slot(Impressions, "eye")] + engagement
    else if mediaType == CAROUSEL_ALBUM then
      [Slot(Impressions, "eye"), Slot(Reach, "users")] + engagement
    else []
  }

  function Fields(slots: seq<Slot>): (r: seq<Field>)
    ensures |r| == |slots|
    ensures forall k :: 0 <= k < |r| ==> r[k] == slots[k].field
  {
    seq(|slots|, k requires 0 <= k < |slots| => slots[k].field)
  }

  predicate SupportedType(mediaType: string) {
    mediaType == VIDEO || mediaType == REELS || mediaType == CAROUSEL_ALBUM
  }

  /** `getDisplayMetrics`: one entry per position of the item's type, every
      value read with `getInsightValue`, whether or not it is zero. */
  function DisplayMetrics(m: Media): (r: seq<DisplayMetric>)
    ensures m.mediaType == VIDEO || m.mediaType == REELS ==> |r| == 7
    ensures m.mediaType == CAROUSEL_ALBUM ==> |r| == 6
    ensures !SupportedType(m.mediaType) ==> r == []
    ensures forall k :: 0 <= k < |r| ==>
      r[k].title == Slots(m.mediaType)[k].field.title
      && r[k].icon == Slots(m.mediaType)[k].icon
      && r[k].value == InsightValue(m.insights, Slots(m.mediaType)[k].field.metric)
  {
    var slots := Slots(m.mediaType);
    seq(|slots|, k requires 0 <= k < |slots| =>
      DisplayMetric(slots[k].field.title, InsightValue(m.insights, slots[k].field.metric), slots[k].icon))
  }

  function Titles(ms: seq<DisplayMetric>): seq<string> {
    seq(|ms|, k requires 0 <= k < |ms| => ms[k].title)
  }

  /** Which titles a card shows depends on the media type alone, never on
      the metric values. */
  lemma DisplayTitlesIgnoreValues(a: Media, b: Media)
    requires a.mediaType == b.mediaType
    ensures Titles(DisplayMetrics(a)) == Titles(DisplayMetrics(b))
  {
  }

  /** The card lists metrics exactly for the three supported types. */
  lemma DisplayMetricsNonEmptyIff(m: Media)
    ensures |DisplayMetrics(m)| > 0 <==> SupportedType(m.mediaType)
  {
  }

  // ----- badge and caption -----

  /** The label on the media-type badge. */
  function BadgeLabel(mediaType: string): (r: string)
    ensures mediaType == REELS ==> r == "Reels"
    ensures mediaType == VIDEO ==> r == "Vídeo"
    ensures mediaType == CAROUSEL_ALBUM ==> r == "Carrossel"
    ensures r == "Mídia" <==> !SupportedType(mediaType)
  {
    if mediaType == REELS then "Reels"
    else if mediaType == VIDEO then "Vídeo"
    else if mediaType == CAROUSEL_ALBUM then "Carrossel"
    else "Mídia"
  }

  const CaptionLimit: nat := 100

  /** The caption paragraph of a card: absent for a missing or empty caption,
      otherwise the caption cut to 100 characters plus "..." when longer. */
  function ShownCaption(caption: Option<string>): (r: Option<string>)
    ensures r.Some? <==> Truthy(caption)
    ensures r.Some? && |caption.value| <= CaptionLimit ==> r.value == caption.value
    ensures r.Some? && |caption.value| > CaptionLimit ==>
      |r.value| == CaptionLimit + 3 && r.value[..CaptionLimit] == caption.value[..CaptionLimit]
      && EndsWith(r.value, Ellipsis)
    ensures r.Some? ==> |r.value| <= CaptionLimit + 3
  {
    if Truthy(caption) then Some(Ellipsize(caption.value, CaptionLimit)) else None
  }

  // ----- paging through the loaded media -----

  const PageStep: nat := 6
  const InitialVisibleCount: int := 6

  function Min(a: int, b: int): int {
    if a < b then a else b
  }

  /** What a click on "load more" does: the new visible count, and whether
      the hook's `loadMore` is called to fetch the next upstream page. */
  datatype LoadMoreStep = LoadMoreStep(visibleCount: int, fetchesNextPage: bool)

  /** `handleLoadMore`. */
  function HandleLoadMore(visibleCount: int, mediaLength: nat, hasNextPage: bool, loadingMore: bool)
    : (r: LoadMoreStep)
    ensures mediaLength > visibleCount ==>
      r == LoadMoreStep(Min(visibleCount + PageStep, mediaLength), false)
      && visibleCount < r.visibleCount <= mediaLength
    ensures mediaLength <= visibleCount && hasNextPage && !loadingMore ==>
      r.fetchesNextPage && r.visibleCount == visibleCount + PageStep
    ensures mediaLength <= visibleCount && !(hasNextPage && !loadingMore) ==>
      r == LoadMoreStep(visibleCount, false)
  {
    var remainingLocal := mediaLength - visibleCount;
    if remainingLocal > 0 then LoadMoreStep(Min(visibleCount + PageStep, mediaLength), false)
    else if hasNextPage && !loadingMore then LoadMoreStep(visibleCount + PageStep, true)
    else LoadMoreStep(visibleCount, false)
  }

  /** `displayedMedia`: `media.slice(0, visibleCount)`. */
  function Displayed(media: seq<Media>, visibleCount: int): (r: seq<Media>)
    ensures IsPrefix(r, media)
    ensures 0 <= visibleCount ==> |r| == Min(visibleCount, |media|)
  {
    Slice(media, visibleCount)
  }

  /** `hasMore`: the "load more" button is shown. */
  predicate HasMore(visibleCount: int, mediaLength: nat, hasNextPage: bool) {
    visibleCount < mediaLength || hasNextPage
  }

  /** From a non-negative count (the default is 6), a click never hides a
      post: what was displayed before stays displayed, in the same order, at
      the front, and the count stays non-negative. */
  lemma LoadMoreKeepsDisplayed(media: seq<Media>, visibleCount: int, hasNextPage: bool, loadingMore: bool)
    requires 0 <= visibleCount
    ensures var r := HandleLoadMore(visibleCount, |media|, hasNextPage, loadingMore);
      0 <= r.visibleCount && IsPrefix(Displayed(media, visibleCount), Displayed(media, r.visibleCount))
  {
    var r := HandleLoadMore(visibleCount, |media|, hasNextPage, loadingMore);
    assert visibleCount <= r.visibleCount;
    assert SliceEnd(|media|, visibleCount) <= SliceEnd(|media|, r.visibleCount);
  }

  /** A negative `initialVisibleCount` is not rejected, and then `slice`
      counts from the back: with ten posts and a count of -1, nine posts are
      displayed, and a click sets the count to 5 and hides four of them. */
  lemma NegativeCountLoadMoreHidesPosts(media: seq<Media>)
    requires |media| == 10
    ensures |Displayed(media, -1)| == 9
    ensures HandleLoadMore(-1, |media|, false, false).visibleCount == 5
    ensures |Displayed(media, HandleLoadMore(-1, |media|, false, false).visibleCount)| == 5
  {
  }

  /** A click changes nothing exactly when the button has nothing to do:
      no more posts at all, or only upstream ones while a page is loading. */
  lemma LoadMoreIsNoOpIff(visibleCount: int, mediaLength: nat, hasNextPage: bool, loadingMore: bool)
    ensures HandleLoadMore(visibleCount, mediaLength, hasNextPage, loadingMore) == LoadMoreStep(visibleCount, false)
      <==> !HasMore(visibleCount, mediaLength, hasNextPage) || (visibleCount >= mediaLength && loadingMore)
  {
  }

  // ----- posts with and without insights -----

  /** A post goes to the "with insights" section when it has insights and
      its card lists at least one metric. */
  predicate ShowsInsights(m: Media) {
    m.insights.Some? && |DisplayMetrics(m)| > 0
  }

  /** `postsWithInsights`. */
  function PostsWithInsights(ms: seq<Media>): (r: seq<Media>)
    ensures forall m :: m in r <==> m in ms && ShowsInsights(m)
    ensures IsSubsequence(r, ms)
    decreases |ms|
  {
    if ms == [] then []
    else if ShowsInsights(ms[0]) then [ms[0]] + PostsWithInsights(ms[1..])
    else PostsWithInsights(ms[1..])
  }

  /** `postsWithoutInsights`. */
  function PostsWithoutInsights(ms: seq<Media>): (r: seq<Media>)
    ensures forall m :: m in r <==> m in ms && !ShowsInsights(m)
    ensures IsSubsequence(r, ms)
    decreases |ms|
  {
    if ms == [] then []
    else if !ShowsInsights(ms[0]) then [ms[0]] + PostsWithoutInsights(ms[1..])
    else PostsWithoutInsights(ms[1..])
  }

  /** The two sections hold exactly the displayed posts, each once. */
  lemma {:induction false} SectionsPartitionDisplayed(ms: seq<Media>)
    ensures multiset(PostsWithInsights(ms)) + multiset(PostsWithoutInsights(ms)) == multiset(ms)
    ensures |PostsWithInsights(ms)| + |PostsWithoutInsights(ms)| == |ms|
    decreases |ms|
  {
    if ms != [] {
      SectionsPartitionDisplayed(ms[1..]);
      assert ms == [ms[0]] + ms[1..];
      assert multiset(ms) == multiset([ms[0]]) + multiset(ms[1..]);
    }
  }

  // ----- insight messages on a card -----

  /** The insight-related boxes a card renders. */
  datatype InsightBoxes = InsightBoxes(
    metricsGrid: bool,     // the "Insights" grid of metrics
    unavailableNote: bool, // grey "Insights não disponíveis para este post"
    errorBox: bool,        // red box with `insightsError.message`
    fallbackBox: bool)     // yellow "Insights não disponíveis"

  /** `renderMediaCard(item, showInsightsMessages)`, insight boxes only. */
  function CardBoxes(m: Media, showMessages: bool): (r: InsightBoxes)
    ensures r.metricsGrid <==> ShowsInsights(m)
    ensures r.unavailableNote <==> showMessages && m.insights.Some? && !ShowsInsights(m)
    ensures r.errorBox <==> showMessages && m.insights.None? && m.insightsError.Some?
    ensures r.fallbackBox <==> showMessages && m.insights.None? && m.insightsError.None?
    ensures !showMessages ==> !r.unavailableNote && !r.errorBox && !r.fallbackBox
  {
    var hasMetrics := |DisplayMetrics(m)| > 0;
    InsightBoxes(
      m.insights.Some? && hasMetrics,
      m.insights.Some? && !hasMetrics && showMessages,
      showMessages && m.insights.None? && m.insightsError.Some?,
      showMessages && m.insights.None? && m.insightsError.None?)
  }

  /** The grid renders "without" cards with messages off and "with" cards
      with messages on, so no card ever shows the grey note, the red error
      box or the yellow fallback box. */
  lemma NoInsightMessageEverRendered(media: seq<Media>, visibleCount: int)
    ensures var shown := Displayed(media, visibleCount);
      && (forall m :: m in PostsWithoutInsights(shown) ==>
            var b := CardBoxes(m, false); !b.unavailableNote && !b.errorBox && !b.fallbackBox)
      && (forall m :: m in PostsWithInsights(shown) ==>
            var b := CardBoxes(m, true); b.metricsGrid && !b.unavailableNote && !b.errorBox && !b.fallbackBox)
  {
  }
}
