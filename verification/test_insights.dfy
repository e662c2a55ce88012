/** The test-insights page (src/app/test-insights/page.tsx): the same
    metric lookup as the grid, but a card lists only the metrics whose value
    is positive, and only for videos and reels. */
module TestInsights {
  import opened Optional
  import opened Domain
  import opened InsightsRead
  import MediaGrid

  /** The fields the page considers for a media type, in order. Carousels
      and every other type get none. */
  function PageFields(mediaType: string): seq<Field> {
    if mediaType == VIDEO then [Views, Impressions, Reach] + EngagementFields
    else if mediaType == REELS then [Plays, Reach, Impressions] + EngagementFields
    else []
  }

  /** Reads each field and keeps the ones whose value is positive. */
  function PickPositive(fields: seq<Field>, insights: Option<Insights>): (r: seq<Entry>)
    ensures |r| <= |fields|
    ensures forall k :: 0 <= k < |r| ==> r[k].value > 0
    ensures forall e :: e in r ==>
      exists i :: 0 <= i < |fields| && e == Entry(fields[i].title, InsightValue(insights, fields[i].metric))
    decreases |fields|
  {
    if fields == [] then []
    else
      var v := InsightValue(insights, fields[0].metric);
      (if v > 0 then [Entry(fields[0].title, v)] else []) + PickPositive(fields[1..], insights)
  }

  /** The page's `getDisplayMetrics`. */
  function PositiveMetrics(m: Media): (r: seq<Entry>)
    ensures forall k :: 0 <= k < |r| ==> r[k].value > 0
    ensures |r| <= 7
    ensures m.mediaType != VIDEO && m.mediaType != REELS ==> r == []
  {
    PickPositive(PageFields(m.mediaType), m.insights)
  }

  /** Picking positives while reading is reading everything and then
      dropping the non-positive entries. */
  lemma {:induction false} PickIsReadThenFilter(fields: seq<Field>, insights: Option<Insights>)
    ensures PickPositive(fields, insights) == KeepPositive(ReadFields(fields, insights))
    decreases |fields|
  {
    if fields != [] {
      PickIsReadThenFilter(fields[1..], insights);
      var rest := ReadFields(fields, insights);
      assert rest[1..] == ReadFields(fields[1..], insights);
    }
  }

  /** The grid card of `m` shows `e`'s title with `e`'s value. */
  predicate OnGridCard(m: Media, e: Entry) {
    var grid := MediaGrid.DisplayMetrics(m);
    exists k :: 0 <= k < |grid| && grid[k].title == e.title && grid[k].value == e.value
  }

  /** For videos and reels the page and the grid consider the same fields in
      the same order. */
  lemma SameFieldsAsGrid(mediaType: string)
    requires mediaType == VIDEO || mediaType == REELS
    ensures MediaGrid.Fields(MediaGrid.Slots(mediaType)) == PageFields(mediaType)
  {
    var fs := MediaGrid.Fields(MediaGrid.Slots(mediaType));
    assert |fs| == |PageFields(mediaType)| == 7;
    forall k | 0 <= k < 7 ensures fs[k] == PageFields(mediaType)[k] {
    }
  }

  /** The grid card lists, position by position, what reading its fields
      gives, plus an icon. */
  lemma GridCardReadsFields(m: Media)
    ensures var read := ReadFields(MediaGrid.Fields(MediaGrid.Slots(m.mediaType)), m.insights);
      var grid := MediaGrid.DisplayMetrics(m);
      |read| == |grid| &&
      forall k :: 0 <= k < |read| ==> read[k].title == grid[k].title && read[k].value == grid[k].value
  {
  }

  /** Keeping the positive entries of a list that matches a card position
      by position keeps exactly the card's positive title/value pairs. */
  lemma KeepPositiveOfMatching(read: seq<Entry>, grid: seq<MediaGrid.DisplayMetric>)
    requires |read| == |grid|
    requires forall k :: 0 <= k < |read| ==> read[k].title == grid[k].title && read[k].value == grid[k].value
    ensures forall e :: e in KeepPositive(read) <==>
      e.value > 0 && exists k :: 0 <= k < |grid| && grid[k].title == e.title && grid[k].value == e.value
  {
  }

  /** For videos and reels, the page shows exactly the grid card's metrics
      whose value is positive, in the grid's order; nothing it shows is
      missing from the grid and no positive grid metric is dropped. */
  lemma PositiveMetricsAreGridsPositives(m: Media)
    requires m.mediaType == VIDEO || m.mediaType == REELS
    ensures PositiveMetrics(m) == KeepPositive(ReadFields(MediaGrid.Fields(MediaGrid.Slots(m.mediaType)), m.insights))
    ensures forall e :: e in PositiveMetrics(m) <==> e.value > 0 && OnGridCard(m, e)
  {
    var fields := MediaGrid.Fields(MediaGrid.Slots(m.mediaType));
    SameFieldsAsGrid(m.mediaType);
    PickIsReadThenFilter(fields, m.insights);
    GridCardReadsFields(m);
    KeepPositiveOfMatching(ReadFields(fields, m.insights), MediaGrid.DisplayMetrics(m));
  }

  /** No two fields of a type share a title. */
  predicate DistinctTitles(fields: seq<Field>) {
    forall i, j :: 0 <= i < j < |fields| ==> fields[i].title != fields[j].title
  }

  /** A metric that is missing, or reads as 0, never appears on the page:
      no entry carries its title. */
  lemma ZeroMetricNeverShown(m: Media, f: Field)
    requires f in PageFields(m.mediaType)
    requires InsightValue(m.insights, f.metric) <= 0
    ensures forall e :: e in PositiveMetrics(m) ==> e.title != f.title
  {
    var fields := PageFields(m.mediaType);
    assert DistinctTitles(fields);
    forall e | e in PositiveMetrics(m)
      ensures e.title != f.title
    {
      var i :| 0 <= i < |fields| && e == Entry(fields[i].title, InsightValue(m.insights, fields[i].metric));
      var j :| 0 <= j < |fields| && fields[j] == f;
      assert i != j;
    }
  }
}
