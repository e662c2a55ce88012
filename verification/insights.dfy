/** Reading insight metrics on the client. The media grid, the test-insights
    page and the dashboard each carry the same `getInsightValue`: the first
    value of the first metric with the requested name, or 0. */
module InsightsRead {
  import opened Optional
  import opened Domain
  import opened Text

  /** `i` is the position of the first metric called `name`. */
  predicate IsFirstNamed(data: seq<Metric>, name: string, i: int) {
    && 0 <= i < |data|
    && data[i].name == name
    && forall j :: 0 <= j < i ==> data[j].name != name
  }

  /** `data.find(m => m.name === name)`, as a position. */
  function FindMetric(data: seq<Metric>, name: string): (r: Option<nat>)
    ensures r.Some? ==> IsFirstNamed(data, name, r.value)
    ensures r.None? <==> forall j :: 0 <= j < |data| ==> data[j].name != name
    decreases |data|
  {
    if data == [] then None
    else if data[0].name == name then Some(0)
    else
      match FindMetric(data[1..], name)
      case None => None
      case Some(i) => Some(i + 1)
  }

  /** `m?.values[0]?.value || 0`: a metric with no values reads as 0, and a
      value of 0 is falsy and reads as 0 too. */
  function FirstValue(m: Metric): int {
    if |m.values| > 0 then m.values[0] else 0
  }

  /** `getInsightValue(item, name)` over the item's `insights`. */
  function InsightValue(insights: Option<Insights>, name: string): (r: int)
    ensures insights.None? ==> r == 0
    ensures insights.Some? && (forall j :: 0 <= j < |insights.value.data| ==> insights.value.data[j].name != name)
      ==> r == 0
    ensures insights.Some? ==>
      forall i :: IsFirstNamed(insights.value.data, name, i) ==> r == FirstValue(insights.value.data[i])
    ensures r != 0 ==> insights.Some? && exists i :: IsFirstNamed(insights.value.data, name, i) && |insights.value.data[i].values| > 0 && r == insights.value.data[i].values[0]
  {
    if insights.None? then 0
    else
      match FindMetric(insights.value.data, name)
      case None => 0
      case Some(i) => FirstValue(insights.value.data[i])
  }

  /** A later metric with the same name is never read: only the first one
      counts. */
  lemma ShadowedMetricIgnored(data: seq<Metric>, name: string, extra: Metric)
    requires exists i :: 0 <= i < |data| && data[i].name == name
    ensures InsightValue(Some(Insights(data + [extra])), name) == InsightValue(Some(Insights(data)), name)
  {
    var k := FindMetric(data, name);
    assert k.Some?;
    assert IsFirstNamed(data + [extra], name, k.value);
  }

  /** A labelled number shown on a card. */
  datatype Entry = Entry(title: string, value: int)

  /** What a card shows in one position: its label and the metric it reads. */
  datatype Field = Field(title: string, metric: string)

  /** Reads each field's metric, in order. */
  function ReadFields(fields: seq<Field>, insights: Option<Insights>): (r: seq<Entry>)
    ensures |r| == |fields|
    ensures forall k :: 0 <= k < |r| ==>
      r[k].title == fields[k].title && r[k].value == InsightValue(insights, fields[k].metric)
    decreases |fields|
  {
    if fields == [] then []
    else [Entry(fields[0].title, InsightValue(insights, fields[0].metric))] + ReadFields(fields[1..], insights)
  }

  /** The entries whose value is positive, in their original order. */
  function KeepPositive(es: seq<Entry>): (r: seq<Entry>)
    ensures |r| <= |es|
    ensures forall k :: 0 <= k < |r| ==> r[k].value > 0
    ensures forall e :: e in r <==> e in es && e.value > 0
    ensures IsSubsequence(r, es)
    ensures forall e :: multiset(r)[e] == if e.value > 0 then multiset(es)[e] else 0
    decreases |es|
  {
    if es == [] then []
    else
      assert es == [es[0]] + es[1..];
      assert multiset(es) == multiset{es[0]} + multiset(es[1..]);
      if es[0].value > 0 then
        var r := [es[0]] + KeepPositive(es[1..]);
        assert r[1..] == KeepPositive(es[1..]);
        assert multiset(r) == multiset{es[0]} + multiset(KeepPositive(es[1..]));
        r
      else KeepPositive(es[1..])
  }

  // Field labels and the metric names behind them.
  const Views := Field("Visualizações", "video_views")
  const Plays := Field("Reproduções", "plays")
  const Impressions := Field("Impressões", "impressions")
  const Reach := Field("Alcance", "reach")
  const Likes := Field("Curtidas", "likes")
  const Comments := Field("Comentários", "comments")
  const Shares := Field("Compartilhamentos", "shares")
  const Saved := Field("Salvos", "saved")

  /** The four engagement fields every supported type ends with. */
  const EngagementFields: seq<Field> := [Likes, Comments, Shares, Saved]
}
