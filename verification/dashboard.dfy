/** The dashboard page (src/app/dashboard/page.tsx): the session panel in
    the header, and the local pager over the videos it lists. The videos are
    a parameter; the caption and the metric reads are the grid's
    (`MediaGrid.ShownCaption`, `InsightsRead.InsightValue`). */
module Dashboard {
  import opened Optional
  import opened Text
  import opened Domain
  import opened InstagramLib
  import MediaGrid

  // ----- the video pager -----

  const InitialVisibleVideos: int := 6
  const VideoStep: int := 6

  /** The timer callback of `loadMoreVideos`: six more, capped at the
      number of videos. */
  function Tick(visible: int, videoCount: nat): (r: int)
    ensures r <= videoCount
    ensures visible + VideoStep <= videoCount ==> r == visible + VideoStep
    ensures visible + VideoStep > videoCount ==> r == videoCount
  {
    MediaGrid.Min(visible + VideoStep, videoCount)
  }

  /** The visible count after `n` timer callbacks from `visible`. */
  function Ticks(visible: int, videoCount: nat, n: nat): int
    decreases n
  {
    if n == 0 then visible else Tick(Ticks(visible, videoCount, n - 1), videoCount)
  }

  /** After `n` clicks have run their timers, `6 + 6n` videos are visible,
      or all of them when there are fewer. */
  lemma {:induction false} TicksClosedForm(videoCount: nat, n: nat)
    requires n >= 1
    ensures Ticks(InitialVisibleVideos, videoCount, n) == MediaGrid.Min(InitialVisibleVideos + VideoStep * n, videoCount)
    decreases n
  {
    if n > 1 {
      TicksClosedForm(videoCount, n - 1);
    }
  }

  /** The visible count never exceeds six or the number of videos,
      whichever is larger. */
  lemma TicksBounded(videoCount: nat, n: nat)
    ensures Ticks(InitialVisibleVideos, videoCount, n) <= if videoCount < 6 then 6 else videoCount
  {
    if n >= 1 {
      TicksClosedForm(videoCount, n);
    }
  }

  /** `displayedVideos` and `hasMoreVideos`. */
  function DisplayedVideos(videos: seq<Media>, visible: int): (r: seq<Media>)
    ensures IsPrefix(r, videos)
    ensures 0 <= visible ==> |r| == MediaGrid.Min(visible, |videos|)
  {
    MediaGrid.Displayed(videos, visible)
  }

  predicate HasMoreVideos(visible: int, videoCount: nat) {
    visible < videoCount
  }

  /** A timer callback never hides a video, even when it lowers the count
      below six for a short list; and once every video is shown the button
      is gone for good. */
  lemma TickNeverHidesVideos(videos: seq<Media>, visible: int)
    requires 0 <= visible
    ensures IsPrefix(DisplayedVideos(videos, visible), DisplayedVideos(videos, Tick(visible, |videos|)))
    ensures !HasMoreVideos(visible, |videos|) ==> !HasMoreVideos(Tick(visible, |videos|), |videos|)
  {
    var t := Tick(visible, |videos|);
    assert SliceEnd(|videos|, visible) <= SliceEnd(|videos|, t);
  }

  // ----- the session panel -----

  datatype SessionPanel = SessionPanel(session: Option<Session>, loading: bool, error: Option<string>)

  const InitialPanel := SessionPanel(None, true, None)

  const NotFoundText: string := "Sessão do Instagram não encontrada"
  const ClearedText: string := "Sessão removida com sucesso"
  const ClearFailedText: string := "Erro ao remover sessão"
  const NotConnectedText: string := "Não conectado"

  /** `checkSession`: keeps the session when the reply is authenticated and
      carries data, records the reply's message otherwise. */
  function CheckSession(p: SessionPanel, reply: FetchReply): (r: SessionPanel)
    ensures !r.loading
    ensures var s := CheckInstagramSession(reply);
      && (s.authenticated && s.data.Some? ==> r.session == s.data && r.error == p.error)
      && (!(s.authenticated && s.data.Some?) ==> r.session == p.session && r.error == Some(Or(Some(s.message), NotFoundText)))
  {
    var s := CheckInstagramSession(reply);
    if s.authenticated && s.data.Some? then p.(session := s.data, loading := false)
    else p.(error := Some(Or(Some(s.message), NotFoundText)), loading := false)
  }

  /** `handleClearSession`. */
  function ClearSession(p: SessionPanel, reply: FetchReply): (r: SessionPanel)
    ensures r.loading == p.loading
    ensures ClearInstagramSession(reply).status == "success" ==> r.session.None? && r.error == Some(ClearedText)
    ensures ClearInstagramSession(reply).status != "success" ==>
      r.session == p.session && r.error == Some(Or(Some(ClearInstagramSession(reply).message), ClearFailedText))
  {
    var c := ClearInstagramSession(reply);
    if c.status == "success" then p.(session := None, error := Some(ClearedText))
    else p.(error := Some(Or(Some(c.message), ClearFailedText)))
  }

  datatype HeaderStatus = Checking | Connected(userId: string) | NotConnected(text: string)

  /** The status area of the header. */
  function Header(p: SessionPanel): (r: HeaderStatus)
    ensures r.Checking? <==> p.loading
    ensures r.Connected? <==> !p.loading && p.session.Some?
    ensures r.Connected? ==> r.userId == p.session.value.userId
    ensures r.NotConnected? ==> r.text != "" && (Truthy(p.error) ==> r.text == p.error.value)
    ensures r.NotConnected? && !Truthy(p.error) ==> r.text == NotConnectedText
  {
    if p.loading then Checking
    else if p.session.Some? then Connected(p.session.value.userId)
    else NotConnected(Or(p.error, NotConnectedText))
  }

  /** A failed clear leaves the header connected; a successful one shows the
      confirmation text in its place. */
  lemma ClearThenHeader(p: SessionPanel, reply: FetchReply)
    requires !p.loading
    ensures ClearInstagramSession(reply).status == "success" ==>
      Header(ClearSession(p, reply)) == NotConnected(ClearedText)
    ensures ClearInstagramSession(reply).status != "success" && p.session.Some? ==>
      Header(ClearSession(p, reply)) == Header(p)
  {
  }
}
