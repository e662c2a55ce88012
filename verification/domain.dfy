/** The records the dashboard passes around (src/types/instagram.ts), and the
    shape of a failed HTTP call as the handlers see it in their `catch`. */
module Domain {
  import opened Optional

  // Media types the upstream listing reports; any other string is possible.
  const IMAGE: string := "IMAGE"
  const VIDEO: string := "VIDEO"
  const REELS: string := "REELS"
  const CAROUSEL_ALBUM: string := "CAROUSEL_ALBUM"

  /** One insight metric: its name and the reported values. */
  datatype Metric = Metric(name: string, values: seq<int>)

  /** The `insights` object attached to a media item: `{ data: [...] }`. */
  datatype Insights = Insights(data: seq<Metric>)

  datatype InsightsError = InsightsError(reason: string, message: string, details: Option<string>)

  /** A media item as the upstream listing returns it. */
  datatype RawMedia = RawMedia(
    id: string,
    mediaType: string,
    mediaUrl: string,
    thumbnailUrl: Option<string>,
    permalink: string,
    caption: Option<string>,
    timestamp: string)

  /** A media item as the dashboard's API returns it. */
  datatype Media = Media(
    id: string,
    mediaType: string,
    mediaUrl: string,
    thumbnailUrl: Option<string>,
    permalink: string,
    caption: Option<string>,
    timestamp: string,
    insights: Option<Insights>,
    insightsError: Option<InsightsError>)

  /** `{ ...raw, insights }`: the raw fields, plus the insights slot. */
  function WithInsights(raw: RawMedia, insights: Option<Insights>): Media {
    Media(raw.id, raw.mediaType, raw.mediaUrl, raw.thumbnailUrl, raw.permalink,
          raw.caption, raw.timestamp, insights, None)
  }

  /** The raw fields of a media item, forgetting insights. */
  function RawPart(m: Media): RawMedia {
    RawMedia(m.id, m.mediaType, m.mediaUrl, m.thumbnailUrl, m.permalink, m.caption, m.timestamp)
  }

  datatype Profile = Profile(
    id: string,
    userId: string,
    name: string,
    username: string,
    biography: Option<string>,
    website: Option<string>,
    accountType: string,
    profilePictureUrl: string,
    followersCount: int,
    followsCount: int,
    mediaCount: int)

  datatype Session = Session(userId: string, accessToken: string)

  /** Body of the session endpoint, and what the browser helpers return. */
  datatype SessionResponse = SessionResponse(
    status: string,
    message: string,
    authenticated: bool,
    data: Option<Session>,
    error: Option<string>)

  /** The upstream `paging` object, passed through untouched. */
  datatype Paging = Paging(next: Option<string>, previous: Option<string>)

  /** The JSON body of an error response: the fields any handler reads. */
  datatype ErrorBody = ErrorBody(
    message: Option<string>,
    error: Option<string>,
    errorDescription: Option<string>)

  /** The response attached to an axios error; `body` is None when
      `response.data` is falsy. */
  datatype ErrorResponse = ErrorResponse(status: int, body: Option<ErrorBody>)

  /** What reaches a `catch` block. axios errors are `Error` instances and may
      carry the server's response; anything else thrown is either an `Error`
      (with its message) or some other value. */
  datatype Failure =
    | AxiosFailure(response: Option<ErrorResponse>, text: string)
    | ThrownError(text: string)
    | ThrownValue

  /** `error instanceof Error ? error.message : "Unknown error"`. */
  function ErrorText(f: Failure): string {
    match f
    case AxiosFailure(_, t) => t
    case ThrownError(t) => t
    case ThrownValue => "Unknown error"
  }

  /** `error.response?.status` for an axios error, None otherwise. */
  function ResponseStatus(f: Failure): Option<int> {
    if f.AxiosFailure? && f.response.Some? then Some(f.response.value.status) else None
  }

  /** An axios error whose response status is 401 or 400: the handlers read
      it as a bad or expired token. */
  predicate IsAuthFailure(f: Failure) {
    ResponseStatus(f) == Some(401) || ResponseStatus(f) == Some(400)
  }

  /** The statuses `NextResponse.json(body, { status })` accepts. The Response
      constructor of the WHATWG Fetch Standard throws a RangeError outside
      200..599, and a TypeError for the null-body statuses 204, 205 and 304
      when a body is given. */
  predicate JsonStatus(status: int) {
    200 <= status <= 599 && status != 204 && status != 205 && status != 304
  }

  /** `err.response?.data?.message`. */
  function ResponseMessage(f: Failure): Option<string> {
    if f.AxiosFailure? && f.response.Some? && f.response.value.body.Some?
    then f.response.value.body.value.message
    else None
  }
}
