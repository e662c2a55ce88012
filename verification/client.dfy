/** The browser side of an `axios.get` call as the two data hooks see it
    (src/hooks/useInstagramMedia.ts, src/hooks/useInstagramProfile.ts):
    either a resolved response, whose body may be missing, or a failure the
    `catch` handler receives. */
module Client {
  import opened Optional
  import opened Text
  import opened Domain

  datatype Reply<B> = Resolved(status: int, body: Option<B>) | Rejected(failure: Failure)

  const ConnectError: string := "Erro ao conectar com a API"

  /** Both hooks treat a 401, resolved or rejected, as "not logged in". */
  predicate IsUnauthorized<B>(reply: Reply<B>) {
    || (reply.Resolved? && reply.status == 401)
    || (reply.Rejected? && ResponseStatus(reply.failure) == Some(401))
  }

  /** The error a hook's `catch` shows: none for a 401 axios error, the
      server's `message` (or a fixed text) for any other axios error, and
      `unexpected` for anything else thrown. */
  function CaughtError(f: Failure, unexpected: string): (r: Option<string>)
    ensures r.None? <==> ResponseStatus(f) == Some(401)
    ensures f.AxiosFailure? && ResponseStatus(f) != Some(401) ==> r == Some(Or(ResponseMessage(f), ConnectError))
    ensures !f.AxiosFailure? ==> r == Some(unexpected)
    ensures unexpected != "" && r.Some? ==> r.value != ""
  {
    if f.AxiosFailure? then
      if ResponseStatus(f) == Some(401) then None else Some(Or(ResponseMessage(f), ConnectError))
    else Some(unexpected)
  }
}
