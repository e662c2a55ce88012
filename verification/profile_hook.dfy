/** The profile hook (src/hooks/useInstagramProfile.ts): one request to the
    profile endpoint on mount and on `refetch`. */
module ProfileHook {
  import opened Optional
  import opened Text
  import opened Domain
  import opened Client

  /** The profile endpoint's JSON body as the hook reads it. */
  datatype ProfileResponse = ProfileResponse(success: bool, data: Option<Profile>, message: Option<string>)

  datatype ProfileState = ProfileState(
    profile: Option<Profile>,
    loading: bool,
    error: Option<string>,
    authenticated: bool)

  const ProfileUrl: string := "/api/instagram/profile"
  const LoadError: string := "Erro ao carregar perfil"
  const UnexpectedError: string := "Erro inesperado ao carregar perfil"

  const Initial := ProfileState(None, true, None, false)

  /** Never authenticated and in error at once, never authenticated without
      a profile, and an error is never an empty text. */
  predicate Inv(s: ProfileState) {
    && !(s.authenticated && s.error.Some?)
    && (s.authenticated ==> s.profile.Some?)
    && (s.error.Some? ==> s.error.value != "")
  }

  predicate IsProfile(reply: Reply<ProfileResponse>) {
    && reply.Resolved? && reply.status != 401
    && reply.body.Some? && reply.body.value.success && reply.body.value.data.Some?
  }

  /** The `then`/`catch` handlers. */
  function Settle(s: ProfileState, reply: Reply<ProfileResponse>): (r: ProfileState)
    ensures r.loading == s.loading
    ensures r.authenticated <==> IsProfile(reply)
    ensures IsProfile(reply) ==> r.profile == reply.body.value.data && r.error.None?
    ensures IsUnauthorized(reply) ==> r.profile.None? && r.error.None?
    ensures !IsProfile(reply) && !IsUnauthorized(reply) ==>
      r.profile == s.profile && r.error.Some? && r.error.value != ""
    ensures reply.Resolved? && reply.status != 401 && reply.body.Some? && !IsProfile(reply) ==>
      r.error == Some(Or(reply.body.value.message, LoadError))
    ensures reply.Rejected? && !IsUnauthorized(reply) ==> r.error == CaughtError(reply.failure, UnexpectedError)
    ensures reply.Resolved? && reply.status != 401 && reply.body.None? ==> r.error == Some(UnexpectedError)
  {
    match reply
    case Resolved(status, body) =>
      if status == 401 then s.(authenticated := false, profile := None, error := None)
      else if body.None? then s.(error := Some(UnexpectedError), authenticated := false)
      else if body.value.success && body.value.data.Some? then
        s.(profile := body.value.data, authenticated := true, error := None)
      else s.(error := Some(Or(body.value.message, LoadError)), authenticated := false)
    case Rejected(f) =>
      match CaughtError(f, UnexpectedError)
      case None => s.(authenticated := false, profile := None, error := None)
      case Some(message) => s.(error := Some(message), authenticated := false)
  }

  /** The synchronous start of `fetchProfile`. */
  function Start(s: ProfileState): (r: ProfileState)
    ensures r.loading && r.error.None?
    ensures r.profile == s.profile && r.authenticated == s.authenticated
  {
    s.(loading := true, error := None)
  }

  /** `fetchProfile()` from start to `finally`; `refetch` is the same call. */
  function Fetch(s: ProfileState, api: string -> Reply<ProfileResponse>): (r: ProfileState)
    ensures !r.loading
    ensures r.authenticated <==> IsProfile(api(ProfileUrl))
  {
    Settle(Start(s), api(ProfileUrl)).(loading := false)
  }

  /** Every fetch keeps the invariant, starting from the initial state. */
  lemma FetchKeepsInv(s: ProfileState, api: string -> Reply<ProfileResponse>)
    requires Inv(s)
    ensures Inv(Initial)
    ensures Inv(Fetch(s, api))
  {
  }

  /** A failed refetch keeps the profile already shown; a 401 removes it. */
  lemma FailedRefetchKeepsProfile(s: ProfileState, api: string -> Reply<ProfileResponse>)
    ensures !IsProfile(api(ProfileUrl)) && !IsUnauthorized(api(ProfileUrl)) ==>
      Fetch(s, api).profile == s.profile
    ensures IsUnauthorized(api(ProfileUrl)) ==> Fetch(s, api).profile.None?
  {
  }
}
