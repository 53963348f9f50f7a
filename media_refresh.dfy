/**
 * The dashboard's "refresh Instagram memories" server action: a chain of
 * preconditions (signed in, handle on file, parent consent, backend URL
 * configured), then a strict ingest-then-process sequence against the
 * backend. The two HTTP replies are inputs; the action reports which
 * calls it made, in order.
 */
module MediaRefresh {
  import opened Wrappers
  import opened Strings

  /** What `supabase.auth.getUser()` answered. */
  datatype UserLookup = UserError(message: string) | NoUser | User(id: string)

  /** What the `user_profiles` query answered; a missing column value is `None`. */
  datatype ProfileLookup =
    | ProfileError(message: string)
    | NoProfile
    | ProfileRow(igUsername: Option<string>, isParentConfirmed: Option<bool>)

  /** A reply body that parsed as JSON, with the fields the action reads. */
  datatype JsonBody = JsonBody(error: Option<string>, inserted: Option<int>, processedLength: Option<nat>)

  /** A backend reply: `ok`, `statusText`, and the body if it parses as JSON. */
  datatype HttpReply = HttpReply(ok: bool, statusText: string, json: Option<JsonBody>)

  /** A POST the action sent to the backend. */
  datatype HttpCall =
    | IngestCall(url: string, profileId: string, instagramUsername: string, limit: nat)
    | ProcessCall(url: string, limit: nat)

  datatype RefreshResult =
    | Refreshed(message: string, ingested: int, processed: nat)
    | RefreshFailed(error: string)

  /** Both backend calls ask for at most this many items. */
  const FetchLimit: nat := 12
  const IngestPath := "ingest/instagram"
  const ProcessPath := "process/instagram-media"
  const SuccessMessage := "Instagram memories " + "refreshed successfully."
  const SignInRequired := "You need to be signed in " + "to sync Instagram memories."
  const HandleMissing := "Instagram handle missing. " + "Update your profile first."
  const ConsentPending := "Parent consent pending. " + "Ask them to confirm " + "the LifeLoop invite."
  const BackendNotConfigured := "BACKEND_API_BASE_URL " + "not configured. " + "Set it in your environment."

  /**
   * `(BACKEND_API_BASE_URL || NEXT_PUBLIC_BACKEND_API_BASE_URL || '').trim()`,
   * with an unset variable as "". The choice is made before trimming.
   */
  function BackendBaseUrl(primary: string, secondary: string): (r: string)
    ensures Trimmed(r)
    ensures primary != "" ==> r == Trim(primary)
    ensures primary == "" ==> r == Trim(secondary)
    ensures r == "" <==> (if primary != "" then AllSpace(primary) else AllSpace(secondary))
  {
    Trim(if primary != "" then primary else secondary)
  }

  /** A primary value of only whitespace hides a configured secondary value. */
  lemma WhitespacePrimaryHidesSecondary(primary: string, secondary: string)
    requires primary != "" && AllSpace(primary)
    ensures BackendBaseUrl(primary, secondary) == ""
  {
  }

  /** The outcome of the precondition chain. */
  datatype Precheck = Blocked(error: string) | Ready(userId: string, igUsername: string, baseUrl: string)

  /**
   * The checks before any HTTP call, in source order; the first failure
   * gives the error.
   */
  function CheckPreconditions(user: UserLookup, profile: ProfileLookup, primary: string, secondary: string)
    : (r: Precheck)
    ensures r.Ready? <==>
              && user.User? && profile.ProfileRow? && Truthy(profile.igUsername)
              && profile.isParentConfirmed == Some(true) && BackendBaseUrl(primary, secondary) != ""
    ensures r.Ready? ==>
              r.userId == user.id && r.igUsername == profile.igUsername.value
              && r.baseUrl == BackendBaseUrl(primary, secondary)
    ensures user.UserError? ==> r == Blocked(user.message)
    ensures user.NoUser? ==> r == Blocked(SignInRequired)
    ensures user.User? && profile.ProfileError? ==> r == Blocked(profile.message)
    ensures user.User? && !profile.ProfileError? && !(profile.ProfileRow? && Truthy(profile.igUsername)) ==>
              r == Blocked(HandleMissing)
    ensures user.User? && profile.ProfileRow? && Truthy(profile.igUsername) && profile.isParentConfirmed != Some(true) ==>
              r == Blocked(ConsentPending)
    ensures user.User? && profile.ProfileRow? && Truthy(profile.igUsername) && profile.isParentConfirmed == Some(true)
            && BackendBaseUrl(primary, secondary) == "" ==>
              r == Blocked(BackendNotConfigured)
  {
    if user.UserError? then Blocked(user.message)
    else if user.NoUser? then Blocked(SignInRequired)
    else if profile.ProfileError? then Blocked(profile.message)
    else if !(profile.ProfileRow? && Truthy(profile.igUsername)) then
      Blocked(HandleMissing)
    else if profile.isParentConfirmed != Some(true) then
      Blocked(ConsentPending)
    else
      var base := BackendBaseUrl(primary, secondary);
      if base == "" then Blocked(BackendNotConfigured)
      else Ready(user.id, profile.igUsername.value, base)
  }

  /** `data?.error || response.statusText`: a truthy JSON error wins, otherwise the status text. */
  function FailureReason(reply: HttpReply): (reason: string)
    ensures reply.json.Some? && Truthy(reply.json.value.error) ==> reason == reply.json.value.error.value
    ensures !(reply.json.Some? && Truthy(reply.json.value.error)) ==> reason == reply.statusText
  {
    match reply.json
    case Some(body) => if Truthy(body.error) then body.error.value else reply.statusText
    case None => reply.statusText
  }

  /** `ingestBody?.inserted ?? 0`, and 0 when the body does not parse. */
  function InsertedCount(reply: HttpReply): (n: int)
    ensures reply.json.Some? && reply.json.value.inserted.Some? ==> n == reply.json.value.inserted.value
    ensures reply.json.None? || reply.json.value.inserted.None? ==> n == 0
  {
    match reply.json
    case Some(body) => body.inserted.GetOr(0)
    case None => 0
  }

  /** `processBody?.processed?.length ?? 0`, and 0 when the body does not parse. */
  function ProcessedCount(reply: HttpReply): (n: nat)
    ensures reply.json.Some? && reply.json.value.processedLength.Some? ==> n == reply.json.value.processedLength.value
    ensures reply.json.None? || reply.json.value.processedLength.None? ==> n == 0
  {
    match reply.json
    case Some(body) => body.processedLength.GetOr(0)
    case None => 0
  }

  /**
   * `refreshInstagramMedia`. Every precondition failure returns with no
   * HTTP call; the process call is made only after an ok ingest; success
   * needs both calls ok and reports the two counts.
   */
  method RefreshInstagramMedia(user: UserLookup, profile: ProfileLookup, primaryBaseUrl: string,
                               secondaryBaseUrl: string, ingestReply: HttpReply, processReply: HttpReply)
    returns (result: RefreshResult, calls: seq<HttpCall>)
    ensures var pre := CheckPreconditions(user, profile, primaryBaseUrl, secondaryBaseUrl);
            && (pre.Blocked? ==> result == RefreshFailed(pre.error) && calls == [])
            && (pre.Ready? ==>
                  1 <= |calls| <= 2
                  && calls[0] == IngestCall(JoinUrl(pre.baseUrl, IngestPath), pre.userId, pre.igUsername, FetchLimit))
            && (pre.Ready? && !ingestReply.ok ==>
                  result == RefreshFailed("Ingestion failed: " + FailureReason(ingestReply)) && |calls| == 1)
            && (|calls| == 2 <==> pre.Ready? && ingestReply.ok)
            && (|calls| == 2 ==> calls[1] == ProcessCall(JoinUrl(pre.baseUrl, ProcessPath), FetchLimit))
    ensures |calls| == 2 && !processReply.ok ==> result == RefreshFailed("Processing failed: " + FailureReason(processReply))
    ensures result.Refreshed? <==> |calls| == 2 && processReply.ok
    ensures result.Refreshed? ==> result == Refreshed(SuccessMessage, InsertedCount(ingestReply), ProcessedCount(processReply))
  {
    calls := [];
    if user.UserError? {
      return RefreshFailed(user.message), calls;
    }
    if user.NoUser? {
      return RefreshFailed(SignInRequired), calls;
    }
    if profile.ProfileError? {
      return RefreshFailed(profile.message), calls;
    }
    if !(profile.ProfileRow? && Truthy(profile.igUsername)) {
      return RefreshFailed(HandleMissing), calls;
    }
    if profile.isParentConfirmed != Some(true) {
      return RefreshFailed(ConsentPending), calls;
    }
    var backendBaseUrl := BackendBaseUrl(primaryBaseUrl, secondaryBaseUrl);
    if backendBaseUrl == "" {
      return RefreshFailed(BackendNotConfigured), calls;
    }

    calls := calls + [IngestCall(JoinUrl(backendBaseUrl, IngestPath), user.id, profile.igUsername.value, FetchLimit)];
    if !ingestReply.ok {
      return RefreshFailed("Ingestion failed: " + FailureReason(ingestReply)), calls;
    }
    var ingestedCount := InsertedCount(ingestReply);

    calls := calls + [ProcessCall(JoinUrl(backendBaseUrl, ProcessPath), FetchLimit)];
    if !processReply.ok {
      return RefreshFailed("Processing failed: " + FailureReason(processReply)), calls;
    }
    var processedCount := ProcessedCount(processReply);

    result := Refreshed(SuccessMessage, ingestedCount, processedCount);
  }
}
