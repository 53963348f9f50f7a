/**
 * The consent-request handler (`POST /api/parent-request`): a signed-in
 * student submits an Instagram handle, a parent email, an explicit
 * consent flag and optionally a voice sample. The handler validates the
 * form, optionally uploads and registers the voice sample, upserts the
 * profile, inserts a pending confirmation record that expires three days
 * later, and emails the parent a confirmation link.
 *
 * Every call to the outside world (the session, the store, the object
 * store, the voice-clone and mail APIs) is an input: `RequestIo` holds
 * what each of them answered on this request, the fresh token and the
 * clock.
 */
module ParentRequest {
  import opened Wrappers
  import opened Strings
  import opened ConsentTables

  /** Three days in milliseconds (1000 * 60 * 60 * 24 * 3). */
  const ConsentWindowMs: nat := 259_200_000

  const ConsentRequired := "Consent must be granted " + "before requesting parent " + "confirmation."
  const EmailFailed := "Failed to send parent " + "notification email."
  const RecordedMessage := "Parent confirmation " + "request recorded and email " + "sent."
  const ConfirmRoute := "api/parent-request/confirm?token="

  // ---------------------------------------------------------------- input

  /** An uploaded file; only its name matters to this handler. */
  datatype VoiceFile = VoiceFile(name: string)

  /** `formData.get(field)`: absent, a text value, or a file. */
  datatype FormValue = Absent | Text(s: string) | FileValue(file: VoiceFile)

  datatype Form = Form(
    instagramUsername: FormValue,
    parentEmail: FormValue,
    consentGranted: FormValue,
    voiceSample: FormValue)

  /** What `supabase.auth.getUser()` answered. */
  datatype Session = AuthFailed(message: string) | NoUser | SignedIn(userId: UserId)

  /** `!value || typeof value !== 'string'` fails exactly for these. */
  predicate IsFilledText(v: FormValue)
  {
    v.Text? && v.s != ""
  }

  // ------------------------------------------------------------- response

  datatype Body =
    | ErrorBody(error: string)
    | Recorded(message: string, voiceSampleUrl: Option<string>, voiceProfileId: Option<string>,
               confirmationExpiresAt: Millis)

  datatype Response = Response(status: int, body: Body)

  // ----------------------------------------------------------- validation

  datatype Validation =
    | Reject(response: Response)
    | Proceed(userId: UserId, instagramUsername: string, parentEmail: string)

  /**
   * The checks before any read or write, in source order; the first
   * failure answers.
   */
  function Validate(session: Session, form: Form): (v: Validation)
    ensures v.Proceed? <==>
              session.SignedIn? && IsFilledText(form.instagramUsername) && IsFilledText(form.parentEmail)
              && form.consentGranted == Text("true")
    ensures v.Proceed? ==>
              v.userId == session.userId
              && v.instagramUsername == form.instagramUsername.s && v.parentEmail == form.parentEmail.s
    ensures v.Reject? ==> v.response.body.ErrorBody?
    ensures v.Reject? ==>
              v.response.status == (if session.AuthFailed? then 500 else if session.NoUser? then 401 else 400)
    ensures session.AuthFailed? ==> v == Reject(Response(500, ErrorBody(session.message)))
    ensures session.NoUser? ==> v == Reject(Response(401, ErrorBody("Unauthorized")))
    ensures session.SignedIn? && !IsFilledText(form.instagramUsername) ==>
              v.response.body.error == "Instagram username is required."
    ensures session.SignedIn? && IsFilledText(form.instagramUsername) && !IsFilledText(form.parentEmail) ==>
              v.response.body.error == "Parent email is required."
    ensures v.Reject? && session.SignedIn? && IsFilledText(form.instagramUsername) && IsFilledText(form.parentEmail) ==>
              v.response.body.error == ConsentRequired
  {
    if session.AuthFailed? then Reject(Response(500, ErrorBody(session.message)))
    else if session.NoUser? then Reject(Response(401, ErrorBody("Unauthorized")))
    else if !IsFilledText(form.instagramUsername) then
      Reject(Response(400, ErrorBody("Instagram username is required.")))
    else if !IsFilledText(form.parentEmail) then
      Reject(Response(400, ErrorBody("Parent email is required.")))
    else if form.consentGranted != Text("true") then
      Reject(Response(400, ErrorBody(ConsentRequired)))
    else Proceed(session.userId, form.instagramUsername.s, form.parentEmail.s)
  }

  // --------------------------------------------------------- voice sample

  /** `name.replace(/\s+/g, '_')`: every run of whitespace becomes one underscore. */
  function SanitizeName(name: string): (r: string)
    ensures NoSpace(r)
    ensures |r| <= |name|
    ensures name != "" ==> r != ""
    ensures NoSpace(name) ==> r == name
    decreases |name|
  {
    if name == [] then []
    else if IsJsSpace(name[0]) then
      var rest := TrimStart(name);
      "_" + SanitizeName(rest)
    else [name[0]] + SanitizeName(name[1..])
  }

  /** A name that starts with whitespace: the run becomes one `_`. */
  lemma SanitizeLeadingRun(w: string, b: string)
    requires w != [] && AllSpace(w) && (b == [] || !IsJsSpace(b[0]))
    ensures SanitizeName(w + b) == "_" + SanitizeName(b)
  {
    assert (w + b)[0] == w[0];
    TrimStartSkipsRun(w, b);
  }

  /** A name that starts with another character keeps it. */
  lemma SanitizeKeepsFirst(c: char, t: string)
    requires !IsJsSpace(c)
    ensures SanitizeName([c] + t) == [c] + SanitizeName(t)
  {
    assert ([c] + t)[1..] == t;
  }

  /**
   * A whole run of whitespace, however long, becomes a single `_`: the
   * characters before it are kept and the rest is sanitized in turn.
   */
  lemma {:induction false} SpaceRunBecomesUnderscore(a: string, w: string, b: string)
    requires NoSpace(a) && w != [] && AllSpace(w) && (b == [] || !IsJsSpace(b[0]))
    ensures SanitizeName(a + w + b) == a + "_" + SanitizeName(b)
    decreases |a|
  {
    if a == [] {
      assert a + w + b == w + b;
      SanitizeLeadingRun(w, b);
    } else {
      var done := SanitizeName(b);
      ConcatAssoc(a, w, b);
      ConsConcat(a, w + b);
      ConcatAssoc(a[1..], w, b);
      SanitizeKeepsFirst(a[0], a[1..] + w + b);
      SpaceRunBecomesUnderscore(a[1..], w, b);
      ConcatAssoc(a[1..], "_", done);
      ConsConcat(a, "_" + done);
      ConcatAssoc(a, "_", done);
    }
  }

  /** The file-name part of the key: the sanitized name, or `voice-sample` for an empty one. */
  function StoredName(name: string): (r: string)
    ensures r != "" && NoSpace(r)
    ensures name == "" ==> r == "voice-sample"
    ensures name != "" ==> r == SanitizeName(name)
  {
    if name != "" then SanitizeName(name) else "voice-sample"
  }

  const VoicePrefix := "voice-samples/"

  /** `voice-samples/${userId}/${Date.now()}-${sanitizedName}`. */
  function UploadKey(userId: UserId, time: Millis, name: string): (key: string)
    ensures StartsWith(key, VoicePrefix + userId + "/")
    ensures key[|VoicePrefix + userId + "/"|..] == NatToDecimal(time) + "-" + StoredName(name)
  {
    var folder := VoicePrefix + userId + "/";
    assert (folder + (NatToDecimal(time) + "-" + StoredName(name)))[|folder|..] == NatToDecimal(time) + "-" + StoredName(name);
    folder + (NatToDecimal(time) + "-" + StoredName(name))
  }

  /** The timestamp segment of an upload key reads back as the upload time. */
  lemma UploadKeyTimestamp(userId: UserId, time: Millis, name: string)
    ensures var key := UploadKey(userId, time, name);
            var start := |VoicePrefix + userId + "/"|;
            var digits := key[start..start + |NatToDecimal(time)|];
            digits == NatToDecimal(time) && DecimalValue(digits) == time
            && key[start + |NatToDecimal(time)|] == '-'
  {
    DecimalRoundTrip(time);
  }

  /** The R2 configuration read from the environment ("" when unset). */
  datatype StorageEnv = StorageEnv(
    endpoint: string, accessKeyId: string, secretAccessKey: string, bucket: string, publicBase: string)

  predicate StorageConfigured(env: StorageEnv)
  {
    env.endpoint != "" && env.accessKeyId != "" && env.secretAccessKey != "" && env.bucket != ""
    && env.publicBase != ""
  }

  datatype Upload = Upload(key: string, url: string)

  /**
   * `uploadVoiceSample`: `None` when it throws, that is when the storage
   * configuration is incomplete or the PUT fails.
   */
  function UploadVoiceSample(env: StorageEnv, putOk: bool, userId: UserId, file: VoiceFile, time: Millis)
    : (r: Option<Upload>)
    ensures r.Some? <==> StorageConfigured(env) && putOk
    ensures r.Some? ==> r.value.key == UploadKey(userId, time, file.name)
    ensures r.Some? ==> r.value.url == JoinUrl(env.publicBase, r.value.key)
  {
    if !StorageConfigured(env) || !putOk then None
    else
      var key := UploadKey(userId, time, file.name);
      Some(Upload(key, JoinUrl(env.publicBase, key)))
  }

  /** How the voice-clone API answered: an error status or an exception, or a body with an optional `voice_id`. */
  datatype CloneReply = CloneFailed | CloneAccepted(voiceId: Option<string>)

  /** `registerElevenLabsVoice`: never throws; null without an API key or on any failure. */
  function RegisterVoice(apiKey: string, reply: CloneReply): (r: Option<string>)
    ensures apiKey == "" || reply.CloneFailed? ==> r.None?
    ensures r.Some? ==> reply == CloneAccepted(r)
    ensures apiKey != "" && reply.CloneAccepted? ==> r == reply.voiceId
  {
    if apiKey == "" then None
    else match reply
      case CloneFailed => None
      case CloneAccepted(id) => id
  }

  /** The two voice columns, as the handler's `let voiceSampleUrl` / `let voiceProfileId` hold them. */
  datatype Voice = Voice(sampleUrl: Option<string>, profileId: Option<string>)

  /** `existingProfile?.voice_sample_url ?? null`, `existingProfile?.voice_profile_id ?? null`. */
  function ExistingVoice(profiles: map<UserId, Profile>, userId: UserId): (r: Voice)
    ensures userId in profiles ==>
              r == Voice(profiles[userId].voiceSampleUrl, profiles[userId].voiceProfileId)
    ensures userId !in profiles ==> r == Voice(None, None)
  {
    if userId in profiles then Voice(profiles[userId].voiceSampleUrl, profiles[userId].voiceProfileId)
    else Voice(None, None)
  }

  // ------------------------------------------------------ effects of a run

  /** What a store call answered. */
  datatype StoreReply = StoreOk | StoreError(message: string)

  /** The mail configuration read from the environment ("" when unset). */
  datatype MailEnv = MailEnv(apiKey: string, domain: string, fromEmail: string)

  predicate MailConfigured(env: MailEnv)
  {
    env.apiKey != "" && env.domain != "" && env.fromEmail != ""
  }

  /** Everything the handler learns from outside on one request. */
  datatype RequestIo = RequestIo(
    profileFetch: StoreReply,
    storage: StorageEnv, uploadOk: bool, uploadTime: Millis,
    cloneApiKey: string, cloneReply: CloneReply,
    upsert: StoreReply,
    token: Token, now: Millis,
    insert: StoreReply,
    appBaseUrl: string,
    mail: MailEnv, mailAccepted: bool)

  /**
   * The voice columns after the voice step, or `None` when the upload
   * failed (the handler then answers 500). Without a new file the
   * existing values are kept; a clone failure keeps the existing id.
   */
  function ResolveVoice(existing: Voice, sample: FormValue, userId: UserId, io: RequestIo): (r: Option<Voice>)
    ensures !sample.FileValue? ==> r == Some(existing)
    ensures sample.FileValue? ==> (r.None? <==> !(StorageConfigured(io.storage) && io.uploadOk))
    ensures sample.FileValue? && r.Some? ==>
              r.value.sampleUrl == Some(JoinUrl(io.storage.publicBase, UploadKey(userId, io.uploadTime, sample.file.name)))
    ensures r.Some? && !Truthy(RegisterVoice(io.cloneApiKey, io.cloneReply)) ==> r.value.profileId == existing.profileId
    ensures r.Some? && sample.FileValue? && Truthy(RegisterVoice(io.cloneApiKey, io.cloneReply)) ==>
              r.value.profileId == RegisterVoice(io.cloneApiKey, io.cloneReply)
  {
    if !sample.FileValue? then Some(existing)
    else
      match UploadVoiceSample(io.storage, io.uploadOk, userId, sample.file, io.uploadTime)
      case None => None
      case Some(upload) =>
        var created := RegisterVoice(io.cloneApiKey, io.cloneReply);
        Some(Voice(Some(upload.url), if Truthy(created) then created else existing.profileId))
  }

  // -------------------------------------------------------------- writes

  /**
   * The `updates` record of the upsert. A voice column is `None` when the
   * record leaves that key out.
   */
  datatype ProfileUpdate = ProfileUpdate(
    id: UserId, igUsername: string, parentEmail: string, isParentConfirmed: bool,
    voiceSampleUrl: Option<string>, voiceProfileId: Option<string>)

  /** The update always carries the trimmed handle and email with the flag reset; voice columns only when truthy. */
  function ShapeUpdates(userId: UserId, instagramUsername: string, parentEmail: string, voice: Voice): (u: ProfileUpdate)
    ensures u.id == userId && u.igUsername == Trim(instagramUsername) && u.parentEmail == Trim(parentEmail)
    ensures !u.isParentConfirmed
    ensures u.voiceSampleUrl.Some? <==> Truthy(voice.sampleUrl)
    ensures u.voiceProfileId.Some? <==> Truthy(voice.profileId)
    ensures u.voiceSampleUrl.Some? ==> u.voiceSampleUrl == voice.sampleUrl
    ensures u.voiceProfileId.Some? ==> u.voiceProfileId == voice.profileId
  {
    ProfileUpdate(userId, Trim(instagramUsername), Trim(parentEmail), false,
                  if Truthy(voice.sampleUrl) then voice.sampleUrl else None,
                  if Truthy(voice.profileId) then voice.profileId else None)
  }

  /** `upsert(updates)`: insert the row, or overwrite only the columns the record carries. */
  function Upsert(profiles: map<UserId, Profile>, u: ProfileUpdate): (r: map<UserId, Profile>)
    ensures r.Keys == profiles.Keys + {u.id}
    ensures forall id :: id in profiles && id != u.id ==> r[id] == profiles[id]
    ensures r[u.id].igUsername == u.igUsername && r[u.id].parentEmail == u.parentEmail
    ensures r[u.id].isParentConfirmed == u.isParentConfirmed
    ensures u.voiceSampleUrl.Some? ==> r[u.id].voiceSampleUrl == u.voiceSampleUrl
    ensures u.voiceProfileId.Some? ==> r[u.id].voiceProfileId == u.voiceProfileId
    ensures u.voiceSampleUrl.None? ==> r[u.id].voiceSampleUrl == ExistingVoice(profiles, u.id).sampleUrl
    ensures u.voiceProfileId.None? ==> r[u.id].voiceProfileId == ExistingVoice(profiles, u.id).profileId
  {
    var before := ExistingVoice(profiles, u.id);
    profiles[u.id := Profile(
      u.igUsername, u.parentEmail, u.isParentConfirmed,
      if u.voiceSampleUrl.Some? then u.voiceSampleUrl else before.sampleUrl,
      if u.voiceProfileId.Some? then u.voiceProfileId else before.profileId)]
  }

  /** The inserted `parent_confirmations` row: pending, unanswered, expiring three days after `now`. */
  function PendingRecord(userId: UserId, parentEmail: string, now: Millis): (c: Confirmation)
    ensures c.userId == userId && c.parentEmail == Trim(parentEmail)
    ensures c.status == Pending && c.respondedAt.None?
    ensures c.expiresAt.Some? && c.expiresAt.value - now == 259_200_000
  {
    Confirmation(userId, Trim(parentEmail), Pending, Some(now + ConsentWindowMs), None)
  }

  /** `${appBaseUrl.replace(/\/$/, '')}/api/parent-request/confirm?token=${encodeURIComponent(token)}`. */
  function ConfirmationLink(appBaseUrl: string, token: Token): (link: string)
    ensures StartsWith(link, StripTrailingSlash(appBaseUrl) + "/" + ConfirmRoute)
    ensures link[|StripTrailingSlash(appBaseUrl) + "/" + ConfirmRoute|..] == EncodeUriComponent(token)
  {
    JoinUrl(appBaseUrl, ConfirmRoute + EncodeUriComponent(token))
  }

  /** A token made only of unreserved characters, as a UUID is, appears in the link verbatim. */
  lemma LinkCarriesUuidToken(appBaseUrl: string, token: Token)
    requires AllUriUnreserved(token)
    ensures ConfirmationLink(appBaseUrl, token) == StripTrailingSlash(appBaseUrl) + "/" + ConfirmRoute + token
  {
  }

  // ------------------------------------------------------------------ mail

  /** The message the parent receives: sender, recipient, subject, and the link both bodies embed. */
  datatype ParentMessage = ParentMessage(from: string, to: string, subject: string, confirmationLink: string)

  /** `sendParentEmail`: `Some(message)` when delivered; it throws when unconfigured or refused. */
  function SendParentEmail(env: MailEnv, accepted: bool, parentEmail: string, instagramUsername: string,
                           confirmationLink: string): (r: Option<ParentMessage>)
    ensures r.Some? <==> MailConfigured(env) && accepted
    ensures r.Some? ==> r.value.to == parentEmail && r.value.from == env.fromEmail
    ensures r.Some? ==> r.value.subject == "LifeLoop consent request for " + instagramUsername
    ensures r.Some? ==> r.value.confirmationLink == confirmationLink
  {
    if !MailConfigured(env) || !accepted then None
    else Some(ParentMessage(env.fromEmail, parentEmail, "LifeLoop consent request for " + instagramUsername,
                            confirmationLink))
  }

  // --------------------------------------------------------------- handler

  datatype RequestResult = RequestResult(tables: Tables, response: Response, sent: Option<ParentMessage>)

  /** Validation passed, the profile read succeeded and the voice step did not fail: the upsert is issued. */
  predicate UpsertIssued(t: Tables, session: Session, form: Form, io: RequestIo)
  {
    && Validate(session, form).Proceed?
    && io.profileFetch.StoreOk?
    && ResolveVoice(ExistingVoice(t.profiles, session.userId), form.voiceSample, session.userId, io).Some?
  }

  /** The profiles after an accepted upsert. */
  function UpsertedProfiles(t: Tables, session: Session, form: Form, io: RequestIo): map<UserId, Profile>
    requires UpsertIssued(t, session, form, io)
  {
    var voice := ResolveVoice(ExistingVoice(t.profiles, session.userId), form.voiceSample, session.userId, io).value;
    Upsert(t.profiles, ShapeUpdates(session.userId, form.instagramUsername.s, form.parentEmail.s, voice))
  }

  /** The JSON response and the email delivered, if any. */
  datatype Reply = Reply(response: Response, sent: Option<ParentMessage>)

  /**
   * The handler after both writes: check `APP_BASE_URL`, build the link
   * and send the email. Success answers 200 with the voice columns and
   * the expiry, exactly when the email went out.
   */
  function NotifyParent(username: string, email: string, voice: Voice, io: RequestIo): (r: Reply)
    ensures io.appBaseUrl == "" ==> r == Reply(Response(500, ErrorBody("APP_BASE_URL is not configured.")), None)
    ensures io.appBaseUrl != "" ==>
              r.sent == SendParentEmail(io.mail, io.mailAccepted, Trim(email), Trim(username),
                                        ConfirmationLink(io.appBaseUrl, io.token))
    ensures io.appBaseUrl != "" && r.sent.None? ==>
              r.response == Response(500, ErrorBody(EmailFailed))
    ensures r.response.status == 200 <==> r.sent.Some?
    ensures r.response.status == 200 <==> io.appBaseUrl != "" && MailConfigured(io.mail) && io.mailAccepted
    ensures r.response.status != 200 ==> r.response.status == 500 && r.response.body.ErrorBody?
    ensures r.response.status == 200 ==>
              && r.response.body == Recorded(RecordedMessage,
                                             voice.sampleUrl, voice.profileId, io.now + 259_200_000)
              && r.sent.value.to == Trim(email)
              && r.sent.value.subject == "LifeLoop consent request for " + Trim(username)
              && r.sent.value.confirmationLink == ConfirmationLink(io.appBaseUrl, io.token)
  {
    if io.appBaseUrl == "" then Reply(Response(500, ErrorBody("APP_BASE_URL is not configured.")), None)
    else
      var link := ConfirmationLink(io.appBaseUrl, io.token);
      match SendParentEmail(io.mail, io.mailAccepted, Trim(email), Trim(username), link)
      case None => Reply(Response(500, ErrorBody(EmailFailed)), None)
      case Some(message) =>
        Reply(Response(200, Recorded(RecordedMessage,
                                     voice.sampleUrl, voice.profileId, io.now + ConsentWindowMs)),
              Some(message))
  }

  /** What the two writes left: the tables, and the error response when one of them failed. */
  datatype Written = Written(tables: Tables, failure: Option<Response>)

  /**
   * The two writes: upsert the profile, then insert the pending record
   * under the token. The first failure answers 500 with the store's
   * message; an upsert that was accepted stays when the insert fails.
   */
  function Persisted(t: Tables, uid: UserId, username: string, email: string, voice: Voice, io: RequestIo)
    : (w: Written)
    requires io.token !in t.confirmations
    ensures io.upsert.StoreError? ==> w == Written(t, Some(Response(500, ErrorBody(io.upsert.message))))
    ensures io.upsert.StoreOk? ==> w.tables.profiles == Upsert(t.profiles, ShapeUpdates(uid, username, email, voice))
    ensures io.upsert.StoreOk? && io.insert.StoreError? ==>
              w.tables.confirmations == t.confirmations && w.failure == Some(Response(500, ErrorBody(io.insert.message)))
    ensures io.upsert.StoreOk? && io.insert.StoreOk? ==>
              w.tables.confirmations == t.confirmations[io.token := PendingRecord(uid, email, io.now)]
              && w.failure.None?
  {
    if io.upsert.StoreError? then Written(t, Some(Response(500, ErrorBody(io.upsert.message))))
    else
      var upserted := t.(profiles := Upsert(t.profiles, ShapeUpdates(uid, username, email, voice)));
      if io.insert.StoreError? then Written(upserted, Some(Response(500, ErrorBody(io.insert.message))))
      else Written(upserted.(confirmations := t.confirmations[io.token := PendingRecord(uid, email, io.now)]), None)
  }

  /**
   * The handler from the upsert on: the two writes, then the
   * notification. A write that was accepted stays when a later step
   * fails.
   */
  function WriteAndNotify(t: Tables, uid: UserId, username: string, email: string, voice: Voice, io: RequestIo)
    : (r: RequestResult)
    requires io.token !in t.confirmations
    ensures io.upsert.StoreError? ==> r == RequestResult(t, Response(500, ErrorBody(io.upsert.message)), None)
    ensures io.upsert.StoreOk? ==> r.tables.profiles == Upsert(t.profiles, ShapeUpdates(uid, username, email, voice))
    ensures io.upsert.StoreOk? && io.insert.StoreError? ==>
              r.tables.confirmations == t.confirmations && r.response == Response(500, ErrorBody(io.insert.message))
              && r.sent.None?
    ensures io.upsert.StoreOk? && io.insert.StoreOk? ==>
              && r.tables.confirmations == t.confirmations[io.token := PendingRecord(uid, email, io.now)]
              && Reply(r.response, r.sent) == NotifyParent(username, email, voice, io)
  {
    var w := Persisted(t, uid, username, email, voice, io);
    if w.failure.Some? then RequestResult(w.tables, w.failure.value, None)
    else
      var reply := NotifyParent(username, email, voice, io);
      RequestResult(w.tables, reply.response, reply.sent)
  }

  /** The handler: the tables afterwards, the JSON response, and the email delivered, if any. */
  function RequestStep(t: Tables, session: Session, form: Form, io: RequestIo): (r: RequestResult)
    requires io.token !in t.confirmations
    // Validation answers before any read or write.
    ensures Validate(session, form).Reject? ==> r == RequestResult(t, Validate(session, form).response, None)
    // A failed profile read, then a failed upload, answer 500 before any write.
    ensures Validate(session, form).Proceed? && io.profileFetch.StoreError? ==>
              r == RequestResult(t, Response(500, ErrorBody(io.profileFetch.message)), None)
    ensures Validate(session, form).Proceed? && io.profileFetch.StoreOk? && form.voiceSample.FileValue?
            && !(StorageConfigured(io.storage) && io.uploadOk) ==>
              r == RequestResult(t, Response(500, ErrorBody("Voice sample upload failed.")), None)
    // Nothing is written before the upsert is issued, nor when it fails.
    ensures !UpsertIssued(t, session, form, io) ==> r.tables == t && r.sent.None? && r.response.status != 200
    ensures UpsertIssued(t, session, form, io) ==>
              r == WriteAndNotify(t, session.userId, form.instagramUsername.s, form.parentEmail.s,
                                  ResolveVoice(ExistingVoice(t.profiles, session.userId), form.voiceSample,
                                               session.userId, io).value, io)
    ensures r.response.status == 200 <==> r.sent.Some?
    ensures r.response.status != 200 ==> r.response.body.ErrorBody? && r.response.status in {400, 401, 500}
  {
    match Validate(session, form)
    case Reject(response) => RequestResult(t, response, None)
    case Proceed(uid, username, email) =>
      if io.profileFetch.StoreError? then RequestResult(t, Response(500, ErrorBody(io.profileFetch.message)), None)
      else
        match ResolveVoice(ExistingVoice(t.profiles, uid), form.voiceSample, uid, io)
        case None => RequestResult(t, Response(500, ErrorBody("Voice sample upload failed.")), None)
        case Some(voice) => WriteAndNotify(t, uid, username, email, voice, io)
  }

  /**
   * Every store change a request makes: none before the upsert is
   * accepted; the upsert stays whatever fails later; and the new pending
   * record is the only change to the confirmations.
   */
  lemma RequestWrites(t: Tables, session: Session, form: Form, io: RequestIo)
    requires io.token !in t.confirmations
    ensures var r := RequestStep(t, session, form, io);
            && (UpsertIssued(t, session, form, io) && io.upsert.StoreOk? ==>
                  r.tables.profiles == UpsertedProfiles(t, session, form, io))
            && (r.tables.confirmations != t.confirmations ==>
                  && UpsertIssued(t, session, form, io) && io.upsert.StoreOk? && io.insert.StoreOk?
                  && r.tables.confirmations
                     == t.confirmations[io.token := PendingRecord(session.userId, form.parentEmail.s, io.now)])
            && (r.tables.profiles != t.profiles ==> UpsertIssued(t, session, form, io) && io.upsert.StoreOk?)
  {
  }

  /** A request only adds a record: every earlier record is still there, unchanged. */
  lemma RequestKeepsRecords(t: Tables, session: Session, form: Form, io: RequestIo)
    requires io.token !in t.confirmations
    ensures var after := RequestStep(t, session, form, io).tables.confirmations;
            forall tok :: tok in t.confirmations ==> tok in after && after[tok] == t.confirmations[tok]
  {
    RequestWrites(t, session, form, io);
  }

  /** The writes from the upsert on keep every confirmation attached to an existing profile. */
  lemma WriteAndNotifyKeepsValid(t: Tables, uid: UserId, username: string, email: string, voice: Voice,
                                 io: RequestIo)
    requires io.token !in t.confirmations && Valid(t)
    ensures Valid(WriteAndNotify(t, uid, username, email, voice, io).tables)
  {
    var r := WriteAndNotify(t, uid, username, email, voice, io);
    if io.upsert.StoreOk? {
      assert r.tables.profiles.Keys == t.profiles.Keys + {uid};
      forall tok | tok in r.tables.confirmations
        ensures r.tables.confirmations[tok].userId in r.tables.profiles
        ensures r.tables.confirmations[tok].status == Confirmed <==> r.tables.confirmations[tok].respondedAt.Some?
      {
        if tok != io.token {
          assert r.tables.confirmations[tok] == t.confirmations[tok];
        }
      }
    }
  }

  /** A request keeps the tables `Valid`. */
  lemma RequestKeepsValid(t: Tables, session: Session, form: Form, io: RequestIo)
    requires io.token !in t.confirmations && Valid(t)
    ensures Valid(RequestStep(t, session, form, io).tables)
  {
    if UpsertIssued(t, session, form, io) {
      var voice := ResolveVoice(ExistingVoice(t.profiles, session.userId), form.voiceSample, session.userId, io).value;
      WriteAndNotifyKeepsValid(t, session.userId, form.instagramUsername.s, form.parentEmail.s, voice, io);
    }
  }

  /**
   * A request answers 200 exactly when both writes were accepted and the
   * parent's email went out, carrying a link to the new pending record
   * that expires three days later.
   */
  lemma RequestSuccess(t: Tables, session: Session, form: Form, io: RequestIo)
    requires io.token !in t.confirmations
    ensures var r := RequestStep(t, session, form, io);
            && (r.response.status == 200 <==>
                  UpsertIssued(t, session, form, io) && io.upsert.StoreOk? && io.insert.StoreOk?
                  && io.appBaseUrl != "" && MailConfigured(io.mail) && io.mailAccepted)
            && (r.response.status == 200 ==>
                  && r.response.body.confirmationExpiresAt == io.now + 259_200_000
                  && r.sent.value.to == Trim(form.parentEmail.s)
                  && r.sent.value.confirmationLink == ConfirmationLink(io.appBaseUrl, io.token)
                  && io.token in r.tables.confirmations
                  && r.tables.confirmations[io.token].status == Pending
                  && r.tables.confirmations[io.token].expiresAt == Some(io.now + 259_200_000))
  {
  }

  /**
   * Without a new voice file the stored voice columns are carried over
   * unchanged by a successful upsert.
   */
  lemma VoiceCarriedOver(t: Tables, session: Session, form: Form, io: RequestIo)
    requires io.token !in t.confirmations
    requires !form.voiceSample.FileValue?
    requires UpsertIssued(t, session, form, io) && io.upsert.StoreOk?
    ensures var after := RequestStep(t, session, form, io).tables.profiles[session.userId];
            Voice(after.voiceSampleUrl, after.voiceProfileId) == ExistingVoice(t.profiles, session.userId)
  {
  }

  /**
   * The upsert resets the parent flag even for a student whose parent had
   * already confirmed, and stores the trimmed handle, which is empty for
   * a handle made only of whitespace.
   */
  lemma UpsertResetsConsent(t: Tables, session: Session, form: Form, io: RequestIo)
    requires io.token !in t.confirmations
    requires UpsertIssued(t, session, form, io) && io.upsert.StoreOk?
    ensures var after := RequestStep(t, session, form, io).tables.profiles[session.userId];
            && !after.isParentConfirmed
            && after.igUsername == Trim(form.instagramUsername.s)
            && (AllSpace(form.instagramUsername.s) ==> after.igUsername == "")
  {
  }
}
