/**
 * The two tables as mutable state, and the two route handlers as methods
 * that update them in place step by step, with early returns, in the
 * order the handlers issue their reads and writes. Each method is proved
 * to leave the tables, and to answer, exactly as the specification
 * functions `RequestStep` and `ConfirmStep` say.
 */
module ConsentStore {
  import opened Wrappers
  import opened Strings
  import opened ConsentTables
  import opened ParentConfirm
  import opened ParentRequest

  class Store {
    /** `user_profiles`, keyed by account id. */
    var profiles: map<UserId, Profile>
    /** `parent_confirmations`, keyed by token. */
    var confirmations: map<Token, Confirmation>

    /** The current contents of both tables, as a value. */
    function Snapshot(): Tables
      reads this
    {
      Tables(profiles, confirmations)
    }

    /** Every record belongs to a profile and carries a response time exactly when confirmed. */
    predicate Valid()
      reads this
    {
      ConsentTables.Valid(Snapshot())
    }

    constructor ()
      ensures profiles == map[] && confirmations == map[]
      ensures Valid()
    {
      profiles := map[];
      confirmations := map[];
    }

    /**
     * `POST /api/parent-request`. The token is fresh: no record holds it
     * yet. The outcome of every outside call is in `io`.
     */
    method RequestConsent(session: Session, form: Form, io: RequestIo) returns (response: Response, sent: Option<ParentMessage>)
      requires io.token !in confirmations
      modifies this
      ensures RequestResult(Snapshot(), response, sent) == RequestStep(old(Snapshot()), session, form, io)
      ensures old(Valid()) ==> Valid()
      ensures response.status == 200 <==> sent.Some?
    {
      ghost var before := Snapshot();
      if Valid() {
        RequestKeepsValid(before, session, form, io);
      }
      var validation := Validate(session, form);
      if validation.Reject? {
        assert RequestStep(before, session, form, io) == RequestResult(Snapshot(), validation.response, None);
        return validation.response, None;
      }
      var userId, instagramUsername, parentEmail := validation.userId, validation.instagramUsername, validation.parentEmail;

      assert before == Snapshot();
      if io.profileFetch.StoreError? {
        assert RequestStep(before, session, form, io) == RequestResult(Snapshot(), Response(500, ErrorBody(io.profileFetch.message)), None);
        return Response(500, ErrorBody(io.profileFetch.message)), None;
      }
      var existing := ExistingVoice(profiles, userId);
      var voiceSampleUrl := existing.sampleUrl;
      var voiceProfileId := existing.profileId;

      if form.voiceSample.FileValue? {
        var upload := UploadVoiceSample(io.storage, io.uploadOk, userId, form.voiceSample.file, io.uploadTime);
        if upload.None? {
          assert ResolveVoice(existing, form.voiceSample, userId, io).None?;
          assert RequestStep(before, session, form, io) == RequestResult(Snapshot(), Response(500, ErrorBody("Voice sample upload failed.")), None);
          return Response(500, ErrorBody("Voice sample upload failed.")), None;
        }
        voiceSampleUrl := Some(upload.value.url);
        var createdVoiceId := RegisterVoice(io.cloneApiKey, io.cloneReply);
        if Truthy(createdVoiceId) {
          voiceProfileId := createdVoiceId;
        }
      }

      if form.voiceSample.FileValue? {
        assert ResolveVoice(existing, form.voiceSample, userId, io) == Some(Voice(voiceSampleUrl, voiceProfileId));
      }
      response, sent := PersistAndNotify(userId, instagramUsername, parentEmail, voiceSampleUrl, voiceProfileId, io);
    }

    /**
     * The second half of `POST`: the two writes, then the link and the
     * email, stopping at the first failure.
     */
    method PersistAndNotify(userId: UserId, instagramUsername: string, parentEmail: string,
                                 voiceSampleUrl: Option<string>, voiceProfileId: Option<string>, io: RequestIo)
      returns (response: Response, sent: Option<ParentMessage>)
      requires io.token !in confirmations
      modifies this
      ensures RequestResult(Snapshot(), response, sent)
              == WriteAndNotify(old(Snapshot()), userId, instagramUsername, parentEmail,
                                Voice(voiceSampleUrl, voiceProfileId), io)
    {
      var failure := Persist(userId, instagramUsername, parentEmail, Voice(voiceSampleUrl, voiceProfileId), io);
      if failure.Some? {
        return failure.value, None;
      }
      var reply := NotifyParent(instagramUsername, parentEmail, Voice(voiceSampleUrl, voiceProfileId), io);
      response, sent := reply.response, reply.sent;
    }

    /** The two writes of `POST`, in place, stopping at the first failure. */
    method Persist(userId: UserId, instagramUsername: string, parentEmail: string, voice: Voice, io: RequestIo)
      returns (failure: Option<Response>)
      requires io.token !in confirmations
      modifies this
      ensures Written(Snapshot(), failure)
              == Persisted(old(Snapshot()), userId, instagramUsername, parentEmail, voice, io)
    {
      var updates := BuildUpdates(userId, instagramUsername, parentEmail, voice.sampleUrl, voice.profileId);
      if io.upsert.StoreError? {
        return Some(Response(500, ErrorBody(io.upsert.message)));
      }
      profiles := Upsert(profiles, updates);
      if io.insert.StoreError? {
        return Some(Response(500, ErrorBody(io.insert.message)));
      }
      confirmations := confirmations[io.token := PendingRecord(userId, parentEmail, io.now)];
      failure := None;
    }

    /** The `updates` record: the voice columns are set only when they have a value. */
    static method BuildUpdates(userId: UserId, instagramUsername: string, parentEmail: string,
                               voiceSampleUrl: Option<string>, voiceProfileId: Option<string>)
      returns (updates: ProfileUpdate)
      ensures updates == ShapeUpdates(userId, instagramUsername, parentEmail, Voice(voiceSampleUrl, voiceProfileId))
    {
      updates := ProfileUpdate(userId, Trim(instagramUsername), Trim(parentEmail), false, None, None);
      if Truthy(voiceSampleUrl) {
        updates := updates.(voiceSampleUrl := voiceSampleUrl);
      }
      if Truthy(voiceProfileId) {
        updates := updates.(voiceProfileId := voiceProfileId);
      }
    }

    /** `GET /api/parent-request/confirm?token=...`: the status card it answers with. */
    method Confirm(token: Option<string>, now: Millis, io: ConfirmIo) returns (page: Page)
      modifies this
      ensures Snapshot() == ConfirmStep(old(Snapshot()), token, now, io).tables
      ensures page == PageFor(ConfirmStep(old(Snapshot()), token, now, io).outcome)
      ensures old(Valid()) ==> Valid()
    {
      ConfirmKeepsValid(Snapshot(), token, now, io);
      if !Truthy(token) {
        return RenderHtml(Message(MissingToken), false);
      }
      if !io.lookupOk {
        return RenderHtml(Message(LookupError), false);
      }
      if token.value !in confirmations {
        return RenderHtml(Message(UnknownToken), false);
      }
      var record := confirmations[token.value];

      if record.status == Confirmed {
        return RenderHtml(Message(AlreadyConfirmed), true);
      }
      if record.expiresAt.Some? && record.expiresAt.value < now {
        return RenderHtml(Message(LinkExpired), false);
      }

      if !io.profileWriteOk {
        return RenderHtml(Message(ProfileWriteError), false);
      }
      if record.userId in profiles {
        profiles := profiles[record.userId := profiles[record.userId].(isParentConfirmed := true)];
      }

      if !io.recordWriteOk {
        return RenderHtml(Message(RecordWriteError), false);
      }
      confirmations := confirmations[token.value := record.(status := Confirmed, respondedAt := Some(now))];

      return RenderHtml(Message(NewlyConfirmed), true);
    }
  }
}
