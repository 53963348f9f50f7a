/**
 * Properties of the consent workflow that span both handlers: a request
 * followed by the parent's click, a click after the link expired, a
 * record write that fails half-way, and what a second request does to the
 * records and links of the first one.
 */
module ConsentProperties {
  import opened Wrappers
  import opened Strings
  import opened ConsentTables
  import opened ParentConfirm
  import opened ParentRequest

  /** Every store call of a confirmation succeeds. */
  const AllOk := ConfirmIo(true, true, true)

  /**
   * A request that answered 200, followed by a click on its link before
   * the record expires (with every store call succeeding), confirms the
   * parent: the profile flag is raised and the record is confirmed at the
   * time of the click.
   */
  lemma RequestThenConfirm(t: Tables, uid: UserId, form: Form, io: RequestIo, clickedAt: Millis)
    requires io.token !in t.confirmations && io.token != ""
    requires RequestStep(t, SignedIn(uid), form, io).response.status == 200
    requires clickedAt <= io.now + ConsentWindowMs
    ensures var requested := RequestStep(t, SignedIn(uid), form, io).tables;
            var confirmed := ConfirmStep(requested, Some(io.token), clickedAt, AllOk);
            && confirmed.outcome == NewlyConfirmed
            && PageFor(confirmed.outcome).status == 200
            && uid in confirmed.tables.profiles && confirmed.tables.profiles[uid].isParentConfirmed
            && io.token in confirmed.tables.confirmations
            && confirmed.tables.confirmations[io.token].status == Confirmed
            && confirmed.tables.confirmations[io.token].respondedAt == Some(clickedAt)
  {
    var session := SignedIn(uid);
    RequestSuccess(t, session, form, io);
    RequestWrites(t, session, form, io);
    var requested := RequestStep(t, session, form, io).tables;
    assert requested.confirmations[io.token] == PendingRecord(uid, form.parentEmail.s, io.now);
    assert uid in requested.profiles;
  }

  /**
   * A click after the three-day window (the expiry instant itself still
   * counts as valid) shows the expired page and changes nothing.
   */
  lemma RequestThenLateClick(t: Tables, uid: UserId, form: Form, io: RequestIo, clickedAt: Millis, cio: ConfirmIo)
    requires io.token !in t.confirmations && io.token != ""
    requires RequestStep(t, SignedIn(uid), form, io).response.status == 200
    requires clickedAt > io.now + ConsentWindowMs && cio.lookupOk
    ensures var requested := RequestStep(t, SignedIn(uid), form, io).tables;
            var late := ConfirmStep(requested, Some(io.token), clickedAt, cio);
            late.outcome == LinkExpired && late.tables == requested && PageFor(late.outcome).status == 400
  {
    RequestSuccess(t, SignedIn(uid), form, io);
    RequestWrites(t, SignedIn(uid), form, io);
  }

  /**
   * The two writes of a confirmation are not atomic: when the record
   * write fails, the parent sees a failure page while the profile is
   * already flagged as confirmed and the record is still pending.
   */
  lemma ConfirmNotAtomic(t: Tables, tok: Token, now: Millis)
    requires tok != "" && tok in t.confirmations && t.confirmations[tok].userId in t.profiles
    requires t.confirmations[tok].status == Pending && !IsExpired(t.confirmations[tok], now)
    ensures var r := ConfirmStep(t, Some(tok), now, ConfirmIo(true, true, false));
            var uid := t.confirmations[tok].userId;
            && r.outcome == RecordWriteError && PageFor(r.outcome).status == 400
            && r.tables.profiles[uid].isParentConfirmed
            && r.tables.confirmations[tok].status == Pending
  {
  }

  /**
   * A second request does not retire the first one's link: a pending,
   * unexpired record from before still confirms afterwards and raises
   * the flag, although it was addressed to the earlier parent email and
   * the new parent has not answered.
   */
  lemma StaleTokenStillConfirms(t: Tables, oldToken: Token, uid: UserId, form: Form, io: RequestIo, clickedAt: Millis)
    requires oldToken != "" && oldToken in t.confirmations
    requires t.confirmations[oldToken].userId == uid
    requires t.confirmations[oldToken].status == Pending && !IsExpired(t.confirmations[oldToken], clickedAt)
    requires io.token !in t.confirmations
    requires RequestStep(t, SignedIn(uid), form, io).response.status == 200
    ensures var requested := RequestStep(t, SignedIn(uid), form, io).tables;
            var confirmed := ConfirmStep(requested, Some(oldToken), clickedAt, AllOk);
            && !requested.profiles[uid].isParentConfirmed
            && requested.confirmations[oldToken] == t.confirmations[oldToken]
            && confirmed.outcome == NewlyConfirmed
            && confirmed.tables.profiles[uid].isParentConfirmed
  {
    RequestSuccess(t, SignedIn(uid), form, io);
    RequestWrites(t, SignedIn(uid), form, io);
    var requested := RequestStep(t, SignedIn(uid), form, io).tables;
    assert oldToken != io.token;
    assert requested.confirmations[oldToken] == t.confirmations[oldToken];
    assert uid in requested.profiles;
  }

  /**
   * A new request resets the parent flag, yet the old, already confirmed
   * link still answers with the success page: the parent is told the
   * dashboard is ready while the profile is not confirmed.
   */
  lemma StaleReplayClaimsSuccess(t: Tables, oldToken: Token, uid: UserId, form: Form, io: RequestIo,
                                 clickedAt: Millis, cio: ConfirmIo)
    requires oldToken != "" && oldToken in t.confirmations
    requires t.confirmations[oldToken].userId == uid && t.confirmations[oldToken].status == Confirmed
    requires io.token !in t.confirmations
    requires UpsertIssued(t, SignedIn(uid), form, io) && io.upsert.StoreOk?
    requires cio.lookupOk
    ensures var requested := RequestStep(t, SignedIn(uid), form, io).tables;
            var replay := ConfirmStep(requested, Some(oldToken), clickedAt, cio);
            && uid in requested.profiles && !requested.profiles[uid].isParentConfirmed
            && replay.outcome == AlreadyConfirmed && PageFor(replay.outcome).status == 200
            && replay.tables == requested
  {
    RequestKeepsRecords(t, SignedIn(uid), form, io);
    UpsertResetsConsent(t, SignedIn(uid), form, io);
    RequestWrites(t, SignedIn(uid), form, io);
    var requested := RequestStep(t, SignedIn(uid), form, io).tables;
    ConfirmedLinkReplays(requested, oldToken, clickedAt, cio);
  }
}
