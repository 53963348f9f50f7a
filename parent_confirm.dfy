/**
 * The public confirmation endpoint the parent reaches from the emailed
 * link (`GET /api/parent-request/confirm?token=...`): a lookup by token,
 * then one of five terminal paths, the last of which performs two
 * separate writes. The endpoint always answers with an HTML status card.
 */
module ParentConfirm {
  import opened Wrappers
  import opened Strings
  import opened ConsentTables

  /** The rendered status card: HTTP status, heading, heading colour and message. */
  datatype Page = Page(status: int, heading: string, headingColor: string, message: string)

  const SuccessHeading := "Consent confirmed!"
  const FailureHeading := "We hit a snag"
  const SuccessColor := "#16a34a"
  const FailureColor := "#dc2626"

  /** `renderHtml(message, success)`. */
  function RenderHtml(message: string, success: bool): (p: Page)
    ensures p.status == 200 <==> success
    ensures p.status == 400 <==> !success
    ensures p.heading == SuccessHeading <==> success
    ensures p.headingColor == SuccessColor <==> success
    ensures !success ==> p.heading == FailureHeading && p.headingColor == FailureColor
    ensures p.message == message
  {
    if success then Page(200, SuccessHeading, SuccessColor, message)
    else Page(400, FailureHeading, FailureColor, message)
  }

  /** The terminal path one request takes. */
  datatype Outcome =
    | MissingToken
    | LookupError
    | UnknownToken
    | AlreadyConfirmed
    | LinkExpired
    | ProfileWriteError
    | RecordWriteError
    | NewlyConfirmed
  {
    /** The paths that answer with the success card. */
    predicate Succeeded()
    {
      this == AlreadyConfirmed || this == NewlyConfirmed
    }

    /** The paths on which the profile write was issued and accepted. */
    predicate WroteProfile()
    {
      this == RecordWriteError || this == NewlyConfirmed
    }
  }

  /**
   * The message shown for each path. Long literals are written as
   * concatenations of short pieces throughout the model: the verifier
   * handles a chain of short literals much more cheaply than one long one.
   */
  function Message(o: Outcome): (m: string)
    ensures |m| > 0
  {
    match o
    case MissingToken =>
      "Missing confirmation " + "token. Please use the link " + "provided in your email."
    case LookupError =>
      "Something went wrong on " + "our side. Please reach out " + "to the LifeLoop team."
    case UnknownToken =>
      "We could not find this " + "confirmation request. It " + "may have already been " + "completed."
    case AlreadyConfirmed =>
      "Thanks again! You have " + "already confirmed and the " + "family dashboard is ready " + "to sync memories."
    case LinkExpired =>
      "This confirmation link has " + "expired. Ask your student " + "to resend the LifeLoop " + "request."
    case ProfileWriteError =>
      "We could not mark this " + "confirmation. Please try " + "again later."
    case RecordWriteError =>
      "We could not finalise this " + "confirmation. Please try " + "again later."
    case NewlyConfirmed =>
      "Thanks for confirming! We " + "will start building " + "narrated Instagram " + "highlights so your family " + "can stay connected."
  }

  /** No two paths share a message, so the page alone tells the path apart. */
  lemma MessagesDistinct(o1: Outcome, o2: Outcome)
    requires o1 != o2
    ensures Message(o1) != Message(o2)
  {
    MessageLength(o1);
    MessageLength(o2);
  }

  /** The eight messages already differ in length. */
  function ExpectedLength(o: Outcome): nat
  {
    match o
    case MissingToken => 71
    case LookupError => 72
    case UnknownToken => 80
    case AlreadyConfirmed => 92
    case LinkExpired => 84
    case ProfileWriteError => 60
    case RecordWriteError => 64
    case NewlyConfirmed => 110
  }

  lemma MessageLength(o: Outcome)
    ensures |Message(o)| == ExpectedLength(o)
  {
  }

  /** The page the handler returns for a path: 200 exactly on the two success paths. */
  function PageFor(o: Outcome): (p: Page)
    ensures p.status == 200 <==> o.Succeeded()
    ensures p.status == 400 <==> !o.Succeeded()
    ensures p.message == Message(o)
  {
    RenderHtml(Message(o), o.Succeeded())
  }

  /** Whether each store call of the request succeeded (a lookup error, a rejected write). */
  datatype ConfirmIo = ConfirmIo(lookupOk: bool, profileWriteOk: bool, recordWriteOk: bool)

  datatype ConfirmResult = ConfirmResult(tables: Tables, outcome: Outcome)

  /** `expiresAt && expiresAt.getTime() < Date.now()`: a null expiry never expires. */
  predicate IsExpired(rec: Confirmation, now: Millis)
  {
    rec.expiresAt.Some? && rec.expiresAt.value < now
  }

  /** The request carries a token and the lookup found its record. */
  predicate Found(t: Tables, token: Option<string>, io: ConfirmIo)
  {
    Truthy(token) && io.lookupOk && token.value in t.confirmations
  }

  /** The record may still be confirmed: found, pending and not expired. */
  predicate Confirmable(t: Tables, token: Option<string>, now: Millis, io: ConfirmIo)
  {
    Found(t, token, io)
    && t.confirmations[token.value].status == Pending
    && !IsExpired(t.confirmations[token.value], now)
  }

  /** The state machine of `GET`: the path taken and the tables afterwards. */
  function ConfirmStep(t: Tables, token: Option<string>, now: Millis, io: ConfirmIo): (r: ConfirmResult)
    ensures r.outcome == MissingToken <==> !Truthy(token)
    ensures r.outcome == LookupError <==> Truthy(token) && !io.lookupOk
    ensures r.outcome == UnknownToken <==> Truthy(token) && io.lookupOk && token.value !in t.confirmations
    ensures r.outcome == AlreadyConfirmed <==> Found(t, token, io) && t.confirmations[token.value].status == Confirmed
    ensures r.outcome == LinkExpired <==>
              Found(t, token, io) && t.confirmations[token.value].status == Pending && IsExpired(t.confirmations[token.value], now)
    ensures r.outcome == ProfileWriteError <==> Confirmable(t, token, now, io) && !io.profileWriteOk
    ensures r.outcome.WroteProfile() <==> Confirmable(t, token, now, io) && io.profileWriteOk
    ensures r.outcome == NewlyConfirmed <==> Confirmable(t, token, now, io) && io.profileWriteOk && io.recordWriteOk
    ensures r.outcome.Succeeded() ==>
              Found(t, token, io) && token.value in r.tables.confirmations
              && r.tables.confirmations[token.value].status == Confirmed
    ensures !r.outcome.WroteProfile() ==> r.tables == t
    ensures r.outcome == RecordWriteError ==>
              Found(t, token, io)
              && r.tables == Tables(SetParentConfirmed(t.profiles, t.confirmations[token.value].userId), t.confirmations)
    ensures r.outcome == NewlyConfirmed ==>
              Found(t, token, io)
              && r.tables == Tables(SetParentConfirmed(t.profiles, t.confirmations[token.value].userId),
                                    MarkConfirmed(t.confirmations, token.value, now))
  {
    if !Truthy(token) then ConfirmResult(t, MissingToken)
    else if !io.lookupOk then ConfirmResult(t, LookupError)
    else if token.value !in t.confirmations then ConfirmResult(t, UnknownToken)
    else
      var tok := token.value;
      var rec := t.confirmations[tok];
      if rec.status == Confirmed then ConfirmResult(t, AlreadyConfirmed)
      else if IsExpired(rec, now) then
        assert rec.status == Pending;
        ConfirmResult(t, LinkExpired)
      else if !io.profileWriteOk then ConfirmResult(t, ProfileWriteError)
      else
        var flagged := t.(profiles := SetParentConfirmed(t.profiles, rec.userId));
        if !io.recordWriteOk then ConfirmResult(flagged, RecordWriteError)
        else ConfirmResult(flagged.(confirmations := MarkConfirmed(t.confirmations, tok, now)), NewlyConfirmed)
  }

  /**
   * A visit never takes a confirmation back, and keeps every record
   * attached to a profile with a response time exactly when confirmed.
   */
  lemma ConfirmKeepsValid(t: Tables, token: Option<string>, now: Millis, io: ConfirmIo)
    ensures NoRevocation(t, ConfirmStep(t, token, now, io).tables)
    ensures Valid(t) ==> Valid(ConfirmStep(t, token, now, io).tables)
  {
  }

  /**
   * On valid tables the profile update always matches the owner's row:
   * once a visit has issued it, the owner's parent flag is raised. On
   * tables with an orphaned record the same update would match nothing.
   */
  lemma ConfirmRaisesFlag(t: Tables, tok: Token, now: Millis, io: ConfirmIo)
    requires Valid(t)
    ensures var r := ConfirmStep(t, Some(tok), now, io);
            r.outcome.WroteProfile() ==>
              && tok in t.confirmations
              && t.confirmations[tok].userId in r.tables.profiles
              && r.tables.profiles[t.confirmations[tok].userId].isParentConfirmed
  {
  }

  /** A confirmed record's link answers the success page again and writes nothing. */
  lemma ConfirmedLinkReplays(t: Tables, tok: Token, now: Millis, io: ConfirmIo)
    requires tok != "" && tok in t.confirmations && t.confirmations[tok].status == Confirmed
    requires io.lookupOk
    ensures var r := ConfirmStep(t, Some(tok), now, io);
            r.outcome == AlreadyConfirmed && PageFor(r.outcome).status == 200 && r.tables == t
  {
  }

  /** One later visit of the same link: when it happens and how the store answers. */
  datatype Visit = Visit(now: Millis, io: ConfirmIo)

  datatype ReplayResult = ReplayResult(tables: Tables, outcomes: seq<Outcome>)

  /** The same link followed once per visit, in order. */
  function Replay(t: Tables, tok: Token, visits: seq<Visit>): (r: ReplayResult)
    ensures |r.outcomes| == |visits|
    decreases |visits|
  {
    if visits == [] then ReplayResult(t, [])
    else
      var first := ConfirmStep(t, Some(tok), visits[0].now, visits[0].io);
      var rest := Replay(first.tables, tok, visits[1..]);
      ReplayResult(rest.tables, [first.outcome] + rest.outcomes)
  }

  /**
   * Once a record is confirmed, following its link again any number of
   * times (a mail client or prefetcher re-fetching it) succeeds every
   * time the lookup works and never writes: `responded_at` keeps its
   * first value.
   */
  lemma {:induction false} ReplayAfterConfirmation(t: Tables, tok: Token, visits: seq<Visit>)
    requires tok != "" && tok in t.confirmations && t.confirmations[tok].status == Confirmed
    ensures Replay(t, tok, visits).tables == t
    ensures forall i :: 0 <= i < |visits| ==>
              Replay(t, tok, visits).outcomes[i] == (if visits[i].io.lookupOk then AlreadyConfirmed else LookupError)
    decreases |visits|
  {
    if visits != [] {
      ReplayAfterConfirmation(t, tok, visits[1..]);
      var rest := Replay(t, tok, visits[1..]);
      var first := ConfirmStep(t, Some(tok), visits[0].now, visits[0].io);
      assert first.tables == t;
      forall i | 0 <= i < |visits|
        ensures Replay(t, tok, visits).outcomes[i] == (if visits[i].io.lookupOk then AlreadyConfirmed else LookupError)
      {
        if i > 0 {
          assert Replay(t, tok, visits).outcomes[i] == rest.outcomes[i - 1];
          assert visits[1..][i - 1] == visits[i];
        }
      }
    }
  }

  /** Confirming twice in a row succeeds twice; the second visit writes nothing. */
  lemma ConfirmTwice(t: Tables, tok: Token, now1: Millis, io1: ConfirmIo, now2: Millis, io2: ConfirmIo)
    requires ConfirmStep(t, Some(tok), now1, io1).outcome.Succeeded()
    requires io2.lookupOk
    ensures var first := ConfirmStep(t, Some(tok), now1, io1);
            var second := ConfirmStep(first.tables, Some(tok), now2, io2);
            second.outcome == AlreadyConfirmed && second.tables == first.tables
  {
  }

  /**
   * The two writes are not atomic, but the handler tolerates re-entry:
   * after the record write failed (profile already flagged, record still
   * pending), a later visit before expiry with both writes accepted
   * completes the transition.
   */
  lemma RetryAfterRecordWriteError(t: Tables, tok: Token, now1: Millis, io1: ConfirmIo, now2: Millis)
    requires ConfirmStep(t, Some(tok), now1, io1).outcome == RecordWriteError
    requires !IsExpired(t.confirmations[tok], now2)
    ensures var first := ConfirmStep(t, Some(tok), now1, io1);
            var second := ConfirmStep(first.tables, Some(tok), now2, ConfirmIo(true, true, true));
            && first.tables.confirmations == t.confirmations
            && second.outcome == NewlyConfirmed
            && second.tables.profiles == first.tables.profiles
            && second.tables.confirmations == MarkConfirmed(t.confirmations, tok, now2)
  {
    var first := ConfirmStep(t, Some(tok), now1, io1);
    var uid := t.confirmations[tok].userId;
    assert SetParentConfirmed(first.tables.profiles, uid) == first.tables.profiles;
  }
}
