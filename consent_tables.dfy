/**
 * The two tables the parent-consent workflow reads and writes:
 * `user_profiles`, keyed by the account id, and `parent_confirmations`,
 * keyed here by its unique token.
 */
module ConsentTables {
  import opened Wrappers

  type UserId = string
  type Token = string

  /** Milliseconds since the Unix epoch, as `Date.now()` returns them. */
  type Millis = nat

  /** A row of `user_profiles` (the columns these flows touch). */
  datatype Profile = Profile(
    igUsername: string,
    parentEmail: string,
    isParentConfirmed: bool,
    voiceSampleUrl: Option<string>,
    voiceProfileId: Option<string>)

  datatype Status = Pending | Confirmed

  /** A row of `parent_confirmations`. A null `expires_at` is `None`. */
  datatype Confirmation = Confirmation(
    userId: UserId,
    parentEmail: string,
    status: Status,
    expiresAt: Option<Millis>,
    respondedAt: Option<Millis>)

  datatype Tables = Tables(profiles: map<UserId, Profile>, confirmations: map<Token, Confirmation>)

  /**
   * What the two handlers keep true of the tables: every confirmation
   * belongs to an existing profile, and a record carries a response time
   * exactly when it is confirmed.
   */
  predicate Valid(t: Tables)
  {
    && (forall tok :: tok in t.confirmations ==> t.confirmations[tok].userId in t.profiles)
    && (forall tok :: tok in t.confirmations ==>
          (t.confirmations[tok].status == Confirmed <==> t.confirmations[tok].respondedAt.Some?))
  }

  /**
   * Nothing is revoked from `t` to `t'`: no row disappears, a confirmed
   * record stays confirmed with its first response time, and a raised
   * parent flag stays raised.
   */
  predicate NoRevocation(t: Tables, t': Tables)
  {
    && t.profiles.Keys <= t'.profiles.Keys
    && t.confirmations.Keys <= t'.confirmations.Keys
    && (forall tok :: tok in t.confirmations && t.confirmations[tok].status == Confirmed ==>
          tok in t'.confirmations && t'.confirmations[tok] == t.confirmations[tok])
    && (forall u :: u in t.profiles && t.profiles[u].isParentConfirmed ==>
          u in t'.profiles && t'.profiles[u].isParentConfirmed)
  }

  /**
   * `update user_profiles set is_parent_confirmed = true where id = uid`.
   * An update that matches no row is not an error and changes nothing.
   */
  function SetParentConfirmed(profiles: map<UserId, Profile>, uid: UserId): (r: map<UserId, Profile>)
    ensures r.Keys == profiles.Keys
    ensures uid in r ==> r[uid].isParentConfirmed
    ensures uid in r ==> r[uid].(isParentConfirmed := false) == profiles[uid].(isParentConfirmed := false)
    ensures forall u :: u in r && u != uid ==> r[u] == profiles[u]
  {
    if uid in profiles then profiles[uid := profiles[uid].(isParentConfirmed := true)] else profiles
  }

  /** `update parent_confirmations set status = 'confirmed', responded_at = now` on the record of `tok`. */
  function MarkConfirmed(confirmations: map<Token, Confirmation>, tok: Token, now: Millis): (r: map<Token, Confirmation>)
    requires tok in confirmations
    ensures r.Keys == confirmations.Keys
    ensures r[tok].status == Confirmed && r[tok].respondedAt == Some(now)
    ensures r[tok].userId == confirmations[tok].userId && r[tok].parentEmail == confirmations[tok].parentEmail
    ensures r[tok].expiresAt == confirmations[tok].expiresAt
    ensures forall k :: k in r && k != tok ==> r[k] == confirmations[k]
  {
    confirmations[tok := confirmations[tok].(status := Confirmed, respondedAt := Some(now))]
  }
}
