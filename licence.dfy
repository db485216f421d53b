/**
 * Licences and the invitations that offer them. Every transition returns a
 * modified copy; nothing here changes shared state.
 */
module Licence {
  import opened Wrappers
  import opened Null
  import opened Numeric
  import opened Chrono
  import opened Enum
  import Fmt

  const SecondsPerDay: int := 86400

  /** The window of every new invitation, in days. */
  const DefaultExpirationDays: int64 := 7

  datatype Plan = Plan(tier: Tier, cycle: Cycle)

  datatype LicenceStatus = LicenceStatusNull | LicenceAvailable | LicenceInvited | LicenceGranted | LicenceRevoked

  /** One seat owned by a team. */
  datatype Licence = Licence(
    id: string,
    teamID: string,
    plan: Plan,
    expireDate: Date,
    status: LicenceStatus,
    assigneeID: NullString,
    lastInviteeEmail: NullString,
    lastInvitationID: NullString)

  /** The Go zero value of a licence. */
  const ZeroLicence := Licence("", "", Plan(TierNull, CycleNull), ZeroDate, LicenceStatusNull, NoString, NoString, NoString)

  /** The reader a licence is or will be granted to; it may not have an account yet. */
  datatype Assignee = Assignee(ftcID: NullString, unionID: NullString, email: NullString)

  const ZeroAssignee := Assignee(NoString, NoString, NoString)

  datatype InvitationStatus = InvitationCreated | InvitationAccepted | InvitationRevoked

  /** An offer of one licence to one email address; times are unix seconds. */
  datatype Invitation = Invitation(
    id: string,
    adminID: string,
    teamID: string,
    status: InvitationStatus,
    description: NullString,
    expirationDays: int64,
    email: string,
    licenceID: string,
    token: string,
    createdUTC: int64,
    updatedUTC: int64)

  datatype InvitationParams = InvitationParams(email: string, description: NullString, licenceID: string)

  /** What the administrator's session token carries. */
  datatype PassportClaims = PassportClaims(adminID: string, teamID: NullString)

  /**
   * A new invitation. The random token, the invitation id and the clock are
   * inputs: `token` is what the random generator returned, `Failure` when it
   * could not produce one.
   */
  function NewInvitation(params: InvitationParams, claims: PassportClaims, token: Result<string, string>,
                         id: string, now: int64): (r: Result<Invitation, string>)
    ensures r.Failure? <==> token.Failure?
    ensures token.Failure? ==> r.error == token.error
    ensures r.Success? ==>
      && r.value.status == InvitationCreated
      && r.value.expirationDays == DefaultExpirationDays
      && r.value.email == params.email
      && r.value.licenceID == params.licenceID
      && r.value.description == params.description
      && r.value.adminID == claims.adminID
      && r.value.teamID == claims.teamID.value
      && r.value.token == token.value
      && r.value.id == id
      && r.value.createdUTC == now && r.value.updatedUTC == now
  {
    match token
    case Failure(e) => Failure(e)
    case Success(t) =>
      Success(Invitation(
        id := id,
        adminID := claims.adminID,
        teamID := claims.teamID.value,
        status := InvitationCreated,
        description := params.description,
        expirationDays := DefaultExpirationDays,
        email := params.email,
        licenceID := params.licenceID,
        token := t,
        createdUTC := now,
        updatedUTC := now))
  }

  /** The last second of validity, computed with Go's int64 arithmetic. */
  function Deadline(inv: Invitation): (d: int64)
    ensures NoOverflow(inv) ==> d as int == inv.createdUTC as int + inv.expirationDays as int * SecondsPerDay
    ensures (d as int - (inv.createdUTC as int + inv.expirationDays as int * SecondsPerDay)) % Two64 == 0
  {
    Wrap(inv.createdUTC as int + Wrap(inv.expirationDays as int * SecondsPerDay) as int)
  }

  /** Whether the deadline can be computed without wrap-around. */
  predicate NoOverflow(inv: Invitation) {
    InInt64(inv.expirationDays as int * SecondsPerDay)
    && InInt64(inv.createdUTC as int + inv.expirationDays as int * SecondsPerDay)
  }

  /** Without wrap-around, expiry is the strict comparison the code writes. */
  function IsExpired(inv: Invitation, now: int64): (b: bool)
    ensures NoOverflow(inv) ==> (b <==> inv.createdUTC as int + inv.expirationDays as int * SecondsPerDay < now as int)
  {
    Deadline(inv) < now
  }

  /** Only an invitation that is neither accepted nor revoked can be revoked. */
  function IsRevocable(inv: Invitation): (b: bool)
    ensures b <==> !(inv.status.InvitationAccepted? || inv.status.InvitationRevoked?)
  {
    inv.status == InvitationCreated
  }

  function IsAcceptable(inv: Invitation, now: int64): (b: bool)
    ensures b ==> IsRevocable(inv)
    ensures b ==> !IsExpired(inv, now)
  {
    inv.status == InvitationCreated && !IsExpired(inv, now)
  }

  /** The invitation after its licence has been accepted. */
  function Accepted(inv: Invitation, now: int64): (r: Invitation)
    ensures r.status == InvitationAccepted && r.updatedUTC == now
    ensures r.(status := inv.status, updatedUTC := inv.updatedUTC) == inv
    ensures forall t :: !IsAcceptable(r, t)
    ensures !IsRevocable(r)
  {
    inv.(status := InvitationAccepted, updatedUTC := now)
  }

  /** The invitation after an administrator revoked it. */
  function Revoked(inv: Invitation, now: int64): (r: Invitation)
    ensures r.status == InvitationRevoked && r.updatedUTC == now
    ensures r.(status := inv.status, updatedUTC := inv.updatedUTC) == inv
    ensures forall t :: !IsAcceptable(r, t)
    ensures !IsRevocable(r)
  {
    inv.(status := InvitationRevoked, updatedUTC := now)
  }

  /** The window as the letter shows it, e.g. "7天". */
  function FormatDuration(inv: Invitation): (s: string)
    ensures |s| >= 2 && s[|s| - 1] == '天'
    ensures s[0] == '-' <==> inv.expirationDays < 0
  {
    Fmt.FormatInt(inv.expirationDays as int) + "天"
  }

  // ---------------------------------------------------------------------
  // Properties

  /** At exactly the deadline the invitation is still valid. */
  lemma NotExpiredAtDeadline(inv: Invitation)
    requires NoOverflow(inv)
    ensures !IsExpired(inv, (inv.createdUTC as int + inv.expirationDays as int * SecondsPerDay) as int64)
  {
  }

  /** Once expired, an invitation stays expired. */
  lemma ExpiredStaysExpired(inv: Invitation, t1: int64, t2: int64)
    requires t1 <= t2
    ensures IsExpired(inv, t1) ==> IsExpired(inv, t2)
  {
  }

  /**
   * A seven-day invitation created at T is valid at T + 6d 23h and at
   * T + 7d, and expired one second later.
   */
  lemma SevenDayWindow(inv: Invitation)
    requires inv.expirationDays == DefaultExpirationDays
    requires inv.createdUTC as int + 7 * SecondsPerDay + 1 <= Int64Max
    ensures !IsExpired(inv, inv.createdUTC + 6 * 86400 + 23 * 3600)
    ensures !IsExpired(inv, inv.createdUTC + 7 * 86400)
    ensures IsExpired(inv, inv.createdUTC + 7 * 86400 + 1)
  {
  }

  /** A fresh invitation can be accepted until its seventh day is over. */
  lemma NewInvitationAcceptable(params: InvitationParams, claims: PassportClaims, t: string,
                                id: string, now: int64, later: int64)
    requires now as int + 7 * SecondsPerDay <= Int64Max
    requires now <= later && later as int <= now as int + 7 * SecondsPerDay
    ensures NewInvitation(params, claims, Success(t), id, now).Success?
    ensures IsAcceptable(NewInvitation(params, claims, Success(t), id, now).value, later)
  {
    var inv := NewInvitation(params, claims, Success(t), id, now).value;
    assert NoOverflow(inv);
  }

  /**
   * Neither transition checks the status it starts from: terminal states are
   * kept only by the IsAcceptable and IsRevocable guards of their callers,
   * and repeating a transition keeps its status.
   */
  lemma TransitionsIgnoreStatus(inv: Invitation, t1: int64, t2: int64)
    ensures Accepted(Accepted(inv, t1), t2).status == InvitationAccepted
    ensures Revoked(Revoked(inv, t1), t2).status == InvitationRevoked
    ensures Revoked(Accepted(inv, t1), t2).status == InvitationRevoked
    ensures Accepted(Revoked(inv, t1), t2).status == InvitationAccepted
  {
  }

  /** The letter's duration is the decimal window followed by 天, and tells windows apart. */
  lemma FormatDurationDecodes(inv: Invitation, other: Invitation)
    ensures var s := FormatDuration(inv);
      |s| >= 2 && s[|s| - 1] == '天' && Fmt.ParseInt(s[..|s| - 1]) == inv.expirationDays as int
    ensures FormatDuration(inv) == FormatDuration(other) ==> inv.expirationDays == other.expirationDays
  {
    var s := FormatDuration(inv);
    var p := Fmt.FormatInt(inv.expirationDays as int);
    assert s[..|s| - 1] == p;
    Fmt.FormatIntRoundTrip(inv.expirationDays as int);
    if FormatDuration(inv) == FormatDuration(other) {
      var q := Fmt.FormatInt(other.expirationDays as int);
      assert p == s[..|s| - 1] == q;
      Fmt.FormatIntInjective(inv.expirationDays as int, other.expirationDays as int);
    }
  }
}
