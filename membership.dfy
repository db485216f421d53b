/**
 * A reader's membership row, which keeps each fact twice: in the legacy
 * columns (tier code 10/100, expiry as unix seconds, a wechat id) and in the
 * structured ones (tier enum, expire date, ftc id and union id).
 */
module Model {
  import opened Null
  import opened Numeric
  import opened Chrono
  import opened Enum
  import Licence

  /** A fresh membership id; `random` is what the random generator produced. */
  function GenerateMemberID(random: string): (id: string)
    ensures |id| == 4 + |random| && id[..4] == "mmb_" && id[4..] == random
  {
    "mmb_" + random
  }

  datatype Membership = Membership(
    subsID: NullString,
    compoundID: NullString,
    ftcID: NullString,
    unionID: NullString,
    legacyWxID: NullString,
    legacyTier: NullInt,
    legacyExpire: NullInt,
    tier: Tier,
    cycle: Cycle,
    expireDate: Date,
    autoRenew: bool,
    payMethod: PayMethod,
    stripeSubsID: NullString,
    stripePlanID: NullString,
    subsStatus: SubsStatus,
    appleSubsID: NullString,
    b2bLicenceID: NullString)

  /** The Go zero value: what a reader without a membership row carries. */
  const ZeroMembership := Membership(NoString, NoString, NoString, NoString, NoString, NoInt, NoInt,
    TierNull, CycleNull, ZeroDate, false, PayMethodNull, NoString, NoString, SubsStatusNull, NoString, NoString)

  /**
   * Despite its name, true when the compound id is ABSENT, that is, when
   * there is no membership row. The other operations rely on this meaning.
   */
  function HasMembership(m: Membership): (b: bool)
    ensures b <==> !m.compoundID.valid
  {
    m.compoundID.IsZero()
  }

  /** The tier of a legacy tier code; other codes give no tier. */
  function TierFromLegacy(code: int64): (t: Tier)
    ensures t == TierStandard <==> code == 10
    ensures t == TierPremium <==> code == 100
  {
    if code == 10 then TierStandard else if code == 100 then TierPremium else TierNull
  }

  /** The legacy code of a tier. */
  function LegacyCode(t: Tier): (code: int64)
    requires t != TierNull
    ensures TierFromLegacy(code) == t
  {
    match t
    case TierStandard => 10
    case TierPremium => 100
  }

  /**
   * Normalization, column by column. Each reconciled column depends only on
   * the columns of the input: the steps of the source chain never feed one
   * another, because each step that writes a legacy column requires it NULL
   * and each step that reads it back requires it present.
   */
  function Normalized(m: Membership, cal: Calendar): (r: Membership)
    ensures HasMembership(m) ==> r == m
    ensures r.(ftcID := m.ftcID, unionID := m.unionID, legacyExpire := m.legacyExpire,
               expireDate := m.expireDate, legacyTier := m.legacyTier, tier := m.tier) == m
  {
    if HasMembership(m) then m
    else
      var legacyIds := m.ftcID.IsZero() && m.unionID.IsZero();
      var wxOnly := m.compoundID.value == m.legacyWxID.value;
      m.(
        ftcID := if legacyIds && !wxOnly then m.compoundID else m.ftcID,
        unionID := if legacyIds && wxOnly then m.legacyWxID else m.unionID,
        expireDate :=
          if m.legacyExpire.valid && m.expireDate.IsZero() then cal.dateOfUnix(m.legacyExpire.value)
          else m.expireDate,
        legacyExpire :=
          if m.legacyExpire.IsZero() && !m.expireDate.IsZero() then IntFrom(cal.unixOfDate(m.expireDate))
          else m.legacyExpire,
        tier :=
          if m.legacyTier.valid && m.tier == TierNull then TierFromLegacy(m.legacyTier.value)
          else m.tier,
        legacyTier :=
          if m.legacyTier.IsZero() && m.tier != TierNull then IntFrom(LegacyCode(m.tier))
          else m.legacyTier)
  }

  /** The source's in-place normalization, one step after another. */
  method Normalize(m: Membership, cal: Calendar) returns (n: Membership)
    ensures n == Normalized(m, cal)
  {
    n := m;
    if HasMembership(n) {
      return;
    }

    // Only the legacy id columns are in use.
    if n.ftcID.IsZero() && n.unionID.IsZero() {
      if n.compoundID.value == n.legacyWxID.value {
        n := n.(unionID := n.legacyWxID);   // a wechat-only membership
      } else {
        n := n.(ftcID := n.compoundID);     // an ftc membership
      }
    }

    // Only the legacy expiration column is in use.
    if n.legacyExpire.valid && n.expireDate.IsZero() {
      n := n.(expireDate := cal.dateOfUnix(n.legacyExpire.value));
    }

    // Only the new expiration column is in use.
    if !n.expireDate.IsZero() && n.legacyExpire.IsZero() {
      n := n.(legacyExpire := IntFrom(cal.unixOfDate(n.expireDate)));
    }

    if n.legacyTier.valid && n.tier == TierNull {
      match n.legacyTier.value
      case 10 => n := n.(tier := TierStandard);
      case 100 => n := n.(tier := TierPremium);
      case _ =>
    }

    if n.tier != TierNull && n.legacyTier.IsZero() {
      match n.tier
      case TierStandard => n := n.(legacyTier := IntFrom(10));
      case TierPremium => n := n.(legacyTier := IntFrom(100));
    }
  }

  /**
   * `today` is the current time truncated to the day. A record without a
   * compound id is always expired; one with a compound id is expired when it
   * does not renew automatically and its expire date is strictly before today.
   */
  function IsExpired(m: Membership, today: Date): (b: bool)
    ensures !m.compoundID.valid ==> b
    ensures m.compoundID.valid ==> (b <==> !m.autoRenew && m.expireDate.ordinal < today.ordinal)
  {
    if HasMembership(m) then true
    else if m.autoRenew then false   // auto-renewing subscriptions ignore the expire date
    else m.expireDate.Before(today)
  }

  /**
   * The membership after a B2B licence is granted to it. `random` feeds the
   * member id generated when one is needed.
   */
  function WithLicenceGranted(m: Membership, l: Licence.Licence, random: string, cal: Calendar): (r: Membership)
    ensures r.payMethod == PayMethodB2B && r.b2bLicenceID == StringFrom(l.id) && !r.autoRenew
    ensures r.tier == l.plan.tier && r.cycle == l.plan.cycle && r.expireDate == l.expireDate
    ensures r.stripeSubsID == NoString && r.stripePlanID == NoString && r.appleSubsID == NoString
    ensures r.subsStatus == SubsStatusNull
    ensures r.subsID.valid
    ensures r.legacyWxID == m.legacyWxID
    ensures HasMembership(m) ==>
      r.compoundID == l.assigneeID && r.ftcID == l.assigneeID && r.subsID == StringFrom(GenerateMemberID(random))
    ensures !HasMembership(m) ==>
      r.compoundID == m.compoundID && r.subsID == (if m.subsID.valid then m.subsID else StringFrom(GenerateMemberID(random)))
    ensures !HasMembership(r) ==>
      && r.legacyTier == (if l.plan.tier == TierNull then NoInt else IntFrom(LegacyCode(l.plan.tier)))
      && r.legacyExpire == (if l.expireDate.IsZero() then NoInt else IntFrom(cal.unixOfDate(l.expireDate)))
    ensures HasMembership(r) ==> r.legacyTier == NoInt && r.legacyExpire == NoInt
    // The ids an existing row keeps, as normalization derives them.
    ensures HasMembership(m) ==> r.unionID == m.unionID
    ensures !HasMembership(m) ==>
      var legacyIDs := m.ftcID.IsZero() && m.unionID.IsZero();
      && r.ftcID == (if legacyIDs && m.compoundID.value != m.legacyWxID.value then m.compoundID else m.ftcID)
      && r.unionID == (if legacyIDs && m.compoundID.value == m.legacyWxID.value then m.legacyWxID else m.unionID)
  {
    var withID :=
      if HasMembership(m) then
        m.(subsID := StringFrom(GenerateMemberID(random)), compoundID := l.assigneeID, ftcID := l.assigneeID)
      else m;
    var withSubsID :=
      if withID.subsID.IsZero() then withID.(subsID := StringFrom(GenerateMemberID(random))) else withID;
    // The legacy columns are erased so that normalization derives them again.
    var granted := withSubsID.(
      legacyTier := NoInt,
      legacyExpire := NoInt,
      tier := l.plan.tier,
      cycle := l.plan.cycle,
      expireDate := l.expireDate,
      autoRenew := false,
      payMethod := PayMethodB2B,
      stripeSubsID := NoString,
      stripePlanID := NoString,
      subsStatus := SubsStatusNull,
      appleSubsID := NoString,
      b2bLicenceID := StringFrom(l.id));
    Normalized(granted, cal)
  }

  /** The membership after its B2B licence is revoked: no entitlement is left. */
  function WithLicenceRevoked(m: Membership): (r: Membership)
    ensures r.legacyTier == IntFrom(0) && r.legacyExpire == IntFrom(0)
    ensures r.tier == TierNull && r.cycle == CycleNull && r.payMethod == PayMethodNull
    ensures r.expireDate.IsZero() && !r.autoRenew
    ensures r.stripeSubsID == NoString && r.stripePlanID == NoString && r.appleSubsID == NoString
    ensures r.subsStatus == SubsStatusNull && r.b2bLicenceID == NoString
    ensures r.subsID == m.subsID && r.compoundID == m.compoundID && r.ftcID == m.ftcID
    ensures r.unionID == m.unionID && r.legacyWxID == m.legacyWxID
  {
    m.(
      legacyTier := IntFrom(0),
      legacyExpire := IntFrom(0),
      tier := TierNull,
      cycle := CycleNull,
      expireDate := ZeroDate,
      autoRenew := false,
      payMethod := PayMethodNull,
      stripeSubsID := NoString,
      stripePlanID := NoString,
      subsStatus := SubsStatusNull,
      appleSubsID := NoString,
      b2bLicenceID := NoString)
  }

  /** An audit copy of a membership, taken before it is changed. */
  datatype MemberSnapshot = MemberSnapshot(snapshotID: string, reason: SnapshotReason, createdUTC: int64, membership: Membership)

  /** `random` and `now` stand for the random generator and the clock. */
  function NewMemberSnapshot(m: Membership, random: string, now: int64): (s: MemberSnapshot)
    ensures s.membership == m
    ensures s.reason == SnapshotReasonB2B && s.createdUTC == now
    ensures |s.snapshotID| == 4 + |random| && s.snapshotID[..4] == "snp_" && s.snapshotID[4..] == random
  {
    MemberSnapshot("snp_" + random, SnapshotReasonB2B, now, m)
  }

  // ---------------------------------------------------------------------
  // Properties

  /** The zero membership of a reader that was not found counts as expired. */
  lemma ZeroMembershipIsExpired(today: Date)
    ensures IsExpired(ZeroMembership, today)
  {
  }

  lemma NormalizeIdempotent(m: Membership, cal: Calendar)
    ensures Normalized(Normalized(m, cal), cal) == Normalized(m, cal)
  {
  }

  /** Deriving the ftc id or the union id from the compound id. */
  lemma NormalizeIds(m: Membership, cal: Calendar)
    requires m.compoundID.valid
    ensures var r := Normalized(m, cal);
      if m.ftcID.IsZero() && m.unionID.IsZero() then
        if m.compoundID.value == m.legacyWxID.value
        then r.unionID == m.legacyWxID && r.ftcID == m.ftcID
        else r.ftcID == m.compoundID && r.unionID == m.unionID
      else r.ftcID == m.ftcID && r.unionID == m.unionID
  {
  }

  /** Each expiry column is filled from the other, and a column already present is kept. */
  lemma NormalizeExpiry(m: Membership, cal: Calendar)
    requires m.compoundID.valid
    ensures var r := Normalized(m, cal);
      && (m.legacyExpire.valid && m.expireDate.IsZero() ==>
            r.expireDate == cal.dateOfUnix(m.legacyExpire.value) && r.legacyExpire == m.legacyExpire)
      && (m.legacyExpire.IsZero() && !m.expireDate.IsZero() ==>
            r.legacyExpire == IntFrom(cal.unixOfDate(m.expireDate)) && r.expireDate == m.expireDate)
      && (m.legacyExpire.valid && !m.expireDate.IsZero() ==>
            r.legacyExpire == m.legacyExpire && r.expireDate == m.expireDate)
      && (m.legacyExpire.IsZero() && m.expireDate.IsZero() ==>
            r.legacyExpire == m.legacyExpire && r.expireDate == m.expireDate)
  {
  }

  /** Tier codes 10 and 100 map to Standard and Premium and back; other codes give no tier. */
  lemma NormalizeTier(m: Membership, cal: Calendar)
    requires m.compoundID.valid
    ensures var r := Normalized(m, cal);
      && (m.legacyTier.valid && m.tier == TierNull ==>
            r.legacyTier == m.legacyTier
            && r.tier == (if m.legacyTier.value == 10 then TierStandard
                          else if m.legacyTier.value == 100 then TierPremium else TierNull))
      && (m.legacyTier.IsZero() && m.tier == TierStandard ==> r.legacyTier == IntFrom(10) && r.tier == m.tier)
      && (m.legacyTier.IsZero() && m.tier == TierPremium ==> r.legacyTier == IntFrom(100) && r.tier == m.tier)
      && (m.legacyTier.valid && m.tier != TierNull ==> r.legacyTier == m.legacyTier && r.tier == m.tier)
  {
  }

  /**
   * When at most one representation of each fact is present and the
   * calendar's conversions agree, normalization leaves both representations
   * describing the same tier and the same expiry.
   */
  lemma NormalizeReconciles(m: Membership, cal: Calendar)
    requires RoundTripsAt(cal, m.expireDate)
    requires m.compoundID.valid
    requires !(m.legacyExpire.valid && !m.expireDate.IsZero())
    requires !(m.legacyTier.valid && m.tier != TierNull)
    ensures var r := Normalized(m, cal);
      && (r.legacyExpire.valid ==> cal.dateOfUnix(r.legacyExpire.value) == r.expireDate)
      && (!r.expireDate.IsZero() ==> r.legacyExpire.valid)
      && (r.tier != TierNull ==> r.legacyTier == IntFrom(LegacyCode(r.tier)))
      && (r.legacyTier.valid ==> r.tier == TierFromLegacy(r.legacyTier.value))
  {
  }

  /** A granted membership is already normalized: Normalize has nothing left to reconcile. */
  lemma GrantedIsNormalized(m: Membership, l: Licence.Licence, random: string, cal: Calendar)
    ensures var r := WithLicenceGranted(m, l, random, cal);
      Normalized(r, cal) == r
  {
  }

  /**
   * A grant lasts until the licence's expire date. A grant to a reader
   * without a membership row and to a licence without an assignee leaves no
   * compound id, so the record still counts as expired.
   */
  lemma GrantedExpiry(m: Membership, l: Licence.Licence, random: string, cal: Calendar, today: Date)
    ensures var r := WithLicenceGranted(m, l, random, cal);
      IsExpired(r, today) <==> (HasMembership(m) && !l.assigneeID.valid) || l.expireDate.ordinal < today.ordinal
  {
  }

  /**
   * Revoking and granting again keeps the membership's identity: the same
   * member id and compound id, with the new licence's entitlement.
   */
  lemma RegrantKeepsIdentity(m: Membership, l: Licence.Licence, random: string, cal: Calendar)
    requires m.compoundID.valid && m.subsID.valid
    ensures var r := WithLicenceGranted(WithLicenceRevoked(m), l, random, cal);
      && r.subsID == m.subsID && r.compoundID == m.compoundID
      && r.b2bLicenceID == StringFrom(l.id) && r.expireDate == l.expireDate
  {
  }

  /** After revocation the membership is expired on any day after the zero date. */
  lemma RevokedIsExpired(m: Membership, today: Date)
    requires today.ordinal > 0
    ensures IsExpired(WithLicenceRevoked(m), today)
  {
  }

  /**
   * The legacy expiry 0 that revocation writes is present, so normalizing a
   * revoked membership fills the expire date from unix second 0, while tier
   * code 0 maps to no tier.
   */
  lemma NormalizeAfterRevoke(m: Membership, cal: Calendar)
    requires m.compoundID.valid
    ensures var r := Normalized(WithLicenceRevoked(m), cal);
      r.expireDate == cal.dateOfUnix(0) && r.tier == TierNull && r.legacyTier == IntFrom(0)
  {
  }
}
