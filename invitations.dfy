/**
 * The administrator's invitation workflow: creating an invitation for a
 * licence and revoking it, each inside one database transaction.
 *
 * The database is an in-memory model: committed licence and invitation
 * tables, reader accounts looked up by email, and the open transaction's
 * buffer of pending writes, which only a commit publishes. Infrastructure
 * failures are a fixed set of operations the database refuses. The licence
 * operations whose code is not part of this model are the function fields
 * of `helpers`.
 */
module Subs {
  import opened Wrappers
  import opened Null
  import opened Chrono
  import opened Licence
  import opened Model

  /** The database operations the workflow performs. */
  datatype Op =
    | OpBegin | OpRetrieveLicence | OpFindReader | OpSetLicenceInvited | OpSaveInvitation | OpCommit
    | OpRetrieveInvitation | OpFindInvitedLicence | OpRevokeInvitation | OpUnlinkInvitedLicence

  datatype Error =
    | ErrNoRows               // the row does not exist, or belongs to another team
    | ErrLicenceUnavailable
    | ErrInviteeMismatch
    | ErrAlreadyMember
    | ErrRandom               // the invitation token could not be generated
    | ErrDb(op: Op)           // the database refused op

  /** A reader account: who it is and its membership. */
  datatype Reader = Reader(assignee: Assignee, membership: Membership)

  /** What a lookup that found no account leaves in its result. */
  const ZeroReader := Reader(ZeroAssignee, ZeroMembership)

  datatype InvitationInput = InvitationInput(licenceID: string, teamID: string, email: string)

  /** What a successful CreateInvitation hands to the mailer. */
  datatype InvitedLicence = InvitedLicence(invitation: Invitation, licence: Licence, plan: Plan, assignee: Assignee)

  /**
   * `IsAvailable`, `Invited`, `CanInvitationBeRevoked` and `Revoke` of the
   * licence and invitation rows, and the row that `UnlinkInvitedLicence`
   * writes back.
   */
  datatype LicenceHelpers = LicenceHelpers(
    isAvailable: Licence -> bool,
    invited: (Licence, Invitation) -> Licence,
    canInvitationBeRevoked: Licence -> bool,
    revoke: Invitation -> Invitation,
    unlinked: Licence -> Licence)

  datatype Tables = Tables(licences: map<string, Licence>, invitations: map<string, Invitation>)

  /** A row write, keyed by the row's id. */
  datatype Write = PutLicence(licence: Licence) | PutInvitation(invitation: Invitation)

  ghost predicate KeyedByID(t: Tables) {
    && (forall id :: id in t.licences ==> t.licences[id].id == id)
    && (forall id :: id in t.invitations ==> t.invitations[id].id == id)
  }

  function Apply(t: Tables, w: Write): (r: Tables) {
    match w
    case PutLicence(l) => t.(licences := t.licences[l.id := l])
    case PutInvitation(i) => t.(invitations := t.invitations[i.id := i])
  }

  /** The tables after a transaction's writes, applied in order. */
  function Publish(t: Tables, ws: seq<Write>): (r: Tables)
    ensures KeyedByID(t) ==> KeyedByID(r)
    ensures t.licences.Keys <= r.licences.Keys && t.invitations.Keys <= r.invitations.Keys
    ensures forall w :: w in ws && w.PutLicence? ==> w.licence.id in r.licences
    ensures forall w :: w in ws && w.PutInvitation? ==> w.invitation.id in r.invitations
    decreases |ws|
  {
    if ws == [] then t else Publish(Apply(t, ws[0]), ws[1..])
  }

  /** Whether the tables hold the row that `w` writes, under its id. */
  predicate Holds(t: Tables, w: Write) {
    match w
    case PutLicence(l) => l.id in t.licences && t.licences[l.id] == l
    case PutInvitation(i) => i.id in t.invitations && t.invitations[i.id] == i
  }

  /** Whether two writes address the same row. */
  predicate SameRow(a: Write, b: Write) {
    || (a.PutLicence? && b.PutLicence? && a.licence.id == b.licence.id)
    || (a.PutInvitation? && b.PutInvitation? && a.invitation.id == b.invitation.id)
  }

  /** A row that none of the writes addresses is kept. */
  lemma {:induction false} PublishKeeps(t: Tables, ws: seq<Write>, w: Write)
    requires Holds(t, w)
    requires forall j :: 0 <= j < |ws| ==> !SameRow(w, ws[j])
    ensures Holds(Publish(t, ws), w)
    decreases |ws|
  {
    if ws != [] {
      assert !SameRow(w, ws[0]);
      assert Holds(Apply(t, ws[0]), w);
      forall j | 0 <= j < |ws[1..]|
        ensures !SameRow(w, ws[1..][j])
      {
        assert ws[1..][j] == ws[j + 1];
      }
      PublishKeeps(Apply(t, ws[0]), ws[1..], w);
    }
  }

  /** A row holds the last write made to it. */
  lemma {:induction false} PublishLastWrite(t: Tables, ws: seq<Write>, i: nat)
    requires i < |ws|
    requires forall j :: i < j < |ws| ==> !SameRow(ws[i], ws[j])
    ensures Holds(Publish(t, ws), ws[i])
    decreases |ws|
  {
    if i == 0 {
      forall j | 0 <= j < |ws[1..]|
        ensures !SameRow(ws[0], ws[1..][j])
      {
        assert ws[1..][j] == ws[j + 1];
      }
      PublishKeeps(Apply(t, ws[0]), ws[1..], ws[0]);
    } else {
      assert ws[1..][i - 1] == ws[i];
      forall j | i - 1 < j < |ws[1..]|
        ensures !SameRow(ws[1..][i - 1], ws[1..][j])
      {
        assert ws[1..][j] == ws[j + 1];
      }
      PublishLastWrite(Apply(t, ws[0]), ws[1..], i - 1);
    }
  }

  /** The transaction buffers a new transaction abandons. */
  function Leaked(open: bool, pending: seq<Write>): (leaked: seq<seq<Write>>) {
    if open then [pending] else []
  }

  // ---------------------------------------------------------------------
  // Reads

  /** The licence `id` of team `teamID`. */
  function RetrieveLicence(t: Tables, failing: set<Op>, id: string, teamID: string): (r: Result<Licence, Error>)
    ensures r.Success? <==> OpRetrieveLicence !in failing && id in t.licences && t.licences[id].teamID == teamID
    ensures r.Success? ==> id in t.licences && r.value == t.licences[id]
    ensures KeyedByID(t) && r.Success? ==> r.value.id == id && r.value.teamID == teamID
    ensures r.Failure? ==> r.error == (if OpRetrieveLicence in failing then ErrDb(OpRetrieveLicence) else ErrNoRows)
  {
    if OpRetrieveLicence in failing then Failure(ErrDb(OpRetrieveLicence))
    else if id in t.licences && t.licences[id].teamID == teamID then Success(t.licences[id])
    else Failure(ErrNoRows)
  }

  /** The reader account registered under `email`. */
  function FindReader(readers: map<string, Reader>, failing: set<Op>, email: string): (r: Result<Reader, Error>)
    ensures r.Success? <==> OpFindReader !in failing && email in readers
    ensures r.Success? ==> email in readers && r.value == readers[email]
    ensures r.Failure? ==> r.error == (if OpFindReader in failing then ErrDb(OpFindReader) else ErrNoRows)
  {
    if OpFindReader in failing then Failure(ErrDb(OpFindReader))
    else if email in readers then Success(readers[email])
    else Failure(ErrNoRows)
  }

  /** The invitation `id` of team `teamID`. */
  function RetrieveInvitation(t: Tables, failing: set<Op>, id: string, teamID: string): (r: Result<Invitation, Error>)
    ensures r.Success? <==> OpRetrieveInvitation !in failing && id in t.invitations && t.invitations[id].teamID == teamID
    ensures r.Success? ==> id in t.invitations && r.value == t.invitations[id]
    ensures KeyedByID(t) && r.Success? ==> r.value.id == id && r.value.teamID == teamID
    ensures r.Failure? ==> r.error == (if OpRetrieveInvitation in failing then ErrDb(OpRetrieveInvitation) else ErrNoRows)
  {
    if OpRetrieveInvitation in failing then Failure(ErrDb(OpRetrieveInvitation))
    else if id in t.invitations && t.invitations[id].teamID == teamID then Success(t.invitations[id])
    else Failure(ErrNoRows)
  }

  /** The licence an invitation offers. */
  function FindInvitedLicence(t: Tables, failing: set<Op>, inv: Invitation): (r: Result<Licence, Error>)
    ensures r.Success? <==>
      OpFindInvitedLicence !in failing && inv.licenceID in t.licences && t.licences[inv.licenceID].teamID == inv.teamID
    ensures r.Success? ==> inv.licenceID in t.licences && r.value == t.licences[inv.licenceID]
    ensures KeyedByID(t) && r.Success? ==> r.value.id == inv.licenceID && r.value.teamID == inv.teamID
    ensures r.Failure? ==> r.error == (if OpFindInvitedLicence in failing then ErrDb(OpFindInvitedLicence) else ErrNoRows)
  {
    if OpFindInvitedLicence in failing then Failure(ErrDb(OpFindInvitedLicence))
    else if inv.licenceID in t.licences && t.licences[inv.licenceID].teamID == inv.teamID then Success(t.licences[inv.licenceID])
    else Failure(ErrNoRows)
  }

  // ---------------------------------------------------------------------
  // The checks of CreateInvitation, before anything is written

  /**
   * The invitee guard as the code writes it: it fires when the licence has
   * NO recorded invitee email and the NULL column's payload differs from the
   * requested email.
   */
  function InviteeMismatch(l: Licence, email: string): (b: bool)
    ensures l.lastInviteeEmail.valid ==> !b
    ensures !l.lastInviteeEmail.valid ==> (b <==> l.lastInviteeEmail.value != email)
  {
    !l.lastInviteeEmail.valid && l.lastInviteeEmail.value != email
  }

  /** The licence and the invitee that passed every check. */
  datatype Admission = Admission(licence: Licence, invitee: Reader)

  /** The outcome of CreateInvitation's read-only checks, in the order the code makes them. */
  function CheckCreate(t: Tables, readers: map<string, Reader>, failing: set<Op>, h: LicenceHelpers,
                       input: InvitationInput, today: Date): (v: Result<Admission, Error>)
    ensures var lookup := RetrieveLicence(t, failing, input.licenceID, input.teamID);
      && (lookup.Failure? ==> v == Failure(lookup.error))
      && (lookup.Success? && !h.isAvailable(lookup.value) ==> v == Failure(ErrLicenceUnavailable))
      && (v == Failure(ErrInviteeMismatch) <==>
            lookup.Success? && h.isAvailable(lookup.value) && InviteeMismatch(lookup.value, input.email))
      && (v.Success? ==> v.value.licence == lookup.value && h.isAvailable(v.value.licence))
    ensures var found := FindReader(readers, failing, input.email);
      && (v.Success? ==> v.value.invitee == (if found.Success? then found.value else ZeroReader))
      && (v.Success? ==> Model.IsExpired(v.value.invitee.membership, today))
      && (v == Failure(ErrDb(OpFindReader)) ==> found == Failure(ErrDb(OpFindReader)))
      && (found.Success? && v == Failure(ErrAlreadyMember) ==> !Model.IsExpired(found.value.membership, today))
    // The checks pass exactly for an available, unclaimed licence and an invitee without a membership in force.
    ensures var lookup := RetrieveLicence(t, failing, input.licenceID, input.teamID);
      var found := FindReader(readers, failing, input.email);
      var invitee := if found.Success? then found.value else ZeroReader;
      v.Success? <==>
        && lookup.Success? && h.isAvailable(lookup.value) && !InviteeMismatch(lookup.value, input.email)
        && (found.Success? || found.error == ErrNoRows)
        && Model.IsExpired(invitee.membership, today)
    // Past the licence checks, a reader lookup error other than "no rows" is returned.
    ensures var lookup := RetrieveLicence(t, failing, input.licenceID, input.teamID);
      var found := FindReader(readers, failing, input.email);
      (lookup.Success? && h.isAvailable(lookup.value) && !InviteeMismatch(lookup.value, input.email)
       && found.Failure? && found.error != ErrNoRows) ==> v == Failure(found.error)
  {
    match RetrieveLicence(t, failing, input.licenceID, input.teamID)
    case Failure(e) => Failure(e)
    case Success(l) =>
      if !h.isAvailable(l) then Failure(ErrLicenceUnavailable)
      else if InviteeMismatch(l, input.email) then Failure(ErrInviteeMismatch)
      else
        var found := FindReader(readers, failing, input.email);
        if found.Failure? && found.error != ErrNoRows then Failure(found.error)
        else
          var invitee := if found.Success? then found.value else ZeroReader;
          if !Model.IsExpired(invitee.membership, today) then Failure(ErrAlreadyMember)
          else Success(Admission(l, invitee))
  }

  /** The assignee handed to the mailer: a reader without an ftc id is addressed by the requested email. */
  function InviteeAssignee(invitee: Reader, email: string): (a: Assignee)
    ensures a.ftcID == invitee.assignee.ftcID && a.unionID == invitee.assignee.unionID
    ensures a.ftcID.IsZero() ==> a.email == StringFrom(email)
    ensures !a.ftcID.IsZero() ==> a == invitee.assignee
  {
    if invitee.assignee.ftcID.IsZero() then invitee.assignee.(email := StringFrom(email)) else invitee.assignee
  }

  // ---------------------------------------------------------------------
  // Properties of the checks

  /** A licence that has a recorded invitee email never fails the invitee guard. */
  lemma RecordedInviteeNeverMismatches(t: Tables, readers: map<string, Reader>, failing: set<Op>,
                                       h: LicenceHelpers, input: InvitationInput, today: Date)
    requires input.licenceID in t.licences && t.licences[input.licenceID].lastInviteeEmail.valid
    ensures CheckCreate(t, readers, failing, h, input, today) != Failure(ErrInviteeMismatch)
  {
  }

  /**
   * A licence whose invitee column is NULL (scanned as the empty string)
   * rejects every non-empty email with ErrInviteeMismatch: as written the
   * guard blocks exactly the licences that were never offered to anyone.
   */
  lemma NullInviteeRejectsEveryEmail(t: Tables, readers: map<string, Reader>, failing: set<Op>,
                                     h: LicenceHelpers, input: InvitationInput, today: Date)
    requires RetrieveLicence(t, failing, input.licenceID, input.teamID).Success?
    requires t.licences[input.licenceID].lastInviteeEmail == NoString
    requires h.isAvailable(t.licences[input.licenceID])
    requires input.email != ""
    ensures CheckCreate(t, readers, failing, h, input, today) == Failure(ErrInviteeMismatch)
  {
  }

  /** A reader that does not exist is not an error and never blocks the invitation. */
  lemma MissingReaderIsAdmitted(t: Tables, readers: map<string, Reader>, failing: set<Op>,
                                h: LicenceHelpers, input: InvitationInput, today: Date)
    requires var lookup := RetrieveLicence(t, failing, input.licenceID, input.teamID);
      lookup.Success? && h.isAvailable(lookup.value) && !InviteeMismatch(lookup.value, input.email)
    requires FindReader(readers, failing, input.email) == Failure(ErrNoRows)
    ensures CheckCreate(t, readers, failing, h, input, today)
         == Success(Admission(t.licences[input.licenceID], ZeroReader))
  {
    ZeroMembershipIsExpired(today);
  }

  /** A reader whose membership is still in force cannot be invited. */
  lemma ActiveMemberIsRejected(t: Tables, readers: map<string, Reader>, failing: set<Op>,
                               h: LicenceHelpers, input: InvitationInput, today: Date)
    requires var lookup := RetrieveLicence(t, failing, input.licenceID, input.teamID);
      lookup.Success? && h.isAvailable(lookup.value) && !InviteeMismatch(lookup.value, input.email)
    requires var found := FindReader(readers, failing, input.email);
      found.Success? && !Model.IsExpired(found.value.membership, today)
    ensures CheckCreate(t, readers, failing, h, input, today) == Failure(ErrAlreadyMember)
  {
  }

  /** The writes of a revocation: the revoked invitation, then the unlinked licence when the licence allows it. */
  function RevokeWrites(h: LicenceHelpers, inv: Invitation, l: Licence): (ws: seq<Write>)
    ensures |ws| == (if h.canInvitationBeRevoked(l) then 2 else 1)
    ensures ws[0] == PutInvitation(h.revoke(inv))
    ensures h.canInvitationBeRevoked(l) ==> ws[1] == PutLicence(h.unlinked(l))
  {
    [PutInvitation(h.revoke(inv))] + (if h.canInvitationBeRevoked(l) then [PutLicence(h.unlinked(l))] else [])
  }

  /**
   * A committed revocation holds the revoked invitation and, when the licence
   * allows it, the unlinked licence; otherwise the licences are untouched.
   */
  lemma RevokeCommitsRows(t: Tables, h: LicenceHelpers, inv: Invitation, l: Licence)
    ensures var r := Publish(t, RevokeWrites(h, inv, l));
      && Holds(r, PutInvitation(h.revoke(inv)))
      && (h.canInvitationBeRevoked(l) ==> Holds(r, PutLicence(h.unlinked(l))))
      && (!h.canInvitationBeRevoked(l) ==> r.licences == t.licences)
  {
    var ws := RevokeWrites(h, inv, l);
    if h.canInvitationBeRevoked(l) {
      PublishLastWrite(t, ws, 0);
      PublishLastWrite(t, ws, 1);
    } else {
      assert ws[1..] == [];
      assert Publish(t, ws) == Publish(Apply(t, ws[0]), []);
    }
  }

  // ---------------------------------------------------------------------
  // The environment

  class Env {
    const helpers: LicenceHelpers
    const failing: set<Op>
    const readers: map<string, Reader>
    /** The committed rows. */
    var db: Tables
    /** The open transaction and its writes, published only by Commit. */
    var txOpen: bool
    var pending: seq<Write>
    /** Buffers of transactions that were left open and never committed or rolled back. */
    var abandoned: seq<seq<Write>>

    ghost predicate Valid()
      reads this
    {
      KeyedByID(db) && (!txOpen ==> pending == [])
    }

    constructor (helpers: LicenceHelpers, failing: set<Op>, readers: map<string, Reader>, db: Tables)
      requires KeyedByID(db)
      ensures Valid()
      ensures this.helpers == helpers && this.failing == failing && this.readers == readers && this.db == db
      ensures !txOpen && pending == [] && abandoned == []
    {
      this.helpers := helpers;
      this.failing := failing;
      this.readers := readers;
      this.db := db;
      txOpen := false;
      pending := [];
      abandoned := [];
    }

    /** Opens a transaction; one still open is abandoned with its writes. */
    method Begin() returns (err: Option<Error>)
      requires Valid()
      modifies this`txOpen, this`pending, this`abandoned
      ensures Valid()
      ensures OpBegin in failing ==>
        err == Some(ErrDb(OpBegin)) && txOpen == old(txOpen) && pending == old(pending) && abandoned == old(abandoned)
      ensures OpBegin !in failing ==>
        err == None && txOpen && pending == [] && abandoned == old(abandoned) + Leaked(old(txOpen), old(pending))
    {
      if OpBegin in failing {
        return Some(ErrDb(OpBegin));
      }
      abandoned := abandoned + Leaked(txOpen, pending);
      txOpen, pending := true, [];
      return None;
    }

    /** Discards the open transaction; its error is ignored by every caller. */
    method Rollback()
      modifies this`txOpen, this`pending
      ensures !txOpen && pending == []
    {
      txOpen, pending := false, [];
    }

    /** Adds a write to the open transaction unless the database refuses op. */
    method Stage(op: Op, w: Write) returns (err: Option<Error>)
      requires Valid() && txOpen
      modifies this`pending
      ensures Valid() && txOpen
      ensures op in failing ==> err == Some(ErrDb(op)) && pending == old(pending)
      ensures op !in failing ==> err == None && pending == old(pending) + [w]
    {
      if op in failing {
        return Some(ErrDb(op));
      }
      pending := pending + [w];
      return None;
    }

    /** Publishes the open transaction's writes; a failed commit publishes nothing. */
    method Commit() returns (err: Option<Error>)
      requires Valid() && txOpen
      modifies this`db, this`txOpen, this`pending
      ensures Valid() && !txOpen && pending == []
      ensures OpCommit in failing ==> err == Some(ErrDb(OpCommit)) && db == old(db)
      ensures OpCommit !in failing ==> err == None && db == Publish(old(db), old(pending))
    {
      if OpCommit in failing {
        txOpen, pending := false, [];
        return Some(ErrDb(OpCommit));
      }
      db := Publish(db, pending);
      txOpen, pending := false, [];
      return None;
    }

    /**
     * Creates an invitation for a licence. `generated` is what building the
     * invitation from the input produced (None when its token could not be
     * generated) and `today` is the current day.
     */
    method CreateInvitation(input: InvitationInput, generated: Option<Invitation>, today: Date)
      returns (r: Result<InvitedLicence, Error>)
      requires Valid()
      modifies this`db, this`txOpen, this`pending, this`abandoned
      ensures Valid()
      ensures OpBegin in failing ==>
        r == Failure(ErrDb(OpBegin)) && db == old(db)
        && txOpen == old(txOpen) && pending == old(pending) && abandoned == old(abandoned)
      ensures OpBegin !in failing ==> abandoned == old(abandoned) + Leaked(old(txOpen), old(pending))
      // No error path commits anything.
      ensures r.Failure? ==> db == old(db)
      // Every error detected before the writes is returned after a rollback.
      ensures OpBegin !in failing ==>
        var v := CheckCreate(old(db), readers, failing, helpers, input, today);
        && (v.Failure? ==> r == Failure(v.error) && !txOpen && pending == [])
        && (v.Success? && generated.None? ==> r == Failure(ErrRandom) && !txOpen && pending == [])
      ensures OpBegin !in failing ==>
        var v := CheckCreate(old(db), readers, failing, helpers, input, today);
        v.Success? && generated.Some? ==>
          var inv := generated.value;
          var base := helpers.invited(v.value.licence, inv);
          && (OpSetLicenceInvited in failing ==>
                r == Failure(ErrDb(OpSetLicenceInvited)) && !txOpen && pending == [])
          // A failed save is returned WITHOUT a rollback: the transaction stays open.
          && (OpSetLicenceInvited !in failing && OpSaveInvitation in failing ==>
                r == Failure(ErrDb(OpSaveInvitation)) && txOpen && pending == [PutLicence(base)])
          && (OpSetLicenceInvited !in failing && OpSaveInvitation !in failing && OpCommit in failing ==>
                r == Failure(ErrDb(OpCommit)) && !txOpen && pending == [])
          && (OpSetLicenceInvited !in failing && OpSaveInvitation !in failing && OpCommit !in failing ==>
                && r == Success(InvitedLicence(inv, base, v.value.licence.plan, InviteeAssignee(v.value.invitee, input.email)))
                && db == Publish(old(db), [PutLicence(base), PutInvitation(inv)])
                && !txOpen && pending == [])
      // On success the returned rows are the committed ones.
      ensures r.Success? ==>
        && r.value.licence.id in db.licences && db.licences[r.value.licence.id] == r.value.licence
        && r.value.invitation.id in db.invitations && db.invitations[r.value.invitation.id] == r.value.invitation
      ensures r.Success? && r.value.assignee.ftcID.IsZero() ==> r.value.assignee.email == StringFrom(input.email)
    {
      ghost var v := CheckCreate(db, readers, failing, helpers, input, today);
      var e := Begin();
      if e.Some? {
        return Failure(e.value);
      }

      var lookup := RetrieveLicence(db, failing, input.licenceID, input.teamID);
      if lookup.Failure? {
        Rollback();
        return Failure(lookup.error);
      }
      var licence := lookup.value;

      if !helpers.isAvailable(licence) {
        Rollback();
        return Failure(ErrLicenceUnavailable);
      }

      if InviteeMismatch(licence, input.email) {
        Rollback();
        return Failure(ErrInviteeMismatch);
      }

      // A reader that is not found is not an error.
      var found := FindReader(readers, failing, input.email);
      if found.Failure? && found.error != ErrNoRows {
        Rollback();
        return Failure(found.error);
      }
      var invitee := if found.Success? then found.value else ZeroReader;

      if !Model.IsExpired(invitee.membership, today) {
        Rollback();
        return Failure(ErrAlreadyMember);
      }
      assert v == Success(Admission(licence, invitee));

      var assignee := invitee.assignee;
      if assignee.ftcID.IsZero() {
        assignee := assignee.(email := StringFrom(input.email));
      }

      if generated.None? {
        Rollback();
        return Failure(ErrRandom);
      }
      var inv := generated.value;

      var baseLicence := helpers.invited(licence, inv);
      e := Stage(OpSetLicenceInvited, PutLicence(baseLicence));
      if e.Some? {
        Rollback();
        return Failure(e.value);
      }

      e := Stage(OpSaveInvitation, PutInvitation(inv));
      if e.Some? {
        return Failure(e.value);
      }

      e := Commit();
      if e.Some? {
        return Failure(e.value);
      }
      PublishTwo(old(db), PutLicence(baseLicence), PutInvitation(inv));
      return Success(InvitedLicence(inv, baseLicence, licence.plan, assignee));
    }

    /** Revokes an invitation of team `teamID`, and unlinks its licence when the licence allows it. */
    method RevokeInvitation(invID: string, teamID: string) returns (err: Option<Error>)
      requires Valid()
      modifies this`db, this`txOpen, this`pending, this`abandoned
      ensures Valid()
      ensures OpBegin in failing ==>
        err == Some(ErrDb(OpBegin)) && db == old(db)
        && txOpen == old(txOpen) && pending == old(pending) && abandoned == old(abandoned)
      ensures OpBegin !in failing ==>
        abandoned == old(abandoned) + Leaked(old(txOpen), old(pending)) && !txOpen && pending == []
      ensures err.Some? ==> db == old(db)
      ensures OpBegin !in failing ==>
        var found := RetrieveInvitation(old(db), failing, invID, teamID);
        && (found.Failure? ==> err == Some(found.error))
        && (found.Success? ==>
              var lookup := FindInvitedLicence(old(db), failing, found.value);
              // Only a licence that is not found aborts; any other lookup error goes on with the zero licence.
              && (lookup == Failure(ErrNoRows) ==> err == Some(ErrNoRows))
              && (lookup != Failure(ErrNoRows) ==>
                    var l := if lookup.Success? then lookup.value else ZeroLicence;
                    var unlink := helpers.canInvitationBeRevoked(l);
                    && (OpRevokeInvitation in failing ==> err == Some(ErrDb(OpRevokeInvitation)))
                    && (OpRevokeInvitation !in failing && unlink && OpUnlinkInvitedLicence in failing ==>
                          err == Some(ErrDb(OpUnlinkInvitedLicence)))
                    && (OpRevokeInvitation !in failing && (unlink ==> OpUnlinkInvitedLicence !in failing) ==>
                          && (OpCommit in failing ==> err == Some(ErrDb(OpCommit)))
                          && (OpCommit !in failing ==>
                                err == None && db == Publish(old(db), RevokeWrites(helpers, found.value, l))))))
    {
      var e := Begin();
      if e.Some? {
        return e;
      }

      var found := RetrieveInvitation(db, failing, invID, teamID);
      if found.Failure? {
        Rollback();
        return Some(found.error);
      }
      var inv := found.value;

      // Aborts on "not found"; other errors leave the zero licence.
      var lookup := FindInvitedLicence(db, failing, inv);
      if lookup.Failure? && lookup.error == ErrNoRows {
        Rollback();
        return Some(lookup.error);
      }
      var licence := if lookup.Success? then lookup.value else ZeroLicence;

      inv := helpers.revoke(inv);
      e := Stage(OpRevokeInvitation, PutInvitation(inv));
      if e.Some? {
        Rollback();
        return e;
      }

      if helpers.canInvitationBeRevoked(licence) {
        e := Stage(OpUnlinkInvitedLicence, PutLicence(helpers.unlinked(licence)));
        if e.Some? {
          Rollback();
          return e;
        }
      }

      e := Commit();
      return e;
    }
  }

  lemma PublishTwo(t: Tables, a: Write, b: Write)
    ensures Publish(t, [a, b]) == Apply(Apply(t, a), b)
  {
    assert [a, b][1..] == [b];
    assert [b][1..] == [];
    assert Publish(Apply(t, a), [b]) == Publish(Apply(Apply(t, a), b), []);
  }
}
