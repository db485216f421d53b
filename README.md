# B2B licence invitations, modelled in Dafny

This project models the part of the FTAcademy corporate ("B2B") service that
offers a team's licence to a reader by email. It has four parts:

- **Membership records** (module `Model`, `membership.dfy`). A reader's
  membership row stores each fact twice. The legacy columns hold a tier code
  (10 or 100), an expiry in unix seconds and a wechat id. The structured
  columns hold a tier enum, an expire date, an ftc id and a union id.
  `Normalize` reconciles the two. `WithLicenceGranted` and
  `WithLicenceRevoked` turn a membership into a B2B-granted one or a cleared
  one. `HasMembership` and `IsExpired` are predicates. Note that
  `HasMembership` is true when the compound id is *absent*; the model keeps
  that meaning, because the grant and the expiry test rely on it.
- **Invitations** (module `Licence`, `licence.dfy`). An invitation is
  created with status Created and a 7-day window. It expires by int64
  arithmetic on unix seconds, and it is guarded by `IsAcceptable` and
  `IsRevocable`. `Accepted` and `Revoked` return modified copies from any
  status. `FormatDuration` prints the window.
- **The create/revoke workflow** (module `Subs`, `invitations.dfy`). This is
  a class `Env` holding:
  - the committed licence and invitation tables;
  - the reader accounts, found by email;
  - the open transaction's buffer of pending writes, which only `Commit`
    publishes;
  - the set of operations the database refuses. This set models
    infrastructure errors.

  `CreateInvitation` and `RevokeInvitation` run the steps of the source,
  including its early returns, its rollbacks and the rollback it leaves out.
  The read-only checks of `CreateInvitation` are specified by the pure
  function `CheckCreate`. Those of `RevokeInvitation` are stated in its own
  contract. The writes of both are specified by `Publish`.
- **URLs** (module `SiteUrl`, `site_url.dfy`). These are the site's base URLs
  and the three links mailed to administrators and readers.

Supporting modules:
- `Wrappers`: Option and Result.
- `Null`: nullable SQL columns. A value and a `Valid` flag. A NULL still
  carries a payload.
- `Numeric`: Go's `int64`, and `Wrap`, its two's-complement wrap-around.
- `Chrono`: dates as an ordered day count whose zero is Go's zero time. Also
  the date/unix-seconds conversion `Calendar`, a parameter because it depends
  on the time zone.
- `Enum`: tier, cycle, payment method, subscription status, snapshot reason.
- `Fmt`: Go's `%d`, with its inverse.

## Behaviour kept as the code writes it

- **Invitee guard.** The check at `internal/app/b2b/repository/subs/invitations.go:52`
  fires when the licence has *no* recorded invitee email and the NULL column's
  payload differs from the requested email. A recorded email never triggers it.
  - `RecordedInviteeNeverMismatches` and `NullInviteeRejectsEveryEmail` prove
    the consequence: a licence whose column is NULL, scanned as the empty
    string, rejects every non-empty email.
  - The comment above the check (`invitations.go:50-51`) describes the
    opposite case: another reader is already invited, so the admin must revoke
    first. The model follows the code.
- **Licence lookup in `RevokeInvitation`.** It aborts on "not found"
  (`invitations.go:126`) although the comment says that case is ignored.
  Any other lookup error goes on with the zero licence.
- **No rollback after a failed save.** When saving the invitation fails, the
  transaction is not rolled back (`invitations.go:92-95`). The model leaves the
  transaction open, holding the licence write. The next `Begin` records that
  buffer in `abandoned`; it is never published.
- **No status check in `RevokeInvitation`.** Its contract succeeds on any
  invitation it finds, whatever its status. The comment at
  `internal/pkg/licence/invitation.go:20-22` says an accepted invitation
  cannot be revoked, but `IsRevocable` is never consulted here.
- **Transitions from any status.** `Accepted` and `Revoked` apply from any
  status (`TransitionsIgnoreStatus`). Terminal states hold only through the
  guards of the callers.

## Model

| member | source | states |
|---|---|---|
| `Model.GenerateMemberID` | internal/pkg/model/membership.go:12-14 | a member id is "mmb_" followed by the random part |
| `Model.LegacyCode` | internal/pkg/model/membership.go:124-132 | Standard and Premium get codes that map back to the same tier |
| `Model.Normalized` | internal/pkg/model/membership.go:90-133 | a record with no compound id is unchanged; only the id, expiry and tier columns are ever rewritten |
| `Model.Normalize` | internal/pkg/model/membership.go:90-133 | the source's step-by-step in-place chain yields exactly the column-wise normalization `Normalized` |
| `Model.HasMembership` | internal/pkg/model/membership.go:86-88 | true exactly when the compound id is NULL: the name is inverted |
| `Model.IsExpired` | internal/pkg/model/membership.go:135-146 | a record without a compound id is always expired; with one, expired exactly when it does not auto-renew and its expire date is strictly before today |
| `Model.TierFromLegacy` | internal/pkg/model/membership.go:115-122 | Standard exactly for code 10, Premium exactly for code 100, no tier for any other code |
| `Model.ZeroMembershipIsExpired` | internal/pkg/model/membership.go:86-88 | the zero membership that a missing reader carries counts as expired |
| `Model.NormalizeIdempotent` | internal/pkg/model/membership.go:90-133 | normalizing twice gives the same record as normalizing once |
| `Model.NormalizeIds` | internal/pkg/model/membership.go:96-103 | with ftc and union id both NULL: union id := wechat id when the compound id's string equals it, else ftc id := compound id; ids already present are untouched |
| `Model.NormalizeExpiry` | internal/pkg/model/membership.go:106-113 | only a legacy expiry: the expire date is derived from it; only an expire date: the legacy expiry becomes its unix seconds; both or neither: both kept |
| `Model.NormalizeTier` | internal/pkg/model/membership.go:115-132 | codes 10/100 give Standard/Premium when the tier is NULL, other codes give no tier; Standard/Premium give 10/100 when the code is NULL; both present: both kept |
| `Model.NormalizeReconciles` | internal/pkg/model/membership.go:105-132 | when at most one form of each fact is present and the calendar round-trips the date, afterwards the two expiry columns and the two tier columns agree |
| `Model.WithLicenceGranted` | internal/pkg/model/membership.go:36-65 | pay method B2B, B2B licence id, no auto-renewal; tier, cycle and expire date from the licence; Stripe, Apple and status cleared; a member id always present; no prior row gives compound and ftc id := the assignee, a fresh member id and the union id kept; an existing row keeps its member id when present and gets its ftc or union id derived from the compound id when both are NULL; legacy tier and expiry re-derived when a compound id exists, NULL otherwise |
| `Model.GrantedIsNormalized` | internal/pkg/model/membership.go:47-62 | a granted record is already normalized |
| `Model.GrantedExpiry` | internal/pkg/model/membership.go:36-65 | a grant is in force until the licence's expire date, except a grant to no row and no assignee, which keeps no compound id and stays expired |
| `Model.RegrantKeepsIdentity` | internal/pkg/model/membership.go:36-45 | revoking and re-granting keeps the member id and compound id and takes the new licence's id and expiry |
| `Model.WithLicenceRevoked` | internal/pkg/model/membership.go:69-84 | legacy tier and expiry become 0; tier, cycle, pay method NULL; zero expire date; no auto-renewal; subscription and licence ids NULL; member id, compound, ftc, union and wechat ids unchanged |
| `Model.RevokedIsExpired` | internal/pkg/model/membership.go:69-84 | a revoked membership is expired on every day after the zero date |
| `Model.NormalizeAfterRevoke` | internal/pkg/model/membership.go:70-74 | the legacy expiry 0 written by revocation makes normalization set the expire date to unix second 0, and code 0 gives no tier |
| `Model.NewMemberSnapshot` | internal/pkg/model/membership.go:155-162 | the snapshot copies the membership, has reason B2B and the given time, and an id "snp_" plus the random part |
| `Numeric.Wrap` | internal/pkg/licence/invitation.go:66 | Go's int64 result: the value itself when it fits, otherwise the int64 congruent to it modulo 2^64 |
| `Licence.NewInvitation` | internal/pkg/licence/invitation.go:36-56 | a token error is returned with no invitation; otherwise status Created, 7 days, email, licence id and description from the params, admin and team from the claims, the token, the given id, created and updated now |
| `Licence.NewInvitationAcceptable` | internal/pkg/licence/invitation.go:36-74 | a fresh invitation is acceptable at every second of its seven days |
| `Licence.Deadline` | internal/pkg/licence/invitation.go:66 | the deadline is created + days*86400 when that fits in an int64, and is congruent to it modulo 2^64 always |
| `Licence.IsExpired` | internal/pkg/licence/invitation.go:60-67 | without int64 overflow, expired exactly when created + days*86400 < now |
| `Licence.IsRevocable` | internal/pkg/licence/invitation.go:84-86 | revocable exactly when the invitation is neither accepted nor revoked |
| `Licence.NotExpiredAtDeadline` | internal/pkg/licence/invitation.go:66 | the comparison is strict: at exactly the deadline the invitation is not expired |
| `Licence.ExpiredStaysExpired` | internal/pkg/licence/invitation.go:60-67 | once expired, expired at every later time, overflow or not |
| `Licence.SevenDayWindow` | internal/pkg/licence/invitation.go:60-67 | a 7-day invitation created at T is valid at T+6d23h and at T+7d, expired at T+7d+1s |
| `Licence.IsAcceptable` | internal/pkg/licence/invitation.go:72-74 | acceptable implies revocable and not expired |
| `Licence.Accepted` | internal/pkg/licence/invitation.go:77-82 | status Accepted, updated now, every other field unchanged; the result is neither acceptable nor revocable |
| `Licence.Revoked` | internal/pkg/licence/invitation.go:89-94 | status Revoked, updated now, every other field unchanged; the result is neither acceptable nor revocable |
| `Licence.TransitionsIgnoreStatus` | internal/pkg/licence/invitation.go:77-94 | both transitions apply from any status; repeating one keeps its status |
| `Licence.FormatDuration` | internal/pkg/licence/invitation.go:96-98 | the text ends in 天 and starts with a minus sign exactly when the window is negative |
| `Licence.FormatDurationDecodes` | internal/pkg/licence/invitation.go:96-98 | the text is the decimal window followed by 天, it parses back to the window, and distinct windows print differently |
| `Fmt.FormatInt` | internal/pkg/licence/invitation.go:97 | `%d` text: a minus sign exactly for negative numbers, then decimal digits only, with no leading zero except for 0 itself |
| `Fmt.FormatIntRoundTrip` | internal/pkg/licence/invitation.go:97 | the decimal text of `%d` parses back to the integer |
| `SiteUrl.BaseURLsUnderSite` | internal/pkg/site_url.go:3-8 | B2B base = site + "/corporate", user base = site + "/user", reader verification = site + "/user/verification" |
| `SiteUrl.B2BPasswordResetURL` | internal/pkg/site_url.go:10-12 | the link starts with the B2B base URL and ends with the token |
| `SiteUrl.B2BVerifyAdminURL` | internal/pkg/site_url.go:14-16 | the link starts with the B2B base URL and ends with the token |
| `SiteUrl.B2BVerifyInvitationURL` | internal/pkg/site_url.go:18-20 | the link starts with the B2B base URL and ends with the token |
| `SiteUrl.PasswordResetURLInjective` | internal/pkg/site_url.go:10-12 | distinct tokens give distinct password-reset links |
| `SiteUrl.VerifyAdminURLInjective` | internal/pkg/site_url.go:14-16 | distinct tokens give distinct verification links |
| `SiteUrl.VerifyInvitationURLInjective` | internal/pkg/site_url.go:18-20 | distinct tokens give distinct invitation links |
| `SiteUrl.BuildersDisjoint` | internal/pkg/site_url.go:10-20 | no two of the three builders yield the same link for any tokens |
| `Subs.Publish` | internal/app/b2b/repository/subs/invitations.go:97-99 | publishing writes keeps every row under its own id, loses no row and stores every written id |
| `Subs.PublishKeeps` | internal/app/b2b/repository/subs/invitations.go:97-99 | a row that no write addresses is kept as it was |
| `Subs.PublishLastWrite` | internal/app/b2b/repository/subs/invitations.go:97-99 | each written row holds the last write made to its id |
| `Subs.RetrieveLicence` | internal/app/b2b/repository/subs/invitations.go:37 | found exactly when the licence exists and belongs to the team, and then it is that row, under its own id; otherwise "no rows", or the database error when the read is refused |
| `Subs.FindReader` | internal/app/b2b/repository/subs/invitations.go:59 | found exactly when an account is registered under the email, and then it is that account; otherwise "no rows", or the database error |
| `Subs.RetrieveInvitation` | internal/app/b2b/repository/subs/invitations.go:116 | found exactly when the invitation exists and belongs to the team, and then it is that row, under its own id; otherwise "no rows", or the database error |
| `Subs.FindInvitedLicence` | internal/app/b2b/repository/subs/invitations.go:124 | found exactly when the invitation's licence exists in the invitation's team, and then it is that row; otherwise "no rows", or the database error |
| `Subs.InviteeMismatch` | internal/app/b2b/repository/subs/invitations.go:52 | a recorded invitee email never mismatches; a NULL one mismatches exactly when its payload differs from the requested email |
| `Subs.CheckCreate` | internal/app/b2b/repository/subs/invitations.go:36-70 | a failed licence lookup returns its error; an unavailable licence gives ErrLicenceUnavailable; ErrInviteeMismatch exactly when the licence is available, its invitee column is NULL and its payload differs from the email; a reader lookup error other than "no rows" is returned; an admitted invitee (a missing one carries the zero reader) has an expired membership; the checks pass exactly when the licence is found, available and not mismatched, the reader is found or missing, and its membership is expired |
| `Subs.InviteeAssignee` | internal/app/b2b/repository/subs/invitations.go:72-74 | a reader without an ftc id is addressed by the requested email; a reader with one is unchanged |
| `Subs.RecordedInviteeNeverMismatches` | internal/app/b2b/repository/subs/invitations.go:52-55 | a licence with a recorded invitee email never gets ErrInviteeMismatch |
| `Subs.NullInviteeRejectsEveryEmail` | internal/app/b2b/repository/subs/invitations.go:52-55 | an available licence whose invitee column is NULL gets ErrInviteeMismatch for every non-empty email |
| `Subs.MissingReaderIsAdmitted` | internal/app/b2b/repository/subs/invitations.go:57-70 | "no rows" for the reader is no error: the zero reader is admitted |
| `Subs.ActiveMemberIsRejected` | internal/app/b2b/repository/subs/invitations.go:65-70 | a found reader whose membership is not expired gets ErrAlreadyMember |
| `Subs.RevokeWrites` | internal/app/b2b/repository/subs/invitations.go:131-145 | a revocation writes the revoked invitation, then the unlinked licence only when the licence allows it |
| `Subs.RevokeCommitsRows` | internal/app/b2b/repository/subs/invitations.go:131-151 | after a committed revocation the tables hold the revoked invitation and, when allowed, the unlinked licence; otherwise the licences are unchanged |
| `Subs.Env.constructor` | internal/app/b2b/repository/subs/invitations.go:30 | a new environment holds the given tables, readers, helpers and refused operations, with no transaction open and none abandoned |
| `Subs.Env.Begin` | internal/app/b2b/repository/subs/invitations.go:31-34 | a refused begin changes nothing; otherwise begin opens an empty transaction and records an open one as abandoned |
| `Subs.Env.Rollback` | internal/app/b2b/repository/subs/invitations.go:40 | the transaction is closed and its writes are discarded |
| `Subs.Env.Stage` | internal/app/b2b/repository/subs/invitations.go:84-95 | a refused write returns its error and buffers nothing; otherwise the write is appended to the open transaction |
| `Subs.Env.Commit` | internal/app/b2b/repository/subs/invitations.go:97-99 | a successful commit publishes the buffered writes in order; a failed one publishes nothing; either way the transaction is closed |
| `Subs.Env.CreateInvitation` | internal/app/b2b/repository/subs/invitations.go:30-107 | each `CheckCreate` error and a token error is returned after a rollback; a failed licence write is rolled back; a failed save is returned with the transaction left open; no error commits; on success exactly the invited licence and the invitation are committed and returned with the plan and the assignee |
| `Subs.Env.RevokeInvitation` | internal/app/b2b/repository/subs/invitations.go:109-152 | a failed invitation lookup, or a licence that is not found, returns the error after a rollback; otherwise the revoked invitation and, when allowed, the unlinked licence are written and committed, with no status check; no error commits |

## Left out

- HTTP routing, the JWT middleware and the reader handlers are not modelled. These are `main.go`, `internal/app/b2b/controller/reader_router.go` and `internal/app/reader/`; they only proxy requests.
- JWT signing, viper configuration and login-page forms are not modelled; they are foreign libraries and UI code.
- SQL statement text, the reader struct, and the order and checkout JSON column wrappers are not modelled.
- The goroutine count-and-list joins and the payment-confirmation workers are not modelled. This covers `AsyncListInvitations`, `AsyncCountInvitation`, `internal/repository/subsrepo/orders.go` and `internal/repository/cmsrepo/confirm_payment_test.go`. Their point is concurrency.
- `AdminTeam`, `ListInvitations` and `CountInvitation` are not modelled; they are single database reads.
- Row locks and concurrent transactions are not modelled. The model runs one call at a time. An abandoned transaction's locks are not modelled either; only its buffer is kept.
- Clocks and randomness are inputs. These are the current time, today's date, member, snapshot and invitation ids, and the invitation token.
- The time-zone-dependent conversion between dates and unix seconds is the `Calendar` parameter.
- Model.Normalize: the source updates the record in place through its receiver. The model returns the updated value, because every caller in this core calls it on a local copy.
- The parts of `input.NewInvitation`, `IsAvailable`, `Invited`, `CanInvitationBeRevoked` and `inv.Revoke` that are not shown are parameters. The row that `UnlinkInvitedLicence` writes is a parameter too. These are the `generated` argument and the fields of `LicenceHelpers`.
- The licence and invitation types of the B2B package are not part of this model. One `Licence` and one `Invitation` datatype stand for both packages' types.
- `reader.Membership` is not part of this model. The invitee's membership is a `Model.Membership` and is judged by `Model.IsExpired`.
- A reader or licence lookup that fails leaves the Go zero value in the model.
- Errors from `Rollback` are ignored, as in the source. A failed `Commit` publishes nothing.
- `admin.NewRowTime` is not part of this model. A new invitation's created and updated times are both `now`.
- The tier enum has only NULL, Standard and Premium.
- Licence.IsExpired: the comparison is stated only for invitations whose deadline fits in an int64. With overflow, `Licence.Deadline` gives the wrapped deadline the code computes.
- Every row write is an upsert keyed by the row's id (`Subs.Apply`). A second `SaveInvitation` with an existing id overwrites that row instead of failing on the duplicate key. `UnlinkInvitedLicence` on the zero licence adds whatever row `unlinked` returns for it when that id is new. The `invited` and `unlinked` helpers are not constrained to keep the licence id.
