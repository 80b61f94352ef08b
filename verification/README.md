# FrejaID accounts, credentials and limits, in Dafny

This project models the part of the FrejaID server in which accounts come and go, and proves what the
server relies on. It covers:

* **the account and credential lifecycle** over the SQLite tables: sign-up, e-mail verification, passkey and
  Freja registration, approval and auto-approval, logins, sessions, settings, credential resets, e-mail
  changes, bans and roles;
* **the sliding-window rate limiter** in front of the public POST endpoints;
* **the encodings the lifecycle rests on**: timestamps compared as text, public keys stored through two
  different JSON/base64 paths, the page scripts' base64url helpers and the signed form token.

## How the lifecycle is modelled

The server has one database connection, so exactly one SQL statement (or one whole transaction) runs at a
time. A request in flight is a program counter with the Go locals it still needs (`Requests.Task`), and
`Requests.Step` is one statement of one request. UNIQUE, PRIMARY KEY and FOREIGN KEY are part of what a
statement does. A run is any sequence of arrivals, single statements of any request in flight, and clients
that vanish (`Runs.Move`, `Runs.Execute`), starting from empty tables; the event log of a run is what the
theorems count and look back at. Everything random or external is an input of the step: the clock, fresh ids
and tokens, which of several matching rows SQLite returns, what the WebAuthn library answers.

Theorems about `Execute` therefore hold at every interleaving of statements. Five promises that rest on
"check, then act" in separate statements are not kept at that granularity: no lockout, one pending reset, one
completion per reset, a rejection standing (`Races`), and an admin's decisions being an admin's (`Authority`).
For each of them

* a lemma says exactly which statement, on which rows, breaks it;
* the window is named (per user, reset, registration or admitted session) in which requests must not overlap, and
  the promise is proved for every run in which they do not, whatever else overlaps. A server handling one request
  at a time is such a run;
* `Witnesses` gives a run from empty tables, sign-up included and at any clock reading, in which two overlapping
  requests break it.

`Server.Server` is the imperative form: an object whose fields are the tables, with one method per handler.
Each method is proved to be a run of the statement machine for its request (`Done`), so every theorem about
runs holds of the object between requests; `Guarantees` spells the main ones out.

| file | content |
|---|---|
| `Basics`, `Text` | options, bytes, ids; byte order, case, trimming, decimals, splitting |
| `Timestamps`, `Base64`, `PublicKeys`, `FormToken` | encodings |
| `RateLimiter` | the limiter, in place, against a never-forgetting one |
| `Tables`, `Requests`, `Runs` | rows and statements; requests and steps; runs |
| `Effects`, `Steps` | which statement changes which table, and how, one table at a time; the proof of it |
| `Integrity`, `Writes` | constraints; what each write and each check refuses |
| `Conservation`, `Accounts`, `Names` | one-shot tokens; accounts; user names up to case |
| `History`, `Sessions`, `Sweeping` | sessions against the event history; cleanup is invisible |
| `Tickets`, `Registrations`, `ResetLinks` | challenges, tokens, registration rows and mailed links against the event history |
| `Lookups`, `Warrants` | which row each lookup finds; what every event rests on |
| `Provenance`, `Authority` | where admin decisions come from; whether they still were an admin's when carried out |
| `Freja`, `Resets`, `Keys`, `Origins` | subject ownership; reset lifecycle; stored keys; where subjects and names come from |
| `Races`, `Scenarios`, `Witnesses` | overlapping handlers; runs of single requests; runs in which a promise breaks |
| `Server`, `Guarantees` | the handlers as methods, and what holds of them |

## Where the code and its documentation differ

* The schema overview in the repository's README (line 462) calls sessions "rolling". `GetSession` only
  updates `last_seen_at`; a session ends thirty days after the second it was created in, whatever is visited
  (`Sessions.GetSessionRefinesHistory`).
* The schema comment on `users.username` (migration 001, line 24) says it is treated as case-insensitive.
  UNIQUE is byte-wise: `Witnesses.NamesDifferInCaseOnly` is a run, one request after the other, to accounts `a`
  and `A`, and `Names.NamesFoldExactly` says which approvals and e-mail changes bring such a pair about.
* `deletePasskey` is documented to refuse to leave a user without passkeys. Two overlapping deletions can
  (`Witnesses.DeletionsLockOut`); `Races.LockoutExactly` says which statements ever do.
* The comments of `requestCredentialReset` and `approveCredentialReset` promise one pending request per user and
  provider and a one-time token. Overlapping requests leave two pending (`Witnesses.RequestsPileUp`) and complete
  one reset twice (`Witnesses.ResetCompletesTwice`); `Races.SecondPendingExactly` and
  `Races.SecondCompletionExactly` say when.
* `RejectRegistration` is documented to guard against an already processed row. An approval that read the row
  before the rejection still commits after it (`Witnesses.RejectedIsApproved`); `Races.RejectionUndoneExactly`
  says when.
* The header of `session.go` (line 6) promises that a ban invalidates sessions instantly. A request that
  GetSession has let in is carried out after the admin was banned or demoted or logged out
  (`Witnesses.RevokedStillDecides`); `Authority.AuthorityLostExactly` says which statements end the authority.
* The rebinding UPDATE of `frejaLogin` is documented as self-healing. An account with two Freja rows is never healed
  (`Witnesses.RebindFails`); `Freja.RebindNeedsOneRow` says when one is.
* A Freja approval whose subject is already held creates an account that has no way to log in
  (`Witnesses.BornLockedOut`); `Accounts.BirthExactly` says when.
* `resetFreja` is documented to upsert the Freja identity of the account. Where another account holds the subject,
  the reset is completed and the session opened, the account does not own the subject, and the other account's row
  now reports the first one's address (`Witnesses.ResetLeavesSubject`); `Freja.ResetOwnsExactly` and
  `Lookups.AddressOfReset` say when.

## Model

| member | source | states |
|---|---|---|
| Timestamps.CivilIsGregorian | internal/auth/session.go:83 | the calendar behind the rendering: every day number renders as an existing date whose closed-form Gregorian day count is that number, leap years and month lengths included |
| Timestamps.FormatOrder | internal/db/migrations/001_init.up.sql:10-12 | the fixed-width rendering is strictly monotone: string order is second order for all four-digit years |
| Timestamps.FormatReads | internal/auth/session.go:83 | the text reads as "2006-01-02 15:04:05" does: five separators in place, a Gregorian date that exists and a time of day, which together are the rendered second |
| Timestamps.StampOrder | internal/auth/session.go:112-116 | every `expires_at > now` string test equals the comparison of whole seconds |
| Timestamps.Lifetime | internal/auth/session.go:83-116 | an expiry written at t0 answers "not expired" exactly while now < floor(t0) + lifetime: more than lifetime - 1 s, at most lifetime |
| Base64.DecodeEncode | internal/auth/handler.go:490-493 | standard padded base64, as encoding/json writes []byte, decodes to what was encoded |
| Base64.SymbolTable | internal/auth/handler.go:490-493 | Table 1 of RFC 4648: the four runs of the alphabet |
| Base64.GroupsAreBigEndian | internal/auth/handler.go:490-493 | a group of octets and its sextets are one number, most significant first, short groups filled with zeros |
| Base64.EncodeVectors | internal/auth/handler.go:490-493 | vectors of section 10 of RFC 4648 |
| Base64.BufferToBase64Shape | internal/auth/handler.go:1140-1143 | bufferToBase64 yields ceil(4n/3) characters, all of the URL-safe alphabet, no padding |
| Base64.BufferRoundTrip | internal/auth/handler.go:1133-1143 | base64ToBuffer(bufferToBase64(b)) = b for every byte string |
| Base64.TextRoundTrip | internal/auth/handler.go:1133-1143 | unpadded URL-safe text survives the opposite trip if and only if it is canonical |
| PublicKeys.LoadKeyColumn | internal/auth/handler.go:828-830 | a key stored with one JSON layer is read back exactly |
| PublicKeys.UnparkPark | internal/auth/handler.go:490-505 | the parked credential JSON gives every field back, the key with one of its two layers still on |
| PublicKeys.TwoPathsOneKey | internal/auth/handler.go:600-617 | park-then-approve and add-directly leave the same column, and it loads to the authenticator's key |
| FormToken.IssuedToken | internal/auth/handler.go:897-922 | an issued token is accepted at t1 exactly when t1 - t0 >= 2 (int64 wrap-around included), whatever the HMAC |
| FormToken.AcceptedIsSigned | internal/auth/handler.go:906-922 | every accepted text is a timestamp without dot, a dot and the HMAC of that timestamp |
| Text.EqualFoldExactly | internal/auth/handler.go:80 | comparing lower-cased texts is: equal length, and at each position the same character or the two cases of one ASCII letter |
| Text.TrimSpaceExactly | internal/auth/handler.go:80 | trimming takes away the white space around a text, all of it and nothing else |
| Text.NormalisedExactly | internal/user/handler.go:200 | trimming and lower-casing gives the trimmed text in lower case, and nothing else |
| RateLimiter.StoredIsAdmitted | internal/middleware/ratelimit.go:63-79 | past any cutoff not before (latest reading - window) the stored stamps are exactly the admitted ones, in order, for readings in any order |
| RateLimiter.NeverForgets | internal/middleware/ratelimit.go:63-79 | with readings that never go back, a call is admitted iff fewer than max stamps ever admitted are later than now - window |
| RateLimiter.QuotaUnderLag | internal/middleware/ratelimit.go:56-79 | if no reading lags the latest by more than d, every interval (x, x + window - d] holds at most max admitted requests |
| RateLimiter.QuotaUnderLagIsTight | internal/middleware/ratelimit.go:56-79 | for every quota of at least two the interval cannot be one unit longer: readings with lag d put one request more than the quota into (x, x + window - d + 1] |
| RateLimiter.FullWindowExactly | internal/middleware/ratelimit.go:56-79 | every full window holds at most max requests for all readings with lag d (d < window) if and only if d = 0 or max <= 1 |
| RateLimiter.StoredBounded | internal/middleware/ratelimit.go:70-79 | at most max(max, 0) stamps stay stored per IP |
| RateLimiter.Compact | internal/middleware/ratelimit.go:63-72 | the in-place loop keeps exactly the live stamps, in order |
| RateLimiter.OneMoreCall | internal/middleware/ratelimit.go:62-80 | a call for one IP leaves what every other IP has stored untouched, over any mix of callers |
| RateLimiter.IpRateLimiter.Allow | internal/middleware/ratelimit.go:56-80 | the imperative limiter decides and stores as the specification over all calls of that IP says |
| Steps.StepEffect | internal/db/db.go:38-45 | one statement or transaction at a time: every statement of every request changes each table, reports and continues only as the per-table relations of `Effects` allow |
| Integrity.SchemaAlways | internal/db/migrations/001_init.up.sql:34-316 | every UNIQUE, PRIMARY KEY and FOREIGN KEY constraint on the modelled columns, registration_requests.user_id included, holds in every reachable state, at every interleaving |
| Writes.WritesCommitExactly | internal/db/migrations/001_init.up.sql:34-316 | in every reachable state: filing, opening a session, storing a challenge, a passkey, a link or e-mail token or a reset request, and renaming are done, as wanted and reported, iff the primary key is free and every declared constraint would hold of the tables with the row; otherwise nothing changes |
| Writes.DeletionCheckedExactly | internal/auth/passkeys.go:338-352 | a passkey's deletion goes on iff carried out at that moment it would leave its user another one |
| Writes.UnlinkCheckedExactly | internal/auth/freja.go:350-361 | unlinking goes on iff carried out at that moment it would leave the user a way to log in |
| Writes.RequestCheckedExactly | internal/auth/reset.go:65-79 | a reset request goes on iff filed at that moment it would be the only one pending for its user and provider |
| Writes.ApprovalCheckedExactly | internal/auth/handler.go:544-551 | an approval goes on iff a rejection at that moment would still change the row |
| Writes.GrantCheckedExactly | internal/admin/handler.go:270-278 | the approval of a reset goes on iff its denial at that moment would still change the row |
| Writes.LoginCheckedExactly | internal/auth/handler.go:702-712 | a login ceremony begins iff some passkey is the user's and a challenge is drawn |
| Conservation.ConservedAlways | internal/auth/handler.go:709-760 | in every run: uses so far + requests holding it + the stored row never exceed the issues, for each login challenge, add challenge, link token, e-mail token, approval hook and admission of an admin; link and e-mail tokens balance exactly |
| Conservation.PasskeyLoginsWithinBegins | internal/auth/handler.go:718-787 | passkey sessions ever created plus the outstanding challenge never exceed beginLogin upserts, per user |
| Conservation.AddedKeysWithinBegins | internal/auth/passkeys.go:232-299 | passkeys added by settings and resets together plus the outstanding challenge never exceed begins on the shared table, per user |
| Conservation.TokenConsumedOnce | internal/user/handler.go:266-275 | a link or e-mail token issued once is consumed at most once, and exactly when it is no longer stored |
| Conservation.DecisionsWithinAdmissions | internal/auth/session.go:161-171 | one passage through the admin gate decides at most once: for each action (approval, rejection, ban, role, reset approved or denied), cookie and reading, decisions never exceed admissions |
| Accounts.SoundAlways | internal/auth/handler.go:312-317 | a setup token, a credential or a Freja registration implies a verified address, in every reachable state and in what every request in flight remembers |
| Accounts.AccountsAreVerified | internal/auth/handler.go:540-563 | every account belongs to a completed registration with a verified address under its pre-allocated id, though approval never tests it |
| Accounts.OneAccountPerRegistration | internal/auth/handler.go:540-593 | each registration yields at most one account, with its pending_user_id, and calls OnUserCreated at most once, however approvals race |
| Accounts.ApprovalAllOrNothing | internal/auth/handler.go:596-660 | users row, passkey or identity row and status commit together, exactly when every constraint allows all of them; on the Freja branch the identity row appears iff no row held the subject |
| Accounts.BirthExactly | internal/auth/handler.go:596-660 | an account an approval creates can log in at once iff it was approved with a passkey or no row held its Freja subject |
| Witnesses.BornLockedOut | internal/auth/handler.go:632-660 | from empty tables, one request after the other: an approved account that has no way to log in |
| Accounts.QueueIsApprovable | internal/admin/repository.go:49-55 | on reachable states the admin queue lists exactly the registrations SendApprovalEmail's own checks accept |
| Accounts.FinishForNobody | internal/auth/handler.go:739-760 | finishing a login for a name nobody has, or only a banned user, changes no table and creates nothing, at any interleaving |
| Lookups.FinishLoginFinds | internal/auth/handler.go:739-747 | finishLogin's lookup goes on with a user iff by the history the user's name is exactly the address and the latest ban or unban leaves the user unbanned; and with nobody's id iff there is no such user |
| Lookups.BeginLoginFinds | internal/auth/handler.go:687-700 | beginLogin goes on with exactly such a user |
| Warrants.PasskeySessionsAreUnbanned | internal/auth/handler.go:739-787 | every passkey session follows a lookup that found its user by the name the user then had, at a moment when the history says unbanned, and a challenge of the user taken within five minutes of its beginning |
| Tickets.LoginTakenExactly | internal/auth/handler.go:709-760 | finishLogin finds a challenge iff the latest one of the user is untaken and was begun less than five minutes (from its whole second) before |
| Tickets.AddTakenExactly | internal/auth/passkeys.go:232-262 | finishing a passkey, from the settings or a reset, finds a challenge under exactly the same condition |
| Warrants.KeysAreFresh | internal/auth/passkeys.go:246-299 | every passkey added follows a challenge of its user, the latest one and untaken, taken less than five minutes after its beginning |
| Tickets.LinkTakenExactly | internal/auth/freja.go:244-335 | a link is confirmed iff its token is untaken, younger than ten minutes and of that user; and for the subject and address it was issued for |
| Tickets.EmailTakenExactly | internal/user/handler.go:193-266 | an e-mail change is confirmed iff its token is untaken and younger than a day; and for the user and address it was issued for |
| Registrations.VerifiesExactly | internal/auth/handler.go:297-320 | a verification link verifies iff it is the one filed, unused and younger than a day, and the new setup token is nobody else's |
| Registrations.SetupLinkExactly | internal/auth/handler.go:398-410 | the setup link opens iff the address was verified with that token less than a day before and nothing has been decided |
| Registrations.FrejaRegistersExactly | internal/auth/freja.go:90-142 | a Freja registration goes on iff the link is good and Freja reports the filed address up to case; it registers the filed address |
| Registrations.SubmissionsAreWarranted | internal/auth/handler.go:297-519 | in every run: addresses are verified by the mailed link within a day and once, credentials and subjects come through an opened setup link, and a Freja subject only with the filed address up to case |
| ResetLinks.PasskeyLinkExactly | internal/auth/reset.go:141-212 | a passkey reset link opens iff it was mailed with an approval less than 48 h (from its whole second) before, for a passkey request, and the reset is not completed |
| ResetLinks.FrejaLinkExactly | internal/auth/reset.go:268-301 | a Freja reset goes on iff its link is good in the same sense and Freja reports the account's present name up to case |
| Warrants.ResetSubjectsMatch | internal/auth/reset.go:280-310 | every subject a reset brings came with the name, up to case, that the account had when the link was opened |
| Warrants.ChangesAreAsked | internal/user/handler.go:193-222 | every e-mail change is for an address its user asked for while signed in, trimmed and in lower case |
| Warrants.EventsAreWarranted | internal/auth/session.go:161-171 | in every run, lookups, links, changes, additions, renamings, reset requests and reset subjects rest on the earlier events they need, true when they were logged |
| Lookups.SubmissionGoesOn | internal/auth/handler.go:228-248 | a sign-up goes on iff no account has the address as its name up to case, and then iff it was not filed before |
| Lookups.ResetFinds | internal/auth/reset.go:44-61 | a reset is asked for by an address that, trimmed, is the account's name up to case |
| Lookups.EmailChangeGoesOn | internal/user/handler.go:200-215 | an e-mail change goes on iff no other account's name is the new address in some case |
| Lookups.FrejaLoginFinds | internal/auth/freja.go:175-186 | a Freja login goes to the owner of the subject, and falls back to the address iff nobody owns it |
| Lookups.FallbackFinds | internal/auth/freja.go:184-190 | the fallback goes to the owner of a row with that address up to case |
| Lookups.LinkGoesOn | internal/auth/freja.go:255-274 | linking goes on iff no row has the subject or, up to case, the address |
| Lookups.AddressFollows | internal/user/handler.go:286-290 | after a confirmed change every Freja row of the user reports the new address, and nothing else changes |
| Lookups.AddressOfReset | internal/auth/reset.go:303-310 | a reset readdresses the row with its subject, whosever it is, and no other |
| Names.NamesFoldExactly | internal/db/migrations/001_init.up.sql:24 | while no two names agree up to case, they stop being so unique exactly at an approval that commits, or an e-mail change that passes the byte-wise UNIQUE, with a name that some other account holds up to case |
| Witnesses.NamesDifferInCaseOnly | internal/db/migrations/001_init.up.sql:24 | from empty tables, a run to two accounts whose names differ in case only |
| Sessions.GetSessionRefinesHistory | internal/auth/session.go:106-125 | GetSession answers user and role iff the event history says so: latest creation for that user, within thirty days of its second, no logout since, latest ban or unban says unbanned |
| Sweeping.CleanupIsInvisible | internal/auth/session.go:174-176 | with a clock that never goes back, in a run that never draws again the id of a session a sweep has removed: the run and the same run without its sweeps agree on every later GetSession, every other table, every request in flight and every other event |
| Provenance.EveryGrantIsRooted | internal/auth/handler.go:97-120 | every account, and every approval, rejection, ban, role, reset approval and denial, comes from an ADMIN_EMAIL auto-approval or from a request for that very action which GetSession admitted earlier, on a cookie and clock reading at which it was an unexpired session of an unbanned admin whose own role was granted by the same rule |
| Provenance.ChainEnds | internal/admin/handler.go:121-130 | following that chain down always ends at an ADMIN_EMAIL account |
| Provenance.NoBootstrapNoAccounts | internal/auth/handler.go:78-85 | with an empty ADMIN_EMAIL list no account ever exists |
| Authority.DecisionsAreByAdmins | internal/auth/session.go:161-171 | every approval, rejection, ban, role change, reset approval and denial was decided on a cookie that, at the moment of the decision, was an unexpired session (for the reading GetSession took) of an unbanned admin, in every run in which no statement ends that authority while another request admitted on it is under way; whatever else overlaps |
| Authority.AuthorityLostExactly | internal/auth/session.go:106-171 | at any interleaving, a session that is an unbanned admin's stops being so exactly at a ban or demotion of that admin, a logout of that session, or a new session under the id of a swept one for somebody else or already expired |
| Authority.SerialIsUndisturbed | internal/db/db.go:41-45 | a server that serves one request at a time never ends an authority while another request admitted on it is under way |
| Witnesses.RevokedStillDecides | internal/auth/session.go:6 | from empty tables, for a logout, a ban and a demotion each: a run in which it falls between admission and approval, and the account is created all the same |
| Freja.SubjectNeverTransferred | internal/db/migrations/001_init.up.sql:95 | a subject has at most one owner in every reachable state and no single move hands it to another |
| Freja.RebindNeedsOneRow | internal/auth/freja.go:184-203 | the fallback login always goes ahead; afterwards the account owns the subject iff it did before, or no row held it and the account has exactly one Freja row; otherwise nothing changes |
| Witnesses.RebindFails | internal/auth/freja.go:184-203 | from empty tables, a run in which an account with two Freja rows logs in by e-mail address and the new subject stays unowned |
| Freja.OwnershipLasts | internal/auth/freja.go:321-325 | over any continuation without unlink or rebind by the owner, the owner keeps the subject |
| Freja.FallbackLoginSticks | internal/auth/freja.go:184-218 | after a fallback login of an account with one Freja row every later login with that subject resolves to it, until unlink or rebind |
| Freja.ResetOwnsExactly | internal/auth/reset.go:303-324 | a Freja reset goes on to completion and session unless the insert is refused, and then the account owns the subject iff no other account held it |
| Witnesses.ResetLeavesSubject | internal/auth/reset.go:303-324 | from empty tables, a run in which a reset is completed and its session opened with a subject that stays another account's, whose row then reports the wrong address |
| Origins.FrejaRowsHaveOrigins | internal/auth/freja.go:136-335 | after any run, each Freja subject an account holds was submitted for the registration of that account, confirmed by a link token of its user, brought by a reset of its user, or put by a login by e-mail address in the place of one that was; and its address is the registration's, one Freja reported with such a link, one its user confirmed, or one Freja reported in a reset with a subject of the account |
| Origins.UserNamesHaveOrigins | internal/user/handler.go:257-289 | after any run, each user name is the verified address of the account's completed registration or one for which an e-mail token of that user was used |
| Tickets.TakenAsIssued | internal/user/handler.go:193-275 | whatever challenge or token is taken was issued before, untaken since, unexpired, and for the same user and content |
| Races.NoLockout | internal/auth/passkeys.go:338-352 | while no two deletions or unlinks of the same user overlap, whoever has a passkey keeps one and whoever can log in always can, over any continuation, whatever anyone else does |
| Races.NoLockoutFromBirth | internal/auth/passkeys.go:338-352 | while no two deletions or unlinks of the same user overlap, an existing user can log in, unless the account was created for a Freja subject already held |
| Races.LockoutExactly | internal/auth/freja.go:350-361 | exactly which statements take a user's last passkey or last login method, on any tables |
| Witnesses.DeletionsLockOut | internal/auth/passkeys.go:338-352 | from empty tables, a run to an account with two passkeys and two overlapping deletions that leave it with no passkey and no way to log in |
| Races.OnePendingAlways | internal/auth/reset.go:65-79 | while no two requests of a user and provider are between count and insert at once, at most one reset of theirs is pending |
| Races.SecondPendingExactly | internal/auth/reset.go:65-79 | a second pending row appears exactly when the insert of that user and provider finds a row that became pending after its count, under an unused id, for an existing user |
| Witnesses.RequestsPileUp | internal/auth/reset.go:65-79 | from empty tables, a run in which two overlapping requests leave two resets pending for one user and provider |
| Races.ResetCompletesOnce | internal/auth/reset.go:197-251 | while no two requests finish the same reset at once, it completes at most once, and its row says whether it did |
| Races.SecondCompletionExactly | internal/auth/reset.go:241-251 | at any interleaving, a reset is completed once more exactly by a completing statement whose row is completed already |
| Races.CompletedTwiceExactly | internal/auth/reset.go:241-324 | a run completes a reset twice iff it holds such a statement |
| Witnesses.ResetCompletesTwice | internal/auth/reset.go:268-324 | from empty tables, a run in which two requests open the link of one Freja reset and both complete it |
| Races.RejectedStays | internal/admin/repository.go:74-79 | while no two decisions on a registration overlap, its rejection stands over any continuation |
| Races.RejectionUndoneExactly | internal/auth/handler.go:619-626 | a step undoes a rejection if and only if it is an approval transaction for that registration, of a row selected earlier, which every constraint lets through on the current tables; the row is then completed |
| Witnesses.RejectedIsApproved | internal/auth/handler.go:544-580 | from empty tables, a run in which a registration is rejected and afterwards approved, with its account created, by a request that read it before |
| Races.SerialIsAlone | internal/db/db.go:41-45 | a server that serves one request at a time never has two requests in one window |
| Resets.StatusOnlyAdvances | internal/admin/repository.go:172-186 | at every interleaving a reset moves only pending to approved to completed, or pending to rejected |
| Resets.ResetsAreApproved | internal/admin/handler.go:289-291 | every reset-added passkey, every Freja subject a reset stores and every session a reset opens follows the approval of a request of the same user and provider, less than 48 h (from its whole second) before the link was opened, by a request that GetSession admitted for an unbanned admin's unexpired session |
| Keys.LoadedKeyIsAttested | internal/auth/handler.go:810-836 | after any run loadWAUser reads from a row exactly the id and key some ceremony yielded, and that ceremony was the row's user's own |
| Keys.SignCountIsLatest | internal/auth/handler.go:770-780 | the sign count loadWAUser reads is the one the latest login with that credential reported since the row was stored, else the ceremony's |
| Keys.LoadWaUser | internal/auth/handler.go:818-844 | every row of the user, and no other, exactly once, each as one credential with its id, sign count and decoded key |
| Server.Server.constructor | internal/db/migrations/001_init.up.sql:34-316 | empty tables, and the empty run |
| Server.Server.SubmitRequest | internal/auth/handler.go:209-274 | submitRequest after the bot checks, as a run of its statements; it succeeds iff a row was filed, and then for an address that is no user's name up to case and was never filed; the row is unverified, with a link good for a day |
| Server.Server.VerifyEmail | internal/auth/handler.go:297-331 | verifyEmail, as a run of its statements; it succeeds iff a row became verified, one with that token, unverified and unexpired; its setup token is good for a day |
| Server.Server.BeginRegisterPasskey | internal/auth/handler.go:398-439 | beginRegisterPasskey, as a run of its statements; it succeeds iff a challenge was drawn and some setup link with that token is open; a refusal changes nothing |
| Server.Server.FinishRegisterPasskey | internal/auth/handler.go:452-519 | finishRegisterPasskey, auto-approval included, as a run of its statements; it succeeds only with an open setup link, a challenge and an attestation; a refusal changes nothing |
| Server.Server.MatchesAdminEmail | internal/auth/handler.go:78-85 | the loop answers whether some list entry is the address up to surrounding white space and the case of letters, said without the functions it calls |
| Server.Server.AutoApprove | internal/auth/handler.go:97-120 | maybeAutoApprove for an address on the list: approval, hook, promotion, and for Freja the session; it returns an account iff it created one, which then holds role admin, and a cookie only for a session of that account |
| Server.Server.SendApproval | internal/auth/handler.go:540-593 | SendApprovalEmail: select, transaction, hook |
| Server.Server.SendApprovalPasskey | internal/auth/handler.go:596-629 | the passkey transaction: three writes, or a rollback that leaves the tables as they were |
| Server.Server.SendApprovalFreja | internal/auth/handler.go:632-660 | the Freja transaction, with ON CONFLICT DO NOTHING |
| Server.Server.BeginLogin | internal/auth/handler.go:687-727 | beginLogin, as a run of its statements; on success a user of exactly that name, not banned and with a passkey, has a challenge good for five minutes; a refusal changes nothing |
| Server.Server.FinishLogin | internal/auth/handler.go:739-794 | finishLogin with its ignored lookup error, as a run of its statements; a cookie names a session of a user of exactly that name, not banned, whose unexpired challenge is gone; without a cookie the sessions are as before |
| Server.Server.Logout | internal/auth/handler.go:796-804 | logout: a served logout leaves no row for the cookie |
| Server.Server.FrejaRegister | internal/auth/freja.go:90-155 | frejaRegister, as a run of its statements; it succeeds iff some setup link with that token is open and the non-empty address Freja reports is that row's up to case; a refusal changes nothing, and a cookie names a session of an account that this request created with role admin |
| Server.Server.FrejaLogin | internal/auth/freja.go:166-218 | frejaLogin (subject, e-mail fallback, rebinding with ignored error, session) as a run of its statements; a cookie names a session of the owner of the subject, or, where nobody owns it, of the owner of a row with that address up to case |
| Server.Server.FrejaLink | internal/auth/freja.go:244-292 | frejaLink, as a run of its statements; it succeeds iff a confirmation was stored, for a signed-in user and a subject and address no row has, good for ten minutes |
| Server.Server.FrejaLinkConfirm | internal/auth/freja.go:298-335 | frejaLinkConfirm, as a run of its statements; success consumes an unexpired token of that user and adds its row unless the subject is held; identities change only then |
| Server.Server.FrejaUnlink | internal/auth/freja.go:341-364 | frejaUnlink, as a run of its statements; it goes ahead exactly for a signed-in user with a passkey, and then leaves no Freja row |
| Server.Server.CreateSession | internal/auth/session.go:77-102 | exactly one new session, for an existing user under an unused id, or none |
| Server.Server.RequireAuth | internal/auth/session.go:106-171 | lets a request through exactly for a live cookie of an unbanned user, and to admin pages only with role admin |
| Server.Server.CleanupSessions | internal/auth/session.go:174-176 | the sweep, as a run of its statement: exactly the sessions expired at that reading are gone, nothing else changes |
| Server.Server.BeginAddPasskey | internal/auth/passkeys.go:202-242 | beginAddPasskey, as a run of its statements; it succeeds exactly for a signed-in user and a drawn challenge |
| Server.Server.FinishAddPasskey | internal/auth/passkeys.go:246-306 | finishAddPasskey, as a run of its statements; it succeeds iff a passkey was added, for a signed-in user with an unexpired challenge, with what was attested |
| Server.Server.DeletePasskey | internal/auth/passkeys.go:330-354 | deletePasskey, as a run of its statements; it goes ahead exactly for a signed-in user with more than one passkey |
| Server.Server.RequestCredentialReset | internal/auth/reset.go:44-102 | requestCredentialReset, as a run of its statements; it succeeds iff a request was filed, for a user whose name is the address up to case and surrounding white space and who has none pending of that kind |
| Server.Server.BeginResetPasskey | internal/auth/reset.go:141-185 | beginResetPasskey, as a run of its statements; on success the user of an open passkey link has a challenge good for five minutes; a refusal changes nothing |
| Server.Server.FinishResetPasskey | internal/auth/reset.go:191-255 | finishResetPasskey, as a run of its statements; it succeeds iff a passkey was added, for the user of an open passkey link with an unexpired challenge, with what was attested |
| Server.Server.ResetFreja | internal/auth/reset.go:268-324 | resetFreja, as a run of its statements; a session is of the user of an open Freja link whose name is the reported address up to case; without one the sessions are as before |
| Server.Server.ApproveRegistration | internal/admin/handler.go:121-131 | approveRegistration behind the admin gate, as a run of its statements; it returns the new account iff one was created |
| Server.Server.RejectRegistration | internal/admin/handler.go:133-143 | rejectRegistration behind the admin gate, as a run of its statements: exactly for an admin and a pending row the status becomes rejected, and no other row of the table changes |
| Server.Server.SetUserBan | internal/admin/handler.go:187-205 | banUser and unbanUser behind the admin gate, as a run of their statements: exactly for an admin that user's ban flag is as asked, and no other user changes |
| Server.Server.SetUserRole | internal/admin/handler.go:209-222 | setRole behind the admin gate, as a run of its statements: exactly for an admin that user's role is as asked, and no other user changes |
| Server.Server.ApproveCredentialReset | internal/admin/handler.go:262-306 | approveCredentialReset behind the admin gate, as a run of its statements; it succeeds iff a request was approved |
| Server.Server.RejectCredentialReset | internal/admin/handler.go:308-314 | rejectCredentialReset behind the admin gate, as a run of its statements: exactly for an admin and a pending row the status becomes rejected, and no other row of the table changes |
| Server.Server.RequestEmailChange | internal/user/handler.go:193-229 | requestEmailChange, as a run of its statements; it succeeds iff a token was stored, for the signed-in user and the trimmed lower-case address, which is no other user's name in any case, good for a day |
| Server.Server.ConfirmEmailChange | internal/user/handler.go:257-289 | confirmEmailChange, as a run of its statements; on success an unexpired token is consumed, the user alone has the new name, and every Freja row of the user, and no other, reports it; otherwise no name or identity changes |
| Guarantees.ServerIsSound | internal/admin/repository.go:49-55 | between requests the object lists exactly what can be approved and holds accounts of verified registrations only |
| Guarantees.ServerIsConsistent | internal/db/migrations/001_init.up.sql:34-316 | between requests the object satisfies every declared constraint and holds no login challenge for the empty user id |
| Guarantees.ServerResetsOnce | internal/auth/reset.go:65-79 | between requests at most one reset per user and provider is pending, and each reset was completed at most once, exactly if its row says so |
| Guarantees.ServerNeverLocksOut | internal/auth/passkeys.go:328-352 | whoever could log in, or had a passkey, at any earlier moment of the object's life still can and still has |
| Guarantees.ServerDecidesByAdmins | internal/auth/session.go:161-171 | everything decided through the object was decided while the session used was an unbanned admin's |
| Guarantees.ServerAnswersByHistory | internal/auth/session.go:106-125 | the object's tables answer GetSession as the history of what it served does |

## Left out

- Server.Server.FinishLogin: all handler methods are served one request at a time; overlapping requests are covered by the statement machine, not by the class.
- Server.Server.VerifyEmail: one clock reading and one set of random values per handler, where the code reads the clock again for a second timestamp of the same statement; the statement machine takes a new reading for each statement.
- Provenance.EveryGrantIsRooted: between statements an admin may lose the role or the session after GetSession read it, so the moment named is the lookup by that request, not its later write; Authority.DecisionsAreByAdmins says when the authority still stands at the write.
- Authority.DecisionsAreByAdmins: about the admin pages; a signed-in user's own request that was let in before a ban or a logout likewise finishes after it, and nothing is stated about that.
- Freja.SubjectNeverTransferred: holds for the empty subject too, should a proxy deliver one; nothing is claimed about what such a subject means.
- Statement failures other than constraint violations, crashes between statements other than a vanishing client, and collisions of the random primary key of `webauthn_login_sessions`.
- The tables start empty; rows written by earlier versions or by hand are not considered, and no handler deletes a user.
- Columns that no decision reads: names and display names, `created_at`, `updated_at`, `email_verified_at`, `last_used_at`, `aaguid`, backup flags, IP address, user agent, `invited_by`, the Freja name; with them the name check of submitRequest and renaming passkeys.
- Challenge contents beyond "present or absent", sign-count policy and everything else inside the WebAuthn library; its answers are inputs. A nil key, which JSON stores as null, is not distinguished from an empty one.
- JSON other than what the server itself writes for a credential and a byte string; white space and escapes inside it.
- Case folding and trimming beyond ASCII.
- HMAC, SHA-256 and random generation: an arbitrary function and arbitrary inputs.
- CSRF checks, cookies and headers as syntax, the honeypot, rate-limited routing, client address extraction.
- Mail, hooks other than OnUserCreated's number of calls, HTML, redirects, logging, configuration.
- Read-only listings and queries whose result reaches only a page or the WebAuthn library.
