/**
 * Requests in flight. The server runs one SQL statement (or one whole transaction) at a time, so a
 * request is a program counter with the Go locals that are still needed; a step is one statement.
 */
module Requests {
  import opened Basics
  import opened Text
  import opened Timestamps
  import opened Tables
  import opened PublicKeys

  /** ADMIN_EMAIL */
  datatype Config = Config(adminEmails: seq<string>)

  predicate IsAdminEmail(cfg: Config, email: string) {
    exists e :: e in cfg.adminEmails && EqualFold(TrimSpace(e), TrimSpace(email))
  }

  /** Who decides: the ADMIN_EMAIL list, or the admin that GetSession found behind `cookie` at clock reading `at`. */
  datatype Approver = Bootstrap(viaFreja: bool) | By(admin: Id, cookie: Id, at: Instant)

  /** What a session was created for. */
  datatype How = ByPasskey | ByFreja | ByReset(reset: Id, began: Instant) | ByRegistration

  /** What an authenticated request asks for. */
  datatype Action =
    | Logout
    | BeginAdd
    | FinishAdd
    | DeleteKey(key: Id)
    | LinkFreja(email: string, subject: string)
    | ConfirmLink(token: Id)
    | UnlinkFreja
    | ChangeEmail(email: string)
    | Approve(registration: Id)
    | Reject(registration: Id)
    | SetBanned(user: Id, banned: bool)
    | ChangeRole(user: Id, role: Role)
    | GrantReset(reset: Id)
    | DenyReset(reset: Id)

  predicate NeedsAdmin(act: Action) {
    act.Approve? || act.Reject? || act.SetBanned? || act.ChangeRole? || act.GrantReset? || act.DenyReset?
  }

  datatype RegistrationTask =
    | Submit0(email: string)                                  // SELECT users
    | Submit1(email: string)                                  // SELECT EXISTS registration
    | Submit2(email: string)                                  // INSERT
    | Verify0(token: Id)                                      // UPDATE
    | BeginRegister0(token: Id)                               // SELECT
    | BeginRegister1(reg: Id, challenge: string)              // UPDATE
    | FinishRegister0(token: Id)                              // SELECT
    | FinishRegister1(reg: Id, email: string)                 // verify, UPDATE
    | FrejaRegister0(token: Id, email: string, subject: string)   // SELECT
    | FrejaRegister1(reg: Id, email: string, subject: string, reported: string)   // UPDATE
    | Approve0(reg: Id, why: Approver)                        // SELECT
    | Approve1(reg: Id, row: Registration, why: Approver)     // transaction
    | Approve2(reg: Id, user: Id, why: Approver)              // hook
    | Promote(user: Id, viaFreja: bool)                       // UPDATE
    | Reject0(reg: Id, why: Approver)                         // UPDATE

  datatype LoginTask =
    | BeginLogin0(email: string)                              // SELECT user
    | BeginLogin1(user: Id)                                   // SELECT passkeys
    | BeginLogin2(user: Id, challenge: string)                // upsert
    | FinishLogin0(email: string)                             // SELECT user
    | FinishLogin1(user: Id)                                  // DELETE ... RETURNING
    | FinishLogin2(user: Id)                                  // verify, UPDATE sign_count
    | FrejaLogin0(email: string, subject: string)             // SELECT by subject
    | FrejaLogin1(email: string, subject: string)             // SELECT by email
    | FrejaLogin2(user: Id, subject: string)                  // UPDATE subject
    | EnterSession(user: Id, how: How)                        // INSERT session
    | Logout0(session: Id)                                    // DELETE
    | Sweep0                                                  // DELETE expired

  datatype SettingsTask =
    | BeginAdd0(user: Id)                                     // upsert
    | FinishAdd0(user: Id)                                    // DELETE ... RETURNING
    | FinishAdd1(user: Id, began: Instant)                    // verify, INSERT
    | DeleteKey0(user: Id, key: Id)                           // COUNT
    | DeleteKey1(user: Id, key: Id)                           // DELETE
    | Link0(user: Id, email: string, subject: string)         // SELECT
    | Link1(user: Id, email: string, subject: string)         // INSERT
    | ConfirmLink0(user: Id, token: Id)                       // DELETE ... RETURNING
    | ConfirmLink1(user: Id, subject: string, email: string)  // INSERT
    | Unlink0(user: Id)                                       // COUNT
    | Unlink1(user: Id)                                       // DELETE
    | ChangeEmail0(user: Id, email: string)                   // SELECT EXISTS
    | ChangeEmail1(user: Id, email: string)                   // INSERT
    | ConfirmEmail0(token: Id)                                // DELETE ... RETURNING
    | ConfirmEmail1(user: Id, email: string)                  // UPDATE users
    | ConfirmEmail2(user: Id, email: string)                  // UPDATE user_identities

  datatype ResetTask =
    | RequestReset0(email: string, provider: Provider)        // SELECT user
    | RequestReset1(user: Id, provider: Provider)             // COUNT
    | RequestReset2(user: Id, provider: Provider)             // INSERT
    | GrantReset0(reset: Id, why: Approver)                   // SELECT
    | GrantReset1(reset: Id, why: Approver)                   // UPDATE
    | DenyReset0(reset: Id, why: Approver)                    // UPDATE
    | BeginReset0(token: Id)                                  // SELECT
    | BeginReset1(user: Id)                                   // upsert
    | FinishReset0(token: Id)                                 // SELECT
    | FinishReset1(reset: Id, user: Id, began: Instant)       // DELETE ... RETURNING
    | FinishReset2(reset: Id, user: Id, began: Instant)       // verify, INSERT
    | FinishReset3(reset: Id)                                 // UPDATE
    | ResetFreja0(token: Id, email: string, subject: string)  // SELECT
    | ResetFreja1(reset: Id, user: Id, email: string, subject: string, began: Instant)   // upsert
    | ResetFreja2(reset: Id, user: Id, began: Instant)        // UPDATE

  datatype GateTask =
    | Gate0(cookie: Id, act: Action)                          // GetSession: SELECT
    | Gate1(cookie: Id, user: Id, role: Role, act: Action, at: Instant)   // GetSession: UPDATE last_seen_at
    | SetBanned0(user: Id, banned: bool, why: Approver)       // UPDATE
    | ChangeRole0(user: Id, role: Role, why: Approver)        // UPDATE

  datatype Task =
    | Registering(r: RegistrationTask)
    | LoggingIn(l: LoginTask)
    | Settings(s: SettingsTask)
    | Resetting(q: ResetTask)
    | Gated(g: GateTask)

  /** What arrives over HTTP (or, for the sweep, from the ticker). */
  predicate IsRequest(t: Task) {
    match t
    case Registering(r) =>
      r.Submit0? || r.Verify0? || r.BeginRegister0? || r.FinishRegister0? || r.FrejaRegister0?
    case LoggingIn(l) => l.BeginLogin0? || l.FinishLogin0? || l.FrejaLogin0? || l.Sweep0?
    case Settings(s) => s.ConfirmEmail0?
    case Resetting(q) => q.RequestReset0? || q.BeginReset0? || q.FinishReset0? || q.ResetFreja0?
    case Gated(g) => g.Gate0?
  }

  /**
   * What one step takes from outside: the clock, fresh random values, the row SQLite returns for a
   * lookup that is not by primary key, and what the WebAuthn library answers.
   */
  datatype Input = Input(
    now: Instant,
    row: Option<Id>,
    id: Uuid,
    token: Uuid,
    account: Uuid,
    challenge: Option<string>,
    attested: Option<Credential>,
    asserted: Option<(seq<Byte>, int)>)

  /** Why finding a user by name matters. */
  datatype Purpose = ToBegin | ToFinish | ToReset

  /** What happened, one event per step at most, with the clock reading where one was taken. */
  datatype Event =
    | Filed(reg: Id, address: string, token: Id, account: Id, at: Instant)
    | AddressVerified(reg: Id, token: Id, at: Instant)
    | SetupOpened(reg: Id, token: Id, at: Instant)
    | Parked(reg: Id, credential: Credential)
    | SubjectSubmitted(reg: Id, subject: string, address: string)
    | SubjectRebound(user: Id, subject: string)
    | Created(reg: Id, user: Id, email: string, why: Approver)
    | HookRun(reg: Id, user: Id)
    | Granted(user: Id, role: Role, why: Approver)
    | Banned(user: Id, banned: bool, why: Approver)
    | Renamed(user: Id, address: string)
    | RegistrationRejected(reg: Id, why: Approver)
    | LookedUp(user: Id, address: string, purpose: Purpose)
    | LoginBegun(user: Id, at: Instant)
    | LoginTaken(user: Id, at: Instant)
    | Asserted(user: Id, credId: seq<Byte>, count: int)
    | SessionMade(session: Id, user: Id, at: Instant, how: How)
    | SessionDropped(session: Id)
    | Swept(at: Instant)
    | AddBegun(user: Id, at: Instant)
    | AddTaken(user: Id, at: Instant)
    | KeyAdded(user: Id, credential: Credential, at: Instant, via: Option<Id>)
    | LinkIssued(link: Id, user: Id, subject: string, address: string, at: Instant)
    | LinkTaken(link: Id, user: Id, subject: string, address: string, at: Instant)
    | EmailIssued(email: Id, user: Id, address: string, at: Instant)
    | EmailTakenOut(email: Id, user: Id, address: string, at: Instant)
    | ResetFiled(reset: Id, user: Id, provider: Provider)
    | ResetApproved(reset: Id, user: Id, provider: Provider, token: Id, at: Instant, why: Approver)
    | ResetDenied(reset: Id, why: Approver)
    | ResetOpened(reset: Id, user: Id, provider: Provider, address: string, at: Instant)
    | ResetCompleted(reset: Id)
    | SubjectReset(user: Id, subject: string, address: string, reset: Id, began: Instant)
    | Admitted(user: Id, role: Role, cookie: Id, act: Action, at: Instant)

  type Log = seq<Event>

  /** What was decided on the admin pages, or by auto-approval, and in whose name. */
  function DecisionOf(e: Event): Option<(Action, Approver)> {
    match e
    case Created(g, u, email, why) => Some((Approve(g), why))
    case Granted(u, role, why) => Some((ChangeRole(u, role), why))
    case Banned(u, banned, why) => Some((SetBanned(u, banned), why))
    case RegistrationRejected(g, why) => Some((Reject(g), why))
    case ResetApproved(r, u, provider, token, at, why) => Some((GrantReset(r), why))
    case ResetDenied(r, why) => Some((DenyReset(r), why))
    case _ => None
  }

  /** What a request in flight is to decide, once it has been let in to do so, and in whose name. */
  function Pursues(t: Task): Option<(Action, Approver)> {
    match t
    case Gated(Gate1(cookie, u, role, act, at)) => if role == Admin && NeedsAdmin(act) then Some((act, By(u, cookie, at))) else None
    case Gated(SetBanned0(u, banned, why)) => Some((SetBanned(u, banned), why))
    case Gated(ChangeRole0(u, role, why)) => Some((ChangeRole(u, role), why))
    case Registering(Approve0(g, why)) => Some((Approve(g), why))
    case Registering(Approve1(g, row, why)) => Some((Approve(g), why))
    case Registering(Reject0(g, why)) => Some((Reject(g), why))
    case Resetting(GrantReset0(r, why)) => Some((GrantReset(r), why))
    case Resetting(GrantReset1(r, why)) => Some((GrantReset(r), why))
    case Resetting(DenyReset0(r, why)) => Some((DenyReset(r), why))
    case _ => None
  }

  datatype Outcome = Outcome(db: Db, next: Option<Task>, event: Option<Event>)

  function Stop(db: Db): Outcome { Outcome(db, None, None) }
  function Goto(db: Db, t: Task): Outcome { Outcome(db, Some(t), None) }

  /** The statement fails, which ends the request, or yields a new database. */
  function Try(db: Db, result: Option<Db>, next: Option<Task>, event: Option<Event>): Outcome {
    match result
    case None => Stop(db)
    case Some(d) => Outcome(d, next, event)
  }

  // -------------------------------------------------------------- registration

  /** maybeAutoApprove, after a credential was submitted. */
  function AutoApprove(cfg: Config, g: Id, email: string, viaFreja: bool): Option<Task> {
    if IsAdminEmail(cfg, email) then Some(Registering(Approve0(g, Bootstrap(viaFreja)))) else None
  }

  function VerifyStep(db: Db, token: Id, i: Input): (o: Outcome)
    ensures o.db == db.(registrations := o.db.registrations)
  {
    match FindVerifiable(db, i.row, token, Stamp(i.now))
    case Found(g) => Try(db, VerifyEmail(db, g, i.token, i.now), None, Some(AddressVerified(g, i.token, i.now)))
    case Nothing => Stop(db)
    case NotAnAnswer => Goto(db, Registering(Verify0(token)))
  }

  function BeginRegisterStep(db: Db, token: Id, i: Input): (o: Outcome)
    ensures o.db == db
  {
    match FindSetup(db, i.row, token, Stamp(i.now))
    case Found(g) =>
      Outcome(db, if i.challenge.None? then None else Some(Registering(BeginRegister1(g, i.challenge.value))),
              Some(SetupOpened(g, token, i.now)))
    case Nothing => Stop(db)
    case NotAnAnswer => Goto(db, Registering(BeginRegister0(token)))
  }

  function FinishRegisterStep(db: Db, token: Id, i: Input): (o: Outcome)
    ensures o.db == db
  {
    match FindSetup(db, i.row, token, Stamp(i.now))
    case Found(g) =>
      Outcome(db, if db.registrations[g].challenge.None? then None else Some(Registering(FinishRegister1(g, db.registrations[g].email))),
              Some(SetupOpened(g, token, i.now)))
    case Nothing => Stop(db)
    case NotAnAnswer => Goto(db, Registering(FinishRegister0(token)))
  }

  function SubmitCredentialStep(cfg: Config, db: Db, g: Id, email: string, i: Input): (o: Outcome)
    ensures o.db == db.(registrations := o.db.registrations)
  {
    match i.attested
    case None => Stop(db)
    case Some(c) => Outcome(SetCredential(db, g, Park(c)), AutoApprove(cfg, g, email, false), Some(Parked(g, c)))
  }

  function FrejaRegisterStep(db: Db, token: Id, email: string, subject: string, i: Input): (o: Outcome)
    ensures o.db == db
  {
    if email == "" then Stop(db)
    else
      match FindSetup(db, i.row, token, Stamp(i.now))
      case Found(g) =>
        if !EqualFold(email, db.registrations[g].email) then Stop(db)
        else
          Outcome(db, Some(Registering(FrejaRegister1(g, db.registrations[g].email, subject, email))),
                  Some(SetupOpened(g, token, i.now)))
      case Nothing => Stop(db)
      case NotAnAnswer => Goto(db, Registering(FrejaRegister0(token, email, subject)))
  }

  /** The transaction inside SendApprovalEmail. */
  function ApprovalStep(db: Db, g: Id, row: Registration, why: Approver, id: Id): (o: Outcome)
    ensures o.db == db.(users := o.db.users, passkeys := o.db.passkeys, identities := o.db.identities, registrations := o.db.registrations)
  {
    var result :=
      if row.provider == ViaFreja then ApproveFreja(db, g, row.account, row.email, row.frejaSub, id)
      else ApprovePasskey(db, g, row.account, row.email, row.credential, id);
    Try(db, result, Some(Registering(Approve2(g, row.account, why))), Some(Created(g, row.account, row.email, why)))
  }

  function PromoteStep(db: Db, u: Id, viaFreja: bool): (o: Outcome)
    ensures o.db == db.(users := o.db.users)
  {
    Outcome(SetRole(db, u, Admin), if viaFreja then Some(LoggingIn(EnterSession(u, ByRegistration))) else None,
            if u in db.users then Some(Granted(u, Admin, Bootstrap(viaFreja))) else None)
  }

  function RegistrationStep(cfg: Config, db: Db, t: RegistrationTask, i: Input): (o: Outcome)
    ensures o.db == db.(users := o.db.users, registrations := o.db.registrations, passkeys := o.db.passkeys, identities := o.db.identities)
  {
    match t
    case Submit0(email) =>
      if email == "" || AnyUserLike(db, email) then Stop(db) else Goto(db, Registering(Submit1(email)))
    case Submit1(email) => if EmailRegistered(db, email) then Stop(db) else Goto(db, Registering(Submit2(email)))
    case Submit2(email) =>
      Try(db, InsertRegistration(db, i.id, i.token, i.account, email, i.now), None, Some(Filed(i.id, email, i.token, i.account, i.now)))
    case Verify0(token) => if token == "" then Stop(db) else VerifyStep(db, token, i)
    case BeginRegister0(token) => BeginRegisterStep(db, token, i)
    case BeginRegister1(g, challenge) => Stop(SetChallenge(db, g, challenge))
    case FinishRegister0(token) => FinishRegisterStep(db, token, i)
    case FinishRegister1(g, email) => SubmitCredentialStep(cfg, db, g, email, i)
    case FrejaRegister0(token, email, subject) => FrejaRegisterStep(db, token, email, subject, i)
    case FrejaRegister1(g, email, subject, reported) =>
      Outcome(SetFreja(db, g, subject), AutoApprove(cfg, g, email, true), Some(SubjectSubmitted(g, subject, reported)))
    case Approve0(g, why) =>
      if g in db.registrations && db.registrations[g].status == Pending then
        Goto(db, Registering(Approve1(g, db.registrations[g], why)))
      else Stop(db)
    case Approve1(g, row, why) => ApprovalStep(db, g, row, why, i.id)
    case Approve2(g, u, why) =>
      Outcome(db, if why.Bootstrap? then Some(Registering(Promote(u, why.viaFreja))) else None, Some(HookRun(g, u)))
    case Promote(u, viaFreja) => PromoteStep(db, u, viaFreja)
    case Reject0(g, why) =>
      Outcome(RejectRegistration(db, g), None,
              if g in db.registrations && db.registrations[g].status == Pending then Some(RegistrationRejected(g, why)) else None)
  }

  // --------------------------------------------------------------------- login

  function BeginLoginStep(db: Db, email: string, i: Input): (o: Outcome)
    ensures o.db == db
  {
    match FindUser(db, i.row, email)
    case Found(u) => Outcome(db, Some(LoggingIn(BeginLogin1(u))), Some(LookedUp(u, email, ToBegin)))
    case Nothing => Stop(db)
    case NotAnAnswer => Goto(db, LoggingIn(BeginLogin0(email)))
  }

  /** finishLogin ignores the lookup's error: userID stays "" when there is no such user. */
  function FinishLoginStep(db: Db, email: string, i: Input): (o: Outcome)
    ensures o.db == db
  {
    match FindUser(db, i.row, email)
    case Found(u) => Outcome(db, Some(LoggingIn(FinishLogin1(u))), Some(LookedUp(u, email, ToFinish)))
    case Nothing => Goto(db, LoggingIn(FinishLogin1("")))
    case NotAnAnswer => Goto(db, LoggingIn(FinishLogin0(email)))
  }

  function FrejaLoginStep(db: Db, email: string, subject: string, i: Input): (o: Outcome)
    ensures o.db == db
  {
    if email == "" then Stop(db)
    else
      match FindSubject(db, i.row, subject)
      case Found(k) => Goto(db, LoggingIn(EnterSession(db.identities[k].user, ByFreja)))
      case Nothing => if subject != "" then Goto(db, LoggingIn(FrejaLogin1(email, subject))) else Stop(db)
      case NotAnAnswer => Goto(db, LoggingIn(FrejaLogin0(email, subject)))
  }

  function FrejaFallbackStep(db: Db, email: string, subject: string, i: Input): (o: Outcome)
    ensures o.db == db
  {
    match FindFrejaEmail(db, i.row, email)
    case Found(k) => Goto(db, LoggingIn(FrejaLogin2(db.identities[k].user, subject)))
    case Nothing => Stop(db)
    case NotAnAnswer => Goto(db, LoggingIn(FrejaLogin1(email, subject)))
  }

  /** The rebinding UPDATE; its error is ignored. */
  function FrejaRebindStep(db: Db, u: Id, subject: string): (o: Outcome)
    ensures o.db == db.(identities := o.db.identities)
  {
    match Rebind(db, u, subject)
    case None => Goto(db, LoggingIn(EnterSession(u, ByFreja)))
    case Some(d) => Outcome(d, Some(LoggingIn(EnterSession(u, ByFreja))), Some(SubjectRebound(u, subject)))
  }

  function SignCountStep(db: Db, u: Id, i: Input): (o: Outcome)
    ensures o.db == db.(passkeys := o.db.passkeys)
  {
    match i.asserted
    case None => Stop(db)
    case Some((credId, count)) =>
      Outcome(SetSignCount(db, u, credId, count), Some(LoggingIn(EnterSession(u, ByPasskey))), Some(Asserted(u, credId, count)))
  }

  function LoginStep(db: Db, t: LoginTask, i: Input): (o: Outcome)
    ensures o.db == db.(sessions := o.db.sessions, passkeys := o.db.passkeys, identities := o.db.identities, logins := o.db.logins)
  {
    match t
    case BeginLogin0(email) => BeginLoginStep(db, email, i)
    case BeginLogin1(u) =>
      if KeysOf(db, u) == {} || i.challenge.None? then Stop(db)
      else Goto(db, LoggingIn(BeginLogin2(u, i.challenge.value)))
    case BeginLogin2(u, challenge) => Try(db, UpsertLogin(db, u, challenge, i.now), None, Some(LoginBegun(u, i.now)))
    case FinishLogin0(email) => FinishLoginStep(db, email, i)
    case FinishLogin1(u) => Try(db, TakeLogin(db, u, Stamp(i.now)), Some(LoggingIn(FinishLogin2(u))), Some(LoginTaken(u, i.now)))
    case FinishLogin2(u) => SignCountStep(db, u, i)
    case FrejaLogin0(email, subject) => FrejaLoginStep(db, email, subject, i)
    case FrejaLogin1(email, subject) => FrejaFallbackStep(db, email, subject, i)
    case FrejaLogin2(u, subject) => FrejaRebindStep(db, u, subject)
    case EnterSession(u, how) => Try(db, InsertSession(db, i.id, u, i.now), None, Some(SessionMade(i.id, u, i.now, how)))
    case Logout0(s) => Outcome(DeleteSession(db, s), None, Some(SessionDropped(s)))
    case Sweep0 => Outcome(DeleteExpired(db, Stamp(i.now)), None, Some(Swept(i.now)))
  }

  // ------------------------------------------------------------------ settings

  /** The challenge for adding a passkey, from settings or for a reset. */
  function BeginAddStep(db: Db, u: Id, i: Input): (o: Outcome)
    ensures o.db == db.(adds := o.db.adds)
  {
    match i.challenge
    case None => Stop(db)
    case Some(c) => Try(db, UpsertAdd(db, u, c, i.now), None, Some(AddBegun(u, i.now)))
  }

  function InsertKeyStep(db: Db, u: Id, next: Option<Task>, began: Instant, via: Option<Id>, i: Input): (o: Outcome)
    ensures o.db == db.(passkeys := o.db.passkeys)
  {
    match i.attested
    case None => Stop(db)
    case Some(c) =>
      Try(db, InsertPasskey(db, i.id, u, c.id, KeyColumn(c.publicKey), c.signCount), next, Some(KeyAdded(u, c, began, via)))
  }

  function TakeLinkStep(db: Db, u: Id, token: Id, i: Input): (o: Outcome)
    ensures o.db == db.(links := o.db.links)
  {
    match TakeLink(db, token, u, Stamp(i.now))
    case None => Stop(db)
    case Some((d, l)) =>
      Outcome(d, Some(Settings(ConfirmLink1(u, l.subject, l.email))), Some(LinkTaken(token, u, l.subject, l.email, i.now)))
  }

  function TakeEmailStep(db: Db, token: Id, i: Input): (o: Outcome)
    ensures o.db == db.(emails := o.db.emails)
  {
    match TakeEmailChange(db, token, Stamp(i.now))
    case None => Stop(db)
    case Some((d, c)) =>
      Outcome(d, Some(Settings(ConfirmEmail1(c.user, c.newEmail))),
              Some(EmailTakenOut(token, c.user, c.newEmail, i.now)))
  }

  function SettingsStep(db: Db, t: SettingsTask, i: Input): (o: Outcome)
    ensures o.db == db.(users := o.db.users, passkeys := o.db.passkeys, identities := o.db.identities, adds := o.db.adds,
                        links := o.db.links, emails := o.db.emails)
  {
    match t
    case BeginAdd0(u) => BeginAddStep(db, u, i)
    case FinishAdd0(u) => Try(db, TakeAdd(db, u, Stamp(i.now)), Some(Settings(FinishAdd1(u, i.now))), Some(AddTaken(u, i.now)))
    case FinishAdd1(u, began) => InsertKeyStep(db, u, None, began, None, i)
    case DeleteKey0(u, k) => if |KeysOf(db, u)| <= 1 then Stop(db) else Goto(db, Settings(DeleteKey1(u, k)))
    case DeleteKey1(u, k) => Stop(DeletePasskey(db, u, k))
    case Link0(u, email, subject) =>
      if email == "" || FrejaKnown(db, subject, email) then Stop(db) else Goto(db, Settings(Link1(u, email, subject)))
    case Link1(u, email, subject) =>
      Try(db, InsertLink(db, i.token, u, subject, email, i.now), None, Some(LinkIssued(i.token, u, subject, email, i.now)))
    case ConfirmLink0(u, token) => TakeLinkStep(db, u, token, i)
    case ConfirmLink1(u, subject, email) => Try(db, LinkIdentity(db, i.id, u, subject, email), None, None)
    case Unlink0(u) => if KeysOf(db, u) == {} then Stop(db) else Goto(db, Settings(Unlink1(u)))
    case Unlink1(u) => Stop(Unlink(db, u))
    case ChangeEmail0(u, email) =>
      if email == "" || EmailTaken(db, u, email) then Stop(db) else Goto(db, Settings(ChangeEmail1(u, email)))
    case ChangeEmail1(u, email) =>
      Try(db, InsertEmailChange(db, i.token, u, email, i.now), None, Some(EmailIssued(i.token, u, email, i.now)))
    case ConfirmEmail0(token) => if token == "" then Stop(db) else TakeEmailStep(db, token, i)
    case ConfirmEmail1(u, email) =>
      Try(db, SetUsername(db, u, email), Some(Settings(ConfirmEmail2(u, email))), if u in db.users then Some(Renamed(u, email)) else None)
    case ConfirmEmail2(u, email) => Stop(SetFrejaEmail(db, u, email))
  }

  // --------------------------------------------------------------------- reset

  function RequestResetStep(db: Db, email: string, provider: Provider, i: Input): (o: Outcome)
    ensures o.db == db
  {
    match FindUserLike(db, i.row, TrimSpace(Lower(email)))
    case Found(u) => Outcome(db, Some(Resetting(RequestReset1(u, provider))), Some(LookedUp(u, TrimSpace(Lower(email)), ToReset)))
    case Nothing => Stop(db)
    case NotAnAnswer => Goto(db, Resetting(RequestReset0(email, provider)))
  }

  function GrantResetStep(db: Db, r: Id, why: Approver, i: Input): (o: Outcome)
    ensures o.db == db.(resets := o.db.resets)
  {
    if r in db.resets && db.resets[r].status == Pending then
      Try(db, ApproveReset(db, r, i.token, i.now), None,
          Some(ResetApproved(r, db.resets[r].user, db.resets[r].provider, i.token, i.now, why)))
    else Stop(db)
  }

  function BeginResetStep(db: Db, token: Id, i: Input): (o: Outcome)
    ensures o.db == db
  {
    match FindReset(db, i.row, token, Stamp(i.now), ViaPasskey)
    case Found(r) =>
      Outcome(db, Some(Resetting(BeginReset1(db.resets[r].user))), Some(ResetOpened(r, db.resets[r].user, ViaPasskey, "", i.now)))
    case Nothing => Stop(db)
    case NotAnAnswer => Goto(db, Resetting(BeginReset0(token)))
  }

  function FinishResetStep(db: Db, token: Id, i: Input): (o: Outcome)
    ensures o.db == db
  {
    match FindReset(db, i.row, token, Stamp(i.now), ViaPasskey)
    case Found(r) =>
      Outcome(db, Some(Resetting(FinishReset1(r, db.resets[r].user, i.now))),
              Some(ResetOpened(r, db.resets[r].user, ViaPasskey, "", i.now)))
    case Nothing => Stop(db)
    case NotAnAnswer => Goto(db, Resetting(FinishReset0(token)))
  }

  function ResetFrejaStep(db: Db, token: Id, email: string, subject: string, i: Input): (o: Outcome)
    ensures o.db == db
  {
    if email == "" then Stop(db)
    else
      match FindReset(db, i.row, token, Stamp(i.now), ViaFreja)
      case Found(r) =>
        if !EqualFold(email, db.users[db.resets[r].user].username) then Stop(db)
        else
          Outcome(db, Some(Resetting(ResetFreja1(r, db.resets[r].user, email, subject, i.now))),
                  Some(ResetOpened(r, db.resets[r].user, ViaFreja, email, i.now)))
      case Nothing => Stop(db)
      case NotAnAnswer => Goto(db, Resetting(ResetFreja0(token, email, subject)))
  }

  function ResetStep(db: Db, t: ResetTask, i: Input): (o: Outcome)
    ensures o.db == db.(passkeys := o.db.passkeys, identities := o.db.identities, resets := o.db.resets, adds := o.db.adds)
  {
    match t
    case RequestReset0(email, provider) => RequestResetStep(db, email, provider, i)
    case RequestReset1(u, provider) =>
      if ResetPending(db, u, provider) then Stop(db) else Goto(db, Resetting(RequestReset2(u, provider)))
    case RequestReset2(u, provider) => Try(db, InsertReset(db, i.id, u, provider), None, Some(ResetFiled(i.id, u, provider)))
    case GrantReset0(r, why) =>
      if r in db.resets && db.resets[r].status == Pending then Goto(db, Resetting(GrantReset1(r, why))) else Stop(db)
    case GrantReset1(r, why) => GrantResetStep(db, r, why, i)
    case DenyReset0(r, why) =>
      Outcome(RejectReset(db, r), None, if r in db.resets && db.resets[r].status == Pending then Some(ResetDenied(r, why)) else None)
    case BeginReset0(token) => BeginResetStep(db, token, i)
    case BeginReset1(u) => BeginAddStep(db, u, i)
    case FinishReset0(token) => FinishResetStep(db, token, i)
    case FinishReset1(r, u, began) =>
      Try(db, TakeAdd(db, u, Stamp(began)), Some(Resetting(FinishReset2(r, u, began))), Some(AddTaken(u, began)))
    case FinishReset2(r, u, began) => InsertKeyStep(db, u, Some(Resetting(FinishReset3(r))), began, Some(r), i)
    case FinishReset3(r) => Outcome(CompleteReset(db, r), None, Some(ResetCompleted(r)))
    case ResetFreja0(token, email, subject) => ResetFrejaStep(db, token, email, subject, i)
    case ResetFreja1(r, u, email, subject, began) =>
      Try(db, UpsertIdentity(db, i.id, u, subject, email), Some(Resetting(ResetFreja2(r, u, began))),
          Some(SubjectReset(u, subject, email, r, began)))
    case ResetFreja2(r, u, began) =>
      Outcome(CompleteReset(db, r), Some(LoggingIn(EnterSession(u, ByReset(r, began)))), Some(ResetCompleted(r)))
  }

  // ---------------------------------------------------- authenticated requests

  /** The first statement of a handler behind requireAuth / requireAdmin. */
  function Enter(act: Action, session: Id, user: Id, at: Instant): Task {
    match act
    case Logout => LoggingIn(Logout0(session))
    case BeginAdd => Settings(BeginAdd0(user))
    case FinishAdd => Settings(FinishAdd0(user))
    case DeleteKey(k) => Settings(DeleteKey0(user, k))
    case LinkFreja(email, subject) => Settings(Link0(user, email, subject))
    case ConfirmLink(token) => Settings(ConfirmLink0(user, token))
    case UnlinkFreja => Settings(Unlink0(user))
    case ChangeEmail(email) => Settings(ChangeEmail0(user, TrimSpace(Lower(email))))
    case Approve(g) => Registering(Approve0(g, By(user, session, at)))
    case Reject(g) => Registering(Reject0(g, By(user, session, at)))
    case SetBanned(u, b) => Gated(SetBanned0(u, b, By(user, session, at)))
    case ChangeRole(u, role) => Gated(ChangeRole0(u, role, By(user, session, at)))
    case GrantReset(r) => Resetting(GrantReset0(r, By(user, session, at)))
    case DenyReset(r) => Resetting(DenyReset0(r, By(user, session, at)))
  }

  function TouchStep(db: Db, cookie: Id, u: Id, role: Role, act: Action, at: Instant, i: Input): (o: Outcome)
    ensures o.db == db.(sessions := o.db.sessions)
  {
    Outcome(TouchSession(db, cookie, i.now), if NeedsAdmin(act) && role != Admin then None else Some(Enter(act, cookie, u, at)), None)
  }

  function GateStep(db: Db, t: GateTask, i: Input): (o: Outcome)
    ensures o.db == db.(users := o.db.users, sessions := o.db.sessions)
  {
    match t
    case Gate0(cookie, act) =>
      (match CurrentUser(db, cookie, Stamp(i.now))
       case None => Stop(db)
       case Some((u, role)) =>
         Outcome(db, Some(Gated(Gate1(cookie, u, role, act, i.now))), Some(Admitted(u, role, cookie, act, i.now))))
    case Gate1(cookie, u, role, act, at) => TouchStep(db, cookie, u, role, act, at, i)
    case SetBanned0(u, b, why) =>
      Outcome(SetBan(db, u, b), None, if u in db.users then Some(Banned(u, b, why)) else None)
    case ChangeRole0(u, role, why) =>
      Outcome(SetRole(db, u, role), None, if u in db.users then Some(Granted(u, role, why)) else None)
  }

  /** One statement of one request. */
  function Step(cfg: Config, db: Db, t: Task, i: Input): Outcome {
    match t
    case Registering(r) => RegistrationStep(cfg, db, r, i)
    case LoggingIn(l) => LoginStep(db, l, i)
    case Settings(s) => SettingsStep(db, s, i)
    case Resetting(q) => ResetStep(db, q, i)
    case Gated(g) => GateStep(db, g, i)
  }
}
