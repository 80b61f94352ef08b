/**
 * Which statement may change which table, and how: everything the invariants need to know about a step,
 * one table at a time.
 */
module Effects {
  import opened Basics
  import opened Text
  import opened Timestamps
  import opened Tables
  import opened Requests
  import opened PublicKeys

  // ------------------------------------------------------------------- users

  ghost predicate NameFree(m: map<Id, User>, email: string) {
    forall v :: v in m ==> m[v].username != email
  }

  ghost predicate RoleMove(m: map<Id, User>, m': map<Id, User>, u: Id, role: Role, why: Approver, e: Option<Event>) {
    if u in m then m' == m[u := m[u].(role := role)] && e == Some(Granted(u, role, why)) else m' == m && e.None?
  }

  ghost predicate RegistrationUsers(m: map<Id, User>, m': map<Id, User>, t: RegistrationTask, e: Option<Event>) {
    match t
    case Approve1(g, row, why) =>
      if e.None? then m' == m
      else
        && e == Some(Created(g, row.account, row.email, why)) && row.account !in m && NameFree(m, row.email)
        && m' == m[row.account := User(row.email, Passive, false)]
    case Promote(u, viaFreja) => RoleMove(m, m', u, Admin, Bootstrap(viaFreja), e)
    case _ => m' == m
  }

  ghost predicate SettingsUsers(m: map<Id, User>, m': map<Id, User>, t: SettingsTask, e: Option<Event>) {
    match t
    case ConfirmEmail1(u, email) =>
      if e.None? then m' == m
      else
        && e == Some(Renamed(u, email)) && u in m && (forall v :: v in m && v != u ==> m[v].username != email)
        && m' == m[u := m[u].(username := email)]
    case _ => m' == m
  }

  ghost predicate GateUsers(m: map<Id, User>, m': map<Id, User>, t: GateTask, e: Option<Event>) {
    match t
    case ChangeRole0(u, role, why) => RoleMove(m, m', u, role, why, e)
    case SetBanned0(u, b, why) =>
      if u in m then m' == m[u := m[u].(banned := b)] && e == Some(Banned(u, b, why)) else m' == m && e.None?
    case _ => m' == m
  }

  ghost predicate UsersMove(m: map<Id, User>, m': map<Id, User>, t: Task, e: Option<Event>) {
    match t
    case Registering(r) => RegistrationUsers(m, m', r, e)
    case Settings(s) => SettingsUsers(m, m', s, e)
    case Gated(g) => GateUsers(m, m', g, e)
    case _ => m' == m
  }

  // ----------------------------------------------------------- registrations

  ghost predicate RowFiled(m: map<Id, Registration>, m': map<Id, Registration>, email: string, i: Input) {
    && i.id !in m
    && (forall g :: g in m ==> m[g].email != email && m[g].emailToken != i.token && m[g].account != i.account)
    && m' == m[i.id := Registration(i.token, email, Stamp(i.now + DAY), false, Pending, None, None, None, false, i.account,
                                    ViaPasskey, "", None)]
  }

  ghost predicate VerifiedRow(m: map<Id, Registration>, m': map<Id, Registration>, g: Id, token: Id, i: Input) {
    && g in m && !m[g].verified && m[g].emailToken == token && Before(Stamp(i.now), m[g].expires)
    && (forall h :: h in m && h != g && m[h].setup.Some? ==> m[h].setup.value.token != i.token)
    && m' == m[g := m[g].(verified := true, setup := Some(Grant(i.token, Stamp(i.now + DAY))))]
  }

  ghost predicate RegistrationRegistrations(m: map<Id, Registration>, m': map<Id, Registration>, t: RegistrationTask, i: Input,
      e: Option<Event>) {
    match t
    case Submit2(email) =>
      if e.None? then m' == m else RowFiled(m, m', email, i) && e == Some(Filed(i.id, email, i.token, i.account, i.now))
    case Verify0(token) =>
      if e.None? then m' == m
      else i.row.Some? && VerifiedRow(m, m', i.row.value, token, i) && e == Some(AddressVerified(i.row.value, i.token, i.now))
    case BeginRegister1(g, challenge) => m' == if g in m then m[g := m[g].(challenge := Some(challenge))] else m
    case FinishRegister1(g, email) =>
      m' == if g in m && i.attested.Some? then m[g := m[g].(credential := Some(Park(i.attested.value)), submitted := true)] else m
    case FrejaRegister1(g, email, subject, reported) =>
      m' == if g in m then m[g := m[g].(provider := ViaFreja, frejaSub := subject, submitted := true)] else m
    case Approve1(g, row, why) =>
      m' == if g in m && e.Some? then m[g := m[g].(status := Completed, user := Some(row.account))] else m
    case Reject0(g, why) =>
      if g in m && m[g].status == Pending then m' == m[g := m[g].(status := Rejected)] && e == Some(RegistrationRejected(g, why))
      else m' == m && e.None?
    case _ => m' == m
  }

  ghost predicate RegistrationsMove(m: map<Id, Registration>, m': map<Id, Registration>, t: Task, i: Input, e: Option<Event>) {
    match t
    case Registering(r) => RegistrationRegistrations(m, m', r, i, e)
    case _ => m' == m
  }

  // ---------------------------------------------------------------- sessions

  ghost predicate LoginSessions(m: map<Id, Session>, m': map<Id, Session>, t: LoginTask, i: Input, e: Option<Event>) {
    match t
    case EnterSession(u, how) =>
      if e.None? then m' == m
      else
        && e == Some(SessionMade(i.id, u, i.now, how)) && i.id !in m
        && m' == m[i.id := Session(u, Stamp(i.now + SESSION), Stamp(i.now))]
    case Logout0(s) => m' == m - {s} && e == Some(SessionDropped(s))
    case Sweep0 =>
      m' == (map s | s in m && !Before(m[s].expires, Stamp(i.now)) :: m[s]) && e == Some(Swept(i.now))
    case _ => m' == m
  }

  ghost predicate GateSessions(m: map<Id, Session>, m': map<Id, Session>, t: GateTask, i: Input, e: Option<Event>) {
    match t
    case Gate1(s, u, role, act, at) => m' == if s in m then m[s := m[s].(lastSeen := Stamp(i.now))] else m
    case _ => m' == m
  }

  ghost predicate SessionsMove(m: map<Id, Session>, m': map<Id, Session>, t: Task, i: Input, e: Option<Event>) {
    match t
    case LoggingIn(l) => LoginSessions(m, m', l, i, e)
    case Gated(g) => GateSessions(m, m', g, i, e)
    case _ => m' == m
  }

  // ---------------------------------------------------------------- passkeys

  ghost predicate KeyInserted(m: map<Id, Passkey>, m': map<Id, Passkey>, id: Id, u: Id, credId: seq<Byte>, key: seq<Byte>,
      count: int)
  {
    && id !in m && (forall k :: k in m ==> m[k].credId != credId)
    && m' == m[id := Passkey(u, credId, key, count)]
  }

  /** What the passkey transaction does to webauthn_credentials. */
  ghost predicate KeyUnparked(m: map<Id, Passkey>, m': map<Id, Passkey>, id: Id, row: Registration) {
    && row.credential.Some? && Unpark(row.credential.value).Some?
    && var stored := Unpark(row.credential.value).value;
    && KeyInserted(m, m', id, row.account, stored.id, stored.publicKey, stored.signCount)
  }

  ghost predicate KeyAttested(m: map<Id, Passkey>, m': map<Id, Passkey>, u: Id, began: Instant, via: Option<Id>, i: Input,
      e: Option<Event>)
  {
    && i.attested.Some? && e == Some(KeyAdded(u, i.attested.value, began, via))
    && KeyInserted(m, m', i.id, u, i.attested.value.id, KeyColumn(i.attested.value.publicKey), i.attested.value.signCount)
  }

  /** The sign count of that user's passkey with that credential id, if any, becomes `count`. */
  ghost predicate SignCounted(m: map<Id, Passkey>, m': map<Id, Passkey>, u: Id, credId: seq<Byte>, count: int) {
    && m'.Keys == m.Keys
    && forall k :: k in m ==> m'[k] == if m[k].user == u && m[k].credId == credId then m[k].(signCount := count) else m[k]
  }

  ghost predicate RegistrationPasskeys(m: map<Id, Passkey>, m': map<Id, Passkey>, t: RegistrationTask, i: Input, e: Option<Event>) {
    match t
    case Approve1(g, row, why) =>
      if e.None? || row.provider == ViaFreja then m' == m
      else
        KeyUnparked(m, m', i.id, row)
    case _ => m' == m
  }

  ghost predicate LoginPasskeys(m: map<Id, Passkey>, m': map<Id, Passkey>, t: LoginTask, i: Input, e: Option<Event>) {
    match t
    case FinishLogin2(u) =>
      if e.None? then m' == m
      else
        && i.asserted.Some? && e == Some(Asserted(u, i.asserted.value.0, i.asserted.value.1))
        && SignCounted(m, m', u, i.asserted.value.0, i.asserted.value.1)
    case _ => m' == m
  }

  ghost predicate SettingsPasskeys(m: map<Id, Passkey>, m': map<Id, Passkey>, t: SettingsTask, i: Input, e: Option<Event>) {
    match t
    case FinishAdd1(u, began) => (m' == m && e.None?) || KeyAttested(m, m', u, began, None, i, e)
    case DeleteKey1(u, k) => m' == if k in m && m[k].user == u then m - {k} else m
    case _ => m' == m
  }

  ghost predicate ResetPasskeys(m: map<Id, Passkey>, m': map<Id, Passkey>, t: ResetTask, i: Input, e: Option<Event>) {
    match t
    case FinishReset2(r, u, began) => (m' == m && e.None?) || KeyAttested(m, m', u, began, Some(r), i, e)
    case _ => m' == m
  }

  ghost predicate PasskeysMove(m: map<Id, Passkey>, m': map<Id, Passkey>, t: Task, i: Input, e: Option<Event>) {
    match t
    case Registering(r) => RegistrationPasskeys(m, m', r, i, e)
    case LoggingIn(l) => LoginPasskeys(m, m', l, i, e)
    case Settings(s) => SettingsPasskeys(m, m', s, i, e)
    case Resetting(q) => ResetPasskeys(m, m', q, i, e)
    case _ => m' == m
  }

  // -------------------------------------------------------------- identities

  ghost predicate SubjectFree(m: map<Id, Identity>, subject: string) {
    forall i :: i in m ==> m[i].subject != subject
  }

  ghost predicate IdentityInserted(m: map<Id, Identity>, m': map<Id, Identity>, id: Id, u: Id, subject: string, email: string) {
    id !in m && SubjectFree(m, subject) && m' == m[id := Identity(u, subject, email)]
  }

  /** ON CONFLICT DO NOTHING: the row appears if and only if no row holds the subject. */
  ghost predicate IdentityLinked(m: map<Id, Identity>, m': map<Id, Identity>, id: Id, u: Id, subject: string, email: string) {
    if SubjectFree(m, subject) then IdentityInserted(m, m', id, u, subject, email) else m' == m
  }

  /** Every row of `u`, and no other, reports `email`. */
  ghost predicate OwnerReaddressed(m: map<Id, Identity>, m': map<Id, Identity>, u: Id, email: string) {
    m'.Keys == m.Keys && forall k :: k in m ==> m'[k] == if m[k].user == u then m[k].(email := email) else m[k]
  }

  /** The row with the subject, and no other, reports `email`, whosever it is. */
  ghost predicate SubjectReaddressed(m: map<Id, Identity>, m': map<Id, Identity>, subject: string, email: string) {
    m'.Keys == m.Keys && forall k :: k in m ==> m'[k] == if m[k].subject == subject then m[k].(email := email) else m[k]
  }

  /** The subject of the one row of `u` (if any) became `subject`, which no other row holds. */
  ghost predicate Rebound(m: map<Id, Identity>, m': map<Id, Identity>, u: Id, subject: string) {
    && (forall i, j :: i in m && j in m && m[i].user == u && m[j].user == u ==> i == j)
    && (forall i, j :: i in m && j in m && m[i].user == u && m[j].user != u ==> m[j].subject != subject)
    && m'.Keys == m.Keys
    && forall i :: i in m ==> m'[i] == if m[i].user == u then m[i].(subject := subject) else m[i]
  }

  ghost predicate RegistrationIdentities(m: map<Id, Identity>, m': map<Id, Identity>, t: RegistrationTask, i: Input, e: Option<Event>) {
    match t
    case Approve1(g, row, why) =>
      if e.None? || row.provider == ViaPasskey then m' == m
      else IdentityLinked(m, m', i.id, row.account, row.frejaSub, row.email)
    case _ => m' == m
  }

  ghost predicate LoginIdentities(m: map<Id, Identity>, m': map<Id, Identity>, t: LoginTask, i: Input, e: Option<Event>) {
    match t
    case FrejaLogin2(u, subject) => if e.None? then m' == m else Rebound(m, m', u, subject)
    case _ => m' == m
  }

  ghost predicate SettingsIdentities(m: map<Id, Identity>, m': map<Id, Identity>, t: SettingsTask, i: Input, e: Option<Event>) {
    match t
    case ConfirmLink1(u, subject, email) => m' == m || IdentityInserted(m, m', i.id, u, subject, email)
    case ConfirmEmail2(u, email) => OwnerReaddressed(m, m', u, email)
    case Unlink1(u) => m' == map k | k in m && m[k].user != u :: m[k]
    case _ => m' == m
  }

  ghost predicate ResetIdentities(m: map<Id, Identity>, m': map<Id, Identity>, t: ResetTask, i: Input, e: Option<Event>) {
    match t
    case ResetFreja1(r, u, email, subject, began) =>
      if e.None? then m' == m
      else if SubjectFree(m, subject) then IdentityInserted(m, m', i.id, u, subject, email)
      else SubjectReaddressed(m, m', subject, email)
    case _ => m' == m
  }

  ghost predicate IdentitiesMove(m: map<Id, Identity>, m': map<Id, Identity>, t: Task, i: Input, e: Option<Event>) {
    match t
    case Registering(r) => RegistrationIdentities(m, m', r, i, e)
    case LoggingIn(l) => LoginIdentities(m, m', l, i, e)
    case Settings(s) => SettingsIdentities(m, m', s, i, e)
    case Resetting(q) => ResetIdentities(m, m', q, i, e)
    case _ => m' == m
  }

  // ------------------------------------------------------------------ resets

  ghost predicate ResetTokenFree(m: map<Id, Reset>, r: Id, token: Id) {
    forall q :: q in m && q != r && m[q].setup.Some? ==> m[q].setup.value.token != token
  }

  ghost predicate GrantedReset(m: map<Id, Reset>, m': map<Id, Reset>, r: Id, why: Approver, i: Input, e: Option<Event>) {
    && r in m && m[r].status == Pending && e == Some(ResetApproved(r, m[r].user, m[r].provider, i.token, i.now, why))
    && ResetTokenFree(m, r, i.token)
    && m' == m[r := m[r].(status := Approved, setup := Some(Grant(i.token, Stamp(i.now + 48 * HOUR))))]
  }

  ghost function Closed(m: map<Id, Reset>, r: Id): map<Id, Reset> {
    if r in m then m[r := m[r].(status := Completed)] else m
  }

  ghost predicate ResetResets(m: map<Id, Reset>, m': map<Id, Reset>, t: ResetTask, i: Input, e: Option<Event>) {
    match t
    case RequestReset2(u, provider) =>
      if e.None? then m' == m
      else i.id !in m && m' == m[i.id := Reset(u, provider, None, Pending)] && e == Some(ResetFiled(i.id, u, provider))
    case GrantReset1(r, why) => (m' == m && e.None?) || GrantedReset(m, m', r, why, i, e)
    case DenyReset0(r, why) =>
      if r in m && m[r].status == Pending then m' == m[r := m[r].(status := Rejected)] && e == Some(ResetDenied(r, why))
      else m' == m && e.None?
    case FinishReset3(r) => e == Some(ResetCompleted(r)) && m' == Closed(m, r)
    case ResetFreja2(r, u, began) => e == Some(ResetCompleted(r)) && m' == Closed(m, r)
    case _ => m' == m
  }

  ghost predicate ResetsMove(m: map<Id, Reset>, m': map<Id, Reset>, t: Task, i: Input, e: Option<Event>) {
    match t
    case Resetting(q) => ResetResets(m, m', q, i, e)
    case _ => m' == m
  }

  // ------------------------------------------------------------------ logins

  /** A challenge taken before its expiry is gone and lets the request go on; otherwise nothing happens. */
  ghost predicate Taken(m: map<Id, Challenge>, m': map<Id, Challenge>, u: Id, at: Instant, o: Outcome, next: Task, e: Event) {
    if u in m && Before(Stamp(at), m[u].expires) then m' == m - {u} && o.next == Some(next) && o.event == Some(e)
    else m' == m && o.next.None? && o.event.None?
  }

  ghost predicate LoginLogins(m: map<Id, Challenge>, m': map<Id, Challenge>, t: LoginTask, i: Input, o: Outcome) {
    match t
    case BeginLogin2(u, c) =>
      if o.event.None? then m' == m
      else m' == m[u := Challenge(c, Stamp(i.now + 5 * MINUTE))] && o.event == Some(LoginBegun(u, i.now)) && u in o.db.users
    case FinishLogin1(u) => Taken(m, m', u, i.now, o, LoggingIn(FinishLogin2(u)), LoginTaken(u, i.now))
    case _ => m' == m
  }

  ghost predicate LoginsMove(m: map<Id, Challenge>, m': map<Id, Challenge>, t: Task, i: Input, o: Outcome) {
    match t
    case LoggingIn(l) => LoginLogins(m, m', l, i, o)
    case _ => m' == m
  }

  // -------------------------------------------------------------------- adds

  ghost predicate BegunAdd(m: map<Id, Challenge>, m': map<Id, Challenge>, u: Id, i: Input, o: Outcome) {
    if o.event.None? then m' == m
    else
      && i.challenge.Some? && m' == m[u := Challenge(i.challenge.value, Stamp(i.now + 5 * MINUTE))]
      && o.event == Some(AddBegun(u, i.now)) && u in o.db.users
  }

  ghost predicate SettingsAdds(m: map<Id, Challenge>, m': map<Id, Challenge>, t: SettingsTask, i: Input, o: Outcome) {
    match t
    case BeginAdd0(u) => BegunAdd(m, m', u, i, o)
    case FinishAdd0(u) => Taken(m, m', u, i.now, o, Settings(FinishAdd1(u, i.now)), AddTaken(u, i.now))
    case _ => m' == m
  }

  ghost predicate ResetAdds(m: map<Id, Challenge>, m': map<Id, Challenge>, t: ResetTask, i: Input, o: Outcome) {
    match t
    case BeginReset1(u) => BegunAdd(m, m', u, i, o)
    case FinishReset1(r, u, began) => Taken(m, m', u, began, o, Resetting(FinishReset2(r, u, began)), AddTaken(u, began))
    case _ => m' == m
  }

  ghost predicate AddsMove(m: map<Id, Challenge>, m': map<Id, Challenge>, t: Task, i: Input, o: Outcome) {
    match t
    case Settings(s) => SettingsAdds(m, m', s, i, o)
    case Resetting(q) => ResetAdds(m, m', q, i, o)
    case _ => m' == m
  }

  // ------------------------------------------------------------------- links

  ghost predicate SettingsLinks(m: map<Id, Link>, m': map<Id, Link>, t: SettingsTask, i: Input, o: Outcome) {
    match t
    case Link1(u, email, subject) =>
      if o.event.None? then m' == m
      else
        && i.token !in m && m' == m[i.token := Link(u, subject, email, Stamp(i.now + 10 * MINUTE))]
        && o.event == Some(LinkIssued(i.token, u, subject, email, i.now)) && u in o.db.users
    case ConfirmLink0(u, token) =>
      if token in m && m[token].user == u && Before(Stamp(i.now), m[token].expires) then
        && m' == m - {token} && o.event == Some(LinkTaken(token, u, m[token].subject, m[token].email, i.now))
        && o.next == Some(Settings(ConfirmLink1(u, m[token].subject, m[token].email)))
      else m' == m && o.event.None? && o.next.None?
    case _ => m' == m
  }

  ghost predicate LinksMove(m: map<Id, Link>, m': map<Id, Link>, t: Task, i: Input, o: Outcome) {
    match t
    case Settings(s) => SettingsLinks(m, m', s, i, o)
    case _ => m' == m
  }

  // ------------------------------------------------------------------ emails

  ghost predicate SettingsEmails(m: map<Id, EmailChange>, m': map<Id, EmailChange>, t: SettingsTask, i: Input, o: Outcome) {
    match t
    case ChangeEmail1(u, email) =>
      if o.event.None? then m' == m
      else
        && i.token !in m && m' == m[i.token := EmailChange(u, email, Stamp(i.now + DAY))]
        && o.event == Some(EmailIssued(i.token, u, email, i.now)) && u in o.db.users
    case ConfirmEmail0(token) =>
      if token != "" && token in m && Before(Stamp(i.now), m[token].expires) then
        && m' == m - {token} && o.event == Some(EmailTakenOut(token, m[token].user, m[token].newEmail, i.now))
        && o.next == Some(Settings(ConfirmEmail1(m[token].user, m[token].newEmail)))
      else m' == m && o.event.None? && o.next.None?
    case _ => m' == m
  }

  ghost predicate EmailsMove(m: map<Id, EmailChange>, m': map<Id, EmailChange>, t: Task, i: Input, o: Outcome) {
    match t
    case Settings(s) => SettingsEmails(m, m', s, i, o)
    case _ => m' == m
  }

  /** A statement that inserts a row for a user finds that user. */
  ghost predicate UserExists(db: Db, t: Task, o: Outcome) {
    match t
    case LoggingIn(l) => l.EnterSession? && o.event.Some? ==> l.user in db.users
    case Settings(s) =>
      && (s.FinishAdd1? && o.event.Some? ==> s.user in db.users)
      && (s.ConfirmLink1? && o.db != db ==> s.user in db.users)
    case Resetting(q) =>
      && (q.RequestReset2? && o.db != db ==> q.user in db.users)
      && (q.FinishReset2? && o.event.Some? ==> q.user in db.users)
      && (q.ResetFreja1? && o.db.identities.Keys != db.identities.Keys ==> q.user in db.users)
    case _ => true
  }

  // ------------------------------------------------------------------- events

  /** What a step can report. */
  ghost predicate EventFits(t: Task, i: Input, e: Option<Event>) {
    match t
    case Registering(r) => RegistrationEvent(r, i, e)
    case LoggingIn(l) => LoginEvent(l, i, e)
    case Settings(s) => SettingsEvent(s, i, e)
    case Resetting(q) => ResetEvent(q, i, e)
    case Gated(g) => GateEvent(g, i, e)
  }

  ghost predicate Maybe(e: Option<Event>, v: Event) {
    e.None? || e.value == v
  }

  ghost predicate MaybeOpened(token: Id, i: Input, e: Option<Event>) {
    e.None? || (i.row.Some? && e.value == SetupOpened(i.row.value, token, i.now))
  }

  ghost predicate RegistrationEvent(t: RegistrationTask, i: Input, e: Option<Event>) {
    match t
    case FinishRegister1(g, email) => e == if i.attested.Some? then Some(Parked(g, i.attested.value)) else None
    case Submit2(email) => Maybe(e, Filed(i.id, email, i.token, i.account, i.now))
    case Verify0(token) => e.None? || (i.row.Some? && e.value == AddressVerified(i.row.value, i.token, i.now))
    case BeginRegister0(token) => MaybeOpened(token, i, e)
    case FinishRegister0(token) => MaybeOpened(token, i, e)
    case FrejaRegister0(token, email, subject) => MaybeOpened(token, i, e)
    case FrejaRegister1(g, email, subject, reported) => e == Some(SubjectSubmitted(g, subject, reported))
    case Approve1(g, row, why) => Maybe(e, Created(g, row.account, row.email, why))
    case Approve2(g, u, why) => e == Some(HookRun(g, u))
    case Reject0(g, why) => Maybe(e, RegistrationRejected(g, why))
    case Promote(u, viaFreja) => Maybe(e, Granted(u, Admin, Bootstrap(viaFreja)))
    case _ => e.None?
  }

  ghost predicate LoginEvent(t: LoginTask, i: Input, e: Option<Event>) {
    match t
    case BeginLogin0(email) => e.None? || (i.row.Some? && e.value == LookedUp(i.row.value, email, ToBegin))
    case BeginLogin2(u, challenge) => Maybe(e, LoginBegun(u, i.now))
    case FinishLogin0(email) => e.None? || (i.row.Some? && e.value == LookedUp(i.row.value, email, ToFinish))
    case FinishLogin1(u) => Maybe(e, LoginTaken(u, i.now))
    case FinishLogin2(u) => e == if i.asserted.Some? then Some(Asserted(u, i.asserted.value.0, i.asserted.value.1)) else None
    case EnterSession(u, how) => Maybe(e, SessionMade(i.id, u, i.now, how))
    case FrejaLogin2(u, subject) => Maybe(e, SubjectRebound(u, subject))
    case Logout0(s) => e == Some(SessionDropped(s))
    case Sweep0 => e == Some(Swept(i.now))
    case _ => e.None?
  }

  ghost predicate MaybeKey(u: Id, began: Instant, via: Option<Id>, i: Input, e: Option<Event>) {
    e.None? || (i.attested.Some? && e.value == KeyAdded(u, i.attested.value, began, via))
  }

  ghost predicate SettingsEvent(t: SettingsTask, i: Input, e: Option<Event>) {
    match t
    case BeginAdd0(u) => Maybe(e, AddBegun(u, i.now))
    case FinishAdd0(u) => Maybe(e, AddTaken(u, i.now))
    case FinishAdd1(u, began) => MaybeKey(u, began, None, i, e)
    case Link1(u, email, subject) => Maybe(e, LinkIssued(i.token, u, subject, email, i.now))
    case ConfirmLink0(u, token) => e.None? || (e.value.LinkTaken? && e.value.link == token && e.value.user == u && e.value.at == i.now)
    case ChangeEmail1(u, email) => Maybe(e, EmailIssued(i.token, u, email, i.now))
    case ConfirmEmail0(token) => e.None? || (e.value.EmailTakenOut? && e.value.email == token && e.value.at == i.now)
    case ConfirmEmail1(u, email) => Maybe(e, Renamed(u, email))
    case _ => e.None?
  }

  ghost predicate MaybeLink(provider: Provider, address: string, i: Input, e: Option<Event>) {
    e.None? || (i.row.Some? && e.value.ResetOpened? && e.value == ResetOpened(i.row.value, e.value.user, provider, address, i.now))
  }

  ghost predicate ResetEvent(t: ResetTask, i: Input, e: Option<Event>) {
    match t
    case RequestReset0(email, provider) => e.None? || (i.row.Some? && e.value == LookedUp(i.row.value, TrimSpace(Lower(email)), ToReset))
    case RequestReset2(u, provider) => Maybe(e, ResetFiled(i.id, u, provider))
    case BeginReset0(token) => MaybeLink(ViaPasskey, "", i, e)
    case BeginReset1(u) => Maybe(e, AddBegun(u, i.now))
    case FinishReset0(token) => MaybeLink(ViaPasskey, "", i, e)
    case FinishReset1(r, u, began) => Maybe(e, AddTaken(u, began))
    case ResetFreja0(token, email, subject) => MaybeLink(ViaFreja, email, i, e)
    case GrantReset1(r, why) =>
      e.None? || (e.value.ResetApproved? && e.value.reset == r && e.value.token == i.token && e.value.at == i.now && e.value.why == why)
    case DenyReset0(r, why) => Maybe(e, ResetDenied(r, why))
    case FinishReset2(r, u, began) => MaybeKey(u, began, Some(r), i, e)
    case FinishReset3(r) => e == Some(ResetCompleted(r))
    case ResetFreja1(r, u, email, subject, began) => Maybe(e, SubjectReset(u, subject, email, r, began))
    case ResetFreja2(r, u, began) => e == Some(ResetCompleted(r))
    case _ => e.None?
  }

  ghost predicate GateEvent(t: GateTask, i: Input, e: Option<Event>) {
    match t
    case Gate0(cookie, act) =>
      e.Some? ==> e.value.Admitted? && e.value == Admitted(e.value.user, e.value.role, cookie, act, i.now)
    case SetBanned0(u, b, why) => Maybe(e, Banned(u, b, why))
    case ChangeRole0(u, role, why) => Maybe(e, Granted(u, role, why))
    case _ => e.None?
  }

  // ----------------------------------------------------------- continuations

  /** The statement a request can be at next, and what it then knows. */
  ghost predicate NextFits(cfg: Config, db: Db, t: Task, i: Input, o: Outcome) {
    o.next.Some? ==>
      match t
      case Registering(r) => RegistrationNext(cfg, db, r, i, o, o.next.value)
      case LoggingIn(l) => LoginNext(db, l, i, o.event, o.next.value)
      case Settings(s) => SettingsNext(db, s, i, o.next.value)
      case Resetting(q) => ResetNext(db, q, i, o, o.next.value)
      case Gated(g) => GateNext(db, g, i, o.event, o.next.value)
  }

  ghost predicate AutoApproves(cfg: Config, g: Id, email: string, viaFreja: bool, n: Task) {
    IsAdminEmail(cfg, email) && n == Registering(Approve0(g, Bootstrap(viaFreja)))
  }

  ghost predicate RegistrationNext(cfg: Config, db: Db, t: RegistrationTask, i: Input, o: Outcome, n: Task) {
    match t
    case Submit0(email) => n == Registering(Submit1(email))
    case Submit1(email) => n == Registering(Submit2(email))
    case Verify0(token) => n == Registering(t)
    case BeginRegister0(token) => n == Registering(t) || (n.Registering? && n.r.BeginRegister1?)
    case FinishRegister0(token) =>
      || n == Registering(t)
      || exists g :: SetupOpen(db, g, token, Stamp(i.now)) && n == Registering(FinishRegister1(g, db.registrations[g].email))
                     && o.event == Some(SetupOpened(g, token, i.now))
    case FinishRegister1(g, email) => i.attested.Some? && AutoApproves(cfg, g, email, false, n)
    case FrejaRegister0(token, email, subject) =>
      || n == Registering(t)
      || exists g :: SetupOpen(db, g, token, Stamp(i.now)) && EqualFold(email, db.registrations[g].email)
                     && n == Registering(FrejaRegister1(g, db.registrations[g].email, subject, email))
                     && o.event == Some(SetupOpened(g, token, i.now))
    case FrejaRegister1(g, email, subject, reported) => AutoApproves(cfg, g, email, true, n)
    case Approve0(g, why) =>
      && g in db.registrations && db.registrations[g].status == Pending
      && n == Registering(Approve1(g, db.registrations[g], why))
    case Approve1(g, row, why) => o.event.Some? && n == Registering(Approve2(g, row.account, why))
    case Approve2(g, u, why) => why.Bootstrap? && n == Registering(Promote(u, why.viaFreja))
    case Promote(u, viaFreja) => viaFreja && n == LoggingIn(EnterSession(u, ByRegistration))
    case _ => false
  }

  ghost predicate LoginNext(db: Db, t: LoginTask, i: Input, e: Option<Event>, n: Task) {
    match t
    case BeginLogin0(email) => n == LoggingIn(t) || exists u :: UserNamed(db, u, email) && n == LoggingIn(BeginLogin1(u))
    case BeginLogin1(u) => n.LoggingIn? && n.l.BeginLogin2? && n.l.user == u && KeysOf(db, u) != {}
    case FinishLogin0(email) =>
      || n == LoggingIn(t)
      || (n == LoggingIn(FinishLogin1("")) && e.None? && forall u :: !UserNamed(db, u, email))
      || exists u :: UserNamed(db, u, email) && n == LoggingIn(FinishLogin1(u)) && e == Some(LookedUp(u, email, ToFinish))
    case FinishLogin1(u) => u in db.logins && Before(Stamp(i.now), db.logins[u].expires) && n == LoggingIn(FinishLogin2(u))
    case FinishLogin2(u) => i.asserted.Some? && n == LoggingIn(EnterSession(u, ByPasskey))
    case FrejaLogin0(email, subject) =>
      || n == LoggingIn(t)
      || (n == LoggingIn(FrejaLogin1(email, subject)) && subject != "" && SubjectFree(db.identities, subject))
      || exists k :: HasSubject(db, k, subject) && n == LoggingIn(EnterSession(db.identities[k].user, ByFreja))
    case FrejaLogin1(email, subject) =>
      || n == LoggingIn(t)
      || exists k :: HasFrejaEmail(db, k, email) && n == LoggingIn(FrejaLogin2(db.identities[k].user, subject))
    case FrejaLogin2(u, subject) => n == LoggingIn(EnterSession(u, ByFreja))
    case _ => false
  }

  ghost predicate SettingsNext(db: Db, t: SettingsTask, i: Input, n: Task) {
    match t
    case FinishAdd0(u) => n == Settings(FinishAdd1(u, i.now))
    case DeleteKey0(u, k) => |KeysOf(db, u)| > 1 && n == Settings(DeleteKey1(u, k))
    case Link0(u, email, subject) => !FrejaKnown(db, subject, email) && n == Settings(Link1(u, email, subject))
    case ConfirmLink0(u, token) =>
      token in db.links && db.links[token].user == u && n == Settings(ConfirmLink1(u, db.links[token].subject, db.links[token].email))
    case Unlink0(u) => KeysOf(db, u) != {} && n == Settings(Unlink1(u))
    case ChangeEmail0(u, email) => !EmailTaken(db, u, email) && n == Settings(ChangeEmail1(u, email))
    case ConfirmEmail0(token) =>
      token in db.emails && n == Settings(ConfirmEmail1(db.emails[token].user, db.emails[token].newEmail))
    case ConfirmEmail1(u, email) => n == Settings(ConfirmEmail2(u, email))
    case _ => false
  }

  ghost predicate ResetNext(db: Db, t: ResetTask, i: Input, o: Outcome, n: Task) {
    match t
    case RequestReset0(email, provider) => n == Resetting(t) || (n.Resetting? && n.q.RequestReset1?)
    case RequestReset1(u, provider) => !ResetPending(db, u, provider) && n == Resetting(RequestReset2(u, provider))
    case GrantReset0(r, why) => r in db.resets && db.resets[r].status == Pending && n == Resetting(GrantReset1(r, why))
    case BeginReset0(token) =>
      || n == Resetting(t)
      || exists r :: ResetOpen(db, r, token, Stamp(i.now), ViaPasskey) && n == Resetting(BeginReset1(db.resets[r].user))
    case FinishReset0(token) =>
      || n == Resetting(t)
      || exists r :: ResetOpen(db, r, token, Stamp(i.now), ViaPasskey)
                     && n == Resetting(FinishReset1(r, db.resets[r].user, i.now))
                     && o.event == Some(ResetOpened(r, db.resets[r].user, ViaPasskey, "", i.now))
    case FinishReset1(r, u, began) => n == Resetting(FinishReset2(r, u, began))
    case FinishReset2(r, u, began) => o.event.Some? && n == Resetting(FinishReset3(r))
    case ResetFreja0(token, email, subject) =>
      || n == Resetting(t)
      || exists r :: ResetOpen(db, r, token, Stamp(i.now), ViaFreja) && EqualFold(email, db.users[db.resets[r].user].username)
                     && n == Resetting(ResetFreja1(r, db.resets[r].user, email, subject, i.now))
                     && o.event == Some(ResetOpened(r, db.resets[r].user, ViaFreja, email, i.now))
    case ResetFreja1(r, u, email, subject, began) => o.event.Some? && n == Resetting(ResetFreja2(r, u, began))
    case ResetFreja2(r, u, began) => n == LoggingIn(EnterSession(u, ByReset(r, began)))
    case _ => false
  }

  ghost predicate GateNext(db: Db, t: GateTask, i: Input, e: Option<Event>, n: Task) {
    match t
    case Gate0(cookie, act) =>
      exists u, role ::
        && CurrentUser(db, cookie, Stamp(i.now)) == Some((u, role))
        && e == Some(Admitted(u, role, cookie, act, i.now)) && n == Gated(Gate1(cookie, u, role, act, i.now))
    case Gate1(cookie, u, role, act, at) => n == Enter(act, cookie, u, at) && (NeedsAdmin(act) ==> role == Admin)
    case _ => false
  }

  // ----------------------------------------------------------------- lookups

  /** What a lookup reports to have found is what its WHERE clause asks for. */
  ghost predicate LookupTells(db: Db, t: Task, i: Input, e: Option<Event>) {
    e.Some? ==>
      match t
      case Registering(BeginRegister0(token)) => i.row.Some? && SetupOpen(db, i.row.value, token, Stamp(i.now))
      case Registering(FinishRegister0(token)) => i.row.Some? && SetupOpen(db, i.row.value, token, Stamp(i.now))
      case Registering(FrejaRegister0(token, email, subject)) =>
        i.row.Some? && SetupOpen(db, i.row.value, token, Stamp(i.now)) && EqualFold(email, db.registrations[i.row.value].email)
      case LoggingIn(BeginLogin0(email)) => i.row.Some? && UserNamed(db, i.row.value, email)
      case LoggingIn(FinishLogin0(email)) => i.row.Some? && UserNamed(db, i.row.value, email)
      case Resetting(RequestReset0(email, provider)) => i.row.Some? && UserLike(db, i.row.value, TrimSpace(Lower(email)))
      case Resetting(BeginReset0(token)) => LinkTells(db, token, ViaPasskey, i, e.value)
      case Resetting(FinishReset0(token)) => LinkTells(db, token, ViaPasskey, i, e.value)
      case Resetting(ResetFreja0(token, email, subject)) =>
        && LinkTells(db, token, ViaFreja, i, e.value)
        && EqualFold(email, db.users[db.resets[i.row.value].user].username)
      case _ => true
  }

  ghost predicate LinkTells(db: Db, token: Id, provider: Provider, i: Input, e: Event) {
    && i.row.Some? && ResetOpen(db, i.row.value, token, Stamp(i.now), provider)
    && e.ResetOpened? && e.user == db.resets[i.row.value].user
  }

  // ------------------------------------------------------------------- all of it

  ghost predicate Effect(cfg: Config, db: Db, t: Task, i: Input, o: Outcome) {
    && EventFits(t, i, o.event)
    && NextFits(cfg, db, t, i, o)
    && UserExists(db, t, o)
    && UsersMove(db.users, o.db.users, t, o.event)
    && RegistrationsMove(db.registrations, o.db.registrations, t, i, o.event)
    && SessionsMove(db.sessions, o.db.sessions, t, i, o.event)
    && PasskeysMove(db.passkeys, o.db.passkeys, t, i, o.event)
    && IdentitiesMove(db.identities, o.db.identities, t, i, o.event)
    && ResetsMove(db.resets, o.db.resets, t, i, o.event)
    && LoginsMove(db.logins, o.db.logins, t, i, o)
    && AddsMove(db.adds, o.db.adds, t, i, o)
    && LinksMove(db.links, o.db.links, t, i, o)
    && EmailsMove(db.emails, o.db.emails, t, i, o)
  }
}
