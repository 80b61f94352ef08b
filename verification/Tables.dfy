/**
 * The SQLite tables and the statements the handlers run on them. Each table maps its primary key
 * to the other columns; a statement that violates UNIQUE, PRIMARY KEY or FOREIGN KEY yields None and
 * changes nothing. Timestamps are the TEXT that is stored.
 */
module Tables {
  import opened Basics
  import opened Text
  import opened Timestamps
  import PublicKeys

  datatype Role = Passive | Active | Admin
  datatype Provider = ViaPasskey | ViaFreja
  datatype Status = Pending | Approved | Rejected | Completed

  datatype User = User(username: string, role: Role, banned: bool)

  datatype Session = Session(user: Id, expires: string, lastSeen: string)

  /** user_identities; the provider column is always 'freja'. */
  datatype Identity = Identity(user: Id, subject: string, email: string)

  datatype Passkey = Passkey(user: Id, credId: seq<Byte>, publicKey: seq<Byte>, signCount: int)

  /** A nullable token column together with its expiry column. */
  datatype Grant = Grant(token: Id, expires: string)

  datatype Registration = Registration(
    emailToken: Id,
    email: string,
    expires: string,
    verified: bool,
    status: Status,
    setup: Option<Grant>,
    challenge: Option<string>,
    credential: Option<string>,
    submitted: bool,
    account: Uuid,             // pending_user_id
    provider: Provider,
    frejaSub: string,
    user: Option<Id>)

  datatype Reset = Reset(user: Id, provider: Provider, setup: Option<Grant>, status: Status)

  /** webauthn_login_sessions and webauthn_add_sessions, both unique per user. */
  datatype Challenge = Challenge(data: string, expires: string)

  datatype Link = Link(user: Id, subject: string, email: string, expires: string)

  datatype EmailChange = EmailChange(user: Id, newEmail: string, expires: string)

  datatype Db = Db(
    users: map<Id, User>,
    sessions: map<Id, Session>,
    identities: map<Id, Identity>,
    passkeys: map<Id, Passkey>,
    registrations: map<Id, Registration>,
    resets: map<Id, Reset>,
    logins: map<Id, Challenge>,
    adds: map<Id, Challenge>,
    links: map<Id, Link>,
    emails: map<Id, EmailChange>)

  const EMPTY: Db := Db(map[], map[], map[], map[], map[], map[], map[], map[], map[], map[])

  // ------------------------------------------------------------------- schema

  ghost predicate UniqueNames(m: map<Id, User>) {
    forall a, b :: a in m && b in m && m[a].username == m[b].username ==> a == b
  }

  ghost predicate UniqueSubjects(m: map<Id, Identity>) {
    forall a, b :: a in m && b in m && m[a].subject == m[b].subject ==> a == b
  }

  ghost predicate UniqueCredentials(m: map<Id, Passkey>) {
    forall a, b :: a in m && b in m && m[a].credId == m[b].credId ==> a == b
  }

  predicate SameToken(a: Option<Grant>, b: Option<Grant>) {
    a.Some? && b.Some? && a.value.token == b.value.token
  }

  /** email, email_token, pending_user_id and setup_token are each UNIQUE. */
  predicate Clash(g: Registration, h: Registration) {
    g.email == h.email || g.emailToken == h.emailToken || g.account == h.account || SameToken(g.setup, h.setup)
  }

  ghost predicate UniqueRegistrations(m: map<Id, Registration>) {
    forall a, b :: a in m && b in m && Clash(m[a], m[b]) ==> a == b
  }

  ghost predicate UniqueResetTokens(m: map<Id, Reset>) {
    forall a, b :: a in m && b in m && SameToken(m[a].setup, m[b].setup) ==> a == b
  }

  ghost predicate ForeignKeys(db: Db) {
    && (forall k :: k in db.sessions ==> db.sessions[k].user in db.users)
    && (forall k :: k in db.identities ==> db.identities[k].user in db.users)
    && (forall k :: k in db.passkeys ==> db.passkeys[k].user in db.users)
    && (forall k :: k in db.resets ==> db.resets[k].user in db.users)
    && (forall k :: k in db.links ==> db.links[k].user in db.users)
    && (forall k :: k in db.emails ==> db.emails[k].user in db.users)
    && (forall g :: g in db.registrations && db.registrations[g].user.Some? ==> db.registrations[g].user.value in db.users)
    && db.logins.Keys <= db.users.Keys
    && db.adds.Keys <= db.users.Keys
  }

  /** Every declared constraint. */
  ghost predicate Schema(db: Db) {
    && UniqueNames(db.users) && UniqueSubjects(db.identities) && UniqueCredentials(db.passkeys)
    && UniqueRegistrations(db.registrations) && UniqueResetTokens(db.resets) && ForeignKeys(db)
  }

  // ------------------------------------------------------------------ queries

  function KeysOf(db: Db, u: Id): set<Id> {
    set k | k in db.passkeys && db.passkeys[k].user == u
  }

  function IdentitiesOf(db: Db, u: Id): set<Id> {
    set k | k in db.identities && db.identities[k].user == u
  }

  ghost predicate CanLogIn(db: Db, u: Id) {
    KeysOf(db, u) != {} || IdentitiesOf(db, u) != {}
  }

  predicate UserNamed(db: Db, u: Id, email: string) {
    u in db.users && db.users[u].username == email && !db.users[u].banned
  }

  predicate UserLike(db: Db, u: Id, email: string) {
    u in db.users && Lower(db.users[u].username) == Lower(email)
  }

  predicate AnyUserLike(db: Db, email: string) {
    exists u :: u in db.users && UserLike(db, u, email)
  }

  predicate EmailTaken(db: Db, u: Id, email: string) {
    exists v :: v in db.users && v != u && Lower(db.users[v].username) == email
  }

  predicate EmailRegistered(db: Db, email: string) {
    exists g :: g in db.registrations && db.registrations[g].email == email
  }

  /** WHERE email_token = ? AND expires_at > ? AND email_verified = 0 */
  predicate Verifiable(db: Db, g: Id, token: Id, now: string) {
    && g in db.registrations
    && db.registrations[g].emailToken == token
    && Before(now, db.registrations[g].expires)
    && !db.registrations[g].verified
  }

  /** WHERE setup_token = ? AND setup_token_expires_at > ? AND status = 'pending' AND email_verified = 1 */
  predicate SetupOpen(db: Db, g: Id, token: Id, now: string) {
    && g in db.registrations
    && var r := db.registrations[g];
    && r.setup.Some? && r.setup.value.token == token && Before(now, r.setup.value.expires)
    && r.status == Pending && r.verified
  }

  /** WHERE setup_token = ? AND token_expires_at > ? AND status = 'approved' AND provider = ? (joined with users) */
  predicate ResetOpen(db: Db, r: Id, token: Id, now: string, provider: Provider) {
    && r in db.resets
    && var q := db.resets[r];
    && q.user in db.users
    && q.setup.Some? && q.setup.value.token == token && Before(now, q.setup.value.expires)
    && q.status == Approved && q.provider == provider
  }

  predicate ResetPending(db: Db, u: Id, provider: Provider) {
    exists r :: r in db.resets && db.resets[r].user == u && db.resets[r].provider == provider && db.resets[r].status == Pending
  }

  predicate HasSubject(db: Db, i: Id, subject: string) {
    i in db.identities && db.identities[i].subject == subject
  }

  predicate HasFrejaEmail(db: Db, i: Id, email: string) {
    i in db.identities && Lower(db.identities[i].email) == Lower(email)
  }

  predicate FrejaKnown(db: Db, subject: string, email: string) {
    exists i :: i in db.identities && (HasSubject(db, i, subject) || HasFrejaEmail(db, i, email))
  }

  /**
   * What a lookup that is not by primary key returned. SQLite may return any matching row, and
   * "no row" only when none matches; everything else is not an answer.
   */
  datatype Answer = Found(id: Id) | Nothing | NotAnAnswer

  function FindUser(db: Db, row: Option<Id>, email: string): (a: Answer)
    ensures a.Found? ==> row == Some(a.id) && UserNamed(db, a.id, email)
  {
    match row
    case Some(u) => if UserNamed(db, u, email) then Found(u) else NotAnAnswer
    case None => if exists u :: u in db.users && UserNamed(db, u, email) then NotAnAnswer else Nothing
  }

  function FindUserLike(db: Db, row: Option<Id>, email: string): (a: Answer)
    ensures a.Found? ==> row == Some(a.id) && UserLike(db, a.id, email)
  {
    match row
    case Some(u) => if UserLike(db, u, email) then Found(u) else NotAnAnswer
    case None => if AnyUserLike(db, email) then NotAnAnswer else Nothing
  }

  function FindVerifiable(db: Db, row: Option<Id>, token: Id, now: string): (a: Answer)
    ensures a.Found? ==> row == Some(a.id) && Verifiable(db, a.id, token, now)
  {
    match row
    case Some(g) => if Verifiable(db, g, token, now) then Found(g) else NotAnAnswer
    case None => if exists g :: g in db.registrations && Verifiable(db, g, token, now) then NotAnAnswer else Nothing
  }

  function FindSetup(db: Db, row: Option<Id>, token: Id, now: string): (a: Answer)
    ensures a.Found? ==> row == Some(a.id) && SetupOpen(db, a.id, token, now)
  {
    match row
    case Some(g) => if SetupOpen(db, g, token, now) then Found(g) else NotAnAnswer
    case None => if exists g :: g in db.registrations && SetupOpen(db, g, token, now) then NotAnAnswer else Nothing
  }

  function FindReset(db: Db, row: Option<Id>, token: Id, now: string, provider: Provider): (a: Answer)
    ensures a.Found? ==> row == Some(a.id) && ResetOpen(db, a.id, token, now, provider)
  {
    match row
    case Some(r) => if ResetOpen(db, r, token, now, provider) then Found(r) else NotAnAnswer
    case None => if exists r :: r in db.resets && ResetOpen(db, r, token, now, provider) then NotAnAnswer else Nothing
  }

  function FindSubject(db: Db, row: Option<Id>, subject: string): (a: Answer)
    ensures a.Found? ==> row == Some(a.id) && HasSubject(db, a.id, subject)
  {
    match row
    case Some(k) => if HasSubject(db, k, subject) then Found(k) else NotAnAnswer
    case None => if exists k :: k in db.identities && HasSubject(db, k, subject) then NotAnAnswer else Nothing
  }

  function FindFrejaEmail(db: Db, row: Option<Id>, email: string): (a: Answer)
    ensures a.Found? ==> row == Some(a.id) && HasFrejaEmail(db, a.id, email)
  {
    match row
    case Some(k) => if HasFrejaEmail(db, k, email) then Found(k) else NotAnAnswer
    case None => if exists k :: k in db.identities && HasFrejaEmail(db, k, email) then NotAnAnswer else Nothing
  }

  /** GetSession: the user and role behind a cookie, if the session is unexpired and the user not banned. */
  function CurrentUser(db: Db, cookie: Id, now: string): Option<(Id, Role)> {
    if cookie in db.sessions && Before(now, db.sessions[cookie].expires)
       && db.sessions[cookie].user in db.users && !db.users[db.sessions[cookie].user].banned
    then Some((db.sessions[cookie].user, db.users[db.sessions[cookie].user].role))
    else None
  }

  /** The admin queue: what ListPendingRegistrations and GetCounts select. */
  predicate Queued(r: Registration) {
    r.status == Pending && r.verified && (r.credential.Some? || (r.provider == ViaFreja && r.submitted))
  }

  // ------------------------------------------------------------------ sessions

  function InsertSession(db: Db, id: Id, u: Id, now: Instant): (d: Option<Db>)
    ensures d.Some? ==> d.value == db.(sessions := d.value.sessions)
  {
    if id in db.sessions || u !in db.users then None
    else Some(db.(sessions := db.sessions[id := Session(u, Stamp(now + SESSION), Stamp(now))]))
  }

  function TouchSession(db: Db, id: Id, now: Instant): (d: Db)
    ensures d == db.(sessions := d.sessions)
  {
    if id in db.sessions then db.(sessions := db.sessions[id := db.sessions[id].(lastSeen := Stamp(now))]) else db
  }

  function DeleteSession(db: Db, id: Id): (d: Db)
    ensures d == db.(sessions := d.sessions)
  {
    db.(sessions := db.sessions - {id})
  }

  function DeleteExpired(db: Db, now: string): (d: Db)
    ensures d == db.(sessions := d.sessions)
  {
    db.(sessions := map s | s in db.sessions && !Before(db.sessions[s].expires, now) :: db.sessions[s])
  }

  // ------------------------------------------------------------- registrations

  function InsertRegistration(db: Db, id: Id, emailToken: Id, account: Uuid, email: string, now: Instant): (d: Option<Db>)
    ensures d.Some? ==> d.value == db.(registrations := d.value.registrations)
  {
    if id in db.registrations
       || exists g :: g in db.registrations &&
            (db.registrations[g].email == email || db.registrations[g].emailToken == emailToken || db.registrations[g].account == account)
    then None
    else Some(db.(registrations := db.registrations[id :=
      Registration(emailToken, email, Stamp(now + DAY), false, Pending, None, None, None, false, account, ViaPasskey, "", None)]))
  }

  function VerifyEmail(db: Db, g: Id, setupToken: Id, now: Instant): (d: Option<Db>)
    requires g in db.registrations
    ensures d.Some? ==> d.value == db.(registrations := d.value.registrations)
  {
    if exists h :: h in db.registrations && h != g && db.registrations[h].setup.Some? && db.registrations[h].setup.value.token == setupToken
    then None
    else Some(db.(registrations := db.registrations[g :=
      db.registrations[g].(verified := true, setup := Some(Grant(setupToken, Stamp(now + DAY))))]))
  }

  function SetChallenge(db: Db, g: Id, challenge: string): (d: Db)
    ensures d == db.(registrations := d.registrations)
  {
    if g in db.registrations then
      db.(registrations := db.registrations[g := db.registrations[g].(challenge := Some(challenge))])
    else db
  }

  function SetCredential(db: Db, g: Id, credential: string): (d: Db)
    ensures d == db.(registrations := d.registrations)
  {
    if g in db.registrations then
      db.(registrations := db.registrations[g := db.registrations[g].(credential := Some(credential), submitted := true)])
    else db
  }

  function SetFreja(db: Db, g: Id, subject: string): (d: Db)
    ensures d == db.(registrations := d.registrations)
  {
    if g in db.registrations then
      db.(registrations := db.registrations[g :=
        db.registrations[g].(provider := ViaFreja, frejaSub := subject, submitted := true)])
    else db
  }

  function RejectRegistration(db: Db, g: Id): (d: Db)
    ensures d == db.(registrations := d.registrations)
  {
    if g in db.registrations && db.registrations[g].status == Pending then
      db.(registrations := db.registrations[g := db.registrations[g].(status := Rejected)])
    else db
  }

  function CompleteRegistration(db: Db, g: Id, u: Id): (d: Db)
    ensures d == db.(registrations := d.registrations)
  {
    if g in db.registrations then
      db.(registrations := db.registrations[g := db.registrations[g].(status := Completed, user := Some(u))])
    else db
  }

  // --------------------------------------------------------------------- users

  function InsertUser(db: Db, u: Id, email: string): (d: Option<Db>)
    ensures d.Some? ==> d.value == db.(users := d.value.users)
  {
    if u in db.users || exists v :: v in db.users && db.users[v].username == email then None
    else Some(db.(users := db.users[u := User(email, Passive, false)]))
  }

  function SetRole(db: Db, u: Id, role: Role): (d: Db)
    ensures d == db.(users := d.users)
  {
    if u in db.users then db.(users := db.users[u := db.users[u].(role := role)]) else db
  }

  function SetBan(db: Db, u: Id, banned: bool): (d: Db)
    ensures d == db.(users := d.users)
  {
    if u in db.users then db.(users := db.users[u := db.users[u].(banned := banned)]) else db
  }

  function SetUsername(db: Db, u: Id, email: string): (d: Option<Db>)
    ensures d.Some? ==> d.value == db.(users := d.value.users)
  {
    if u !in db.users then Some(db)
    else if exists v :: v in db.users && v != u && db.users[v].username == email then None
    else Some(db.(users := db.users[u := db.users[u].(username := email)]))
  }

  // ------------------------------------------------------------------ passkeys

  function InsertPasskey(db: Db, id: Id, u: Id, credId: seq<Byte>, publicKey: seq<Byte>, signCount: int): (d: Option<Db>)
    ensures d.Some? ==> d.value == db.(passkeys := d.value.passkeys)
  {
    if id in db.passkeys || u !in db.users || exists k :: k in db.passkeys && db.passkeys[k].credId == credId then None
    else Some(db.(passkeys := db.passkeys[id := Passkey(u, credId, publicKey, signCount)]))
  }

  function SetSignCount(db: Db, u: Id, credId: seq<Byte>, count: int): (d: Db)
    ensures d == db.(passkeys := d.passkeys)
  {
    db.(passkeys := map k | k in db.passkeys ::
      if db.passkeys[k].user == u && db.passkeys[k].credId == credId then db.passkeys[k].(signCount := count)
      else db.passkeys[k])
  }

  function DeletePasskey(db: Db, u: Id, k: Id): (d: Db)
    ensures d == db.(passkeys := d.passkeys)
  {
    if k in db.passkeys && db.passkeys[k].user == u then db.(passkeys := db.passkeys - {k}) else db
  }

  // ---------------------------------------------------------------- identities

  /** INSERT ... ON CONFLICT (provider, provider_subject) DO NOTHING */
  function LinkIdentity(db: Db, id: Id, u: Id, subject: string, email: string): (d: Option<Db>)
    ensures d.Some? ==> d.value == db.(identities := d.value.identities)
  {
    if exists i :: i in db.identities && HasSubject(db, i, subject) then Some(db)
    else if id in db.identities || u !in db.users then None
    else Some(db.(identities := db.identities[id := Identity(u, subject, email)]))
  }

  /** INSERT ... ON CONFLICT (provider, provider_subject) DO UPDATE SET provider_email = excluded.provider_email */
  function UpsertIdentity(db: Db, id: Id, u: Id, subject: string, email: string): (d: Option<Db>)
    ensures d.Some? ==> d.value == db.(identities := d.value.identities)
  {
    if exists i :: i in db.identities && HasSubject(db, i, subject) then
      Some(db.(identities := map i | i in db.identities ::
        if HasSubject(db, i, subject) then db.identities[i].(email := email) else db.identities[i]))
    else if id in db.identities || u !in db.users then None
    else Some(db.(identities := db.identities[id := Identity(u, subject, email)]))
  }

  /** UPDATE user_identities SET provider_subject = ? WHERE user_id = ? AND provider = 'freja' */
  function Rebind(db: Db, u: Id, subject: string): (d: Option<Db>)
    ensures d.Some? ==> d.value == db.(identities := d.value.identities)
  {
    if (exists i :: i in db.identities && HasSubject(db, i, subject) && db.identities[i].user != u && IdentitiesOf(db, u) != {})
       || (exists i, j :: i in IdentitiesOf(db, u) && j in IdentitiesOf(db, u) && i != j)
    then None
    else Some(db.(identities := map i | i in db.identities ::
      if db.identities[i].user == u then db.identities[i].(subject := subject) else db.identities[i]))
  }

  function SetFrejaEmail(db: Db, u: Id, email: string): (d: Db)
    ensures d == db.(identities := d.identities)
  {
    db.(identities := map i | i in db.identities ::
      if db.identities[i].user == u then db.identities[i].(email := email) else db.identities[i])
  }

  function Unlink(db: Db, u: Id): (d: Db)
    ensures d == db.(identities := d.identities)
  {
    db.(identities := map i | i in db.identities && db.identities[i].user != u :: db.identities[i])
  }

  // -------------------------------------------------------- one-shot rows

  function UpsertLogin(db: Db, u: Id, challenge: string, now: Instant): (d: Option<Db>)
    ensures d.Some? ==> d.value == db.(logins := d.value.logins)
  {
    if u !in db.users then None
    else Some(db.(logins := db.logins[u := Challenge(challenge, Stamp(now + 5 * MINUTE))]))
  }

  function TakeLogin(db: Db, u: Id, now: string): (d: Option<Db>)
    ensures d.Some? ==> d.value == db.(logins := d.value.logins)
  {
    if u in db.logins && Before(now, db.logins[u].expires) then Some(db.(logins := db.logins - {u})) else None
  }

  function UpsertAdd(db: Db, u: Id, challenge: string, now: Instant): (d: Option<Db>)
    ensures d.Some? ==> d.value == db.(adds := d.value.adds)
  {
    if u !in db.users then None
    else Some(db.(adds := db.adds[u := Challenge(challenge, Stamp(now + 5 * MINUTE))]))
  }

  function TakeAdd(db: Db, u: Id, now: string): (d: Option<Db>)
    ensures d.Some? ==> d.value == db.(adds := d.value.adds)
  {
    if u in db.adds && Before(now, db.adds[u].expires) then Some(db.(adds := db.adds - {u})) else None
  }

  function InsertLink(db: Db, token: Id, u: Id, subject: string, email: string, now: Instant): (d: Option<Db>)
    ensures d.Some? ==> d.value == db.(links := d.value.links)
  {
    if token in db.links || u !in db.users then None
    else Some(db.(links := db.links[token := Link(u, subject, email, Stamp(now + 10 * MINUTE))]))
  }

  function TakeLink(db: Db, token: Id, u: Id, now: string): (d: Option<(Db, Link)>)
    ensures d.Some? ==> d.value.0 == db.(links := d.value.0.links)
  {
    if token in db.links && db.links[token].user == u && Before(now, db.links[token].expires) then
      Some((db.(links := db.links - {token}), db.links[token]))
    else None
  }

  function InsertEmailChange(db: Db, token: Id, u: Id, email: string, now: Instant): (d: Option<Db>)
    ensures d.Some? ==> d.value == db.(emails := d.value.emails)
  {
    if token in db.emails || u !in db.users then None
    else Some(db.(emails := db.emails[token := EmailChange(u, email, Stamp(now + DAY))]))
  }

  function TakeEmailChange(db: Db, token: Id, now: string): (d: Option<(Db, EmailChange)>)
    ensures d.Some? ==> d.value.0 == db.(emails := d.value.0.emails)
  {
    if token in db.emails && Before(now, db.emails[token].expires) then
      Some((db.(emails := db.emails - {token}), db.emails[token]))
    else None
  }

  // -------------------------------------------------------------------- resets

  function InsertReset(db: Db, id: Id, u: Id, provider: Provider): (d: Option<Db>)
    ensures d.Some? ==> d.value == db.(resets := d.value.resets)
  {
    if id in db.resets || u !in db.users then None
    else Some(db.(resets := db.resets[id := Reset(u, provider, None, Pending)]))
  }

  function ApproveReset(db: Db, r: Id, token: Id, now: Instant): (d: Option<Db>)
    ensures d.Some? ==> d.value == db.(resets := d.value.resets)
  {
    if r !in db.resets || db.resets[r].status != Pending then Some(db)
    else if exists q :: q in db.resets && q != r && db.resets[q].setup.Some? && db.resets[q].setup.value.token == token then None
    else Some(db.(resets := db.resets[r :=
      db.resets[r].(status := Approved, setup := Some(Grant(token, Stamp(now + 48 * HOUR))))]))
  }

  function RejectReset(db: Db, r: Id): (d: Db)
    ensures d == db.(resets := d.resets)
  {
    if r in db.resets && db.resets[r].status == Pending then
      db.(resets := db.resets[r := db.resets[r].(status := Rejected)])
    else db
  }

  function CompleteReset(db: Db, r: Id): (d: Db)
    ensures d == db.(resets := d.resets)
  {
    if r in db.resets then db.(resets := db.resets[r := db.resets[r].(status := Completed)]) else db
  }

  // ------------------------------------------------------ approval transactions

  /** sendApprovalPasskey: user, passkey and status in one transaction. */
  function ApprovePasskey(db: Db, g: Id, u: Id, email: string, credential: Option<string>, keyId: Id): (d: Option<Db>)
    ensures d.Some? ==>
      d.value == db.(users := d.value.users, passkeys := d.value.passkeys, registrations := d.value.registrations)
  {
    if credential.None? then None
    else
      match PublicKeys.Unpark(credential.value)
      case None => None
      case Some(stored) =>
        match InsertUser(db, u, email)
        case None => None
        case Some(d1) =>
          match InsertPasskey(d1, keyId, u, stored.id, stored.publicKey, stored.signCount)
          case None => None
          case Some(d2) => Some(CompleteRegistration(d2, g, u))
  }

  /** sendApprovalFreja: user, identity unless the subject is already held, and status. */
  function ApproveFreja(db: Db, g: Id, u: Id, email: string, subject: string, identityId: Id): (d: Option<Db>)
    ensures d.Some? ==>
      d.value == db.(users := d.value.users, identities := d.value.identities, registrations := d.value.registrations)
  {
    match InsertUser(db, u, email)
    case None => None
    case Some(d1) =>
      match LinkIdentity(d1, identityId, u, subject, email)
      case None => None
      case Some(d2) => Some(CompleteRegistration(d2, g, u))
  }
}
