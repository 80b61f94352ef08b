/**
 * What the statements refuse. A write goes through exactly if every declared constraint would hold of the tables
 * with it, and a check lets a request go on exactly if the write it guards would do no harm.
 */
module Writes {
  import opened Basics
  import opened Timestamps
  import opened PublicKeys
  import opened Tables
  import opened Requests
  import opened Runs
  import opened Effects
  import opened Integrity

  // ------------------------------------------------------------------- writes

  /** The statements that store or rename something and answer with an error if the database refuses. */
  predicate IsWrite(t: Task) {
    match t
    case Registering(r) => r.Submit2?
    case LoggingIn(l) => l.BeginLogin2? || l.EnterSession?
    case Settings(s) => s.BeginAdd0? || s.FinishAdd1? || s.Link1? || s.ChangeEmail1? || s.ConfirmEmail1?
    case Resetting(q) => q.RequestReset2? || q.BeginReset1? || q.FinishReset2?
    case Gated(g) => false
  }

  /** The tables with the row as it is to be written, whatever the constraints say; None if there is nothing to write. */
  ghost function Wanted(db: Db, t: Task, i: Input): Option<Db>
    requires IsWrite(t)
  {
    match t
    case Registering(r) => WantedRegistration(db, r.email, i)
    case LoggingIn(BeginLogin2(u, c)) => Some(db.(logins := db.logins[u := Challenge(c, Stamp(i.now + 5 * MINUTE))]))
    case LoggingIn(EnterSession(u, how)) => WantedSession(db, u, i)
    case Settings(BeginAdd0(u)) => WantedChallenge(db, u, i)
    case Settings(FinishAdd1(u, began)) => WantedKey(db, u, i)
    case Settings(Link1(u, email, subject)) => WantedLink(db, u, subject, email, i)
    case Settings(ChangeEmail1(u, email)) => WantedEmail(db, u, email, i)
    case Settings(ConfirmEmail1(u, email)) => WantedName(db, u, email)
    case Resetting(RequestReset2(u, provider)) => WantedReset(db, u, provider, i)
    case Resetting(BeginReset1(u)) => WantedChallenge(db, u, i)
    case Resetting(FinishReset2(r, u, began)) => WantedKey(db, u, i)
  }

  ghost function WantedRegistration(db: Db, email: string, i: Input): Option<Db> {
    if i.id in db.registrations then None
    else Some(db.(registrations := db.registrations[i.id := FiledRow(email, i)]))
  }

  /** A new registration: unverified, with a link good for a day, and nothing submitted. */
  function FiledRow(email: string, i: Input): Registration {
    Registration(i.token, email, Stamp(i.now + DAY), false, Pending, None, None, None, false, i.account, ViaPasskey, "", None)
  }

  ghost function WantedSession(db: Db, u: Id, i: Input): Option<Db> {
    if i.id in db.sessions then None
    else Some(db.(sessions := db.sessions[i.id := Session(u, Stamp(i.now + SESSION), Stamp(i.now))]))
  }

  ghost function WantedLink(db: Db, u: Id, subject: string, email: string, i: Input): Option<Db> {
    if i.token in db.links then None
    else Some(db.(links := db.links[i.token := Link(u, subject, email, Stamp(i.now + 10 * MINUTE))]))
  }

  ghost function WantedEmail(db: Db, u: Id, email: string, i: Input): Option<Db> {
    if i.token in db.emails then None
    else Some(db.(emails := db.emails[i.token := EmailChange(u, email, Stamp(i.now + DAY))]))
  }

  ghost function WantedName(db: Db, u: Id, email: string): Option<Db> {
    if u !in db.users then None else Some(db.(users := db.users[u := db.users[u].(username := email)]))
  }

  ghost function WantedReset(db: Db, u: Id, provider: Provider, i: Input): Option<Db> {
    if i.id in db.resets then None else Some(db.(resets := db.resets[i.id := Reset(u, provider, None, Pending)]))
  }

  ghost function WantedChallenge(db: Db, u: Id, i: Input): Option<Db> {
    if i.challenge.None? then None
    else Some(db.(adds := db.adds[u := Challenge(i.challenge.value, Stamp(i.now + 5 * MINUTE))]))
  }

  ghost function WantedKey(db: Db, u: Id, i: Input): Option<Db> {
    if i.attested.None? || i.id in db.passkeys then None
    else
      var c := i.attested.value;
      Some(db.(passkeys := db.passkeys[i.id := Passkey(u, c.id, KeyColumn(c.publicKey), c.signCount)]))
  }

  ghost predicate Allowed(wanted: Option<Db>) {
    wanted.Some? && Schema(wanted.value)
  }

  /** Done as wanted if allowed, reported if and only if done, and otherwise nothing happens. */
  ghost predicate Commits(db: Db, o: Outcome, wanted: Option<Db>) {
    (o.event.Some? <==> Allowed(wanted)) && o.db == if Allowed(wanted) then wanted.value else db
  }

  // The constraints, with one table replaced.

  lemma SchemaWithSessions(db: Db, m: map<Id, Session>)
    requires Schema(db)
    ensures Schema(db.(sessions := m)) <==> forall k :: k in m ==> m[k].user in db.users
  {
  }

  lemma SchemaWithPasskeys(db: Db, m: map<Id, Passkey>)
    requires Schema(db)
    ensures Schema(db.(passkeys := m)) <==> UniqueCredentials(m) && forall k :: k in m ==> m[k].user in db.users
  {
  }

  lemma SchemaWithResets(db: Db, m: map<Id, Reset>)
    requires Schema(db)
    ensures Schema(db.(resets := m)) <==> UniqueResetTokens(m) && forall k :: k in m ==> m[k].user in db.users
  {
  }

  lemma SchemaWithChallenges(db: Db, m: map<Id, Challenge>)
    requires Schema(db)
    ensures Schema(db.(logins := m)) <==> m.Keys <= db.users.Keys
    ensures Schema(db.(adds := m)) <==> m.Keys <= db.users.Keys
  {
  }

  lemma SchemaWithTokens(db: Db, links: map<Id, Link>, emails: map<Id, EmailChange>)
    requires Schema(db)
    ensures Schema(db.(links := links)) <==> forall k :: k in links ==> links[k].user in db.users
    ensures Schema(db.(emails := emails)) <==> forall k :: k in emails ==> emails[k].user in db.users
  {
  }

  lemma SchemaWithUsers(db: Db, m: map<Id, User>)
    requires Schema(db) && m.Keys == db.users.Keys
    ensures Schema(db.(users := m)) <==> UniqueNames(m)
  {
    assert forall u :: u in m <==> u in db.users;
  }

  lemma SchemaWithRegistrations(db: Db, m: map<Id, Registration>)
    requires Schema(db)
    ensures Schema(db.(registrations := m))
            <==> UniqueRegistrations(m) && forall g :: g in m && m[g].user.Some? ==> m[g].user.value in db.users
  {
  }

  lemma SchemaUsers(db: Db)
    requires Schema(db)
    ensures UniqueNames(db.users) && UniqueCredentials(db.passkeys) && UniqueRegistrations(db.registrations) && UniqueResetTokens(db.resets)
    ensures (forall k :: k in db.sessions ==> db.sessions[k].user in db.users)
    ensures (forall k :: k in db.passkeys ==> db.passkeys[k].user in db.users)
    ensures (forall k :: k in db.resets ==> db.resets[k].user in db.users) && (forall k :: k in db.links ==> db.links[k].user in db.users)
    ensures (forall k :: k in db.emails ==> db.emails[k].user in db.users)
    ensures db.logins.Keys <= db.users.Keys && db.adds.Keys <= db.users.Keys
    ensures forall g :: g in db.registrations && db.registrations[g].user.Some? ==> db.registrations[g].user.value in db.users
  {
  }

  lemma RegistrationCommits(db: Db, email: string, i: Input)
    requires Schema(db)
    ensures var e := Filed(i.id, email, i.token, i.account, i.now);
            Commits(db, Try(db, InsertRegistration(db, i.id, i.token, i.account, email, i.now), None, Some(e)),
                    WantedRegistration(db, email, i))
  {
    hide Stamp, Schema, UniqueRegistrations;
    var wanted := WantedRegistration(db, email, i);
    if wanted.Some? {
      SchemaUsers(db);
      SchemaWithRegistrations(db, wanted.value.registrations);
      FilingUnique(db.registrations, email, i);
    }
  }

  lemma FilingUnique(m: map<Id, Registration>, email: string, i: Input)
    requires UniqueRegistrations(m) && i.id !in m
    ensures UniqueRegistrations(m[i.id := FiledRow(email, i)])
            <==> !exists g :: g in m && (m[g].email == email || m[g].emailToken == i.token || m[g].account == i.account)
  {
    hide Stamp, UniqueRegistrations;
    var m' := m[i.id := FiledRow(email, i)];
    if g :| g in m && (m[g].email == email || m[g].emailToken == i.token || m[g].account == i.account) {
      Clashes(m', g, i.id);
    } else {
      assert RowFiled(m, m', email, i);
      FiledStaysUnique(m, m', email, i);
    }
  }

  lemma Clashes(m: map<Id, Registration>, g: Id, h: Id)
    requires g in m && h in m && g != h && Clash(m[g], m[h])
    ensures !UniqueRegistrations(m)
  {
  }

  lemma KeyCommits(db: Db, u: Id, next: Option<Task>, began: Instant, via: Option<Id>, i: Input)
    requires Schema(db)
    ensures Commits(db, InsertKeyStep(db, u, next, began, via, i), WantedKey(db, u, i))
  {
    hide KeyColumn, Schema;
    var wanted := WantedKey(db, u, i);
    if wanted.Some? {
      var m, m' := db.passkeys, wanted.value.passkeys;
      SchemaUsers(db);
      SchemaWithPasskeys(db, m');
      if k :| k in m && m[k].credId == i.attested.value.id {
        assert m'[k].credId == m'[i.id].credId;
      }
      assert m'[i.id].user == u;
    }
  }

  lemma RenameCommits(db: Db, u: Id, email: string)
    requires Schema(db)
    ensures var e := if u in db.users then Some(Renamed(u, email)) else None;
            Commits(db, Try(db, SetUsername(db, u, email), Some(Settings(ConfirmEmail2(u, email))), e), WantedName(db, u, email))
  {
    hide Schema;
    var wanted := WantedName(db, u, email);
    if wanted.Some? {
      var m, m' := db.users, wanted.value.users;
      SchemaUsers(db);
      SchemaWithUsers(db, m');
      if v :| v in m && v != u && m[v].username == email {
        assert m'[v].username == m'[u].username;
      }
    }
  }

  lemma AddCommits(db: Db, u: Id, i: Input)
    requires Schema(db)
    ensures Commits(db, BeginAddStep(db, u, i), WantedChallenge(db, u, i))
  {
    hide Stamp, Schema;
    var wanted := WantedChallenge(db, u, i);
    if wanted.Some? {
      SchemaUsers(db);
      SchemaWithChallenges(db, wanted.value.adds);
      assert wanted.value.adds.Keys == db.adds.Keys + {u};
    }
  }

  lemma LoginCommits(db: Db, u: Id, challenge: string, i: Input)
    requires Schema(db)
    ensures Commits(db, Try(db, UpsertLogin(db, u, challenge, i.now), None, Some(LoginBegun(u, i.now))),
                    Some(db.(logins := db.logins[u := Challenge(challenge, Stamp(i.now + 5 * MINUTE))])))
  {
    hide Stamp, Schema;
    var logins := db.logins[u := Challenge(challenge, Stamp(i.now + 5 * MINUTE))];
    SchemaUsers(db);
    SchemaWithChallenges(db, logins);
    assert logins.Keys == db.logins.Keys + {u};
  }

  lemma SessionCommits(db: Db, u: Id, how: How, i: Input)
    requires Schema(db)
    ensures Commits(db, Try(db, InsertSession(db, i.id, u, i.now), None, Some(SessionMade(i.id, u, i.now, how))), WantedSession(db, u, i))
  {
    hide Stamp, Schema;
    var wanted := WantedSession(db, u, i);
    if wanted.Some? {
      SchemaUsers(db);
      SchemaWithSessions(db, wanted.value.sessions);
      assert wanted.value.sessions[i.id].user == u;
    }
  }

  lemma LinkCommits(db: Db, u: Id, subject: string, email: string, i: Input)
    requires Schema(db)
    ensures var e := LinkIssued(i.token, u, subject, email, i.now);
            Commits(db, Try(db, InsertLink(db, i.token, u, subject, email, i.now), None, Some(e)), WantedLink(db, u, subject, email, i))
  {
    hide Stamp, Schema;
    var wanted := WantedLink(db, u, subject, email, i);
    if wanted.Some? {
      SchemaUsers(db);
      SchemaWithTokens(db, wanted.value.links, db.emails);
      assert wanted.value.links[i.token].user == u;
    }
  }

  lemma EmailCommits(db: Db, u: Id, email: string, i: Input)
    requires Schema(db)
    ensures var e := EmailIssued(i.token, u, email, i.now);
            Commits(db, Try(db, InsertEmailChange(db, i.token, u, email, i.now), None, Some(e)), WantedEmail(db, u, email, i))
  {
    hide Stamp, Schema;
    var wanted := WantedEmail(db, u, email, i);
    if wanted.Some? {
      SchemaUsers(db);
      SchemaWithTokens(db, db.links, wanted.value.emails);
      assert wanted.value.emails[i.token].user == u;
    }
  }

  lemma ResetCommits(db: Db, u: Id, provider: Provider, i: Input)
    requires Schema(db)
    ensures Commits(db, Try(db, InsertReset(db, i.id, u, provider), None, Some(ResetFiled(i.id, u, provider))),
                    WantedReset(db, u, provider, i))
  {
    hide Schema;
    var wanted := WantedReset(db, u, provider, i);
    if wanted.Some? {
      SchemaUsers(db);
      SchemaWithResets(db, wanted.value.resets);
      assert wanted.value.resets[i.id].user == u;
    }
  }

  /**
   * In every reachable state each of these writes is done as wanted, and reported, exactly if every declared
   * constraint holds of the tables with it; otherwise it changes nothing.
   */
  lemma WritesCommitExactly(cfg: Config, moves: seq<Move>, t: Task, i: Input)
    requires IsWrite(t)
    ensures var db := Execute(cfg, moves).db; Commits(db, Step(cfg, db, t, i), Wanted(db, t, i))
  {
    hide Execute, Schema, Commits, Stamp, WantedKey, WantedChallenge, WantedRegistration, WantedSession, WantedLink, WantedEmail,
      WantedName, WantedReset, InsertKeyStep, BeginAddStep, InsertRegistration, UpsertLogin, InsertSession, InsertLink, InsertEmailChange,
      SetUsername, InsertReset, Try;
    var db := Execute(cfg, moves).db;
    SchemaAlways(cfg, moves);
    match t
    case Registering(r) => RegistrationCommits(db, r.email, i);
    case LoggingIn(BeginLogin2(u, c)) => LoginCommits(db, u, c, i);
    case LoggingIn(EnterSession(u, how)) => SessionCommits(db, u, how, i);
    case Settings(s) => SettingsCommit(db, s, i);
    case Resetting(q) => ResettingCommits(db, q, i);
  }

  lemma SettingsCommit(db: Db, t: SettingsTask, i: Input)
    requires Schema(db) && IsWrite(Settings(t))
    ensures Commits(db, SettingsStep(db, t, i), Wanted(db, Settings(t), i))
  {
    hide Schema, Commits, Stamp, WantedKey, WantedChallenge, WantedLink, WantedEmail, WantedName, InsertKeyStep, BeginAddStep, InsertLink,
      InsertEmailChange, SetUsername, Try;
    match t
    case BeginAdd0(u) => AddCommits(db, u, i);
    case FinishAdd1(u, began) => KeyCommits(db, u, None, began, None, i);
    case Link1(u, email, subject) => LinkCommits(db, u, subject, email, i);
    case ChangeEmail1(u, email) => EmailCommits(db, u, email, i);
    case ConfirmEmail1(u, email) => RenameCommits(db, u, email);
  }

  lemma ResettingCommits(db: Db, t: ResetTask, i: Input)
    requires Schema(db) && IsWrite(Resetting(t))
    ensures Commits(db, ResetStep(db, t, i), Wanted(db, Resetting(t), i))
  {
    hide Schema, Commits, Stamp, WantedKey, WantedChallenge, WantedReset, InsertKeyStep, BeginAddStep, InsertReset, Try;
    match t
    case RequestReset2(u, provider) => ResetCommits(db, u, provider, i);
    case BeginReset1(u) => AddCommits(db, u, i);
    case FinishReset2(r, u, began) => KeyCommits(db, u, Some(Resetting(FinishReset3(r))), began, Some(r), i);
  }

  // ------------------------------------------------------------------- checks

  ghost predicate AtMostOnePending(m: map<Id, Reset>, u: Id, provider: Provider) {
    forall a, b :: a in m && b in m && PendingFor(m[a], u, provider) && PendingFor(m[b], u, provider) ==> a == b
  }

  predicate PendingFor(r: Reset, u: Id, provider: Provider) {
    r.user == u && r.provider == provider && r.status == Pending
  }

  /** A deletion goes on exactly if carried out now it would leave the user another passkey. */
  lemma DeletionCheckedExactly(cfg: Config, db: Db, u: Id, k: Id, i: Input)
    requires k in KeysOf(db, u)
    ensures Step(cfg, db, Settings(DeleteKey0(u, k)), i).next.Some?
            <==> KeysOf(Step(cfg, db, Settings(DeleteKey1(u, k)), i).db, u) != {}
  {
    hide KeysOf, DeletePasskey;
    LeavesAnother(db, u, k);
  }

  lemma LeavesAnother(db: Db, u: Id, k: Id)
    requires k in KeysOf(db, u)
    ensures |KeysOf(db, u)| > 1 <==> KeysOf(DeletePasskey(db, u, k), u) != {}
  {
    var rest := KeysOf(DeletePasskey(db, u, k), u);
    assert KeysOf(db, u) == rest + {k} && k !in rest;
  }

  /** Unlinking goes on exactly if carried out now it would leave the user a login method. */
  lemma UnlinkCheckedExactly(cfg: Config, db: Db, u: Id, i: Input)
    ensures Step(cfg, db, Settings(Unlink0(u)), i).next.Some? <==> CanLogIn(Step(cfg, db, Settings(Unlink1(u)), i).db, u)
  {
    var d := Step(cfg, db, Settings(Unlink1(u)), i).db;
    assert KeysOf(d, u) == KeysOf(db, u) && IdentitiesOf(d, u) == {};
  }

  /** A reset request goes on exactly if filed now it would be the only one pending for that user and provider. */
  lemma RequestCheckedExactly(cfg: Config, db: Db, u: Id, provider: Provider, i: Input)
    requires u in db.users && i.id !in db.resets && AtMostOnePending(db.resets, u, provider)
    ensures Step(cfg, db, Resetting(RequestReset1(u, provider)), i).next.Some?
            <==> AtMostOnePending(Step(cfg, db, Resetting(RequestReset2(u, provider)), i).db.resets, u, provider)
  {
    hide ResetPending, AtMostOnePending;
    StaysOnlyPending(db, i.id, u, provider);
  }

  lemma StaysOnlyPending(db: Db, id: Id, u: Id, provider: Provider)
    requires id !in db.resets && AtMostOnePending(db.resets, u, provider)
    ensures !ResetPending(db, u, provider) <==> AtMostOnePending(db.resets[id := Reset(u, provider, None, Pending)], u, provider)
  {
    var m' := db.resets[id := Reset(u, provider, None, Pending)];
    assert PendingFor(m'[id], u, provider);
    if ResetPending(db, u, provider) {
      var r :| r in db.resets && db.resets[r].user == u && db.resets[r].provider == provider && db.resets[r].status == Pending;
      assert PendingFor(m'[r], u, provider);
    }
  }

  /** An approval goes on exactly where a rejection sent now would change the row. */
  lemma ApprovalCheckedExactly(cfg: Config, db: Db, g: Id, why: Approver, i: Input)
    ensures Step(cfg, db, Registering(Approve0(g, why)), i).next.Some? <==> Step(cfg, db, Registering(Reject0(g, why)), i).db != db
  {
    hide Stamp, RejectRegistration;
    RejectionShows(db, g);
  }

  lemma RejectionShows(db: Db, g: Id)
    ensures RejectRegistration(db, g) != db <==> g in db.registrations && db.registrations[g].status == Pending
  {
    if g in db.registrations && db.registrations[g].status == Pending {
      assert RejectRegistration(db, g).registrations[g].status == Rejected;
    }
  }

  lemma GrantCheckedExactly(cfg: Config, db: Db, r: Id, why: Approver, i: Input)
    ensures Step(cfg, db, Resetting(GrantReset0(r, why)), i).next.Some? <==> Step(cfg, db, Resetting(DenyReset0(r, why)), i).db != db
  {
    hide Stamp;
    var d := RejectReset(db, r);
    if r in db.resets && db.resets[r].status == Pending {
      assert d.resets[r].status == Rejected;
    }
  }

  /** A login ceremony begins exactly for a user with a passkey, once a challenge is drawn. */
  lemma LoginCheckedExactly(cfg: Config, db: Db, u: Id, i: Input)
    ensures Step(cfg, db, LoggingIn(BeginLogin1(u)), i).next.Some?
            <==> i.challenge.Some? && exists k :: k in db.passkeys && db.passkeys[k].user == u
  {
    hide Stamp;
    if KeysOf(db, u) != {} {
      var k :| k in KeysOf(db, u);
      assert k in db.passkeys && db.passkeys[k].user == u;
    } else {
      forall k | k in db.passkeys ensures db.passkeys[k].user != u {
        assert k !in KeysOf(db, u);
      }
    }
  }
}
