/** The declared constraints hold in every reachable state, under every interleaving. */
module Integrity {
  import opened Basics
  import opened Text
  import opened Timestamps
  import opened PublicKeys
  import opened Tables
  import opened Requests
  import opened Runs
  import opened Effects
  import opened Steps

  lemma NamesStayUnique(m: map<Id, User>, m': map<Id, User>, t: Task, e: Option<Event>)
    requires UniqueNames(m) && UsersMove(m, m', t, e)
    ensures UniqueNames(m')
  {
  }

  lemma UsersStay(m: map<Id, User>, m': map<Id, User>, t: Task, e: Option<Event>)
    requires UsersMove(m, m', t, e)
    ensures m.Keys <= m'.Keys
  {
  }

  lemma SubjectsStayUnique(m: map<Id, Identity>, m': map<Id, Identity>, t: Task, i: Input, e: Option<Event>)
    requires UniqueSubjects(m) && IdentitiesMove(m, m', t, i, e)
    ensures UniqueSubjects(m')
  {
  }

  lemma CredentialsStayUnique(m: map<Id, Passkey>, m': map<Id, Passkey>, t: Task, i: Input, e: Option<Event>)
    requires UniqueCredentials(m) && PasskeysMove(m, m', t, i, e)
    ensures UniqueCredentials(m')
  {
  }

  lemma RegistrationsStayUnique(m: map<Id, Registration>, m': map<Id, Registration>, t: Task, i: Input, e: Option<Event>)
    requires UniqueRegistrations(m) && RegistrationsMove(m, m', t, i, e)
    ensures UniqueRegistrations(m')
  {
    match t
    case Registering(Submit2(email)) =>
      if m' != m {
        FiledStaysUnique(m, m', email, i);
      }
    case Registering(Verify0(token)) =>
      if m' != m {
        VerifiedStaysUnique(m, m', i.row.value, token, i);
      }
    case _ =>
      OthersKeepColumns(m, m', t, i, e);
      SameColumnsStayUnique(m, m');
  }

  ghost predicate SameColumns(g: Registration, h: Registration) {
    g.email == h.email && g.emailToken == h.emailToken && g.account == h.account && g.setup == h.setup
  }

  lemma OthersKeepColumns(m: map<Id, Registration>, m': map<Id, Registration>, t: Task, i: Input, e: Option<Event>)
    requires RegistrationsMove(m, m', t, i, e)
    requires t.Registering? ==> !t.r.Submit2? && !t.r.Verify0?
    ensures m'.Keys == m.Keys && forall g :: g in m ==> SameColumns(m[g], m'[g])
  {
  }

  lemma FiledStaysUnique(m: map<Id, Registration>, m': map<Id, Registration>, email: string, i: Input)
    requires UniqueRegistrations(m) && RowFiled(m, m', email, i)
    ensures UniqueRegistrations(m')
  {
    forall a, b | a in m' && b in m' && Clash(m'[a], m'[b]) ensures a == b {
      if a in m && b in m {
        assert Clash(m[a], m[b]);
      }
    }
  }

  lemma VerifiedStaysUnique(m: map<Id, Registration>, m': map<Id, Registration>, g: Id, token: Id, i: Input)
    requires UniqueRegistrations(m) && VerifiedRow(m, m', g, token, i)
    ensures UniqueRegistrations(m')
  {
    forall a, b | a in m' && b in m' && Clash(m'[a], m'[b]) ensures a == b {
      assert Clash(m[a], m[b]) ==> a == b;
    }
  }

  lemma SameColumnsStayUnique(m: map<Id, Registration>, m': map<Id, Registration>)
    requires UniqueRegistrations(m) && m'.Keys == m.Keys
    requires forall g :: g in m ==> SameColumns(m[g], m'[g])
    ensures UniqueRegistrations(m')
  {
    forall a, b | a in m' && b in m' && Clash(m'[a], m'[b]) ensures a == b {
      assert SameColumns(m[a], m'[a]) && SameColumns(m[b], m'[b]);
      assert Clash(m[a], m[b]);
    }
  }

  lemma ResetTokensStayUnique(m: map<Id, Reset>, m': map<Id, Reset>, t: Task, i: Input, e: Option<Event>)
    requires UniqueResetTokens(m) && ResetsMove(m, m', t, i, e)
    ensures UniqueResetTokens(m')
  {
  }

  lemma ReferencesHold(cfg: Config, db: Db, t: Task, i: Input, o: Outcome)
    requires ForeignKeys(db) && Effect(cfg, db, t, i, o)
    ensures ForeignKeys(o.db)
  {
    hide EventFits, NextFits, UserExists, UsersMove, RegistrationsMove, SessionsMove, PasskeysMove, IdentitiesMove, ResetsMove,
      LoginsMove, AddsMove, LinksMove, EmailsMove;
    UsersStay(db.users, o.db.users, t, o.event);
    SessionsRefer(db, t, i, o);
    PasskeysRefer(db, t, i, o);
    IdentitiesRefer(db, t, i, o);
    ResetsRefer(db, t, i, o);
    TokensRefer(db, t, i, o);
    RegistrationsRefer(db, t, i, o);
  }

  lemma SessionsRefer(db: Db, t: Task, i: Input, o: Outcome)
    requires ForeignKeys(db) && UserExists(db, t, o) && db.users.Keys <= o.db.users.Keys
    requires SessionsMove(db.sessions, o.db.sessions, t, i, o.event)
    ensures forall k :: k in o.db.sessions ==> o.db.sessions[k].user in o.db.users
  {
  }

  lemma PasskeysRefer(db: Db, t: Task, i: Input, o: Outcome)
    requires ForeignKeys(db) && UserExists(db, t, o) && db.users.Keys <= o.db.users.Keys
    requires PasskeysMove(db.passkeys, o.db.passkeys, t, i, o.event) && UsersMove(db.users, o.db.users, t, o.event)
    ensures forall k :: k in o.db.passkeys ==> o.db.passkeys[k].user in o.db.users
  {
  }

  lemma IdentitiesRefer(db: Db, t: Task, i: Input, o: Outcome)
    requires ForeignKeys(db) && UserExists(db, t, o) && db.users.Keys <= o.db.users.Keys
    requires IdentitiesMove(db.identities, o.db.identities, t, i, o.event) && UsersMove(db.users, o.db.users, t, o.event)
    ensures forall k :: k in o.db.identities ==> o.db.identities[k].user in o.db.users
  {
  }

  lemma ResetsRefer(db: Db, t: Task, i: Input, o: Outcome)
    requires ForeignKeys(db) && UserExists(db, t, o) && db.users.Keys <= o.db.users.Keys
    requires ResetsMove(db.resets, o.db.resets, t, i, o.event)
    ensures forall k :: k in o.db.resets ==> o.db.resets[k].user in o.db.users
  {
  }

  lemma RegistrationsRefer(db: Db, t: Task, i: Input, o: Outcome)
    requires ForeignKeys(db) && db.users.Keys <= o.db.users.Keys
    requires RegistrationsMove(db.registrations, o.db.registrations, t, i, o.event) && UsersMove(db.users, o.db.users, t, o.event)
    ensures forall g :: g in o.db.registrations && o.db.registrations[g].user.Some? ==> o.db.registrations[g].user.value in o.db.users
  {
    hide Stamp, Before, Park;
  }

  lemma TokensRefer(db: Db, t: Task, i: Input, o: Outcome)
    requires ForeignKeys(db) && db.users.Keys <= o.db.users.Keys
    requires LoginsMove(db.logins, o.db.logins, t, i, o) && AddsMove(db.adds, o.db.adds, t, i, o)
    requires LinksMove(db.links, o.db.links, t, i, o) && EmailsMove(db.emails, o.db.emails, t, i, o)
    ensures forall k :: k in o.db.links ==> o.db.links[k].user in o.db.users
    ensures forall k :: k in o.db.emails ==> o.db.emails[k].user in o.db.users
    ensures o.db.logins.Keys <= o.db.users.Keys && o.db.adds.Keys <= o.db.users.Keys
  {
  }

  lemma StepKeepsSchema(cfg: Config, db: Db, t: Task, i: Input)
    requires Schema(db)
    ensures Schema(Step(cfg, db, t, i).db)
  {
    hide Step, Effect, Schema;
    var o := Step(cfg, db, t, i);
    StepEffect(cfg, db, t, i);
    SchemaKept(cfg, db, t, i, o);
  }

  lemma SchemaKept(cfg: Config, db: Db, t: Task, i: Input, o: Outcome)
    requires Schema(db) && Effect(cfg, db, t, i, o)
    ensures Schema(o.db)
  {
    hide EventFits, NextFits, UserExists, UsersMove, RegistrationsMove, SessionsMove, PasskeysMove, IdentitiesMove, ResetsMove,
      LoginsMove, AddsMove, LinksMove, EmailsMove, ForeignKeys, UniqueNames, UniqueSubjects, UniqueCredentials, UniqueRegistrations,
      UniqueResetTokens;
    NamesStayUnique(db.users, o.db.users, t, o.event);
    SubjectsStayUnique(db.identities, o.db.identities, t, i, o.event);
    CredentialsStayUnique(db.passkeys, o.db.passkeys, t, i, o.event);
    RegistrationsStayUnique(db.registrations, o.db.registrations, t, i, o.event);
    ResetTokensStayUnique(db.resets, o.db.resets, t, i, o.event);
    ReferencesHold(cfg, db, t, i, o);
  }

  /** Keys, uniqueness and foreign keys hold after any run. */
  lemma {:induction false} SchemaAlways(cfg: Config, moves: seq<Move>)
    ensures Schema(Execute(cfg, moves).db)
  {
    if moves != [] {
      var s, m := Execute(cfg, moves[..|moves| - 1]), moves[|moves| - 1];
      SchemaAlways(cfg, moves[..|moves| - 1]);
      if m.Run? && m.pid in s.pool {
        StepKeepsSchema(cfg, s.db, s.pool[m.pid], m.input);
      }
    }
  }
}
