/**
 * Accounts come only from registrations whose e-mail address was verified: one account each, created all
 * at once or not at all, at any interleaving of approvals, auto-approvals, rejections and late submissions.
 */
module Accounts {
  import opened Basics
  import opened Text
  import opened Timestamps
  import opened Tables
  import opened Requests
  import opened Runs
  import opened Effects
  import opened Steps
  import opened PublicKeys
  import opened Integrity
  import opened Conservation
  import opened History

  // -------------------------------------------------------------- what rows say

  /** A credential or a Freja subject is only ever recorded for a verified address. */
  ghost predicate RowSound(r: Registration) {
    && (r.setup.Some? ==> r.verified)
    && (r.credential.Some? ==> r.verified && Unpark(r.credential.value).Some?)
    && (r.provider == ViaFreja ==> r.verified && r.submitted)
    && (r.status == Completed <==> r.user == Some(r.account))
  }

  ghost predicate RowsSound(m: map<Id, Registration>) {
    forall g :: g in m ==> RowSound(m[g])
  }

  /** What no statement takes back. */
  ghost predicate Grows(r: Registration, r': Registration) {
    && r'.email == r.email && r'.account == r.account
    && (r.verified ==> r'.verified) && (r.status == Completed ==> r'.status == Completed)
  }

  ghost predicate AllGrow(m: map<Id, Registration>, m': map<Id, Registration>) {
    m.Keys <= m'.Keys && forall g :: g in m ==> Grows(m[g], m'[g])
  }

  lemma RegistrationsGrow(m: map<Id, Registration>, m': map<Id, Registration>, t: Task, i: Input, e: Option<Event>)
    requires RegistrationsMove(m, m', t, i, e)
    ensures AllGrow(m, m')
  {
    hide Stamp, Before, Park;
  }

  /** What a request in flight remembers of a registration is still true of it. */
  ghost predicate Knows(cfg: Config, m: map<Id, Registration>, t: Task) {
    t.Registering? ==>
      match t.r
      case FinishRegister1(g, email) => g in m && m[g].verified && m[g].email == email
      case FrejaRegister1(g, email, subject, reported) => g in m && m[g].verified && m[g].email == email
      case Approve0(g, why) => why.Bootstrap? ==> g in m && IsAdminEmail(cfg, m[g].email)
      case Approve1(g, row, why) =>
        g in m && RowSound(row) && Grows(row, m[g]) && (why.Bootstrap? ==> IsAdminEmail(cfg, row.email))
      case _ => true
  }

  lemma KnowsStable(cfg: Config, m: map<Id, Registration>, m': map<Id, Registration>, t: Task)
    requires Knows(cfg, m, t) && AllGrow(m, m')
    ensures Knows(cfg, m', t)
  {
    hide IsAdminEmail, RowSound;
  }

  lemma NextKnows(cfg: Config, db: Db, t: Task, i: Input, o: Outcome)
    requires Effect(cfg, db, t, i, o) && RowsSound(db.registrations) && Knows(cfg, db.registrations, t)
    ensures o.next.Some? ==> Knows(cfg, o.db.registrations, o.next.value)
  {
    hide UsersMove, SessionsMove, PasskeysMove, IdentitiesMove, ResetsMove, LoginsMove, AddsMove, LinksMove, EmailsMove,
      UserExists, EventFits, IsAdminEmail, Stamp, Before, Park, Unpark;
    RegistrationsGrow(db.registrations, o.db.registrations, t, i, o.event);
  }

  lemma RowStaysSound(cfg: Config, m: map<Id, Registration>, m': map<Id, Registration>, t: Task, i: Input, e: Option<Event>, g: Id)
    requires Knows(cfg, m, t) && RegistrationsMove(m, m', t, i, e) && g in m'
    requires g in m ==> RowSound(m[g])
    ensures RowSound(m'[g])
  {
    hide IsAdminEmail, Stamp, Before, Park, Unpark;
    if t.Registering? && t.r.FinishRegister1? && i.attested.Some? {
      UnparkPark(i.attested.value);
    }
  }

  lemma RowsStaySound(cfg: Config, m: map<Id, Registration>, m': map<Id, Registration>, t: Task, i: Input, e: Option<Event>)
    requires RowsSound(m) && Knows(cfg, m, t) && RegistrationsMove(m, m', t, i, e)
    ensures RowsSound(m')
  {
    hide Knows, RegistrationsMove, RowSound;
    forall g | g in m' ensures RowSound(m'[g]) {
      RowStaysSound(cfg, m, m', t, i, e, g);
    }
  }

  ghost predicate Sound(cfg: Config, s: Sys) {
    RowsSound(s.db.registrations) && forall p :: p in s.pool ==> Knows(cfg, s.db.registrations, s.pool[p])
  }

  lemma StepKeepsSound(cfg: Config, s: Sys, pid: nat, i: Input)
    requires Sound(cfg, s) && pid in s.pool
    ensures Sound(cfg, After(s, pid, Step(cfg, s.db, s.pool[pid], i)))
  {
    hide Step, Effect, Knows, RowsSound, AllGrow, RegistrationsMove;
    var t := s.pool[pid];
    var o := Step(cfg, s.db, t, i);
    StepEffect(cfg, s.db, t, i);
    assert RegistrationsMove(s.db.registrations, o.db.registrations, t, i, o.event) by { EffectRegistrations(cfg, s.db, t, i, o); }
    NextKnows(cfg, s.db, t, i, o);
    RowsStaySound(cfg, s.db.registrations, o.db.registrations, t, i, o.event);
    RegistrationsGrow(s.db.registrations, o.db.registrations, t, i, o.event);
    forall p | p in s.pool ensures Knows(cfg, o.db.registrations, s.pool[p]) {
      KnowsStable(cfg, s.db.registrations, o.db.registrations, s.pool[p]);
    }
  }

  lemma EffectRegistrations(cfg: Config, db: Db, t: Task, i: Input, o: Outcome)
    requires Effect(cfg, db, t, i, o)
    ensures RegistrationsMove(db.registrations, o.db.registrations, t, i, o.event)
  {
  }

  lemma {:induction false} SoundAlways(cfg: Config, moves: seq<Move>)
    ensures Sound(cfg, Execute(cfg, moves))
  {
    if moves != [] {
      hide Step, Knows, RowsSound;
      var s, m := Execute(cfg, moves[..|moves| - 1]), moves[|moves| - 1];
      SoundAlways(cfg, moves[..|moves| - 1]);
      if m.Run? && m.pid in s.pool {
        StepKeepsSound(cfg, s, m.pid, m.input);
      } else if m.Arrive? && IsRequest(m.task) {
        ArrivalKnows(cfg, s.db.registrations, m.task);
      }
    }
  }

  lemma ArrivalKnows(cfg: Config, m: map<Id, Registration>, t: Task)
    requires IsRequest(t)
    ensures Knows(cfg, m, t)
  {
  }

  // ---------------------------------------------------------- one account each

  /** The registration behind an account. */
  ghost predicate Behind(m: map<Id, Registration>, g: Id, u: Id) {
    g in m && m[g].account == u && m[g].status == Completed && m[g].verified
  }

  /** The accounts are exactly the completed registrations' pre-allocated ids. */
  ghost predicate Backed(db: Db) {
    && (forall g :: g in db.registrations && db.registrations[g].status == Completed ==> db.registrations[g].account in db.users)
    && (forall u :: u in db.users ==> exists g :: Behind(db.registrations, g, u))
  }

  /** Accounts created for `g` so far: none, or one and then `g` is completed. */
  ghost predicate Counted(s: Sys, g: Id) {
    Issued(s.log, HookTicket(g)) == One(g in s.db.registrations && s.db.registrations[g].status == Completed)
  }

  /** A Completed row never stops being one, and becomes one exactly when its account is created. */
  lemma CompletionMove(m: map<Id, Registration>, m': map<Id, Registration>, t: Task, i: Input, e: Option<Event>, g: Id)
    requires RegistrationsMove(m, m', t, i, e) && EventFits(t, i, e)
    ensures g in m && m[g].status == Completed ==> g in m' && m'[g].status == Completed
    ensures g in m' && m'[g].status == Completed ==>
              (g in m && m[g].status == Completed) || (e.Some? && Issues(e.value, HookTicket(g)))
    ensures e.Some? && Issues(e.value, HookTicket(g)) && g in m ==>
              && m'[g].status == Completed && m'[g].account == m[g].account
              && t.Registering? && t.r.Approve1? && t.r.reg == g && t.r.row.account == e.value.user
  {
    hide Stamp, Before, Park;
  }

  lemma CompletedElsewhere(m: map<Id, Registration>, m': map<Id, Registration>, t: Task, i: Input, e: Option<Event>, u: Id, g: Id)
    requires RegistrationsMove(m, m', t, i, e) && Behind(m, g, u)
    ensures Behind(m', g, u)
  {
    RegistrationsGrow(m, m', t, i, e);
  }

  lemma UsersGrow(m: map<Id, User>, m': map<Id, User>, t: Task, e: Option<Event>, i: Input)
    requires UsersMove(m, m', t, e) && EventFits(t, i, e)
    ensures m.Keys <= m'.Keys
    ensures e.Some? && e.value.Created? ==> e.value.user !in m && e.value.user in m'
    ensures forall u :: u in m' && u !in m ==> e.Some? && e.value.Created? && e.value.user == u
  {
  }

  /** An account is created for a registration that is known, verified and not yet completed. */
  lemma CreationTarget(cfg: Config, m: map<Id, Registration>, t: Task, i: Input, e: Option<Event>)
    requires EventFits(t, i, e) && Knows(cfg, m, t) && e.Some? && e.value.Created?
    requires t.Registering? && t.r.Approve1? ==> t.r.row.provider == ViaFreja || t.r.row.credential.Some?
    ensures e.value.reg in m && m[e.value.reg].account == e.value.user && m[e.value.reg].email == e.value.email
    ensures m[e.value.reg].verified
    ensures e.value.why.Bootstrap? ==> IsAdminEmail(cfg, e.value.email)
  {
    hide IsAdminEmail, Unpark;
  }

  /** No transaction commits for a row that carries neither a credential nor Freja. */
  lemma CreationCredential(m: map<Id, Passkey>, m': map<Id, Passkey>, t: Task, i: Input, e: Option<Event>)
    requires PasskeysMove(m, m', t, i, e) && e.Some? && t.Registering? && t.r.Approve1?
    ensures t.r.row.provider == ViaFreja || t.r.row.credential.Some?
  {
    hide Unpark;
  }

  ghost predicate Accounted(cfg: Config, s: Sys) {
    && Sound(cfg, s) && UniqueRegistrations(s.db.registrations) && Backed(s.db)
  }

  lemma StepFacts(cfg: Config, db: Db, t: Task, i: Input, o: Outcome)
    requires Effect(cfg, db, t, i, o)
    ensures EventFits(t, i, o.event)
    ensures UsersMove(db.users, o.db.users, t, o.event)
    ensures RegistrationsMove(db.registrations, o.db.registrations, t, i, o.event)
    ensures PasskeysMove(db.passkeys, o.db.passkeys, t, i, o.event)
  {
  }

  lemma BackedGrows(db: Db, d: Db, t: Task, i: Input, e: Option<Event>)
    requires RegistrationsMove(db.registrations, d.registrations, t, i, e) && UsersMove(db.users, d.users, t, e) && EventFits(t, i, e)
    requires Backed(db) && (e.Some? && e.value.Created? ==> Behind(d.registrations, e.value.reg, e.value.user))
    ensures Backed(d)
  {
    hide EventFits, UsersMove, RegistrationsMove;
    var m, m' := db.registrations, d.registrations;
    UsersGrow(db.users, d.users, t, e, i);
    forall g | g in m' && m'[g].status == Completed ensures m'[g].account in d.users {
      CompletionMove(m, m', t, i, e, g);
      RegistrationsGrow(m, m', t, i, e);
    }
    forall u | u in d.users ensures exists g :: Behind(m', g, u) {
      if u in db.users {
        var g :| Behind(m, g, u);
        CompletedElsewhere(m, m', t, i, e, u, g);
      }
    }
  }

  lemma StepKeepsBacked(cfg: Config, s: Sys, pid: nat, i: Input, o: Outcome)
    requires Accounted(cfg, s) && pid in s.pool && Effect(cfg, s.db, s.pool[pid], i, o)
    ensures Backed(o.db)
  {
    hide Effect, EventFits, UsersMove, RegistrationsMove, PasskeysMove, Sound, UniqueRegistrations, Backed, Behind;
    StepFacts(cfg, s.db, s.pool[pid], i, o);
    if o.event.Some? && o.event.value.Created? {
      CreationStep(cfg, s, pid, i, o);
    }
    BackedGrows(s.db, o.db, s.pool[pid], i, o.event);
  }

  lemma CreationStep(cfg: Config, s: Sys, pid: nat, i: Input, o: Outcome)
    requires Accounted(cfg, s) && pid in s.pool && Effect(cfg, s.db, s.pool[pid], i, o)
    requires o.event.Some? && o.event.value.Created?
    ensures var (g, u) := (o.event.value.reg, o.event.value.user);
            && u !in s.db.users && g in s.db.registrations && s.db.registrations[g].status != Completed
            && Behind(o.db.registrations, g, u) && o.db.registrations[g].email == o.event.value.email
            && (o.event.value.why.Bootstrap? ==> IsAdminEmail(cfg, o.event.value.email))
  {
    hide Effect, UsersMove, RegistrationsMove, PasskeysMove, Knows, RowsSound, UniqueRegistrations, Backed;
    var db, t := s.db, s.pool[pid];
    StepFacts(cfg, db, t, i, o);
    CreationCredential(db.passkeys, o.db.passkeys, t, i, o.event);
    CreationTarget(cfg, db.registrations, t, i, o.event);
    UsersGrow(db.users, o.db.users, t, o.event, i);
    RegistrationsGrow(db.registrations, o.db.registrations, t, i, o.event);
    CompletionMove(db.registrations, o.db.registrations, t, i, o.event, o.event.value.reg);
    if db.registrations[o.event.value.reg].status == Completed {
      CompletedHasAccount(db, o.event.value.reg);
    }
  }

  lemma CompletedHasAccount(db: Db, g: Id)
    requires Backed(db) && g in db.registrations && db.registrations[g].status == Completed
    ensures db.registrations[g].account in db.users
  {
  }

  lemma RegistrationsUnique(cfg: Config, moves: seq<Move>)
    ensures UniqueRegistrations(Execute(cfg, moves).db.registrations)
  {
    hide Execute, UniqueRegistrations;
    SchemaAlways(cfg, moves);
  }

  lemma NobodyBacked()
    ensures Backed(EMPTY)
  {
  }

  lemma {:induction false} BackedAlways(cfg: Config, moves: seq<Move>)
    ensures Accounted(cfg, Execute(cfg, moves))
  {
    hide Step, Effect, Sound, UniqueRegistrations, Backed;
    SoundAlways(cfg, moves);
    RegistrationsUnique(cfg, moves);
    if moves == [] {
      NobodyBacked();
    } else {
      var s, m := Execute(cfg, moves[..|moves| - 1]), moves[|moves| - 1];
      BackedAlways(cfg, moves[..|moves| - 1]);
      if m.Run? && m.pid in s.pool {
        StepEffect(cfg, s.db, s.pool[m.pid], m.input);
        StepKeepsBacked(cfg, s, m.pid, m.input, Step(cfg, s.db, s.pool[m.pid], m.input));
      }
    }
  }

  lemma StepKeepsCount(cfg: Config, s: Sys, pid: nat, i: Input, o: Outcome, g: Id)
    requires Accounted(cfg, s) && Counted(s, g) && pid in s.pool && Effect(cfg, s.db, s.pool[pid], i, o)
    ensures Counted(After(s, pid, o), g)
  {
    hide Effect, EventFits, UsersMove, RegistrationsMove, PasskeysMove, Sound, UniqueRegistrations, Backed;
    StepFacts(cfg, s.db, s.pool[pid], i, o);
    LogAppended(s.log, o.event, HookTicket(g));
    CompletionMove(s.db.registrations, o.db.registrations, s.pool[pid], i, o.event, g);
    if o.event.Some? && o.event.value.Created? {
      CreationStep(cfg, s, pid, i, o);
    }
  }

  lemma {:induction false} CountedAlways(cfg: Config, moves: seq<Move>, g: Id)
    ensures Counted(Execute(cfg, moves), g)
  {
    if moves != [] {
      hide Step, Effect, Accounted;
      var s, m := Execute(cfg, moves[..|moves| - 1]), moves[|moves| - 1];
      CountedAlways(cfg, moves[..|moves| - 1], g);
      BackedAlways(cfg, moves[..|moves| - 1]);
      if m.Run? && m.pid in s.pool {
        StepEffect(cfg, s.db, s.pool[m.pid], m.input);
        StepKeepsCount(cfg, s, m.pid, m.input, Step(cfg, s.db, s.pool[m.pid], m.input), g);
      }
    }
  }

  /**
   * Each registration yields at most one account, under its pre-allocated id, and calls OnUserCreated
   * at most once, however approvals, auto-approvals and rejections race.
   */
  lemma OneAccountPerRegistration(cfg: Config, moves: seq<Move>, g: Id)
    ensures var s := Execute(cfg, moves);
            && Spent(s.log, HookTicket(g)) <= Issued(s.log, HookTicket(g)) <= 1
            && (Issued(s.log, HookTicket(g)) == 1 <==> g in s.db.registrations && s.db.registrations[g].account in s.db.users)
  {
    hide Step, Sound;
    CountedAlways(cfg, moves, g);
    BackedAlways(cfg, moves);
    ConservedAlways(cfg, moves, HookTicket(g));
    var db := Execute(cfg, moves).db;
    if g in db.registrations && db.registrations[g].account in db.users {
      var h :| Behind(db.registrations, h, db.registrations[g].account);
      assert Clash(db.registrations[g], db.registrations[h]);
    }
  }

  /** Approval never tests email_verified, and yet every account belongs to a verified, completed registration. */
  lemma AccountsAreVerified(cfg: Config, moves: seq<Move>, u: Id)
    requires u in Execute(cfg, moves).db.users
    ensures exists g :: Behind(Execute(cfg, moves).db.registrations, g, u)
  {
    hide Step, Sound, UniqueRegistrations;
    BackedAlways(cfg, moves);
  }

  // ------------------------------------------------------ finishing for nobody

  lemma NobodyHasNoLogin(cfg: Config, moves: seq<Move>)
    ensures "" !in Execute(cfg, moves).db.logins
  {
    hide Execute, Sound, UniqueRegistrations;
    var db := Execute(cfg, moves).db;
    BackedAlways(cfg, moves);
    SchemaAlways(cfg, moves);
    assert forall g :: !Behind(db.registrations, g, "");
  }

  /** Whoever has this name is banned, if there is anyone. */
  ghost predicate NobodyUnbanned(m: map<Id, User>, name: string) {
    forall u :: u in m && m[u].username == name ==> m[u].banned
  }

  /**
   * finishLogin ignores its lookup's error and goes on with an empty user id. For a name that is unknown or
   * banned that creates nothing: the lookup leaves no user, and from there the request ends without any effect,
   * whatever other requests did in between.
   */
  lemma FinishForNobody(cfg: Config, moves: seq<Move>, pid: nat, email: string, i: Input)
    requires pid in Execute(cfg, moves).pool
    ensures var s, s' := Execute(cfg, moves), Execute(cfg, moves + [Run(pid, i)]);
            && (s.pool[pid] == LoggingIn(FinishLogin1("")) ==> s' == s.(pool := s.pool - {pid}))
            && (s.pool[pid] == LoggingIn(FinishLogin0(email)) && NobodyUnbanned(s.db.users, email) ==>
                  s' == s || s' == s.(pool := s.pool[pid := LoggingIn(FinishLogin1(""))]))
  {
    hide Execute, Stamp, Before;
    var s := Execute(cfg, moves);
    ExecuteOneMore(cfg, moves, Run(pid, i));
    NobodyHasNoLogin(cfg, moves);
    NoEvent(s.log);
    assert s.pool[pid := s.pool[pid]] == s.pool;
  }

  // ----------------------------------------------------------- all or nothing

  /** What the constraints ask of an approval transaction that inserts its second row under `id`. */
  ghost predicate Committable(db: Db, row: Registration, id: Id) {
    && row.account !in db.users && NameFree(db.users, row.email)
    && if row.provider == ViaFreja then SubjectFree(db.identities, row.frejaSub) ==> id !in db.identities
       else
         && row.credential.Some? && Unpark(row.credential.value).Some?
         && id !in db.passkeys
         && forall k :: k in db.passkeys ==> db.passkeys[k].credId != Unpark(row.credential.value).value.id
  }

  lemma UserInsertable(db: Db, u: Id, email: string)
    ensures InsertUser(db, u, email).Some? <==> u !in db.users && NameFree(db.users, email)
  {
  }

  lemma IdentityLinkable(db: Db, id: Id, u: Id, subject: string, email: string)
    requires u in db.users
    ensures LinkIdentity(db, id, u, subject, email).Some? <==> (SubjectFree(db.identities, subject) ==> id !in db.identities)
  {
    assert forall k :: k in db.identities ==> (HasSubject(db, k, subject) <==> db.identities[k].subject == subject);
  }

  lemma FrejaCommits(db: Db, g: Id, row: Registration, id: Id)
    requires row.provider == ViaFreja
    ensures ApproveFreja(db, g, row.account, row.email, row.frejaSub, id).Some? <==> Committable(db, row, id)
  {
    hide LinkIdentity, NameFree, SubjectFree;
    UserInsertable(db, row.account, row.email);
    var d := InsertUser(db, row.account, row.email);
    if d.Some? {
      IdentityLinkable(d.value, id, row.account, row.frejaSub, row.email);
    }
  }

  lemma PasskeyCommits(db: Db, g: Id, row: Registration, id: Id)
    requires row.provider == ViaPasskey
    ensures ApprovePasskey(db, g, row.account, row.email, row.credential, id).Some? <==> Committable(db, row, id)
  {
    hide Unpark;
    UserInsertable(db, row.account, row.email);
  }

  /**
   * The approval transaction: the users row, its login method and status = 'completed' appear together,
   * exactly when every constraint allows all of them, and otherwise nothing changes. On the Freja branch the
   * identity row appears if and only if no row held that subject.
   */
  lemma ApprovalAllOrNothing(cfg: Config, db: Db, g: Id, row: Registration, why: Approver, i: Input)
    ensures var o := Step(cfg, db, Registering(Approve1(g, row, why)), i);
            if !Committable(db, row, i.id) then o == Stop(db)
            else
              && o.event == Some(Created(g, row.account, row.email, why))
              && AccountOpened(db, o.db, g, row)
              && (if row.provider == ViaFreja then
                    o.db.passkeys == db.passkeys
                    && IdentityLinked(db.identities, o.db.identities, i.id, row.account, row.frejaSub, row.email)
                  else o.db.identities == db.identities && KeyUnparked(db.passkeys, o.db.passkeys, i.id, row))
  {
    hide Committable, AccountOpened, IdentityLinked, KeyUnparked, ApproveFreja, ApprovePasskey;
    if row.provider == ViaFreja {
      FrejaCommits(db, g, row, i.id);
    } else {
      PasskeyCommits(db, g, row, i.id);
    }
    ApprovalUsers(db, g, row, why, i.id);
    ApprovalPasskeys(db, g, row, why, i.id);
    ApprovalIdentities(db, g, row, why, i.id);
  }

  /**
   * The account an approval creates can log in at once, exactly if it was approved with a passkey or no row held
   * its Freja subject.
   */
  lemma BirthExactly(cfg: Config, db: Db, g: Id, row: Registration, why: Approver, i: Input)
    requires ForeignKeys(db) && Committable(db, row, i.id)
    ensures var d := Step(cfg, db, Registering(Approve1(g, row, why)), i).db;
            CanLogIn(d, row.account) <==> row.provider == ViaPasskey || SubjectFree(db.identities, row.frejaSub)
  {
    hide Step, Unpark, KeyColumn;
    var d := Step(cfg, db, Registering(Approve1(g, row, why)), i).db;
    ApprovalAllOrNothing(cfg, db, g, row, why, i);
    if row.provider == ViaPasskey {
      assert i.id in KeysOf(d, row.account);
    } else if SubjectFree(db.identities, row.frejaSub) {
      assert i.id in IdentitiesOf(d, row.account);
    } else {
      assert KeysOf(d, row.account) == {} && IdentitiesOf(d, row.account) == {};
    }
  }

  // ---------------------------------------------------------------- the queue

  /** SendApprovalEmail's own checks, before any constraint applies. */
  predicate Approvable(r: Registration) {
    && r.status == Pending
    && (r.provider == ViaFreja || (r.credential.Some? && r.credential.value != "" && Unpark(r.credential.value).Some?))
  }

  /** The admin queue lists exactly the registrations approval accepts, although its predicate is another one. */
  lemma QueueIsApprovable(cfg: Config, moves: seq<Move>, g: Id)
    requires g in Execute(cfg, moves).db.registrations
    ensures var r := Execute(cfg, moves).db.registrations[g]; Queued(r) <==> Approvable(r)
  {
    hide Step, Knows;
    SoundAlways(cfg, moves);
    assert RowSound(Execute(cfg, moves).db.registrations[g]);
  }
}
