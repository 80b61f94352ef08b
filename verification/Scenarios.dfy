/** Pieces of runs: one request after another, each taken from its arrival to where it stops or waits. */
module Scenarios {
  import opened Basics
  import opened Text
  import opened Timestamps
  import opened Tables
  import opened Requests
  import opened Runs
  import opened PublicKeys

  /** Everything happens at one instant, whichever; the other values are drawn where they are needed. */
  function Tick(now: Instant): Input {
    Input(now, None, "0", "0", "0", None, None, None)
  }

  lemma Ahead(now: Instant, lifetime: nat)
    requires NANOS <= lifetime <= SESSION && lifetime % NANOS == 0
    ensures Before(Stamp(now), Stamp(now + lifetime))
  {
    hide Before, Stamp;
    Lifetime(now, lifetime, now);
  }

  /** What the tables and the requests in flight are after `moves`. */
  ghost predicate Stands(cfg: Config, moves: seq<Move>, db: Db, pool: map<nat, Task>) {
    Execute(cfg, moves).db == db && Execute(cfg, moves).pool == pool
  }

  /** The same, with request `pid` at `t` besides the others. */
  ghost predicate Stops(cfg: Config, moves: seq<Move>, db: Db, others: map<nat, Task>, pid: nat, t: Task) {
    pid !in others && Stands(cfg, moves, db, others[pid := t])
  }

  /** A request arrives. */
  lemma Comes(cfg: Config, moves: seq<Move>, db: Db, others: map<nat, Task>, pid: nat, t: Task) returns (after: seq<Move>)
    requires Stands(cfg, moves, db, others) && pid !in others && IsRequest(t)
    ensures moves <= after && Stops(cfg, after, db, others, pid, t)
  {
    hide Execute, IsRequest;
    after := moves + [Arrive(pid, t)];
    ExecuteOneMore(cfg, moves, Arrive(pid, t));
  }

  /** One statement of a request that goes on. */
  lemma Goes(cfg: Config, moves: seq<Move>, db: Db, others: map<nat, Task>, pid: nat, t: Task, i: Input, d: Db, next: Task)
    returns (after: seq<Move>)
    requires Stops(cfg, moves, db, others, pid, t)
    requires Step(cfg, db, t, i).db == d && Step(cfg, db, t, i).next == Some(next)
    ensures moves <= after && Stops(cfg, after, d, others, pid, next)
  {
    hide Execute, Step;
    after := moves + [Run(pid, i)];
    ExecuteOneMore(cfg, moves, Run(pid, i));
    assert others[pid := t][pid := next] == others[pid := next];
  }

  /** The last statement of a request. */
  lemma Ends(cfg: Config, moves: seq<Move>, db: Db, others: map<nat, Task>, pid: nat, t: Task, i: Input, d: Db) returns (after: seq<Move>)
    requires Stops(cfg, moves, db, others, pid, t)
    requires Step(cfg, db, t, i).db == d && Step(cfg, db, t, i).next == None
    ensures moves <= after && Stands(cfg, after, d, others)
  {
    hide Execute, Step;
    after := moves + [Run(pid, i)];
    ExecuteOneMore(cfg, moves, Run(pid, i));
    assert others[pid := t] - {pid} == others;
  }

  // -------------------------------------------------------------------- sign-up

  function FiledRow(now: Instant, email: string, token: Id, account: Uuid): Registration {
    Registration(token, email, Stamp(now + DAY), false, Pending, None, None, None, false, account, ViaPasskey, "", None)
  }

  function VerifiedRow(now: Instant, email: string, token: Id, account: Uuid, setup: Id): Registration {
    FiledRow(now, email, token, account).(verified := true, setup := Some(Grant(setup, Stamp(now + DAY))))
  }

  function FrejaRow(now: Instant, email: string, token: Id, account: Uuid, setup: Id, subject: string): Registration {
    VerifiedRow(now, email, token, account, setup).(provider := ViaFreja, frejaSub := subject, submitted := true)
  }

  ghost predicate Fileable(db: Db, g: Id, email: string, token: Id, account: Uuid) {
    && email != "" && !AnyUserLike(db, email) && g !in db.registrations
    && forall h :: h in db.registrations ==>
         db.registrations[h].email != email && db.registrations[h].emailToken != token && db.registrations[h].account != account
  }

  lemma FilingSteps(now: Instant, cfg: Config, db: Db, g: Uuid, email: string, token: Uuid, account: Uuid)
    requires Fileable(db, g, email, token, account)
    ensures Step(cfg, db, Registering(Submit0(email)), Tick(now)) == Goto(db, Registering(Submit1(email)))
    ensures Step(cfg, db, Registering(Submit1(email)), Tick(now)) == Goto(db, Registering(Submit2(email)))
    ensures Step(cfg, db, Registering(Submit2(email)), Tick(now).(id := g, token := token, account := account))
            == Outcome(db.(registrations := db.registrations[g := FiledRow(now, email, token, account)]), None,
                       Some(Filed(g, email, token, account, now)))
  {
    hide Stamp, AnyUserLike;
  }

  lemma Filing(now: Instant, cfg: Config, moves: seq<Move>, db: Db, g: Uuid, email: string, token: Uuid, account: Uuid)
    returns (after: seq<Move>)
    requires Stands(cfg, moves, db, map[]) && Fileable(db, g, email, token, account)
    ensures moves <= after
    ensures Stands(cfg, after, db.(registrations := db.registrations[g := FiledRow(now, email, token, account)]), map[])
  {
    hide Stands, Stops, Step, Fileable, FiledRow;
    var d := db.(registrations := db.registrations[g := FiledRow(now, email, token, account)]);
    FilingSteps(now, cfg, db, g, email, token, account);
    after := Comes(cfg, moves, db, map[], 0, Registering(Submit0(email)));
    after := Goes(cfg, after, db, map[], 0, Registering(Submit0(email)), Tick(now), db, Registering(Submit1(email)));
    after := Goes(cfg, after, db, map[], 0, Registering(Submit1(email)), Tick(now), db, Registering(Submit2(email)));
    after := Ends(cfg, after, db, map[], 0, Registering(Submit2(email)), Tick(now).(id := g, token := token, account := account), d);
  }

  /** The row of `g`, which only this link's token and no other row's setup token concern. */
  ghost predicate Openable(db: Db, g: Id, row: Registration, setup: Id) {
    && g in db.registrations && db.registrations[g] == row
    && forall h :: h in db.registrations && h != g && db.registrations[h].setup.Some? ==> db.registrations[h].setup.value.token != setup
  }

  lemma VerificationStep(now: Instant, cfg: Config, db: Db, g: Id, email: string, token: Uuid, account: Uuid, setup: Uuid)
    requires Openable(db, g, FiledRow(now, email, token, account), setup)
    ensures Step(cfg, db, Registering(Verify0(token)), Tick(now).(row := Some(g), token := setup))
            == Outcome(db.(registrations := db.registrations[g := VerifiedRow(now, email, token, account, setup)]), None,
                       Some(AddressVerified(g, setup, now)))
  {
    hide Stamp, Before;
    Ahead(now, DAY);
  }

  lemma Verification(now: Instant, cfg: Config, moves: seq<Move>, db: Db, g: Id, email: string, token: Uuid, account: Uuid, setup: Uuid)
    returns (after: seq<Move>)
    requires Stands(cfg, moves, db, map[]) && Openable(db, g, FiledRow(now, email, token, account), setup)
    ensures moves <= after
    ensures Stands(cfg, after, db.(registrations := db.registrations[g := VerifiedRow(now, email, token, account, setup)]), map[])
  {
    hide Stands, Stops, Step, Openable, FiledRow, VerifiedRow;
    var d := db.(registrations := db.registrations[g := VerifiedRow(now, email, token, account, setup)]);
    VerificationStep(now, cfg, db, g, email, token, account, setup);
    after := Comes(cfg, moves, db, map[], 0, Registering(Verify0(token)));
    after := Ends(cfg, after, db, map[], 0, Registering(Verify0(token)), Tick(now).(row := Some(g), token := setup), d);
  }

  lemma SubmissionSteps(now: Instant, cfg: Config, db: Db, g: Id, email: string, token: Uuid, account: Uuid, setup: Uuid, subject: string)
    requires Openable(db, g, VerifiedRow(now, email, token, account, setup), setup) && email != ""
    ensures Step(cfg, db, Registering(FrejaRegister0(setup, email, subject)), Tick(now).(row := Some(g)))
            == Outcome(db, Some(Registering(FrejaRegister1(g, email, subject, email))), Some(SetupOpened(g, setup, now)))
    ensures Step(cfg, db, Registering(FrejaRegister1(g, email, subject, email)), Tick(now))
            == Outcome(db.(registrations := db.registrations[g := FrejaRow(now, email, token, account, setup, subject)]),
                       AutoApprove(cfg, g, email, true), Some(SubjectSubmitted(g, subject, email)))
  {
    hide Stamp, Before, IsAdminEmail, Lower;
    Ahead(now, DAY);
  }

  /** A Freja registration, up to where maybeAutoApprove takes over. */
  lemma Submission(now: Instant, cfg: Config, moves: seq<Move>, db: Db, g: Id, email: string, token: Uuid, account: Uuid,
      setup: Uuid, subject: string)
    returns (after: seq<Move>)
    requires Stands(cfg, moves, db, map[]) && Openable(db, g, VerifiedRow(now, email, token, account, setup), setup) && email != ""
    ensures moves <= after
    ensures var d := db.(registrations := db.registrations[g := FrejaRow(now, email, token, account, setup, subject)]);
            if IsAdminEmail(cfg, email) then Stops(cfg, after, d, map[], 0, Registering(Approve0(g, Bootstrap(true))))
            else Stands(cfg, after, d, map[])
  {
    hide Stands, Stops, Step, Openable, VerifiedRow, FrejaRow, IsAdminEmail;
    var d := db.(registrations := db.registrations[g := FrejaRow(now, email, token, account, setup, subject)]);
    var t, t' := Registering(FrejaRegister0(setup, email, subject)), Registering(FrejaRegister1(g, email, subject, email));
    SubmissionSteps(now, cfg, db, g, email, token, account, setup, subject);
    after := Comes(cfg, moves, db, map[], 0, t);
    after := Goes(cfg, after, db, map[], 0, t, Tick(now).(row := Some(g)), db, t');
    if IsAdminEmail(cfg, email) {
      after := Goes(cfg, after, db, map[], 0, t', Tick(now), d, Registering(Approve0(g, Bootstrap(true))));
    } else {
      after := Ends(cfg, after, db, map[], 0, t', Tick(now), d);
    }
  }

  // ----------------------------------------------------------------- bootstrap

  ghost predicate Insertable(db: Db, row: Registration, identity: Id, session: Id) {
    && row.account !in db.users && (forall v :: v in db.users ==> db.users[v].username != row.email)
    && identity !in db.identities && (forall k :: k in db.identities ==> db.identities[k].subject != row.frejaSub)
    && session !in db.sessions
  }

  /** What an auto-approved Freja registration leaves. */
  function Bootstrapped(now: Instant, db: Db, g: Id, row: Registration, identity: Id, session: Id): Db {
    db.(users := db.users[row.account := User(row.email, Admin, false)],
        identities := db.identities[identity := Identity(row.account, row.frejaSub, row.email)],
        registrations := db.registrations[g := row.(status := Completed, user := Some(row.account))],
        sessions := db.sessions[session := Session(row.account, Stamp(now + SESSION), Stamp(now))])
  }

  function AccountCreated(db: Db, g: Id, row: Registration, identity: Id): Db {
    db.(users := db.users[row.account := User(row.email, Passive, false)],
        identities := db.identities[identity := Identity(row.account, row.frejaSub, row.email)],
        registrations := db.registrations[g := row.(status := Completed, user := Some(row.account))])
  }

  lemma ReadingStep(now: Instant, cfg: Config, db: Db, g: Id, row: Registration, why: Approver)
    requires g in db.registrations && db.registrations[g] == row && row.status == Pending
    ensures Step(cfg, db, Registering(Approve0(g, why)), Tick(now)) == Goto(db, Registering(Approve1(g, row, why)))
  {
  }

  lemma UserMade(db: Db, row: Registration, identity: Id, session: Id)
    requires Insertable(db, row, identity, session)
    ensures InsertUser(db, row.account, row.email) == Some(db.(users := db.users[row.account := User(row.email, Passive, false)]))
  {
  }

  lemma IdentityMade(db: Db, u: Id, subject: string, email: string, identity: Id)
    requires u in db.users && identity !in db.identities && forall k :: k in db.identities ==> db.identities[k].subject != subject
    ensures LinkIdentity(db, identity, u, subject, email)
            == Some(db.(identities := db.identities[identity := Identity(u, subject, email)]))
  {
    SubjectsDiffer(db, subject);
    hide HasSubject;
  }

  lemma Creation(db: Db, g: Id, row: Registration, identity: Uuid, session: Id)
    requires g in db.registrations && db.registrations[g] == row && Insertable(db, row, identity, session)
    ensures ApproveFreja(db, g, row.account, row.email, row.frejaSub, identity) == Some(AccountCreated(db, g, row, identity))
  {
    hide InsertUser, LinkIdentity;
    UserMade(db, row, identity, session);
    IdentityMade(InsertUser(db, row.account, row.email).value, row.account, row.frejaSub, row.email, identity);
  }

  lemma SubjectsDiffer(db: Db, subject: string)
    requires forall k :: k in db.identities ==> db.identities[k].subject != subject
    ensures forall k :: k in db.identities ==> !HasSubject(db, k, subject)
  {
  }

  lemma CreationStep(now: Instant, cfg: Config, db: Db, g: Id, row: Registration, why: Approver, identity: Uuid, d: Db)
    requires row.provider == ViaFreja && ApproveFreja(db, g, row.account, row.email, row.frejaSub, identity) == Some(d)
    ensures var o := Step(cfg, db, Registering(Approve1(g, row, why)), Tick(now).(id := identity));
            o.db == d && o.next == Some(Registering(Approve2(g, row.account, why)))
  {
    hide ApproveFreja;
  }

  function Promoted(db: Db, u: Id, email: string): Db {
    db.(users := db.users[u := User(email, Admin, false)])
  }

  lemma PromotionSteps(now: Instant, cfg: Config, db: Db, g: Id, u: Id, email: string)
    requires u in db.users && db.users[u] == User(email, Passive, false)
    ensures var o := Step(cfg, db, Registering(Approve2(g, u, Bootstrap(true))), Tick(now));
            o.db == db && o.next == Some(Registering(Promote(u, true)))
    ensures var o := Step(cfg, db, Registering(Promote(u, true)), Tick(now));
            o.db == Promoted(db, u, email) && o.next == Some(LoggingIn(EnterSession(u, ByRegistration)))
  {
  }

  lemma EntryStep(now: Instant, cfg: Config, db: Db, u: Id, session: Uuid)
    requires session !in db.sessions && u in db.users
    ensures var o := Step(cfg, db, LoggingIn(EnterSession(u, ByRegistration)), Tick(now).(id := session));
            o.db == db.(sessions := db.sessions[session := Session(u, Stamp(now + SESSION), Stamp(now))]) && o.next == None
  {
    hide Stamp;
  }

  lemma PiecesTogether(now: Instant, db: Db, g: Id, row: Registration, identity: Id, session: Id)
    ensures var d := Promoted(AccountCreated(db, g, row, identity), row.account, row.email);
            d.(sessions := d.sessions[session := Session(row.account, Stamp(now + SESSION), Stamp(now))])
            == Bootstrapped(now, db, g, row, identity, session)
  {
    hide Stamp;
    assert db.users[row.account := User(row.email, Passive, false)][row.account := User(row.email, Admin, false)]
           == db.users[row.account := User(row.email, Admin, false)];
  }

  /** maybeAutoApprove and the session of a Freja registration. */
  lemma Bootstrapping(now: Instant, cfg: Config, moves: seq<Move>, db: Db, g: Id, row: Registration, identity: Uuid, session: Uuid)
    returns (after: seq<Move>)
    requires Stops(cfg, moves, db, map[], 0, Registering(Approve0(g, Bootstrap(true))))
    requires g in db.registrations && db.registrations[g] == row && row.status == Pending && row.provider == ViaFreja
    requires Insertable(db, row, identity, session)
    ensures moves <= after && Stands(cfg, after, Bootstrapped(now, db, g, row, identity, session), map[])
  {
    hide Stands, Stops, Step, Insertable, Bootstrapped, Stamp;
    var u, d := row.account, AccountCreated(db, g, row, identity);
    var promoted := Promoted(d, u, row.email);
    ReadingStep(now, cfg, db, g, row, Bootstrap(true));
    Creation(db, g, row, identity, session);
    CreationStep(now, cfg, db, g, row, Bootstrap(true), identity, d);
    PromotionSteps(now, cfg, d, g, u, row.email);
    SessionFree(db, row, identity, session);
    EntryStep(now, cfg, promoted, u, session);
    PiecesTogether(now, db, g, row, identity, session);
    hide AccountCreated, Promoted;
    var why := Bootstrap(true);
    var t0, t1, t2 := Registering(Approve0(g, why)), Registering(Approve1(g, row, why)), Registering(Approve2(g, u, why));
    var t3, t4 := Registering(Promote(u, true)), LoggingIn(EnterSession(u, ByRegistration));
    after := Goes(cfg, moves, db, map[], 0, t0, Tick(now), db, t1);
    after := Goes(cfg, after, db, map[], 0, t1, Tick(now).(id := identity), d, t2);
    after := Goes(cfg, after, d, map[], 0, t2, Tick(now), d, t3);
    after := Goes(cfg, after, d, map[], 0, t3, Tick(now), promoted, t4);
    after := Ends(cfg, after, promoted, map[], 0, t4, Tick(now).(id := session), Bootstrapped(now, db, g, row, identity, session));
  }

  lemma SessionFree(db: Db, row: Registration, identity: Id, session: Id)
    requires Insertable(db, row, identity, session)
    ensures session !in db.sessions
  {
  }

  /** The row of `g` alone becomes `row`. */
  function WithRow(db: Db, g: Id, row: Registration): Db {
    db.(registrations := db.registrations[g := row])
  }

  lemma RowReplaced(db: Db, g: Id, row: Registration, row': Registration)
    ensures WithRow(WithRow(db, g, row), g, row') == WithRow(db, g, row')
  {
    assert db.registrations[g := row][g := row'] == db.registrations[g := row'];
  }

  /** No other row holds this setup token. */
  ghost predicate SetupFree(db: Db, g: Id, setup: Id) {
    forall h :: h in db.registrations && h != g && db.registrations[h].setup.Some? ==> db.registrations[h].setup.value.token != setup
  }

  lemma RowOpenable(db: Db, g: Id, row: Registration, setup: Id)
    requires SetupFree(db, g, setup)
    ensures Openable(WithRow(db, g, row), g, row, setup)
  {
  }

  /** A filed request is verified and registered with Freja, up to where maybeAutoApprove takes over. */
  lemma Confirming(now: Instant, cfg: Config, moves: seq<Move>, db: Db, g: Id, email: string, token: Uuid, account: Uuid,
      setup: Uuid, subject: string)
    returns (after: seq<Move>)
    requires Stands(cfg, moves, WithRow(db, g, FiledRow(now, email, token, account)), map[]) && SetupFree(db, g, setup) && email != ""
    ensures moves <= after
    ensures var d := WithRow(db, g, FrejaRow(now, email, token, account, setup, subject));
            if IsAdminEmail(cfg, email) then Stops(cfg, after, d, map[], 0, Registering(Approve0(g, Bootstrap(true))))
            else Stands(cfg, after, d, map[])
  {
    hide Stands, Stops, Openable, SetupFree, FiledRow, VerifiedRow, FrejaRow, IsAdminEmail;
    var filed, verified := FiledRow(now, email, token, account), VerifiedRow(now, email, token, account, setup);
    RowOpenable(db, g, filed, setup);
    RowOpenable(db, g, verified, setup);
    RowReplaced(db, g, filed, verified);
    RowReplaced(db, g, verified, FrejaRow(now, email, token, account, setup, subject));
    after := Verification(now, cfg, moves, WithRow(db, g, filed), g, email, token, account, setup);
    after := Submission(now, cfg, after, WithRow(db, g, verified), g, email, token, account, setup, subject);
  }

  // ---------------------------------------------------------------- signed in

  /** `cookie` is a session of `u` of that instant, and `u` may do `act`. */
  ghost predicate Visits(now: Instant, db: Db, cookie: Id, u: Id, act: Action) {
    && cookie in db.sessions && db.sessions[cookie] == Session(u, Stamp(now + SESSION), Stamp(now))
    && u in db.users && !db.users[u].banned && (NeedsAdmin(act) ==> db.users[u].role == Admin)
  }

  lemma GateSteps(now: Instant, cfg: Config, db: Db, cookie: Id, u: Id, act: Action)
    requires Visits(now, db, cookie, u, act)
    ensures var role := db.users[u].role;
            var o := Step(cfg, db, Gated(Gate0(cookie, act)), Tick(now));
            var o' := Step(cfg, db, Gated(Gate1(cookie, u, role, act, now)), Tick(now));
            && o.db == db && o.next == Some(Gated(Gate1(cookie, u, role, act, now)))
            && o'.db == db && o'.next == Some(Enter(act, cookie, u, now))
  {
    hide Stamp, Before, Enter;
    Ahead(now, SESSION);
    assert db.sessions[cookie := db.sessions[cookie].(lastSeen := Stamp(now))] == db.sessions;
  }

  lemma VisitorExists(now: Instant, db: Db, cookie: Id, u: Id, act: Action)
    requires Visits(now, db, cookie, u, act)
    ensures u in db.users
  {
  }

  /** A request passes RequireAuth and waits before its own first statement. */
  lemma Entering(now: Instant, cfg: Config, moves: seq<Move>, db: Db, others: map<nat, Task>, pid: nat, cookie: Id, u: Id, act: Action)
    returns (after: seq<Move>)
    requires Stands(cfg, moves, db, others) && pid !in others && Visits(now, db, cookie, u, act)
    ensures moves <= after && Stops(cfg, after, db, others, pid, Enter(act, cookie, u, now))
  {
    hide Stands, Stops, Step, Visits, Enter;
    VisitorExists(now, db, cookie, u, act);
    GateSteps(now, cfg, db, cookie, u, act);
    var role := db.users[u].role;
    after := Comes(cfg, moves, db, others, pid, Gated(Gate0(cookie, act)));
    after := Goes(cfg, after, db, others, pid, Gated(Gate0(cookie, act)), Tick(now), db, Gated(Gate1(cookie, u, role, act, now)));
    after := Goes(cfg, after, db, others, pid, Gated(Gate1(cookie, u, role, act, now)), Tick(now), db, Enter(act, cookie, u, now));
  }

  // ----------------------------------------------------------------- approval

  lemma HookStep(now: Instant, cfg: Config, db: Db, g: Id, u: Id, why: Approver)
    requires why.By?
    ensures var o := Step(cfg, db, Registering(Approve2(g, u, why)), Tick(now)); o.db == db && o.next == None
  {
  }

  lemma ApprovalEntered(g: Id, cookie: Id, admin: Id, now: Instant)
    ensures Enter(Approve(g), cookie, admin, now) == Registering(Approve0(g, By(admin, cookie, now)))
  {
  }

  /** An admin approves a Freja registration; `d` is what the transaction makes of the tables. */
  lemma Approving(now: Instant, cfg: Config, moves: seq<Move>, db: Db, cookie: Id, admin: Id, g: Id, row: Registration,
      identity: Uuid, d: Db)
    returns (after: seq<Move>)
    requires Stands(cfg, moves, db, map[]) && Visits(now, db, cookie, admin, Approve(g))
    requires g in db.registrations && db.registrations[g] == row && row.status == Pending && row.provider == ViaFreja
    requires ApproveFreja(db, g, row.account, row.email, row.frejaSub, identity) == Some(d)
    ensures moves <= after && Stands(cfg, after, d, map[])
  {
    hide Stands, Stops, Step, Visits, ApproveFreja, Enter;
    var why := By(admin, cookie, now);
    var t0, t1, t2 := Registering(Approve0(g, why)), Registering(Approve1(g, row, why)), Registering(Approve2(g, row.account, why));
    ApprovalEntered(g, cookie, admin, now);
    ReadingStep(now, cfg, db, g, row, why);
    CreationStep(now, cfg, db, g, row, why, identity, d);
    HookStep(now, cfg, d, g, row.account, why);
    after := Entering(now, cfg, moves, db, map[], 0, cookie, admin, Approve(g));
    after := Goes(cfg, after, db, map[], 0, t0, Tick(now), db, t1);
    after := Goes(cfg, after, db, map[], 0, t1, Tick(now).(id := identity), d, t2);
    after := Ends(cfg, after, d, map[], 0, t2, Tick(now), d);
  }

  /** What an approval leaves where some account already holds the subject: no row of its own. */
  function Stranded(db: Db, g: Id, row: Registration): Db {
    db.(users := db.users[row.account := User(row.email, Passive, false)],
        registrations := db.registrations[g := row.(status := Completed, user := Some(row.account))])
  }

  lemma StrandedCreation(db: Db, g: Id, row: Registration, identity: Id, held: Id)
    requires g in db.registrations && db.registrations[g] == row
    requires row.account !in db.users && forall v :: v in db.users ==> db.users[v].username != row.email
    requires held in db.identities && db.identities[held].subject == row.frejaSub
    ensures ApproveFreja(db, g, row.account, row.email, row.frejaSub, identity) == Some(Stranded(db, g, row))
  {
    assert HasSubject(db, held, row.frejaSub);
  }

  // ------------------------------------------------------------------- linking

  function WithIdentity(db: Db, k: Id, row: Identity): Db {
    db.(identities := db.identities[k := row])
  }

  function WithLink(now: Instant, db: Db, token: Id, u: Id, subject: string, email: string): Db {
    db.(links := db.links[token := Link(u, subject, email, Stamp(now + 10 * MINUTE))])
  }

  ghost predicate Linkable(db: Db, u: Id, subject: string, email: string, token: Id, k: Id) {
    && u in db.users && email != "" && !FrejaKnown(db, subject, email) && token !in db.links && k !in db.identities
    && forall j :: j in db.identities ==> db.identities[j].subject != subject
  }

  lemma LinkingSteps(now: Instant, cfg: Config, db: Db, u: Id, subject: string, email: string, token: Uuid, k: Id)
    requires Linkable(db, u, subject, email, token, k)
    ensures Step(cfg, db, Settings(Link0(u, email, subject)), Tick(now)) == Goto(db, Settings(Link1(u, email, subject)))
    ensures var o := Step(cfg, db, Settings(Link1(u, email, subject)), Tick(now).(token := token));
            o.db == WithLink(now, db, token, u, subject, email) && o.next == None
  {
    hide Stamp, FrejaKnown;
  }

  lemma LinkTakenStep(now: Instant, cfg: Config, db: Db, u: Id, subject: string, email: string, token: Uuid)
    requires token !in db.links
    ensures var o := Step(cfg, WithLink(now, db, token, u, subject, email), Settings(ConfirmLink0(u, token)), Tick(now));
            o.db == db && o.next == Some(Settings(ConfirmLink1(u, subject, email)))
  {
    hide Stamp, Before;
    Ahead(now, 10 * MINUTE);
    assert WithLink(now, db, token, u, subject, email).links - {token} == db.links;
  }

  lemma LinkedStep(now: Instant, cfg: Config, db: Db, u: Id, subject: string, email: string, token: Uuid, k: Uuid)
    requires Linkable(db, u, subject, email, token, k)
    ensures var o := Step(cfg, db, Settings(ConfirmLink1(u, subject, email)), Tick(now).(id := k));
            o.db == WithIdentity(db, k, Identity(u, subject, email)) && o.next == None
  {
    hide LinkIdentity, FrejaKnown;
    IdentityMade(db, u, subject, email, k);
  }

  lemma LinkKeepsVisit(now: Instant, db: Db, cookie: Id, u: Id, act: Action, token: Id, subject: string, email: string)
    requires Visits(now, db, cookie, u, act)
    ensures Visits(now, WithLink(now, db, token, u, subject, email), cookie, u, act)
  {
    hide Stamp;
  }

  /** A signed-in user links a Freja identity that no row has: request, then confirmation. */
  lemma Linking(now: Instant, cfg: Config, moves: seq<Move>, db: Db, cookie: Id, u: Id, subject: string, email: string,
      token: Uuid, k: Uuid)
    returns (after: seq<Move>)
    requires Stands(cfg, moves, db, map[]) && Linkable(db, u, subject, email, token, k)
    requires Visits(now, db, cookie, u, LinkFreja(email, subject)) && Visits(now, db, cookie, u, ConfirmLink(token))
    ensures moves <= after && Stands(cfg, after, WithIdentity(db, k, Identity(u, subject, email)), map[])
  {
    hide Stands, Stops, Step, Visits, Linkable, WithLink, WithIdentity, FrejaKnown;
    var d := WithLink(now, db, token, u, subject, email);
    LinkingSteps(now, cfg, db, u, subject, email, token, k);
    TokenUnused(db, u, subject, email, token, k);
    LinkTakenStep(now, cfg, db, u, subject, email, token);
    LinkedStep(now, cfg, db, u, subject, email, token, k);
    LinkKeepsVisit(now, db, cookie, u, ConfirmLink(token), token, subject, email);
    after := Entering(now, cfg, moves, db, map[], 0, cookie, u, LinkFreja(email, subject));
    after := Goes(cfg, after, db, map[], 0, Settings(Link0(u, email, subject)), Tick(now), db, Settings(Link1(u, email, subject)));
    after := Ends(cfg, after, db, map[], 0, Settings(Link1(u, email, subject)), Tick(now).(token := token), d);
    after := Entering(now, cfg, after, d, map[], 0, cookie, u, ConfirmLink(token));
    after := Goes(cfg, after, d, map[], 0, Settings(ConfirmLink0(u, token)), Tick(now), db, Settings(ConfirmLink1(u, subject, email)));
    after := Ends(cfg, after, db, map[], 0, Settings(ConfirmLink1(u, subject, email)), Tick(now).(id := k),
                  WithIdentity(db, k, Identity(u, subject, email)));
  }

  lemma TokenUnused(db: Db, u: Id, subject: string, email: string, token: Id, k: Id)
    requires Linkable(db, u, subject, email, token, k)
    ensures token !in db.links
  {
    hide FrejaKnown;
  }

  lemma FallbackSteps(now: Instant, cfg: Config, db: Db, email: string, subject: string, k: Id)
    requires k in db.identities && db.identities[k].email == email && email != "" && subject != ""
    requires forall j :: j in db.identities ==> db.identities[j].subject != subject
    ensures Step(cfg, db, LoggingIn(FrejaLogin0(email, subject)), Tick(now)) == Goto(db, LoggingIn(FrejaLogin1(email, subject)))
    ensures Step(cfg, db, LoggingIn(FrejaLogin1(email, subject)), Tick(now).(row := Some(k)))
            == Goto(db, LoggingIn(FrejaLogin2(db.identities[k].user, subject)))
  {
    hide Lower;
    SubjectsDiffer(db, subject);
  }

  /** A Freja login with an unknown subject falls back to the e-mail address of row `k`, up to the rebinding. */
  lemma FallingBack(now: Instant, cfg: Config, moves: seq<Move>, db: Db, email: string, subject: string, k: Id) returns (after: seq<Move>)
    requires Stands(cfg, moves, db, map[])
    requires k in db.identities && db.identities[k].email == email && email != "" && subject != ""
    requires forall j :: j in db.identities ==> db.identities[j].subject != subject
    ensures moves <= after && Stops(cfg, after, db, map[], 0, LoggingIn(FrejaLogin2(db.identities[k].user, subject)))
  {
    hide Stands, Stops, Step;
    FallbackSteps(now, cfg, db, email, subject, k);
    var t0, t1 := LoggingIn(FrejaLogin0(email, subject)), LoggingIn(FrejaLogin1(email, subject));
    after := Comes(cfg, moves, db, map[], 0, t0);
    after := Goes(cfg, after, db, map[], 0, t0, Tick(now), db, t1);
    after := Goes(cfg, after, db, map[], 0, t1, Tick(now).(row := Some(k)), db, LoggingIn(FrejaLogin2(db.identities[k].user, subject)));
  }

  // ------------------------------------------------------------------ passkeys

  function WithKey(db: Db, u: Id, key: Id, c: Credential): Db {
    db.(passkeys := db.passkeys[key := Passkey(u, c.id, KeyColumn(c.publicKey), c.signCount)])
  }

  function WithChallenge(now: Instant, db: Db, u: Id): Db {
    db.(adds := db.adds[u := Challenge("", Stamp(now + 5 * MINUTE))])
  }

  ghost predicate KeyInsertable(db: Db, u: Id, key: Id, c: Credential) {
    u in db.users && u !in db.adds && key !in db.passkeys && forall k :: k in db.passkeys ==> db.passkeys[k].credId != c.id
  }

  lemma AddingSteps(now: Instant, cfg: Config, db: Db, u: Id, key: Uuid, c: Credential)
    requires KeyInsertable(db, u, key, c)
    ensures var o := Step(cfg, db, Settings(BeginAdd0(u)), Tick(now).(challenge := Some("")));
            o.db == WithChallenge(now, db, u) && o.next == None
  {
    hide Stamp;
  }

  lemma ChallengeTakenStep(now: Instant, cfg: Config, db: Db, u: Id)
    requires u !in db.adds
    ensures var o := Step(cfg, WithChallenge(now, db, u), Settings(FinishAdd0(u)), Tick(now));
            o.db == db && o.next == Some(Settings(FinishAdd1(u, now)))
  {
    hide Stamp, Before;
    Ahead(now, 5 * MINUTE);
    assert WithChallenge(now, db, u).adds - {u} == db.adds;
  }

  lemma KeyStep(now: Instant, cfg: Config, db: Db, u: Id, key: Uuid, c: Credential)
    requires KeyInsertable(db, u, key, c)
    ensures var o := Step(cfg, db, Settings(FinishAdd1(u, now)), Tick(now).(id := key, attested := Some(c)));
            o.db == WithKey(db, u, key, c) && o.next == None
  {
    hide KeyColumn;
  }

  lemma ChallengeKeepsVisit(now: Instant, db: Db, cookie: Id, u: Id, act: Action)
    requires Visits(now, db, cookie, u, act)
    ensures Visits(now, WithChallenge(now, db, u), cookie, u, act)
  {
    hide Stamp;
  }

  /** A passkey is added from the settings: begin, then finish. */
  lemma Adding(now: Instant, cfg: Config, moves: seq<Move>, db: Db, cookie: Id, u: Id, key: Uuid, c: Credential)
    returns (after: seq<Move>)
    requires Stands(cfg, moves, db, map[]) && KeyInsertable(db, u, key, c)
    requires Visits(now, db, cookie, u, BeginAdd) && Visits(now, db, cookie, u, FinishAdd)
    ensures moves <= after && Stands(cfg, after, WithKey(db, u, key, c), map[])
  {
    hide Stands, Stops, Step, Visits, WithKey, WithChallenge;
    AddingSteps(now, cfg, db, u, key, c);
    ChallengeTakenStep(now, cfg, db, u);
    KeyStep(now, cfg, db, u, key, c);
    var d := WithChallenge(now, db, u);
    ChallengeKeepsVisit(now, db, cookie, u, FinishAdd);
    after := Entering(now, cfg, moves, db, map[], 0, cookie, u, BeginAdd);
    after := Ends(cfg, after, db, map[], 0, Settings(BeginAdd0(u)), Tick(now).(challenge := Some("")), d);
    after := Entering(now, cfg, after, d, map[], 0, cookie, u, FinishAdd);
    after := Goes(cfg, after, d, map[], 0, Settings(FinishAdd0(u)), Tick(now), db, Settings(FinishAdd1(u, now)));
    after := Ends(cfg, after, db, map[], 0, Settings(FinishAdd1(u, now)), Tick(now).(id := key, attested := Some(c)),
                  WithKey(db, u, key, c));
  }

  lemma UnlinkingSteps(now: Instant, cfg: Config, db: Db, u: Id, key: Id)
    requires key in db.passkeys && db.passkeys[key].user == u
    requires forall k :: k in db.identities ==> db.identities[k].user == u
    ensures Step(cfg, db, Settings(Unlink0(u)), Tick(now)) == Goto(db, Settings(Unlink1(u)))
    ensures Step(cfg, db, Settings(Unlink1(u)), Tick(now)) == Stop(db.(identities := map[]))
  {
    hide Unlink, KeysOf;
    HasKey(db, u, key);
    NothingLinked(db, u);
  }

  lemma HasKey(db: Db, u: Id, key: Id)
    requires key in db.passkeys && db.passkeys[key].user == u
    ensures KeysOf(db, u) != {}
  {
    assert key in KeysOf(db, u);
  }

  lemma NothingLinked(db: Db, u: Id)
    requires forall k :: k in db.identities ==> db.identities[k].user == u
    ensures Unlink(db, u) == db.(identities := map[])
  {
    assert Unlink(db, u).identities == map[];
  }

  /** A user with a passkey unlinks Freja; nobody else has it linked. */
  lemma Unlinking(now: Instant, cfg: Config, moves: seq<Move>, db: Db, cookie: Id, u: Id, key: Id) returns (after: seq<Move>)
    requires Stands(cfg, moves, db, map[]) && Visits(now, db, cookie, u, UnlinkFreja)
    requires key in db.passkeys && db.passkeys[key].user == u
    requires forall k :: k in db.identities ==> db.identities[k].user == u
    ensures moves <= after && Stands(cfg, after, db.(identities := map[]), map[])
  {
    hide Stands, Stops, Step, Visits;
    UnlinkingSteps(now, cfg, db, u, key);
    after := Entering(now, cfg, moves, db, map[], 0, cookie, u, UnlinkFreja);
    after := Goes(cfg, after, db, map[], 0, Settings(Unlink0(u)), Tick(now), db, Settings(Unlink1(u)));
    after := Ends(cfg, after, db, map[], 0, Settings(Unlink1(u)), Tick(now), db.(identities := map[]));
  }

  // -------------------------------------------------------------------- resets

  function WithReset(db: Db, r: Id, row: Reset): Db {
    db.(resets := db.resets[r := row])
  }

  function GrantedRow(now: Instant, u: Id, provider: Provider, token: Id): Reset {
    Reset(u, provider, Some(Grant(token, Stamp(now + 48 * HOUR))), Approved)
  }

  ghost predicate Lost(db: Db, u: Id, email: string, provider: Provider) {
    u in db.users && UserLike(db, u, TrimSpace(Lower(email))) && !ResetPending(db, u, provider)
  }

  lemma RequestingSteps(now: Instant, cfg: Config, db: Db, u: Id, email: string, provider: Provider, r: Uuid)
    requires Lost(db, u, email, provider) && r !in db.resets
    ensures Step(cfg, db, Resetting(RequestReset0(email, provider)), Tick(now).(row := Some(u)))
            == Outcome(db, Some(Resetting(RequestReset1(u, provider))), Some(LookedUp(u, TrimSpace(Lower(email)), ToReset)))
    ensures Step(cfg, db, Resetting(RequestReset1(u, provider)), Tick(now)) == Goto(db, Resetting(RequestReset2(u, provider)))
    ensures Step(cfg, db, Resetting(RequestReset2(u, provider)), Tick(now).(id := r))
            == Outcome(WithReset(db, r, Reset(u, provider, None, Pending)), None, Some(ResetFiled(r, u, provider)))
  {
    hide Lower, TrimSpace, ResetPending, UserLike;
  }

  /** A reset is requested. */
  lemma Requesting(now: Instant, cfg: Config, moves: seq<Move>, db: Db, u: Id, email: string, provider: Provider, r: Uuid)
    returns (after: seq<Move>)
    requires Stands(cfg, moves, db, map[]) && Lost(db, u, email, provider) && r !in db.resets
    ensures moves <= after && Stands(cfg, after, WithReset(db, r, Reset(u, provider, None, Pending)), map[])
  {
    hide Stands, Stops, Step, Lost, WithReset;
    RequestingSteps(now, cfg, db, u, email, provider, r);
    var t0, t1 := Resetting(RequestReset0(email, provider)), Resetting(RequestReset1(u, provider));
    var t2 := Resetting(RequestReset2(u, provider));
    after := Comes(cfg, moves, db, map[], 0, t0);
    after := Goes(cfg, after, db, map[], 0, t0, Tick(now).(row := Some(u)), db, t1);
    after := Goes(cfg, after, db, map[], 0, t1, Tick(now), db, t2);
    after := Ends(cfg, after, db, map[], 0, t2, Tick(now).(id := r), WithReset(db, r, Reset(u, provider, None, Pending)));
  }

  lemma GrantingSteps(now: Instant, cfg: Config, db: Db, u: Id, provider: Provider, r: Id, token: Uuid, why: Approver)
    requires r in db.resets && db.resets[r] == Reset(u, provider, None, Pending)
    requires forall q :: q in db.resets ==> db.resets[q].setup.None?
    ensures Step(cfg, db, Resetting(GrantReset0(r, why)), Tick(now)) == Goto(db, Resetting(GrantReset1(r, why)))
    ensures var o := Step(cfg, db, Resetting(GrantReset1(r, why)), Tick(now).(token := token));
            o.db == WithReset(db, r, GrantedRow(now, u, provider, token)) && o.next == None
  {
    hide Stamp;
  }

  lemma GrantEntered(now: Instant, r: Id, cookie: Id, admin: Id)
    ensures Enter(GrantReset(r), cookie, admin, now) == Resetting(GrantReset0(r, By(admin, cookie, now)))
  {
  }

  /** An admin approves it. */
  lemma Granting(now: Instant, cfg: Config, moves: seq<Move>, db: Db, cookie: Id, admin: Id, u: Id, provider: Provider,
      r: Id, token: Uuid)
    returns (after: seq<Move>)
    requires Stands(cfg, moves, db, map[]) && Visits(now, db, cookie, admin, GrantReset(r))
    requires r in db.resets && db.resets[r] == Reset(u, provider, None, Pending)
    requires forall q :: q in db.resets ==> db.resets[q].setup.None?
    ensures moves <= after && Stands(cfg, after, WithReset(db, r, GrantedRow(now, u, provider, token)), map[])
  {
    var why := By(admin, cookie, now);
    hide Stands, Stops, Step, Visits, WithReset, GrantedRow, Enter;
    GrantEntered(now, r, cookie, admin);
    var t0, t1 := Resetting(GrantReset0(r, why)), Resetting(GrantReset1(r, why));
    GrantingSteps(now, cfg, db, u, provider, r, token, why);
    after := Entering(now, cfg, moves, db, map[], 0, cookie, admin, GrantReset(r));
    after := Goes(cfg, after, db, map[], 0, t0, Tick(now), db, t1);
    after := Ends(cfg, after, db, map[], 0, t1, Tick(now).(token := token), WithReset(db, r, GrantedRow(now, u, provider, token)));
  }

  /** The link of reset `r` is open to a Freja login of `u`. */
  ghost predicate Opens(now: Instant, db: Db, r: Id, token: Id, u: Id, email: string) {
    && r in db.resets && db.resets[r] == GrantedRow(now, u, ViaFreja, token)
    && u in db.users && db.users[u].username == email && email != ""
  }

  /** The same, for a subject that `u` already holds, in row `k`. */
  ghost predicate Recovers(now: Instant, db: Db, r: Id, token: Id, u: Id, k: Id, email: string, subject: string) {
    && Opens(now, db, r, token, u, email)
    && k in db.identities && db.identities[k] == Identity(u, subject, email)
  }

  lemma OpeningStep(now: Instant, cfg: Config, db: Db, r: Id, token: Id, u: Id, email: string, subject: string)
    requires Opens(now, db, r, token, u, email)
    ensures Step(cfg, db, Resetting(ResetFreja0(token, email, subject)), Tick(now).(row := Some(r)))
            == Outcome(db, Some(Resetting(ResetFreja1(r, u, email, subject, now))), Some(ResetOpened(r, u, ViaFreja, email, now)))
  {
    hide Stamp, Before, Lower, UpsertIdentity;
    Ahead(now, 48 * HOUR);
  }

  lemma ConfirmingStep(now: Instant, cfg: Config, db: Db, r: Id, token: Id, u: Id, k: Id, email: string, subject: string)
    requires Recovers(now, db, r, token, u, k, email, subject) && forall j :: j in db.identities ==> j == k
    ensures var o := Step(cfg, db, Resetting(ResetFreja1(r, u, email, subject, now)), Tick(now));
            o.db == db && o.next == Some(Resetting(ResetFreja2(r, u, now)))
  {
    hide Stamp, UpsertIdentity;
    SubjectConfirmed(db, u, k, email, subject);
  }

  lemma SubjectConfirmed(db: Db, u: Id, k: Id, email: string, subject: string)
    requires k in db.identities && db.identities[k] == Identity(u, subject, email) && forall j :: j in db.identities ==> j == k
    ensures UpsertIdentity(db, "0", u, subject, email) == Some(db)
  {
    assert HasSubject(db, k, subject);
    assert UpsertIdentity(db, "0", u, subject, email).value.identities == db.identities;
  }

  lemma RecoversOpens(now: Instant, db: Db, r: Id, token: Id, u: Id, k: Id, email: string, subject: string)
    requires Recovers(now, db, r, token, u, k, email, subject)
    ensures Opens(now, db, r, token, u, email)
  {
  }

  /** A Freja reset up to where it binds the subject. */
  lemma Opening(now: Instant, cfg: Config, moves: seq<Move>, db: Db, others: map<nat, Task>, pid: nat, r: Id, token: Id, u: Id,
      email: string, subject: string)
    returns (after: seq<Move>)
    requires Stands(cfg, moves, db, others) && pid !in others && Opens(now, db, r, token, u, email)
    ensures moves <= after && Stops(cfg, after, db, others, pid, Resetting(ResetFreja1(r, u, email, subject, now)))
  {
    hide Stands, Stops, Step, Opens;
    OpeningStep(now, cfg, db, r, token, u, email, subject);
    var t0, t1 := Resetting(ResetFreja0(token, email, subject)), Resetting(ResetFreja1(r, u, email, subject, now));
    after := Comes(cfg, moves, db, others, pid, t0);
    after := Goes(cfg, after, db, others, pid, t0, Tick(now).(row := Some(r)), db, t1);
  }

  /** A Freja reset up to where only its completion is left. */
  lemma Recovering(now: Instant, cfg: Config, moves: seq<Move>, db: Db, others: map<nat, Task>, pid: nat, r: Id, token: Id, u: Id, k: Id,
      email: string, subject: string)
    returns (after: seq<Move>)
    requires Stands(cfg, moves, db, others) && pid !in others
    requires Recovers(now, db, r, token, u, k, email, subject) && forall j :: j in db.identities ==> j == k
    ensures moves <= after && Stops(cfg, after, db, others, pid, Resetting(ResetFreja2(r, u, now)))
  {
    hide Stands, Stops, Step, Recovers, Opens;
    ConfirmingStep(now, cfg, db, r, token, u, k, email, subject);
    var t1 := Resetting(ResetFreja1(r, u, email, subject, now));
    RecoversOpens(now, db, r, token, u, k, email, subject);
    after := Opening(now, cfg, moves, db, others, pid, r, token, u, email, subject);
    after := Goes(cfg, after, db, others, pid, t1, Tick(now), db, Resetting(ResetFreja2(r, u, now)));
  }
}
