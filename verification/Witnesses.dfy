/** Whole runs, from empty tables, in which overlapping requests break what each of them checked. */
module Witnesses {
  import opened Basics
  import opened Text
  import opened Timestamps
  import opened Tables
  import opened Requests
  import opened Runs
  import opened PublicKeys
  import opened Accounts
  import opened Scenarios
  import opened Races
  import opened Names
  import opened Effects
  import opened Steps
  import opened Freja
  import opened Lookups
  import opened Authority

  /** ADMIN_EMAIL holds one address. */
  const CFG: Config := Config(["a"])

  lemma Addresses()
    ensures IsAdminEmail(CFG, "a") && IsAdminEmail(CFG, "A") && !IsAdminEmail(CFG, "b")
    ensures EqualFold("a", "A") && !EqualFold("a", "b")
  {
    assert Lower("a") == "a" && Lower("A") == "a" && Lower("b") == "b";
    assert TrimSpace("a") == "a" && TrimSpace("A") == "A" && TrimSpace("b") == "b";
    assert CFG.adminEmails[0] == "a";
    assert forall e :: e in CFG.adminEmails ==> e == "a";
  }

  // --------------------------------------------------------- the administrator

  function RowA(now: Instant): Registration {
    FrejaRow(now, "a", "ta", "ua", "sa", "fa")
  }

  /** The tables once "a" has signed up with Freja and become the administrator, with session "c". */
  function AdminDb(now: Instant): Db {
    Bootstrapped(now, WithRow(EMPTY, "ga", RowA(now)), "ga", RowA(now), "ia", "c")
  }

  lemma AdminSignsUp(now: Instant) returns (moves: seq<Move>)
    ensures Stands(CFG, moves, AdminDb(now), map[])
  {
    Addresses();
    hide Stands, Stops, IsAdminEmail, EqualFold, Lower, TrimSpace, Stamp;
    StartStands();
    moves := Filing(now, CFG, [], EMPTY, "ga", "a", "ta", "ua");
    moves := Confirming(now, CFG, moves, EMPTY, "ga", "a", "ta", "ua", "sa", "fa");
    moves := Bootstrapping(now, CFG, moves, WithRow(EMPTY, "ga", RowA(now)), "ga", RowA(now), "ia", "c");
  }

  lemma StartStands()
    ensures Stands(CFG, [], EMPTY, map[])
  {
  }

  // ------------------------------------------------------------------- lockout

  const KEY1: Credential := Credential([1], [], [], 0, false, false)
  const KEY2: Credential := Credential([2], [], [], 0, false, false)

  /** The administrator has two passkeys and no Freja row. */
  function TwoKeys(now: Instant): Db {
    WithKey(WithKey(AdminDb(now), "ua", "k1", KEY1), "ua", "k2", KEY2).(identities := map[])
  }

  lemma KeysAdded(now: Instant) returns (moves: seq<Move>)
    ensures Stands(CFG, moves, TwoKeys(now), map[])
  {
    hide Stands, Stops, Stamp, KeyColumn;
    moves := AdminSignsUp(now);
    moves := Adding(now, CFG, moves, AdminDb(now), "c", "ua", "k1", KEY1);
    moves := Adding(now, CFG, moves, WithKey(AdminDb(now), "ua", "k1", KEY1), "c", "ua", "k2", KEY2);
    moves := Unlinking(now, CFG, moves, WithKey(WithKey(AdminDb(now), "ua", "k1", KEY1), "ua", "k2", KEY2), "c", "ua", "k1");
  }

  lemma TwoKeysOf(now: Instant)
    ensures KeysOf(TwoKeys(now), "ua") == {"k1", "k2"} && TwoKeys(now).identities == map[]
  {
    hide Stamp, KeyColumn;
  }

  /** Two deletions are on their way, each before its count. */
  lemma DeletionsOverlap(now: Instant) returns (before: seq<Move>, moves: seq<Move>)
    ensures before <= moves && Stands(CFG, before, TwoKeys(now), map[])
    ensures Stands(CFG, moves, TwoKeys(now), map[0 := Settings(DeleteKey0("ua", "k1")), 1 := Settings(DeleteKey0("ua", "k2"))])
  {
    hide Stands, Stops, Visits, AdminDb, Stamp, KeyColumn;
    before := KeysAdded(now);
    var db := TwoKeys(now);
    Signed(now, db, DeleteKey("k1"));
    Signed(now, db, DeleteKey("k2"));
    moves := Entering(now, CFG, before, db, map[], 0, "c", "ua", DeleteKey("k1"));
    OneInFlight(CFG, moves, db, Settings(DeleteKey0("ua", "k1")));
    moves := Entering(now, CFG, moves, db, map[0 := Settings(DeleteKey0("ua", "k1"))], 1, "c", "ua", DeleteKey("k2"));
    TwoInFlight(CFG, moves, db, Settings(DeleteKey0("ua", "k1")), Settings(DeleteKey0("ua", "k2")));
  }

  lemma OneInFlight(cfg: Config, moves: seq<Move>, db: Db, t: Task)
    requires Stops(cfg, moves, db, map[], 0, t)
    ensures Stands(cfg, moves, db, map[0 := t])
  {
    hide Stands;
    assert map[][0 := t] == map[0 := t];
  }

  lemma TwoInFlight(cfg: Config, moves: seq<Move>, db: Db, t: Task, t': Task)
    requires Stops(cfg, moves, db, map[0 := t], 1, t')
    ensures Stands(cfg, moves, db, map[0 := t, 1 := t'])
  {
    hide Stands;
    assert map[0 := t][1 := t'] == map[0 := t, 1 := t'];
  }

  /** The administrator's session is as it was opened. */
  lemma Signed(now: Instant, db: Db, act: Action)
    requires db.sessions == AdminDb(now).sessions && db.users == AdminDb(now).users
    ensures Visits(now, db, "c", "ua", act)
  {
    hide Stamp;
  }

  /**
   * From empty tables: two overlapping deletions leave a user who had two passkeys, and no other way to log in,
   * with none.
   */
  lemma DeletionsLockOut(now: Instant) returns (before: seq<Move>, moves: seq<Move>)
    ensures before <= moves && |KeysOf(Execute(CFG, before).db, "ua")| == 2
    ensures KeysOf(Execute(CFG, moves).db, "ua") == {} && !CanLogIn(Execute(CFG, moves).db, "ua")
  {
    hide Execute, Moved, KeysOf, TwoKeys;
    before, moves := DeletionsOverlap(now);
    TwoKeysOf(now);
    TwoDeletionsLockOut(CFG, Execute(CFG, moves), 0, 1, "ua", "k1", "k2", Tick(now));
    moves := Four(CFG, moves, Tick(now), Tick(now), Tick(now), Tick(now));
  }

  // -------------------------------------------------------------------- resets

  lemma AdminAsks(now: Instant, db: Db, provider: Provider)
    requires db.users == AdminDb(now).users && forall r :: r in db.resets ==> !IsPending(db.resets[r], "ua", provider)
    ensures Lost(db, "ua", "a", provider)
  {
    hide Stamp;
    assert Lower("a") == "a" && TrimSpace("a") == "a";
    PendingRow(db, "ua", provider);
  }

  /** Two requests have found the account, neither has counted yet. */
  lemma RequestsOverlap(now: Instant) returns (moves: seq<Move>)
    ensures var t := Resetting(RequestReset1("ua", ViaPasskey)); Stands(CFG, moves, AdminDb(now), map[0 := t, 1 := t])
  {
    hide Stands, Stops, Step, AdminDb, Lost, IsPending;
    var db, t0, t1 := AdminDb(now), Resetting(RequestReset0("a", ViaPasskey)), Resetting(RequestReset1("ua", ViaPasskey));
    NoResets(now);
    AdminAsks(now, db, ViaPasskey);
    RequestingSteps(now, CFG, db, "ua", "a", ViaPasskey, "r1");
    moves := AdminSignsUp(now);
    moves := Comes(CFG, moves, db, map[], 0, t0);
    moves := Goes(CFG, moves, db, map[], 0, t0, Tick(now).(row := Some("ua")), db, t1);
    OneInFlight(CFG, moves, db, t1);
    moves := Comes(CFG, moves, db, map[0 := t1], 1, t0);
    moves := Goes(CFG, moves, db, map[0 := t1], 1, t0, Tick(now).(row := Some("ua")), db, t1);
    TwoInFlight(CFG, moves, db, t1, t1);
  }

  /** From empty tables: two overlapping requests leave two resets pending for one user and provider. */
  lemma RequestsPileUp(now: Instant) returns (moves: seq<Move>)
    ensures !PendingOnce(Execute(CFG, moves).db.resets, "ua", ViaPasskey)
  {
    hide Execute, Moved, AdminDb, PendingOnce, ResetPending;
    NoResets(now);
    moves := RequestsOverlap(now);
    TwoRequestsBothPending(CFG, Execute(CFG, moves), 0, 1, "ua", ViaPasskey, Tick(now).(id := "r1"), Tick(now).(id := "r2"));
    moves := Four(CFG, moves, Tick(now).(id := "r1"), Tick(now).(id := "r1"), Tick(now).(id := "r1"), Tick(now).(id := "r2"));
  }

  lemma NoResets(now: Instant)
    ensures AdminDb(now).resets == map[] && "ua" in AdminDb(now).users && !ResetPending(AdminDb(now), "ua", ViaPasskey)
  {
    hide Stamp;
  }

  /** A Freja reset of the administrator's account is approved. */
  function GrantedDb(now: Instant): Db {
    WithReset(AdminDb(now), "r", GrantedRow(now, "ua", ViaFreja, "tr"))
  }

  lemma ResetGranted(now: Instant) returns (moves: seq<Move>)
    ensures Stands(CFG, moves, GrantedDb(now), map[])
  {
    hide Stands, Stamp, Lower, TrimSpace, IsPending, ResetPending;
    var asked := WithReset(AdminDb(now), "r", Reset("ua", ViaFreja, None, Pending));
    moves := AdminSignsUp(now);
    AdminAsks(now, AdminDb(now), ViaFreja);
    moves := Requesting(now, CFG, moves, AdminDb(now), "ua", "a", ViaFreja, "r");
    Signed(now, asked, GrantReset("r"));
    moves := Granting(now, CFG, moves, asked, "c", "ua", "ua", ViaFreja, "r", "tr");
    assert WithReset(asked, "r", GrantedRow(now, "ua", ViaFreja, "tr")) == GrantedDb(now);
  }

  lemma LinkOpens(now: Instant)
    ensures Recovers(now, GrantedDb(now), "r", "tr", "ua", "ia", "a", "fa") && forall k :: k in GrantedDb(now).identities ==> k == "ia"
  {
    hide Stamp;
  }

  lemma FinishesOverlap(now: Instant) returns (moves: seq<Move>)
    ensures var t := Resetting(ResetFreja2("r", "ua", now)); Stands(CFG, moves, GrantedDb(now), map[0 := t, 1 := t])
  {
    hide Stands, Stops, GrantedDb, Recovers;
    var db, t := GrantedDb(now), Resetting(ResetFreja2("r", "ua", now));
    LinkOpens(now);
    moves := ResetGranted(now);
    moves := Recovering(now, CFG, moves, db, map[], 0, "r", "tr", "ua", "ia", "a", "fa");
    OneInFlight(CFG, moves, db, t);
    moves := Recovering(now, CFG, moves, db, map[0 := t], 1, "r", "tr", "ua", "ia", "a", "fa");
    TwoInFlight(CFG, moves, db, t, t);
  }

  /** From empty tables: two overlapping requests complete one reset twice. */
  lemma ResetCompletesTwice(now: Instant) returns (moves: seq<Move>)
    ensures Completions(Execute(CFG, moves).log, "r") >= 2
  {
    hide Execute, Moved, GrantedDb, Completions;
    moves := FinishesOverlap(now);
    TwoFinishesCompleteTwice(CFG, Execute(CFG, moves), 0, 1, "r", "ua", now, Tick(now));
    moves := Two(CFG, moves, Tick(now), Tick(now));
  }

  // ---------------------------------------------------------------- rejections

  function RowB(now: Instant): Registration {
    FrejaRow(now, "b", "tb", "ub", "sb", "fb")
  }

  lemma SecondSignsUp(now: Instant) returns (moves: seq<Move>)
    ensures Stands(CFG, moves, WithRow(AdminDb(now), "gb", RowB(now)), map[])
  {
    moves := AdminSignsUp(now);
    Addresses();
    OthersDiffer(now);
    hide Stands, Stops, IsAdminEmail, EqualFold, Lower, TrimSpace, Stamp, AdminDb, Fileable, SetupFree;
    moves := Filing(now, CFG, moves, AdminDb(now), "gb", "b", "tb", "ub");
    moves := Confirming(now, CFG, moves, AdminDb(now), "gb", "b", "tb", "ub", "sb", "fb");
  }

  lemma OthersDiffer(now: Instant)
    ensures Fileable(AdminDb(now), "gb", "b", "tb", "ub") && SetupFree(AdminDb(now), "gb", "sb")
  {
    hide Stamp, Lower;
    NamesDiffer();
  }

  lemma NamesDiffer()
    ensures Lower("a") != Lower("b")
  {
    assert Lower("a") == "a" && Lower("b") == "b";
  }

  lemma SecondCommits(now: Instant)
    ensures Committable(WithRow(AdminDb(now), "gb", RowB(now)), RowB(now), "ib")
  {
    hide Stamp, Unpark;
  }

  /** The administrator is about to approve a registration, and to do something else; neither has begun yet. */
  lemma DecisionsOverlap(now: Instant, act: Action) returns (moves: seq<Move>)
    ensures Stands(CFG, moves, WithRow(AdminDb(now), "gb", RowB(now)),
                   map[0 := Registering(Approve0("gb", By("ua", "c", now))), 1 := Enter(act, "c", "ua", now)])
  {
    hide Stands, Stops, Visits, AdminDb, RowB, Enter;
    var db, t := WithRow(AdminDb(now), "gb", RowB(now)), Registering(Approve0("gb", By("ua", "c", now)));
    moves := SecondSignsUp(now);
    Signed(now, db, Approve("gb"));
    Signed(now, db, act);
    ApprovalEntered("gb", "c", "ua", now);
    moves := Entering(now, CFG, moves, db, map[], 0, "c", "ua", Approve("gb"));
    OneInFlight(CFG, moves, db, t);
    moves := Entering(now, CFG, moves, db, map[0 := t], 1, "c", "ua", act);
    TwoInFlight(CFG, moves, db, t, Enter(act, "c", "ua", now));
  }

  /** From empty tables: a registration is rejected, and afterwards approved by the request that read it before. */
  lemma RejectedIsApproved(now: Instant) returns (rejected: seq<Move>, moves: seq<Move>)
    ensures rejected <= moves && IsRejected(Execute(CFG, rejected).db, "gb")
    ensures IsCompleted(Execute(CFG, moves).db, "gb") && "ub" in Execute(CFG, moves).db.users
  {
    hide Moved, Stamp, Committable, AdminDb, Execute, IsRejected, IsCompleted;
    var i := Tick(now).(id := "ib");
    moves := DecisionsOverlap(now, Reject("gb"));
    SecondCommits(now);
    ApprovalOverridesRejection(CFG, Execute(CFG, moves), 0, 1, "gb", By("ua", "c", now), i);
    rejected := Two(CFG, moves, i, i);
    ExecuteOneMore(CFG, rejected, Run(0, i));
    moves := rejected + [Run(0, i)];
  }

  // ----------------------------------------------------------------- authority

  /** What ends the administrator's own authority: logging out, banning or demoting oneself. */
  predicate EndsAuthority(act: Action) {
    act == Logout || act == SetBanned("ua", true) || act == ChangeRole("ua", Passive)
  }

  lemma AuthorityEnds(now: Instant, act: Action)
    requires EndsAuthority(act)
    ensures var db := WithRow(AdminDb(now), "gb", RowB(now));
            var o := Step(CFG, db, Enter(act, "c", "ua", now), Tick(now).(id := "ib"));
            && o.next.None? && o.event.Some? && Revoked(o.event.value, By("ua", "c", now))
            && o.db.registrations == db.registrations && Committable(o.db, RowB(now), "ib")
  {
    var db := WithRow(AdminDb(now), "gb", RowB(now));
    hide Step, Enter, Revoked, AdminDb, RowB, Committable, Visits;
    SecondCommits(now);
    Signed(now, db, act);
    VisitorExists(now, db, "c", "ua", act);
    EndingStep(CFG, db, "ua", "c", now, act);
    StillCommittable(db, Step(CFG, db, Enter(act, "c", "ua", now), Tick(now).(id := "ib")).db, RowB(now), "ib");
  }

  lemma EndingStep(cfg: Config, db: Db, u: Id, cookie: Id, now: Instant, act: Action)
    requires u in db.users && (act == Logout || act == SetBanned(u, true) || act == ChangeRole(u, Passive))
    ensures var o := Step(cfg, db, Enter(act, cookie, u, now), Tick(now).(id := "ib"));
            && o.next.None? && o.event.Some? && Revoked(o.event.value, By(u, cookie, now))
            && o.db == db.(users := o.db.users, sessions := o.db.sessions)
            && o.db.users.Keys == db.users.Keys && forall v :: v in db.users ==> o.db.users[v].username == db.users[v].username
  {
  }

  lemma StillCommittable(db: Db, d: Db, row: Registration, id: Id)
    requires Committable(db, row, id) && d == db.(users := d.users, sessions := d.sessions)
    requires d.users.Keys == db.users.Keys && forall v :: v in db.users ==> d.users[v].username == db.users[v].username
    ensures Committable(d, row, id)
  {
    hide Unpark;
  }

  /**
   * From empty tables: GetSession lets an administrator in to approve a registration; the administrator logs out,
   * is banned or is demoted; and the approval is carried out all the same.
   */
  lemma RevokedStillDecides(now: Instant, act: Action) returns (moves: seq<Move>, k: nat)
    requires EndsAuthority(act)
    ensures var log := Execute(CFG, moves).log;
            && 0 < k < |log| && log[k] == Created("gb", "ub", "b", By("ua", "c", now))
            && Revoked(log[k - 1], log[k].why) && !AdminNow(log[..k], log[k].why)
  {
    hide Execute, Moved, Step, AdminDb, Committable, Revoked, AdminNow, Enter;
    var i := Tick(now).(id := "ib");
    moves := DecisionsOverlap(now, act);
    var s := Execute(CFG, moves);
    AuthorityEnds(now, act);
    RevocationOvertakes(CFG, s, 0, 1, "gb", By("ua", "c", now), i);
    ExecuteOneMore(CFG, moves, Run(1, i));
    ExecuteOneMore(CFG, moves + [Run(1, i)], Run(0, i));
    ExecuteOneMore(CFG, moves + [Run(1, i)] + [Run(0, i)], Run(0, i));
    moves := moves + [Run(1, i)] + [Run(0, i)] + [Run(0, i)];
    k := |Execute(CFG, moves).log| - 1;
    assert Execute(CFG, moves).log[..k] == s.log + [Step(CFG, s.db, s.pool[1], i).event.value];
  }

  // -------------------------------------------------------------- Freja subjects

  /** The administrator has linked a second Freja identity. */
  function TwoSubjects(now: Instant): Db {
    WithIdentity(AdminDb(now), "ix", Identity("ua", "fx", "x"))
  }

  lemma SecondSubjectFits(now: Instant)
    ensures Linkable(AdminDb(now), "ua", "fx", "x", "tx", "ix")
    ensures "ia" in TwoSubjects(now).identities && TwoSubjects(now).identities["ia"] == Identity("ua", "fa", "a")
    ensures SubjectFree(TwoSubjects(now).identities, "fz")
    ensures {"ia", "ix"} <= IdentitiesOf(TwoSubjects(now), "ua")
  {
    hide Stamp;
    assert Lower("a") == "a" && Lower("x") == "x";
  }

  lemma SecondSubjectLinked(now: Instant) returns (moves: seq<Move>)
    ensures Stands(CFG, moves, TwoSubjects(now), map[])
  {
    hide Stands, AdminDb, Linkable;
    moves := AdminSignsUp(now);
    SecondSubjectFits(now);
    Signed(now, AdminDb(now), LinkFreja("x", "fx"));
    Signed(now, AdminDb(now), ConfirmLink("tx"));
    moves := Linking(now, CFG, moves, AdminDb(now), "c", "ua", "fx", "x", "tx", "ix");
  }

  lemma TwoAreNotOne(s: set<Id>, a: Id, b: Id, k: Id)
    requires {a, b} <= s && a != b
    ensures s != {k}
  {
    assert a in s && b in s;
  }

  /**
   * From empty tables: an account with two Freja rows logs in by e-mail address with a subject no row holds; the
   * login goes on, and still no row holds it.
   */
  lemma RebindFails(now: Instant) returns (before: seq<Move>, moves: seq<Move>)
    ensures before <= moves && Execute(CFG, before).pool == map[0 := LoggingIn(FrejaLogin2("ua", "fz"))]
    ensures {"ia", "ix"} <= IdentitiesOf(Execute(CFG, before).db, "ua")
    ensures Execute(CFG, moves).pool == map[0 := LoggingIn(EnterSession("ua", ByFreja))]
    ensures SubjectFree(Execute(CFG, moves).db.identities, "fz")
  {
    hide Execute, Step, TwoSubjects, IdentitiesOf, Tick;
    var db, t := TwoSubjects(now), LoggingIn(FrejaLogin2("ua", "fz"));
    SecondSubjectFits(now);
    NothingRebound(now);
    before := SecondSubjectLinked(now);
    before := FallingBack(now, CFG, before, db, "a", "fz", "ia");
    moves := Goes(CFG, before, db, map[], 0, t, Tick(now), db, LoggingIn(EnterSession("ua", ByFreja)));
  }

  lemma NothingRebound(now: Instant)
    ensures var o := Step(CFG, TwoSubjects(now), LoggingIn(FrejaLogin2("ua", "fz")), Tick(now));
            o.db == TwoSubjects(now) && o.next == Some(LoggingIn(EnterSession("ua", ByFreja)))
  {
    hide Step, TwoSubjects, IdentitiesOf, OwnedBy;
    SecondSubjectFits(now);
    RebindNeedsOneRow(CFG, TwoSubjects(now), "ua", "fz", Tick(now));
    NotOwned(TwoSubjects(now), "ua", "fz");
    forall k ensures IdentitiesOf(TwoSubjects(now), "ua") != {k} {
      TwoAreNotOne(IdentitiesOf(TwoSubjects(now), "ua"), "ia", "ix", k);
    }
  }

  lemma NotOwned(db: Db, u: Id, subject: string)
    requires SubjectFree(db.identities, subject)
    ensures !OwnedBy(db.identities, u, subject)
  {
  }

  /** A second registration carries the subject the administrator holds. */
  function RowTwin(now: Instant): Registration {
    FrejaRow(now, "b", "tb", "ub", "sb", "fa")
  }

  lemma TwinSignsUp(now: Instant) returns (moves: seq<Move>)
    ensures Stands(CFG, moves, WithRow(AdminDb(now), "gb", RowTwin(now)), map[])
  {
    moves := AdminSignsUp(now);
    Addresses();
    OthersDiffer(now);
    hide Stands, Stops, IsAdminEmail, EqualFold, Lower, TrimSpace, Stamp, AdminDb, Fileable, SetupFree;
    moves := Filing(now, CFG, moves, AdminDb(now), "gb", "b", "tb", "ub");
    moves := Confirming(now, CFG, moves, AdminDb(now), "gb", "b", "tb", "ub", "sb", "fa");
  }

  lemma TwinStranded(now: Instant)
    ensures var db := WithRow(AdminDb(now), "gb", RowTwin(now));
            ApproveFreja(db, "gb", "ub", "b", "fa", "ib") == Some(Stranded(db, "gb", RowTwin(now)))
            && "ub" in Stranded(db, "gb", RowTwin(now)).users && !CanLogIn(Stranded(db, "gb", RowTwin(now)), "ub")
  {
    hide Stamp, ApproveFreja;
    StrandedCreation(WithRow(AdminDb(now), "gb", RowTwin(now)), "gb", RowTwin(now), "ib", "ia");
  }

  /** From empty tables, one request after the other: an approved account that has no way to log in. */
  lemma BornLockedOut(now: Instant) returns (moves: seq<Move>)
    ensures "ub" in Execute(CFG, moves).db.users && !CanLogIn(Execute(CFG, moves).db, "ub")
  {
    hide Execute, AdminDb, CanLogIn, Stranded, ApproveFreja, Visits;
    var db := WithRow(AdminDb(now), "gb", RowTwin(now));
    moves := TwinSignsUp(now);
    Signed(now, db, Approve("gb"));
    TwinStranded(now);
    moves := Approving(now, CFG, moves, db, "c", "ua", "gb", RowTwin(now), "ib", Stranded(db, "gb", RowTwin(now)));
  }

  /** The second account is approved, with a subject of its own. */
  function TwoAccounts(now: Instant): Db {
    AccountCreated(WithRow(AdminDb(now), "gb", RowB(now)), "gb", RowB(now), "ib")
  }

  lemma SecondFits(now: Instant)
    ensures var db := WithRow(AdminDb(now), "gb", RowB(now));
            ApproveFreja(db, "gb", "ub", "b", "fb", "ib") == Some(TwoAccounts(now))
  {
    hide Stamp, ApproveFreja;
    Creation(WithRow(AdminDb(now), "gb", RowB(now)), "gb", RowB(now), "ib", "s");
  }

  lemma SecondApproved(now: Instant) returns (moves: seq<Move>)
    ensures Stands(CFG, moves, TwoAccounts(now), map[])
  {
    hide Stands, AdminDb, TwoAccounts, ApproveFreja, Visits;
    var db := WithRow(AdminDb(now), "gb", RowB(now));
    moves := SecondSignsUp(now);
    Signed(now, db, Approve("gb"));
    SecondFits(now);
    moves := Approving(now, CFG, moves, db, "c", "ua", "gb", RowB(now), "ib", TwoAccounts(now));
  }

  /** A Freja reset of the second account is approved. */
  function SecondGranted(now: Instant): Db {
    WithReset(TwoAccounts(now), "r", GrantedRow(now, "ub", ViaFreja, "tr"))
  }

  lemma SecondAsks(now: Instant)
    ensures Lost(TwoAccounts(now), "ub", "b", ViaFreja) && TwoAccounts(now).resets == map[]
    ensures forall act :: Visits(now, WithReset(TwoAccounts(now), "r", Reset("ub", ViaFreja, None, Pending)), "c", "ua", act)
    ensures Opens(now, SecondGranted(now), "r", "tr", "ub", "b") && OwnedBy(SecondGranted(now).identities, "ua", "fa")
  {
    hide Stamp;
    assert Lower("b") == "b" && TrimSpace("b") == "b";
    assert Row(SecondGranted(now).identities, "ia", "ua", "fa");
  }

  lemma SecondReset(now: Instant) returns (moves: seq<Move>)
    ensures Stands(CFG, moves, SecondGranted(now), map[])
  {
    hide Stands, TwoAccounts, Lost, Visits;
    var asked := WithReset(TwoAccounts(now), "r", Reset("ub", ViaFreja, None, Pending));
    SecondAsks(now);
    moves := SecondApproved(now);
    moves := Requesting(now, CFG, moves, TwoAccounts(now), "ub", "b", ViaFreja, "r");
    moves := Granting(now, CFG, moves, asked, "c", "ua", "ub", ViaFreja, "r", "tr");
    assert WithReset(asked, "r", GrantedRow(now, "ub", ViaFreja, "tr")) == SecondGranted(now);
  }

  lemma ResetSteps(cfg: Config, db: Db, r: Id, u: Id, email: string, subject: string, began: Instant, i: Input)
    requires r in db.resets
    ensures var o := Step(cfg, db, Resetting(ResetFreja1(r, u, email, subject, began)), i); o.db.resets == db.resets
    ensures var o := Step(cfg, db, Resetting(ResetFreja2(r, u, began)), i);
            && o.db.identities == db.identities && IsComplete(o.db, r)
            && o.next == Some(LoggingIn(EnterSession(u, ByReset(r, began))))
  {
    hide UpsertIdentity;
  }

  /** The subject stays where it is, and the reset goes on to its completion. */
  lemma ResetBinds(now: Instant)
    requires UniqueSubjects(SecondGranted(now).identities)
    ensures var o := Step(CFG, SecondGranted(now), Resetting(ResetFreja1("r", "ub", "b", "fa", now)), Tick(now));
            && o.next == Some(Resetting(ResetFreja2("r", "ub", now)))
            && OwnedBy(o.db.identities, "ua", "fa") && !OwnedBy(o.db.identities, "ub", "fa") && "r" in o.db.resets
            && ReportsB(o.db.identities)
  {
    hide Step, TwoAccounts, OwnedBy, Opens;
    var db, t := SecondGranted(now), Resetting(ResetFreja1("r", "ub", "b", "fa", now));
    SecondAsks(now);
    OwnedIsHeld(db, "ua", "fa");
    ResetOwnsExactly(CFG, db, "r", "ub", "b", "fa", now, Tick(now));
    ResetSteps(CFG, db, "r", "ub", "b", "fa", now, Tick(now));
    StillOwned(CFG, db, t, Tick(now), "ua", "fa");
    FirstRow(now);
    StepTells(CFG, db, t, Tick(now));
    AddressOfReset(CFG, db, "r", "ub", "b", "fa", now, Tick(now), "ia");
  }

  /** The row of the first account reports the second account's address. */
  predicate ReportsB(m: map<Id, Identity>) {
    "ia" in m && m["ia"] == Identity("ua", "fa", "b")
  }

  lemma FirstRow(now: Instant)
    ensures "ia" in SecondGranted(now).identities && SecondGranted(now).identities["ia"] == Identity("ua", "fa", "a")
  {
    hide Stamp;
  }

  lemma ResetOpened(now: Instant) returns (moves: seq<Move>)
    ensures Stops(CFG, moves, SecondGranted(now), map[], 0, Resetting(ResetFreja1("r", "ub", "b", "fa", now)))
    ensures UniqueSubjects(SecondGranted(now).identities)
  {
    hide Execute, SecondGranted, OwnedBy, Opens, UniqueSubjects;
    SecondAsks(now);
    moves := SecondReset(now);
    SubjectsUnique(CFG, moves);
    moves := Opening(now, CFG, moves, SecondGranted(now), map[], 0, "r", "tr", "ub", "b", "fa");
  }

  /**
   * From empty tables, one request after the other: a Freja reset of an account is completed with a subject that
   * another account holds; the session is opened, the account does not own the subject, and the other account's row
   * now reports this account's address.
   */
  lemma ResetLeavesSubject(now: Instant) returns (moves: seq<Move>)
    ensures var s := Execute(CFG, moves);
            && ReportsB(s.db.identities) && IsComplete(s.db, "r") && s.pool == map[0 := LoggingIn(EnterSession("ub", ByReset("r", now)))]
            && OwnedBy(s.db.identities, "ua", "fa") && !OwnedBy(s.db.identities, "ub", "fa")
  {
    hide Execute, Step, SecondGranted, OwnedBy, IsComplete, UniqueSubjects, Tick, ReportsB;
    var t1, t2 := Resetting(ResetFreja1("r", "ub", "b", "fa", now)), Resetting(ResetFreja2("r", "ub", now));
    moves := ResetOpened(now);
    ResetBinds(now);
    var d := Step(CFG, SecondGranted(now), t1, Tick(now)).db;
    ResetSteps(CFG, d, "r", "ub", "b", "fa", now, Tick(now));
    moves := Goes(CFG, moves, SecondGranted(now), map[], 0, t1, Tick(now), d, t2);
    moves := Goes(CFG, moves, d, map[], 0, t2, Tick(now), Step(CFG, d, t2, Tick(now)).db,
                  LoggingIn(EnterSession("ub", ByReset("r", now))));
  }

  lemma OwnedIsHeld(db: Db, u: Id, subject: string)
    requires OwnedBy(db.identities, u, subject)
    ensures !SubjectFree(db.identities, subject)
  {
  }

  lemma StillOwned(cfg: Config, db: Db, t: Task, i: Input, u: Id, subject: string)
    requires OwnedBy(db.identities, u, subject) && !Releases(t, u, subject)
    ensures OwnedBy(Step(cfg, db, t, i).db.identities, u, subject)
  {
    hide Step, OwnedBy;
    var o := Step(cfg, db, t, i);
    StepIdentities(cfg, db, t, i);
    OwnerKeepsSubject(db.identities, o.db.identities, t, i, o.event, subject, u);
  }

  // --------------------------------------------------------------------- names

  /** Two requests are filed, for addresses that differ in case only. */
  function BothFiled(now: Instant): Db {
    WithRow(WithRow(EMPTY, "ga", FiledRow(now, "a", "ta", "ua")), "gA", FiledRow(now, "A", "tA", "uA"))
  }

  function RowCapital(now: Instant): Registration {
    FrejaRow(now, "A", "tA", "uA", "sA", "fA")
  }

  function FirstApproved(now: Instant): Db {
    Bootstrapped(now, WithRow(WithRow(EMPTY, "gA", FiledRow(now, "A", "tA", "uA")), "ga", RowA(now)), "ga", RowA(now), "ia", "c")
  }

  lemma BothFile(now: Instant) returns (moves: seq<Move>)
    ensures Stands(CFG, moves, BothFiled(now), map[])
  {
    hide Stands, Stops, Lower, Stamp;
    StartStands();
    moves := Filing(now, CFG, [], EMPTY, "ga", "a", "ta", "ua");
    moves := Filing(now, CFG, moves, WithRow(EMPTY, "ga", FiledRow(now, "a", "ta", "ua")), "gA", "A", "tA", "uA");
  }

  lemma FirstIsApproved(now: Instant) returns (moves: seq<Move>)
    ensures Stands(CFG, moves, FirstApproved(now), map[])
  {
    moves := BothFile(now);
    Addresses();
    hide Stands, Stops, IsAdminEmail, EqualFold, Lower, TrimSpace, Stamp;
    var db := WithRow(EMPTY, "gA", FiledRow(now, "A", "tA", "uA"));
    assert BothFiled(now) == WithRow(db, "ga", FiledRow(now, "a", "ta", "ua"));
    moves := Confirming(now, CFG, moves, db, "ga", "a", "ta", "ua", "sa", "fa");
    moves := Bootstrapping(now, CFG, moves, WithRow(db, "ga", RowA(now)), "ga", RowA(now), "ia", "c");
  }

  lemma CapitalFits(now: Instant)
    ensures WithRow(FirstApproved(now), "gA", FiledRow(now, "A", "tA", "uA")) == FirstApproved(now)
    ensures SetupFree(FirstApproved(now), "gA", "sA")
    ensures var db := WithRow(FirstApproved(now), "gA", RowCapital(now));
            "gA" in db.registrations && db.registrations["gA"] == RowCapital(now) && Insertable(db, RowCapital(now), "iA", "cA")
  {
    hide Stamp;
  }

  /** Both are approved, one request after the other. */
  lemma BothApproved(now: Instant) returns (moves: seq<Move>)
    ensures Stands(CFG, moves,
                   Bootstrapped(now, WithRow(FirstApproved(now), "gA", RowCapital(now)), "gA", RowCapital(now), "iA", "cA"), map[])
  {
    moves := FirstIsApproved(now);
    Addresses();
    CapitalFits(now);
    hide Stands, Stops, IsAdminEmail, EqualFold, Lower, TrimSpace, FirstApproved, WithRow, Insertable, SetupFree;
    var db := FirstApproved(now);
    moves := Confirming(now, CFG, moves, db, "gA", "A", "tA", "uA", "sA", "fA");
    moves := Bootstrapping(now, CFG, moves, WithRow(db, "gA", RowCapital(now)), "gA", RowCapital(now), "iA", "cA");
  }

  /** From empty tables, one request at a time: two accounts whose names differ in case only. */
  lemma NamesDifferInCaseOnly(now: Instant) returns (moves: seq<Move>)
    ensures var m := Execute(CFG, moves).db.users;
            "ua" in m && "uA" in m && m["ua"].username == "a" && m["uA"].username == "A" && !FoldsUnique(m)
  {
    hide Stamp, Execute, Lower, EqualFold;
    moves := BothApproved(now);
    Addresses();
    var m := Execute(CFG, moves).db.users;
    assert EqualFold(m["ua"].username, m["uA"].username);
  }

  // --------------------------------------------------------------------- moves

  /** Requests 0 and 1 take two statements each, in turns. */
  lemma Four(cfg: Config, moves: seq<Move>, i0: Input, i1: Input, i2: Input, i3: Input) returns (after: seq<Move>)
    ensures moves <= after
    ensures Execute(cfg, after)
            == Moved(cfg, Moved(cfg, Moved(cfg, Moved(cfg, Execute(cfg, moves), Run(0, i0)), Run(1, i1)), Run(0, i2)), Run(1, i3))
  {
    hide Execute, Moved;
    after := Two(cfg, moves, i0, i1);
    after := Two(cfg, after, i2, i3);
  }

  lemma Two(cfg: Config, moves: seq<Move>, i0: Input, i1: Input) returns (after: seq<Move>)
    ensures moves <= after && Execute(cfg, after) == Moved(cfg, Moved(cfg, Execute(cfg, moves), Run(0, i0)), Run(1, i1))
  {
    hide Execute, Moved;
    ExecuteOneMore(cfg, moves, Run(0, i0));
    ExecuteOneMore(cfg, moves + [Run(0, i0)], Run(1, i1));
    after := moves + [Run(0, i0)] + [Run(1, i1)];
  }
}
