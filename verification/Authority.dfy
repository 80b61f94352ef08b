/**
 * An admin's decision is made while the admin still is one, unless a statement in between ends that: exactly
 * which statements do, and that nothing else comes between admission and decision.
 */
module Authority {
  import opened Basics
  import opened Timestamps
  import opened Tables
  import opened Requests
  import opened Runs
  import opened Effects
  import opened Steps
  import opened History
  import opened Sessions
  import opened Accounts
  import opened Races

  /** The cookie `why` names is that of an unexpired session of an unbanned account holding role admin. */
  ghost predicate AdminNow(log: Log, why: Approver) {
    why.By? && Visitor(log, why.cookie, why.at) == Some((why.admin, Admin))
  }

  // --------------------------------------------------------------- revocation

  /** What ends the authority of `why`, if it had any. */
  predicate Revoked(e: Event, why: Approver) {
    why.By? &&
    match e
    case Created(g, u, email, w) => u == why.admin
    case Granted(u, role, w) => u == why.admin && role != Admin
    case Banned(u, banned, w) => u == why.admin && banned
    case SessionDropped(c) => c == why.cookie
    case SessionMade(c, u, at, how) => c == why.cookie && (u != why.admin || Expired(at, why.at))
    case _ => false
  }

  lemma RevokedByEvent(log: Log, e: Event, why: Approver)
    ensures Revoked(e, why) ==> !AdminNow(log + [e], why)
    ensures AdminNow(log, why) && !Revoked(e, why) ==> AdminNow(log + [e], why)
  {
    if why.By? {
      OneMoreEvent(log, e, why.cookie);
      OneMoreEvent(log, e, why.admin);
      hide RoleNow, BannedNow, Live, Expired;
    }
  }

  /**
   * The statements that end the authority of `why`: a ban or a demotion of the admin, a logout of the session,
   * and a new session under the id of one that has been swept, for someone else or already expired.
   */
  predicate Revokes(db: Db, t: Task, i: Input, why: Approver) {
    why.By? &&
    match t
    case Gated(SetBanned0(u, banned, w)) => u == why.admin && banned
    case Gated(ChangeRole0(u, role, w)) => u == why.admin && role != Admin
    case LoggingIn(Logout0(c)) => c == why.cookie
    case LoggingIn(EnterSession(u, how)) =>
      i.id == why.cookie && i.id !in db.sessions && u in db.users && (u != why.admin || Expired(i.now, why.at))
    case _ => false
  }

  lemma EntryTold(cfg: Config, db: Db, u: Id, how: How, i: Input)
    ensures Step(cfg, db, LoggingIn(EnterSession(u, how)), i).event
            == if i.id !in db.sessions && u in db.users then Some(SessionMade(i.id, u, i.now, how)) else None
  {
    hide Stamp;
  }

  lemma RevocationTold(cfg: Config, db: Db, t: Task, i: Input, why: Approver)
    requires why.By? && why.admin in db.users
    ensures var e := Step(cfg, db, t, i).event; Revokes(db, t, i, why) <==> e.Some? && Revoked(e.value, why)
  {
    hide Step, UsersMove, LoginEvent, RegistrationEvent, SettingsEvent, ResetEvent, GateEvent, NextFits, Revokes, Revoked;
    var o := Step(cfg, db, t, i);
    StepTells(cfg, db, t, i);
    StepUsers(cfg, db, t, i);
    if t.LoggingIn? {
      if t.l.EnterSession? {
        EntryTold(cfg, db, t.l.user, t.l.how, i);
      }
      LoginRevokes(db, t.l, i, o.event, why);
    } else {
      ChangeRevokes(db, o.db, t, i, o.event, why);
    }
  }

  lemma LoginRevokes(db: Db, t: LoginTask, i: Input, e: Option<Event>, why: Approver)
    requires why.By? && LoginEvent(t, i, e)
    requires t.EnterSession? ==>
               e == if i.id !in db.sessions && t.user in db.users then Some(SessionMade(i.id, t.user, i.now, t.how)) else None
    ensures Revokes(db, LoggingIn(t), i, why) <==> e.Some? && Revoked(e.value, why)
  {
    hide Expired;
  }

  lemma ChangeRevokes(db: Db, d: Db, t: Task, i: Input, e: Option<Event>, why: Approver)
    requires why.By? && why.admin in db.users && !t.LoggingIn?
    requires EventFits(t, i, e) && UsersMove(db.users, d.users, t, e)
    ensures Revokes(db, t, i, why) <==> e.Some? && Revoked(e.value, why)
  {
    hide Expired, Stamp, NameFree;
  }

  lemma AdminIsUser(s: Sys, why: Approver)
    requires Faithful(s) && AdminNow(s.log, why)
    ensures why.admin in s.db.users
  {
    hide Tracked;
    assert ToldOf(s.log, s.db.users, why.admin);
  }

  lemma StepRevokes(cfg: Config, s: Sys, pid: nat, i: Input, why: Approver)
    requires Faithful(s) && pid in s.pool && AdminNow(s.log, why)
    ensures AdminNow(After(s, pid, Step(cfg, s.db, s.pool[pid], i)).log, why) <==> !Revokes(s.db, s.pool[pid], i, why)
  {
    hide Step, Faithful, AdminNow, Revokes, Revoked;
    var e := Step(cfg, s.db, s.pool[pid], i).event;
    AdminIsUser(s, why);
    RevocationNeedsName(s.log, why);
    RevocationTold(cfg, s.db, s.pool[pid], i, why);
    NoEvent(s.log);
    if e.Some? {
      RevokedByEvent(s.log, e.value, why);
    }
  }

  lemma RevocationNeedsName(log: Log, why: Approver)
    requires AdminNow(log, why)
    ensures why.By?
  {
  }

  /** Exactly which moves end the authority of a session that has it, at any interleaving. */
  lemma AuthorityLostExactly(cfg: Config, moves: seq<Move>, m: Move, why: Approver)
    requires AdminNow(Execute(cfg, moves).log, why)
    ensures var s := Execute(cfg, moves);
            !AdminNow(Execute(cfg, moves + [m]).log, why) <==> m.Run? && m.pid in s.pool && Revokes(s.db, s.pool[m.pid], m.input, why)
  {
    hide Execute, Step, AdminNow, Revokes, Faithful;
    var s := Execute(cfg, moves);
    ExecuteOneMore(cfg, moves, m);
    FaithfulAlways(cfg, moves);
    if m.Run? && m.pid in s.pool {
      StepRevokes(cfg, s, m.pid, m.input, why);
    }
  }

  /** An approval admitted before is carried out after its admin's authority has ended. */
  lemma RevocationOvertakes(cfg: Config, s: Sys, p: nat, q: nat, g: Id, why: Approver, i: Input)
    requires p != q && p in s.pool && q in s.pool && s.pool[p] == Registering(Approve0(g, why))
    requires g in s.db.registrations && s.db.registrations[g].status == Pending
    requires var o := Step(cfg, s.db, s.pool[q], i);
             && o.next.None? && o.event.Some? && Revoked(o.event.value, why)
             && o.db.registrations == s.db.registrations && Committable(o.db, s.db.registrations[g], i.id)
    ensures var row := s.db.registrations[g];
            var e := Step(cfg, s.db, s.pool[q], i).event.value;
            && Moved(cfg, Moved(cfg, Moved(cfg, s, Run(q, i)), Run(p, i)), Run(p, i)).log
               == s.log + [e] + [Created(g, row.account, row.email, why)]
            && !AdminNow(s.log + [e], why)
  {
    hide Step, Committable, AccountOpened, IdentityLinked, KeyUnparked, Revoked, AdminNow;
    var row := s.db.registrations[g];
    var o := Step(cfg, s.db, s.pool[q], i);
    DecisionSteps(cfg, o.db, g, why, i);
    ApprovalAllOrNothing(cfg, o.db, g, row, why, i);
    RevokedByEvent(s.log, o.event.value, why);
    NoEvent(s.log + [o.event.value]);
    assert Moved(cfg, s, Run(q, i)) == Sys(o.db, s.pool - {q}, s.log + [o.event.value]);
  }

  // ------------------------------------------------- from admission to decision

  /** In which admin's name a request in flight will decide. */
  function ActsFor(t: Task): Option<Approver> {
    if Pursues(t).Some? && Pursues(t).value.1.By? then Some(Pursues(t).value.1)
    else None
  }

  /** Anything an admin does on the admin pages. */
  predicate Decision(e: Event) {
    DecisionOf(e).Some? && e.why.By?
  }

  /** The authority of `why` ends while another request admitted on it has not decided yet. */
  ghost predicate Disturbs(s: Sys, m: Move, why: Approver) {
    && m.Run? && m.pid in s.pool && Revokes(s.db, s.pool[m.pid], m.input, why)
    && exists p :: p in s.pool && p != m.pid && ActsFor(s.pool[p]) == Some(why)
  }

  ghost predicate Undisturbed(cfg: Config, moves: seq<Move>, why: Approver) {
    moves != [] ==>
      && Undisturbed(cfg, moves[..|moves| - 1], why)
      && !Disturbs(Execute(cfg, moves[..|moves| - 1]), moves[|moves| - 1], why)
  }

  /** One request at a time, nothing comes between. */
  lemma {:induction false} SerialIsUndisturbed(cfg: Config, moves: seq<Move>, why: Approver)
    requires Serial(cfg, moves)
    ensures Undisturbed(cfg, moves, why)
  {
    hide Execute, Revokes;
    if moves != [] {
      assert Serial(cfg, moves[..|moves| - 1]);
      SerialIsUndisturbed(cfg, moves[..|moves| - 1], why);
    }
  }

  /** Every decision for `why` so far was made while `why` had its authority. */
  ghost predicate AllDecidedByAdmin(log: Log, why: Approver) {
    forall k :: 0 <= k < |log| && Decision(log[k]) && log[k].why == why ==> AdminNow(log[..k], why)
  }

  lemma DecisionAppended(log: Log, e: Option<Event>, t: Task, i: Input, why: Approver)
    requires AllDecidedByAdmin(log, why) && EventFits(t, i, e) && (ActsFor(t) == Some(why) ==> AdminNow(log, why))
    ensures AllDecidedByAdmin(log + Logged(e), why)
  {
    hide AdminNow;
    var all := log + Logged(e);
    forall k | 0 <= k < |all| && Decision(all[k]) && all[k].why == why ensures AdminNow(all[..k], why) {
      assert all[..k] == log[..k];
      if k == |log| {
        DecisionNeedsAuthority(e.value, t, i);
        assert log[..k] == log;
      }
    }
  }

  lemma DecisionNeedsAuthority(e: Event, t: Task, i: Input)
    requires EventFits(t, i, Some(e)) && Decision(e)
    ensures ActsFor(t) == Some(e.why)
  {
  }

  lemma NextActs(cfg: Config, s: Sys, t: Task, i: Input, o: Outcome, why: Approver)
    requires Faithful(s) && EventFits(t, i, o.event) && NextFits(cfg, s.db, t, i, o)
    requires ActsFor(t) == Some(why) ==> AdminNow(s.log, why)
    ensures o.next.Some? && ActsFor(o.next.value) == Some(why) ==> AdminNow(s.log + Logged(o.event), why)
  {
    hide Faithful, AdminNow, IsAdminEmail, Stamp, CurrentUser;
    NoEvent(s.log);
    if o.next.Some? && t.Gated? && t.g.Gate0? {
      GateActs(s, t.g.cookie, t.g.act, i, o, why);
    }
  }

  lemma GateActs(s: Sys, c: Id, act: Action, i: Input, o: Outcome, why: Approver)
    requires Faithful(s) && o.next.Some? && GateNext(s.db, Gate0(c, act), i, o.event, o.next.value)
    ensures ActsFor(o.next.value) == Some(why) ==> AdminNow(s.log + Logged(o.event), why)
  {
    hide Faithful, Stamp, CurrentUser, Visitor;
    var u, role :| && CurrentUser(s.db, c, Stamp(i.now)) == Some((u, role))
                   && o.event == Some(Admitted(u, role, c, act, i.now))
                   && o.next.value == Gated(Gate1(c, u, role, act, i.now));
    AdmittedIsVisitor(s, c, i.now);
    RevokedByEvent(s.log, o.event.value, why);
  }

  ghost predicate Authorised(s: Sys, why: Approver) {
    && AllDecidedByAdmin(s.log, why)
    && forall p :: p in s.pool && ActsFor(s.pool[p]) == Some(why) ==> AdminNow(s.log, why)
  }

  lemma StepKeepsAuthority(cfg: Config, s: Sys, pid: nat, i: Input, why: Approver)
    requires Faithful(s) && Authorised(s, why) && pid in s.pool && !Disturbs(s, Run(pid, i), why)
    ensures Authorised(After(s, pid, Step(cfg, s.db, s.pool[pid], i)), why)
  {
    hide Step, Faithful, AdminNow, EventFits, NextFits, ActsFor, Revokes, AllDecidedByAdmin;
    var t := s.pool[pid];
    var o := Step(cfg, s.db, t, i);
    StepTells(cfg, s.db, t, i);
    DecisionAppended(s.log, o.event, t, i, why);
    NextActs(cfg, s, t, i, o, why);
    if AdminNow(s.log, why) {
      StepRevokes(cfg, s, pid, i, why);
    }
  }

  lemma ArrivalActs(t: Task)
    requires IsRequest(t)
    ensures ActsFor(t) == None
  {
  }

  lemma {:induction false} AuthorisedAlways(cfg: Config, moves: seq<Move>, why: Approver)
    requires Undisturbed(cfg, moves, why)
    ensures Authorised(Execute(cfg, moves), why)
  {
    if moves != [] {
      hide Step, Faithful, AdminNow, ActsFor, Disturbs, AllDecidedByAdmin;
      var s, m := Execute(cfg, moves[..|moves| - 1]), moves[|moves| - 1];
      AuthorisedAlways(cfg, moves[..|moves| - 1], why);
      if m.Run? && m.pid in s.pool {
        FaithfulAlways(cfg, moves[..|moves| - 1]);
        StepKeepsAuthority(cfg, s, m.pid, m.input, why);
      } else if m.Arrive? && IsRequest(m.task) {
        ArrivalActs(m.task);
      }
    }
  }

  /**
   * Everything decided on the admin pages (approvals, rejections, bans, roles, resets approved or denied) was decided
   * on a cookie that, at that moment and for the clock reading GetSession took, was an unexpired session of an
   * unbanned account holding role admin, in every run in which no statement ends that authority while another
   * request admitted on it is under way; whatever else overlaps.
   */
  lemma DecisionsAreByAdmins(cfg: Config, moves: seq<Move>, k: nat)
    requires var log := Execute(cfg, moves).log; k < |log| && Decision(log[k]) && Undisturbed(cfg, moves, log[k].why)
    ensures var log := Execute(cfg, moves).log; AdminNow(log[..k], log[k].why)
  {
    hide Execute, Undisturbed, AdminNow;
    AuthorisedAlways(cfg, moves, Execute(cfg, moves).log[k].why);
  }
}
