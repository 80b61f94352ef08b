/**
 * Where accounts and roles come from: every one traces back, through requests authenticated as an admin,
 * to an auto-approval of an address on the ADMIN_EMAIL list.
 */
module Provenance {
  import opened Basics
  import opened Text
  import opened Timestamps
  import opened Tables
  import opened Requests
  import opened Runs
  import opened Effects
  import opened Steps
  import opened History
  import opened Sessions
  import opened Accounts

  // ------------------------------------------------------------------- chains

  /** The account of `u` was created for an ADMIN_EMAIL address. */
  ghost predicate Bootstrapped(cfg: Config, log: Log, u: Id) {
    exists j :: 0 <= j < |log| && BootstrapEvent(cfg, log[j]) && log[j].user == u
  }

  ghost predicate BootstrapEvent(cfg: Config, e: Event) {
    e.Created? && e.why.Bootstrap? && IsAdminEmail(cfg, e.email)
  }

  /** After `before`, the event is not a decision of an admin page or of auto-approval, or its authority is rooted. */
  ghost predicate Justified(cfg: Config, before: Log, e: Event)
    decreases |before|, 3
  {
    DecisionOf(e).Some? ==>
      if e.why.By? then Admits(cfg, before, DecisionOf(e).value.0, e.why)
      else if e.Created? then IsAdminEmail(cfg, e.email)
      else e.Granted? && e.role == Admin && Bootstrapped(cfg, before, e.user)
  }

  /** The last event of `log` is justified by what came before it. */
  ghost predicate Rooted(cfg: Config, log: Log)
    decreases |log|, 0
  {
    log == [] || Justified(cfg, log[..|log| - 1], log[|log| - 1])
  }

  /** By the end of `log`, the cookie is that of an unexpired session of an unbanned admin, whose role is rooted. */
  ghost predicate IsAdmin(cfg: Config, log: Log, why: Approver)
    decreases |log|, 1
  {
    && why.By? && Visitor(log, why.cookie, why.at) == Some((why.admin, Admin))
    && RoleIndex(log, why.admin).Some? && Rooted(cfg, log[..RoleIndex(log, why.admin).value + 1])
  }

  /** GetSession admitted the request for `act` itself, with this cookie and clock reading, and found such an admin. */
  ghost predicate Admits(cfg: Config, log: Log, act: Action, why: Approver)
    decreases |log|, 2
  {
    why.By? && exists m :: 0 <= m < |log| && AdmittedAs(log[m], act, why) && IsAdmin(cfg, log[..m], why)
  }

  ghost predicate AdmittedAs(e: Event, act: Action, why: Approver)
    requires why.By?
  {
    e == Admitted(why.admin, Admin, why.cookie, act, why.at)
  }

  ghost predicate AllRooted(cfg: Config, log: Log) {
    forall k :: 0 <= k <= |log| ==> Rooted(cfg, log[..k])
  }

  lemma AdmitsStays(cfg: Config, log: Log, more: Log, act: Action, why: Approver)
    requires Admits(cfg, log, act, why)
    ensures Admits(cfg, log + more, act, why)
  {
    hide IsAdmin;
    var m :| 0 <= m < |log| && AdmittedAs(log[m], act, why) && IsAdmin(cfg, log[..m], why);
    assert (log + more)[..m] == log[..m] && (log + more)[m] == log[m];
  }

  lemma BootstrappedStays(cfg: Config, log: Log, more: Log, u: Id)
    requires Bootstrapped(cfg, log, u)
    ensures Bootstrapped(cfg, log + more, u)
  {
    var j :| 0 <= j < |log| && BootstrapEvent(cfg, log[j]) && log[j].user == u;
    assert (log + more)[j] == log[j];
  }

  lemma AllRootedGrows(cfg: Config, log: Log, e: Option<Event>)
    requires AllRooted(cfg, log) && Rooted(cfg, log + Logged(e))
    ensures AllRooted(cfg, log + Logged(e))
  {
    hide Rooted;
    var all := log + Logged(e);
    forall k | 0 <= k <= |all| ensures Rooted(cfg, all[..k]) {
      if k <= |log| {
        assert all[..k] == log[..k];
      } else {
        assert all[..k] == all;
      }
    }
  }

  // -------------------------------------------------------------------- steps

  /** What a request in flight may rely on. */
  ghost predicate Entitled(cfg: Config, log: Log, t: Task) {
    && (Pursues(t).Some? ==>
          var (act, why) := Pursues(t).value; if why.By? then Admits(cfg, log, act, why) else act.Approve?)
    && (t.Registering? && t.r.Approve2? && t.r.why.Bootstrap? ==> Bootstrapped(cfg, log, t.r.user))
    && (t.Registering? && t.r.Promote? ==> Bootstrapped(cfg, log, t.r.user))
  }

  lemma EntitledStays(cfg: Config, log: Log, more: Log, t: Task)
    requires Entitled(cfg, log, t)
    ensures Entitled(cfg, log + more, t)
  {
    hide Admits, Bootstrapped;
    if Pursues(t).Some? && Pursues(t).value.1.By? {
      AdmitsStays(cfg, log, more, Pursues(t).value.0, Pursues(t).value.1);
    }
    if t.Registering? && (t.r.Approve2? || t.r.Promote?) {
      if Bootstrapped(cfg, log, t.r.user) {
        BootstrappedStays(cfg, log, more, t.r.user);
      }
    }
  }

  /** GetSession answers "admin" only for a rooted admin with an unexpired session. */
  lemma VisitorIsAdmin(cfg: Config, s: Sys, c: Id, at: Instant, u: Id)
    requires Faithful(s) && AllRooted(cfg, s.log)
    requires CurrentUser(s.db, c, Stamp(at)) == Some((u, Admin))
    ensures IsAdmin(cfg, s.log, By(u, c, at))
  {
    hide Rooted, Before, Stamp, CurrentUser, Faithful;
    AdmittedIsVisitor(s, c, at);
    var k := RoleIndex(s.log, u).value;
    assert Rooted(cfg, s.log[..k + 1]);
  }

  lemma GateAdmits(cfg: Config, log: Log, act: Action, why: Approver)
    requires why.By? && IsAdmin(cfg, log, why)
    ensures Admits(cfg, log + [Admitted(why.admin, Admin, why.cookie, act, why.at)], act, why)
  {
    hide IsAdmin;
    var more := log + [Admitted(why.admin, Admin, why.cookie, act, why.at)];
    assert more[..|log|] == log && AdmittedAs(more[|log|], act, why);
  }

  /** The event a step reports is rooted in what came before it. */
  lemma EventJustified(cfg: Config, log: Log, t: Task, i: Input, e: Event)
    requires Entitled(cfg, log, t) && EventFits(t, i, Some(e))
    requires e.Created? && e.why.Bootstrap? ==> IsAdminEmail(cfg, e.email)
    ensures Justified(cfg, log, e)
  {
    hide Admits, Bootstrapped, IsAdminEmail;
  }

  lemma EventRooted(cfg: Config, log: Log, t: Task, i: Input, e: Option<Event>)
    requires Entitled(cfg, log, t) && EventFits(t, i, e) && Rooted(cfg, log)
    requires e.Some? && e.value.Created? && e.value.why.Bootstrap? ==> IsAdminEmail(cfg, e.value.email)
    ensures Rooted(cfg, log + Logged(e))
  {
    hide Entitled, EventFits, Justified, IsAdminEmail;
    NoEvent(log);
    if e.Some? {
      EventJustified(cfg, log, t, i, e.value);
      assert (log + [e.value])[..|log|] == log;
    }
  }

  lemma NextEntitled(cfg: Config, s: Sys, t: Task, i: Input, o: Outcome)
    requires Faithful(s) && AllRooted(cfg, s.log) && Entitled(cfg, s.log, t)
    requires EventFits(t, i, o.event) && NextFits(cfg, s.db, t, i, o)
    requires o.event.Some? && o.event.value.Created? && o.event.value.why.Bootstrap? ==> IsAdminEmail(cfg, o.event.value.email)
    ensures o.next.Some? ==> Entitled(cfg, s.log + Logged(o.event), o.next.value)
  {
    hide Faithful, AllRooted, Admits, Bootstrapped, IsAdminEmail, Stamp, CurrentUser, LoginNext, SettingsNext, SetupOpen, ResetOpen,
      ResetPending;
    var log := s.log + Logged(o.event);
    EntitledStays(cfg, s.log, Logged(o.event), t);
    if o.next.Some? {
      match t
      case Gated(Gate0(c, act)) => GateEntitles(cfg, s, c, act, i, o);
      case LoggingIn(l) => ElsewhereNothing(cfg, s.db, t, i, o);
      case Settings(q) => ElsewhereNothing(cfg, s.db, t, i, o);
      case Registering(Approve1(g, row, why)) =>
        if why.Bootstrap? {
          CreationBootstraps(cfg, s.log, o.event.value);
        }
      case _ =>
    }
  }

  lemma ElsewhereNothing(cfg: Config, db: Db, t: Task, i: Input, o: Outcome)
    requires NextFits(cfg, db, t, i, o) && o.next.Some? && (t.LoggingIn? || t.Settings?)
    ensures Pursues(o.next.value).None? && !o.next.value.Registering?
  {
    hide Stamp, KeysOf, FrejaKnown, EmailTaken, UserNamed, HasFrejaEmail;
  }

  lemma CreationBootstraps(cfg: Config, log: Log, e: Event)
    requires BootstrapEvent(cfg, e)
    ensures Bootstrapped(cfg, log + [e], e.user)
  {
    assert (log + [e])[|log|] == e;
  }

  lemma GateEntitles(cfg: Config, s: Sys, c: Id, act: Action, i: Input, o: Outcome)
    requires Faithful(s) && AllRooted(cfg, s.log)
    requires o.next.Some? && GateNext(s.db, Gate0(c, act), i, o.event, o.next.value)
    ensures Entitled(cfg, s.log + Logged(o.event), o.next.value)
  {
    hide Faithful, AllRooted, Admits, IsAdmin, Stamp, CurrentUser;
    var u, role :| && CurrentUser(s.db, c, Stamp(i.now)) == Some((u, role))
                   && o.event == Some(Admitted(u, role, c, act, i.now))
                   && o.next.value == Gated(Gate1(c, u, role, act, i.now));
    if role == Admin {
      VisitorIsAdmin(cfg, s, c, i.now, u);
      GateAdmits(cfg, s.log, act, By(u, c, i.now));
    }
  }

  ghost predicate Traced(cfg: Config, s: Sys) {
    AllRooted(cfg, s.log) && forall p :: p in s.pool ==> Entitled(cfg, s.log, s.pool[p])
  }

  lemma StepKeepsTraces(cfg: Config, s: Sys, pid: nat, i: Input, o: Outcome)
    requires Traced(cfg, s) && Faithful(s) && Accounted(cfg, s) && pid in s.pool && Effect(cfg, s.db, s.pool[pid], i, o)
    requires EventFits(s.pool[pid], i, o.event) && NextFits(cfg, s.db, s.pool[pid], i, o)
    ensures Traced(cfg, After(s, pid, o))
  {
    hide Effect, EventFits, NextFits, Entitled, Rooted, Faithful, Accounted;
    var t := s.pool[pid];
    if o.event.Some? && o.event.value.Created? {
      CreationStep(cfg, s, pid, i, o);
    }
    assert s.log[..|s.log|] == s.log;
    EventRooted(cfg, s.log, t, i, o.event);
    AllRootedGrows(cfg, s.log, o.event);
    NextEntitled(cfg, s, t, i, o);
    forall p | p in s.pool ensures Entitled(cfg, s.log + Logged(o.event), s.pool[p]) {
      EntitledStays(cfg, s.log, Logged(o.event), s.pool[p]);
    }
  }

  lemma ArrivalEntitled(cfg: Config, log: Log, t: Task)
    requires IsRequest(t)
    ensures Entitled(cfg, log, t)
  {
  }

  lemma {:induction false} TracedAlways(cfg: Config, moves: seq<Move>)
    ensures Traced(cfg, Execute(cfg, moves))
  {
    if moves != [] {
      hide Step, Effect, Entitled, Rooted, Faithful, Accounted, EventFits, NextFits;
      var s, m := Execute(cfg, moves[..|moves| - 1]), moves[|moves| - 1];
      TracedAlways(cfg, moves[..|moves| - 1]);
      FaithfulAlways(cfg, moves[..|moves| - 1]);
      BackedAlways(cfg, moves[..|moves| - 1]);
      if m.Run? && m.pid in s.pool {
        StepEffect(cfg, s.db, s.pool[m.pid], m.input);
        StepTells(cfg, s.db, s.pool[m.pid], m.input);
        StepKeepsTraces(cfg, s, m.pid, m.input, Step(cfg, s.db, s.pool[m.pid], m.input));
      } else if m.Arrive? && IsRequest(m.task) {
        ArrivalEntitled(cfg, s.log, m.task);
      }
    }
  }

  // ----------------------------------------------------------------- theorems

  /**
   * Every account, and everything decided on the admin pages (approvals, rejections, bans, roles, resets approved or
   * denied), comes from an ADMIN_EMAIL address or from a request that GetSession admitted for exactly that:
   * its cookie was then that of an unexpired session of an unbanned account holding role admin, and that role was
   * granted earlier by the same rule.
   */
  lemma EveryGrantIsRooted(cfg: Config, moves: seq<Move>, k: nat)
    requires k <= |Execute(cfg, moves).log|
    ensures Rooted(cfg, Execute(cfg, moves).log[..k])
  {
    hide Step, Rooted, Entitled;
    TracedAlways(cfg, moves);
  }

  predicate Authoritative(e: Event) {
    DecisionOf(e).Some?
  }

  /** A decision rests on an earlier one that made its admin an admin, or on the ADMIN_EMAIL list. */
  lemma DecisionRests(cfg: Config, before: Log, e: Event)
    requires Justified(cfg, before, e) && Authoritative(e)
    ensures e.why.By? ==> exists n :: 0 < n <= |before| && Authoritative(before[n - 1]) && Rooted(cfg, before[..n])
    ensures e.why.Bootstrap? ==> BootstrapEvent(cfg, e) || exists j :: 0 <= j < |before| && BootstrapEvent(cfg, before[j])
  {
    hide Rooted, IsAdminEmail;
    if e.why.By? {
      AdmitsChain(cfg, before, DecisionOf(e).value.0, e.why);
    }
  }

  lemma RootedJustified(cfg: Config, log: Log)
    requires log != [] && Rooted(cfg, log)
    ensures Justified(cfg, log[..|log| - 1], log[|log| - 1])
  {
    hide Justified;
  }

  /** Following the chain down always ends at an ADMIN_EMAIL account. */
  lemma {:induction false} ChainEnds(cfg: Config, log: Log)
    requires log != [] && Rooted(cfg, log) && Authoritative(log[|log| - 1])
    ensures exists j :: 0 <= j < |log| && BootstrapEvent(cfg, log[j])
    decreases |log|
  {
    hide BootstrapEvent, Rooted, Justified;
    var before, e := log[..|log| - 1], log[|log| - 1];
    RootedJustified(cfg, log);
    DecisionRests(cfg, before, e);
    if e.why.By? {
      var n :| 0 < n <= |before| && Authoritative(before[n - 1]) && Rooted(cfg, before[..n]);
      assert before[..n] == log[..n] && log[..n][n - 1] == before[n - 1];
      ChainEnds(cfg, log[..n]);
      var j :| 0 <= j < n && BootstrapEvent(cfg, log[..n][j]);
      assert log[j] == log[..n][j];
    } else if j :| 0 <= j < |before| && BootstrapEvent(cfg, before[j]) {
      assert log[j] == before[j];
    } else {
      assert BootstrapEvent(cfg, log[|log| - 1]);
    }
  }

  lemma AdmitsChain(cfg: Config, log: Log, act: Action, why: Approver)
    requires Admits(cfg, log, act, why)
    ensures exists n :: 0 < n <= |log| && Authoritative(log[n - 1]) && Rooted(cfg, log[..n])
  {
    hide Rooted;
    var m :| 0 <= m < |log| && AdmittedAs(log[m], act, why) && IsAdmin(cfg, log[..m], why);
    var n := RoleIndex(log[..m], why.admin).value + 1;
    assert log[..m][..n] == log[..n] && Authoritative(log[n - 1]) && Rooted(cfg, log[..n]);
  }

  /** With an empty ADMIN_EMAIL list no account ever exists, whatever requests arrive. */
  lemma NoBootstrapNoAccounts(cfg: Config, moves: seq<Move>, u: Id)
    requires cfg.adminEmails == []
    ensures u !in Execute(cfg, moves).db.users
  {
    hide Step, Rooted;
    var s := Execute(cfg, moves);
    FaithfulAlways(cfg, moves);
    assert ToldOf(s.log, s.db.users, u);
    if RoleIndex(s.log, u).Some? {
      var k := RoleIndex(s.log, u).value;
      EveryGrantIsRooted(cfg, moves, k + 1);
      ChainEnds(cfg, s.log[..k + 1]);
    }
  }
}
