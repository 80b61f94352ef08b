/** The life of a credential reset request, statement by statement, and where reset passkeys come from. */
module Resets {
  import opened Basics
  import opened Text
  import opened Timestamps
  import opened Tables
  import opened Requests
  import opened Runs
  import opened Effects
  import opened Steps
  import opened History
  import opened Provenance

  predicate Decided(s: Status) {
    s == Approved || s == Completed
  }

  /** pending -> approved -> completed, pending -> rejected. */
  predicate Advances(s: Status, s': Status) {
    s' == s || (s == Pending && (s' == Approved || s' == Rejected)) || (s == Approved && s' == Completed)
  }

  /** The approval of `r` for `u` whose 48-hour token is unexpired at `began`. */
  ghost predicate Approval(e: Event, r: Id, u: Id, provider: Provider, began: Instant) {
    && e.ResetApproved? && e.reset == r && e.user == u && e.provider == provider
    && began < e.at / NANOS * NANOS + 48 * HOUR
  }

  ghost predicate Approving(log: Log, r: Id, u: Id, provider: Provider, began: Instant) {
    exists j :: 0 <= j < |log| && Approval(log[j], r, u, provider, began)
  }

  ghost predicate RowEvent(e: Event, r: Id, row: Reset) {
    && e.ResetApproved? && e.reset == r && e.user == row.user && e.provider == row.provider
    && row.setup.Some? && row.setup.value.expires == Stamp(e.at + 48 * HOUR)
  }

  /** An approved or completed row was approved, for its user and provider, 48 hours before its expiry. */
  ghost predicate RowApproved(log: Log, r: Id, row: Reset) {
    Decided(row.status) ==> exists j :: 0 <= j < |log| && RowEvent(log[j], r, row)
  }

  /** What a request that opened a reset link still knows. */
  ghost predicate Remembers(log: Log, m: map<Id, Reset>, t: Task) {
    match t
    case Resetting(FinishReset1(r, u, began)) => r in m && Decided(m[r].status) && Approving(log, r, u, ViaPasskey, began)
    case Resetting(FinishReset2(r, u, began)) => r in m && Decided(m[r].status) && Approving(log, r, u, ViaPasskey, began)
    case Resetting(FinishReset3(r)) => r in m && Decided(m[r].status)
    case Resetting(ResetFreja1(r, u, email, subject, began)) => r in m && Decided(m[r].status) && Approving(log, r, u, ViaFreja, began)
    case Resetting(ResetFreja2(r, u, began)) => r in m && Decided(m[r].status) && Approving(log, r, u, ViaFreja, began)
    case LoggingIn(EnterSession(u, ByReset(r, began))) => Approving(log, r, u, ViaFreja, began)
    case _ => true
  }

  /** What was reset, by which request, for which user, when its link was opened. */
  datatype Use = Use(reset: Id, user: Id, provider: Provider, began: Instant)

  /** The reset behind a new passkey, a new or confirmed Freja subject, or a session. */
  function UseOf(e: Event): Option<Use> {
    if e.KeyAdded? && e.via.Some? then Some(Use(e.via.value, e.user, ViaPasskey, e.at))
    else if e.SubjectReset? then Some(Use(e.reset, e.user, ViaFreja, e.began))
    else if e.SessionMade? && e.how.ByReset? then Some(Use(e.how.reset, e.user, ViaFreja, e.how.began))
    else None
  }

  ghost predicate Covered(log: Log, use: Option<Use>) {
    use.Some? ==> Approving(log, use.value.reset, use.value.user, use.value.provider, use.value.began)
  }

  /** What was reset last was preceded by the approval of that reset. */
  ghost predicate UseApproved(log: Log) {
    log == [] || Covered(log[..|log| - 1], UseOf(log[|log| - 1]))
  }

  // -------------------------------------------------------------------- steps

  lemma StatusAdvances(log: Log, m: map<Id, Reset>, m': map<Id, Reset>, t: Task, i: Input, e: Option<Event>, r: Id)
    requires ResetsMove(m, m', t, i, e) && Remembers(log, m, t) && r in m
    ensures r in m' && Advances(m[r].status, m'[r].status) && m'[r].user == m[r].user && m'[r].provider == m[r].provider
    ensures Decided(m[r].status) ==> m'[r].setup == m[r].setup
  {
    hide Stamp, Approving;
  }

  lemma ApprovingStays(log: Log, more: Log, r: Id, u: Id, provider: Provider, began: Instant)
    requires Approving(log, r, u, provider, began)
    ensures Approving(log + more, r, u, provider, began)
  {
    var j :| 0 <= j < |log| && Approval(log[j], r, u, provider, began);
    assert (log + more)[j] == log[j];
  }

  lemma RowEventStays(log: Log, more: Log, r: Id, row: Reset, row': Reset)
    requires RowApproved(log, r, row) && Decided(row.status)
    requires row'.user == row.user && row'.provider == row.provider && row'.setup == row.setup
    ensures RowApproved(log + more, r, row')
  {
    hide Stamp;
    var j :| 0 <= j < |log| && RowEvent(log[j], r, row);
    assert (log + more)[j] == log[j];
  }

  lemma RowStaysApproved(log: Log, m: map<Id, Reset>, m': map<Id, Reset>, t: Task, i: Input, e: Option<Event>, r: Id)
    requires ResetsMove(m, m', t, i, e) && Remembers(log, m, t) && r in m'
    requires r in m ==> RowApproved(log, r, m[r])
    ensures RowApproved(log + Logged(e), r, m'[r])
  {
    hide Stamp, Approving, RowApproved;
    if r in m && Decided(m[r].status) {
      StatusAdvances(log, m, m', t, i, e, r);
      RowEventStays(log, Logged(e), r, m[r], m'[r]);
    } else if Decided(m'[r].status) {
      assert t.Resetting? && t.q.GrantReset1? && t.q.reset == r && GrantedReset(m, m', r, t.q.why, i, e);
      assert RowEvent((log + Logged(e))[|log|], r, m'[r]);
      GrantApproves(log, e, r, m'[r]);
    } else {
      UndecidedApproved(log + Logged(e), r, m'[r]);
    }
  }

  lemma GrantApproves(log: Log, e: Option<Event>, r: Id, row: Reset)
    requires e.Some? && RowEvent(e.value, r, row)
    ensures RowApproved(log + Logged(e), r, row)
  {
    hide RowEvent;
    assert (log + Logged(e))[|log|] == e.value;
  }

  lemma UndecidedApproved(log: Log, r: Id, row: Reset)
    requires !Decided(row.status)
    ensures RowApproved(log, r, row)
  {
  }

  lemma RemembersStays(log: Log, m: map<Id, Reset>, m': map<Id, Reset>, t: Task, i: Input, e: Option<Event>, x: Task)
    requires ResetsMove(m, m', t, i, e) && Remembers(log, m, t) && Remembers(log, m, x)
    ensures Remembers(log + Logged(e), m', x)
  {
    hide ResetsMove, Approving;
    match x
    case Resetting(FinishReset1(r, u, began)) =>
      StatusAdvances(log, m, m', t, i, e, r);
      ApprovingStays(log, Logged(e), r, u, ViaPasskey, began);
    case Resetting(FinishReset2(r, u, began)) =>
      StatusAdvances(log, m, m', t, i, e, r);
      ApprovingStays(log, Logged(e), r, u, ViaPasskey, began);
    case Resetting(FinishReset3(r)) => StatusAdvances(log, m, m', t, i, e, r);
    case Resetting(ResetFreja1(r, u, email, subject, began)) =>
      StatusAdvances(log, m, m', t, i, e, r);
      ApprovingStays(log, Logged(e), r, u, ViaFreja, began);
    case Resetting(ResetFreja2(r, u, began)) =>
      StatusAdvances(log, m, m', t, i, e, r);
      ApprovingStays(log, Logged(e), r, u, ViaFreja, began);
    case LoggingIn(EnterSession(u, ByReset(r, began))) => ApprovingStays(log, Logged(e), r, u, ViaFreja, began);
    case _ =>
  }

  /** Opening a link: the approved row's expiry places the reading before approval + 48 h. */
  lemma LinkIsFresh(db: Db, log: Log, r: Id, token: Id, provider: Provider, began: Instant)
    requires ResetOpen(db, r, token, Stamp(began), provider) && RowApproved(log, r, db.resets[r])
    ensures Approving(log, r, db.resets[r].user, provider, began)
  {
    hide Stamp, Before;
    var j :| 0 <= j < |log| && RowEvent(log[j], r, db.resets[r]);
    Lifetime(log[j].at, 48 * HOUR, began);
    assert Approval(log[j], r, db.resets[r].user, provider, began);
  }

  ghost predicate RowsApproved(log: Log, m: map<Id, Reset>) {
    forall r :: r in m ==> RowApproved(log, r, m[r])
  }

  lemma ElsewhereRemembers(cfg: Config, db: Db, log: Log, m: map<Id, Reset>, t: Task, i: Input, o: Outcome)
    requires NextFits(cfg, db, t, i, o) && o.next.Some? && !t.Resetting?
    ensures Remembers(log, m, o.next.value)
  {
    hide Approving, Stamp, IsAdminEmail, CurrentUser, KeysOf, FrejaKnown, EmailTaken, UserNamed, HasFrejaEmail, SetupOpen;
  }

  lemma NextRemembers(cfg: Config, db: Db, log: Log, t: Task, i: Input, o: Outcome)
    requires NextFits(cfg, db, t, i, o) && ResetsMove(db.resets, o.db.resets, t, i, o.event)
    requires Remembers(log, db.resets, t) && RowsApproved(log, db.resets)
    ensures o.next.Some? ==> Remembers(log + Logged(o.event), o.db.resets, o.next.value)
  {
    hide Approving, RowApproved, Stamp, Before, EqualFold, RegistrationNext, LoginNext, SettingsNext, GateNext, GrantedReset;
    var more := Logged(o.event);
    if o.next.Some? && !t.Resetting? {
      ElsewhereRemembers(cfg, db, log + more, o.db.resets, t, i, o);
    } else if o.next.Some? {
      match t
      case Resetting(FinishReset0(token)) =>
        if o.next.value != t {
          var r :| ResetOpen(db, r, token, Stamp(i.now), ViaPasskey)
                   && o.next.value == Resetting(FinishReset1(r, db.resets[r].user, i.now));
          LinkIsFresh(db, log, r, token, ViaPasskey, i.now);
          ApprovingStays(log, more, r, db.resets[r].user, ViaPasskey, i.now);
        }
      case Resetting(FinishReset1(r, u, began)) => ApprovingStays(log, more, r, u, ViaPasskey, began);
      case Resetting(ResetFreja0(token, email, subject)) =>
        if o.next.value != t {
          var r :| ResetOpen(db, r, token, Stamp(i.now), ViaFreja)
                   && o.next.value == Resetting(ResetFreja1(r, db.resets[r].user, email, subject, i.now));
          LinkIsFresh(db, log, r, token, ViaFreja, i.now);
          ApprovingStays(log, more, r, db.resets[r].user, ViaFreja, i.now);
        }
      case Resetting(ResetFreja1(r, u, email, subject, began)) => ApprovingStays(log, more, r, u, ViaFreja, began);
      case Resetting(ResetFreja2(r, u, began)) => ApprovingStays(log, more, r, u, ViaFreja, began);
      case _ =>
    }
  }

  lemma EventApproved(log: Log, m: map<Id, Reset>, t: Task, i: Input, e: Option<Event>)
    requires EventFits(t, i, e) && Remembers(log, m, t) && UseApproved(log)
    ensures UseApproved(log + Logged(e))
  {
    hide Covered, UseOf, EventFits, Remembers;
    NoEvent(log);
    if e.Some? {
      EventCovered(log, m, t, i, e.value);
      assert (log + [e.value])[..|log|] == log;
    }
  }

  lemma EventCovered(log: Log, m: map<Id, Reset>, t: Task, i: Input, e: Event)
    requires EventFits(t, i, Some(e)) && Remembers(log, m, t)
    ensures Covered(log, UseOf(e))
  {
    hide Approving;
  }

  // --------------------------------------------------------------------- runs

  ghost predicate AllUsesApproved(log: Log) {
    forall k :: 0 <= k <= |log| ==> UseApproved(log[..k])
  }

  ghost predicate Orderly(s: Sys) {
    && RowsApproved(s.log, s.db.resets) && AllUsesApproved(s.log)
    && forall p :: p in s.pool ==> Remembers(s.log, s.db.resets, s.pool[p])
  }

  lemma UsesStayApproved(log: Log, e: Option<Event>)
    requires AllUsesApproved(log) && UseApproved(log + Logged(e))
    ensures AllUsesApproved(log + Logged(e))
  {
    hide UseApproved;
    var all := log + Logged(e);
    forall k | 0 <= k <= |all| ensures UseApproved(all[..k]) {
      if k <= |log| {
        assert all[..k] == log[..k];
      } else {
        assert all[..k] == all;
      }
    }
  }

  lemma StepKeepsOrder(cfg: Config, s: Sys, pid: nat, i: Input)
    requires Orderly(s) && pid in s.pool
    ensures Orderly(After(s, pid, Step(cfg, s.db, s.pool[pid], i)))
  {
    hide Step, ResetsMove, EventFits, NextFits, Remembers, RowApproved, UseApproved;
    var t := s.pool[pid];
    var o := Step(cfg, s.db, t, i);
    StepResets(cfg, s.db, t, i);
    StepTells(cfg, s.db, t, i);
    assert s.log[..|s.log|] == s.log;
    EventApproved(s.log, s.db.resets, t, i, o.event);
    UsesStayApproved(s.log, o.event);
    NextRemembers(cfg, s.db, s.log, t, i, o);
    forall r | r in o.db.resets ensures RowApproved(s.log + Logged(o.event), r, o.db.resets[r]) {
      RowStaysApproved(s.log, s.db.resets, o.db.resets, t, i, o.event, r);
    }
    forall p | p in s.pool ensures Remembers(s.log + Logged(o.event), o.db.resets, s.pool[p]) {
      RemembersStays(s.log, s.db.resets, o.db.resets, t, i, o.event, s.pool[p]);
    }
  }

  lemma ArrivalRemembers(log: Log, m: map<Id, Reset>, t: Task)
    requires IsRequest(t)
    ensures Remembers(log, m, t)
  {
  }

  lemma {:induction false} OrderlyAlways(cfg: Config, moves: seq<Move>)
    ensures Orderly(Execute(cfg, moves))
  {
    if moves != [] {
      hide Step, Remembers, RowApproved, UseApproved;
      var s, m := Execute(cfg, moves[..|moves| - 1]), moves[|moves| - 1];
      OrderlyAlways(cfg, moves[..|moves| - 1]);
      if m.Run? && m.pid in s.pool {
        StepKeepsOrder(cfg, s, m.pid, m.input);
      } else if m.Arrive? && IsRequest(m.task) {
        ArrivalRemembers(s.log, s.db.resets, m.task);
      }
    }
  }

  /** At any interleaving, a request's status moves only pending to approved to completed, or pending to rejected. */
  lemma StatusOnlyAdvances(cfg: Config, moves: seq<Move>, m: Move, r: Id)
    requires r in Execute(cfg, moves).db.resets
    ensures r in Execute(cfg, moves + [m]).db.resets
            && Advances(Execute(cfg, moves).db.resets[r].status, Execute(cfg, moves + [m]).db.resets[r].status)
  {
    hide Execute, Step, RowsApproved, AllUsesApproved, ResetsMove;
    var s := Execute(cfg, moves);
    ExecuteOneMore(cfg, moves, m);
    if m.Run? && m.pid in s.pool {
      OrderlyAlways(cfg, moves);
      StepResets(cfg, s.db, s.pool[m.pid], m.input);
      var o := Step(cfg, s.db, s.pool[m.pid], m.input);
      StatusAdvances(s.log, s.db.resets, o.db.resets, s.pool[m.pid], m.input, o.event, r);
    }
  }

  /** The approval that `use` needs, made by an admin whom GetSession admitted for exactly that approval. */
  ghost predicate AdminApproved(cfg: Config, log: Log, use: Use) {
    exists j :: 0 <= j < |log| && Approval(log[j], use.reset, use.user, use.provider, use.began)
                && Admits(cfg, log[..j], GrantReset(use.reset), log[j].why)
  }

  /**
   * Every passkey added, every Freja subject bound and every session opened by a reset follows the approval of
   * that very request, for that user and kind of credential, less than 48 hours (from the approval's whole
   * second) before the link was used; and an admin gave that approval, admitted by GetSession for it.
   */
  lemma ResetsAreApproved(cfg: Config, moves: seq<Move>, k: nat)
    requires k < |Execute(cfg, moves).log| && UseOf(Execute(cfg, moves).log[k]).Some?
    ensures var log := Execute(cfg, moves).log; AdminApproved(cfg, log[..k], UseOf(log[k]).value)
  {
    hide Execute, RowsApproved, Remembers, Admits, UseOf;
    OrderlyAlways(cfg, moves);
    var log := Execute(cfg, moves).log;
    var use, before := UseOf(log[k]).value, log[..k];
    assert UseApproved(log[..k + 1]) && log[..k + 1][..k] == before;
    var j :| 0 <= j < |before| && Approval(before[j], use.reset, use.user, use.provider, use.began);
    EveryGrantIsRooted(cfg, moves, j + 1);
    assert log[..j + 1][..j] == before[..j] && log[..j + 1][j] == before[j];
    ApprovalJustified(cfg, log[..j + 1]);
  }

  lemma ApprovalJustified(cfg: Config, log: Log)
    requires log != [] && Rooted(cfg, log) && log[|log| - 1].ResetApproved?
    ensures Admits(cfg, log[..|log| - 1], GrantReset(log[|log| - 1].reset), log[|log| - 1].why)
  {
    hide Admits;
    assert Justified(cfg, log[..|log| - 1], log[|log| - 1]);
  }
}
