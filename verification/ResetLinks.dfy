/** Reset requests answer as the event history would; so a mailed reset link opens exactly while it should. */
module ResetLinks {
  import opened Basics
  import opened Text
  import opened Timestamps
  import opened Tables
  import opened Requests
  import opened Runs
  import opened Effects
  import opened Steps
  import opened History
  import opened Sessions
  import opened Integrity
  import Resets

  // ------------------------------------------------------------------ history

  function RequestOf(log: Log, r: Id): (f: Option<Event>)
    ensures f.Some? ==> f.value.ResetFiled? && f.value.reset == r
  {
    if log == [] then None
    else if log[|log| - 1].ResetFiled? && log[|log| - 1].reset == r then Some(log[|log| - 1])
    else RequestOf(log[..|log| - 1], r)
  }

  function ApprovalOf(log: Log, r: Id): (a: Option<Event>)
    ensures a.Some? ==> a.value.ResetApproved? && a.value.reset == r
  {
    if log == [] then None
    else if log[|log| - 1].ResetApproved? && log[|log| - 1].reset == r then Some(log[|log| - 1])
    else ApprovalOf(log[..|log| - 1], r)
  }

  /** What the latest decision or completion says. */
  function ResetStatusNow(log: Log, r: Id): Status {
    if log == [] then Pending
    else
      var e := log[|log| - 1];
      if e.ResetApproved? && e.reset == r then Approved
      else if e.ResetDenied? && e.reset == r then Rejected
      else if e.ResetCompleted? && e.reset == r then Completed
      else ResetStatusNow(log[..|log| - 1], r)
  }

  /** The link was mailed with the approval less than two days ago, and the reset has not been completed. */
  predicate LinkGood(log: Log, r: Id, token: Id, provider: Provider, t: nat) {
    && RequestOf(log, r).Some? && RequestOf(log, r).value.provider == provider
    && ApprovalOf(log, r).Some? && ApprovalOf(log, r).value.token == token
    && t < ApprovalOf(log, r).value.at / NANOS * NANOS + 48 * HOUR && ResetStatusNow(log, r) == Approved
  }

  lemma ResetAppended(log: Log, e: Option<Event>, r: Id)
    ensures RequestOf(log + Logged(e), r) == if e.Some? && e.value.ResetFiled? && e.value.reset == r then e else RequestOf(log, r)
    ensures ApprovalOf(log + Logged(e), r) == if e.Some? && e.value.ResetApproved? && e.value.reset == r then e else ApprovalOf(log, r)
    ensures ResetStatusNow(log + Logged(e), r)
            == if e.Some? && e.value.ResetApproved? && e.value.reset == r then Approved
               else if e.Some? && e.value.ResetDenied? && e.value.reset == r then Rejected
               else if e.Some? && e.value.ResetCompleted? && e.value.reset == r then Completed
               else ResetStatusNow(log, r)
  {
    NoEvent(log);
    if e.Some? {
      assert (log + [e.value])[..|log|] == log;
    }
  }

  // --------------------------------------------------------------------- rows

  ghost predicate RequestTold(log: Log, m: map<Id, Reset>, r: Id) {
    match RequestOf(log, r)
    case None => r !in m && ApprovalOf(log, r).None? && ResetStatusNow(log, r) == Pending
    case Some(f) =>
      && r in m && m[r].user == f.user && m[r].provider == f.provider && m[r].status == ResetStatusNow(log, r)
      && match ApprovalOf(log, r)
         case None => m[r].setup.None?
         case Some(a) => m[r].setup == Some(Grant(a.token, Stamp(a.at + 48 * HOUR)))
  }

  /** What a step makes of one row, and what it reports of that. */
  ghost predicate RequestMoved(m: map<Id, Reset>, m': map<Id, Reset>, e: Option<Event>, r: Id) {
    if r !in m then
      && !(e.Some? && (e.value.ResetApproved? || e.value.ResetDenied? || e.value.ResetCompleted?) && e.value.reset == r)
      && if e.Some? && e.value.ResetFiled? && e.value.reset == r
         then r in m' && m'[r] == Reset(e.value.user, e.value.provider, None, Pending) else r !in m'
    else
      && r in m' && m'[r].user == m[r].user && m'[r].provider == m[r].provider
      && !(e.Some? && e.value.ResetFiled? && e.value.reset == r)
      && m'[r].setup == (if e.Some? && e.value.ResetApproved? && e.value.reset == r
                         then Some(Grant(e.value.token, Stamp(e.value.at + 48 * HOUR))) else m[r].setup)
      && m'[r].status == if e.Some? && e.value.ResetApproved? && e.value.reset == r then Approved
                         else if e.Some? && e.value.ResetDenied? && e.value.reset == r then Rejected
                         else if e.Some? && e.value.ResetCompleted? && e.value.reset == r then Completed
                         else m[r].status
  }

  lemma RequestMoves(m: map<Id, Reset>, m': map<Id, Reset>, t: Task, i: Input, e: Option<Event>, r: Id)
    requires ResetsMove(m, m', t, i, e) && EventFits(t, i, e)
    requires e.Some? && e.value.ResetCompleted? ==> e.value.reset in m
    ensures RequestMoved(m, m', e, r)
  {
    hide Stamp;
  }

  lemma RequestStaysTold(log: Log, m: map<Id, Reset>, m': map<Id, Reset>, e: Option<Event>, r: Id)
    requires RequestTold(log, m, r) && RequestMoved(m, m', e, r)
    ensures RequestTold(log + Logged(e), m', r)
  {
    hide Stamp, RequestOf, ApprovalOf, ResetStatusNow;
    ResetAppended(log, e, r);
  }

  lemma FinisherFindsRow(cfg: Config, moves: seq<Move>, pid: nat, i: Input)
    requires pid in Execute(cfg, moves).pool
    ensures var s := Execute(cfg, moves);
            var e := Step(cfg, s.db, s.pool[pid], i).event;
            e.Some? && e.value.ResetCompleted? ==> e.value.reset in s.db.resets
  {
    hide Execute, Step, NextFits, Resets.Approving, Resets.Decided, Resets.RowsApproved, Resets.AllUsesApproved;
    var s := Execute(cfg, moves);
    Resets.OrderlyAlways(cfg, moves);
    StepTells(cfg, s.db, s.pool[pid], i);
    assert Resets.Remembers(s.log, s.db.resets, s.pool[pid]);
  }

  lemma {:induction false} RequestToldAlways(cfg: Config, moves: seq<Move>, r: Id)
    ensures RequestTold(Execute(cfg, moves).log, Execute(cfg, moves).db.resets, r)
  {
    if moves != [] {
      hide Step, RequestTold, RequestMoved, ResetsMove, EventFits, NextFits;
      var before, m := moves[..|moves| - 1], moves[|moves| - 1];
      var s := Execute(cfg, before);
      RequestToldAlways(cfg, before, r);
      if m.Run? && m.pid in s.pool {
        var t := s.pool[m.pid];
        var o := Step(cfg, s.db, t, m.input);
        StepResets(cfg, s.db, t, m.input);
        StepTells(cfg, s.db, t, m.input);
        FinisherFindsRow(cfg, before, m.pid, m.input);
        RequestMoves(s.db.resets, o.db.resets, t, m.input, o.event, r);
        RequestStaysTold(s.log, s.db.resets, o.db.resets, o.event, r);
      }
    }
  }

  lemma TwoDaysOld(at: Instant, t: Instant)
    ensures Before(Stamp(t), Stamp(at + 48 * HOUR)) <==> t < at / NANOS * NANOS + 48 * HOUR
  {
    hide Before, Stamp;
    Lifetime(at, 48 * HOUR, t);
  }

  lemma LinkToldExactly(log: Log, db: Db, r: Id, token: Id, provider: Provider, t: Instant)
    requires RequestTold(log, db.resets, r) && ForeignKeys(db)
    ensures ResetOpen(db, r, token, Stamp(t), provider) <==> LinkGood(log, r, token, provider, t)
  {
    hide Before, Stamp, RequestOf, ApprovalOf, ResetStatusNow;
    if ApprovalOf(log, r).Some? {
      TwoDaysOld(ApprovalOf(log, r).value.at, t);
    }
  }

  lemma ReachedLinks(cfg: Config, moves: seq<Move>, r: Id, token: Id, provider: Provider, t: Instant)
    ensures var s := Execute(cfg, moves);
            && (ResetOpen(s.db, r, token, Stamp(t), provider) <==> LinkGood(s.log, r, token, provider, t))
            && (LinkGood(s.log, r, token, provider, t) ==>
                  && r in s.db.resets && RequestOf(s.log, r).Some? && s.db.resets[r].user == RequestOf(s.log, r).value.user
                  && s.db.resets[r].user in s.db.users
                  && NameNow(s.log, s.db.resets[r].user) == Some(s.db.users[s.db.resets[r].user].username))
  {
    hide Execute, Stamp, Before, RequestOf, ApprovalOf, ResetStatusNow, UniqueRegistrations, UniqueResetTokens, Tracked;
    var s := Execute(cfg, moves);
    RequestToldAlways(cfg, moves, r);
    SchemaAlways(cfg, moves);
    FaithfulAlways(cfg, moves);
    LinkToldExactly(s.log, s.db, r, token, provider, t);
    if r in s.db.resets {
      assert ToldOf(s.log, s.db.users, s.db.resets[r].user);
    }
  }

  // ------------------------------------------------------------------ theorems

  /** A passkey reset link opens, at either step of the ceremony, exactly while the history has it good. */
  lemma PasskeyLinkExactly(cfg: Config, moves: seq<Move>, r: Id, token: Id, i: Input)
    requires i.row == Some(r)
    ensures var s := Execute(cfg, moves);
            var good := LinkGood(s.log, r, token, ViaPasskey, i.now);
            && Step(cfg, s.db, Resetting(BeginReset0(token)), i).next
               == (if good then Some(Resetting(BeginReset1(RequestOf(s.log, r).value.user))) else Some(Resetting(BeginReset0(token))))
            && Step(cfg, s.db, Resetting(FinishReset0(token)), i).next
               == (if good then Some(Resetting(FinishReset1(r, RequestOf(s.log, r).value.user, i.now)))
                   else Some(Resetting(FinishReset0(token))))
  {
    hide Execute, Stamp, ResetOpen, LinkGood, RequestOf;
    ReachedLinks(cfg, moves, r, token, ViaPasskey, i.now);
  }

  /** A Freja reset goes on exactly while its link is good and Freja reports the account's present name, up to case. */
  lemma FrejaLinkExactly(cfg: Config, moves: seq<Move>, r: Id, token: Id, email: string, subject: string, i: Input)
    requires i.row == Some(r)
    ensures var s := Execute(cfg, moves);
            var o := Step(cfg, s.db, Resetting(ResetFreja0(token, email, subject)), i);
            if email != "" && LinkGood(s.log, r, token, ViaFreja, i.now)
               && NameNow(s.log, RequestOf(s.log, r).value.user).Some?
               && SameUpToCase(email, NameNow(s.log, RequestOf(s.log, r).value.user).value)
            then o.next == Some(Resetting(ResetFreja1(r, RequestOf(s.log, r).value.user, email, subject, i.now)))
            else o.event.None? && (o.next.Some? ==> o.next == Some(Resetting(ResetFreja0(token, email, subject))))
  {
    hide Execute, Stamp, ResetOpen, LinkGood, RequestOf, NameNow, EqualFold, SameUpToCase;
    var s := Execute(cfg, moves);
    ReachedLinks(cfg, moves, r, token, ViaFreja, i.now);
    if LinkGood(s.log, r, token, ViaFreja, i.now) {
      EqualFoldExactly(email, s.db.users[s.db.resets[r].user].username);
    }
  }
}
