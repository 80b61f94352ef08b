/**
 * Registration rows answer as the event history would: what was filed, whether and when the address was verified,
 * and what was decided. So a mailed link works exactly while it should, and only for the address it was mailed to.
 */
module Registrations {
  import opened Basics
  import opened Text
  import opened Timestamps
  import opened Tables
  import opened Requests
  import opened Runs
  import opened Effects
  import opened Steps
  import opened PublicKeys
  import opened History
  import opened Accounts

  // ------------------------------------------------------------------ history

  function FilingOf(log: Log, g: Id): (f: Option<Event>)
    ensures f.Some? ==> f.value.Filed? && f.value.reg == g
  {
    if log == [] then None
    else if log[|log| - 1].Filed? && log[|log| - 1].reg == g then Some(log[|log| - 1])
    else FilingOf(log[..|log| - 1], g)
  }

  function VerificationOf(log: Log, g: Id): (v: Option<Event>)
    ensures v.Some? ==> v.value.AddressVerified? && v.value.reg == g
  {
    if log == [] then None
    else if log[|log| - 1].AddressVerified? && log[|log| - 1].reg == g then Some(log[|log| - 1])
    else VerificationOf(log[..|log| - 1], g)
  }

  /** What the latest decision says. */
  function StatusNow(log: Log, g: Id): Status {
    if log == [] then Pending
    else
      var e := log[|log| - 1];
      if e.Created? && e.reg == g then Completed
      else if e.RegistrationRejected? && e.reg == g then Rejected
      else StatusNow(log[..|log| - 1], g)
  }

  /** The verification link mailed for `g` carries this token, is unused, and younger than a day. */
  predicate MailGood(log: Log, g: Id, token: Id, t: nat) {
    && FilingOf(log, g).Some? && FilingOf(log, g).value.token == token && VerificationOf(log, g).None?
    && t < FilingOf(log, g).value.at / NANOS * NANOS + DAY
  }

  predicate SetupIssued(log: Log, g: Id, token: Id) {
    VerificationOf(log, g).Some? && VerificationOf(log, g).value.token == token
  }

  /** The address of `g` was verified with this setup token less than a day ago, and nothing has been decided. */
  predicate SetupGood(log: Log, g: Id, token: Id, t: nat) {
    && VerificationOf(log, g).Some? && VerificationOf(log, g).value.token == token
    && t < VerificationOf(log, g).value.at / NANOS * NANOS + DAY && StatusNow(log, g) == Pending
  }

  lemma SignupAppended(log: Log, e: Option<Event>, g: Id)
    ensures FilingOf(log + Logged(e), g) == if e.Some? && e.value.Filed? && e.value.reg == g then e else FilingOf(log, g)
    ensures VerificationOf(log + Logged(e), g)
            == if e.Some? && e.value.AddressVerified? && e.value.reg == g then e else VerificationOf(log, g)
    ensures StatusNow(log + Logged(e), g)
            == if e.Some? && e.value.Created? && e.value.reg == g then Completed
               else if e.Some? && e.value.RegistrationRejected? && e.value.reg == g then Rejected
               else StatusNow(log, g)
  {
    NoEvent(log);
    if e.Some? {
      assert (log + [e.value])[..|log|] == log;
    }
  }

  // --------------------------------------------------------------------- rows

  ghost predicate SignupTold(log: Log, m: map<Id, Registration>, g: Id) {
    match FilingOf(log, g)
    case None => g !in m && VerificationOf(log, g).None? && StatusNow(log, g) == Pending
    case Some(f) =>
      && g in m && m[g].email == f.address && m[g].emailToken == f.token && m[g].account == f.account
      && m[g].expires == Stamp(f.at + DAY) && m[g].status == StatusNow(log, g)
      && match VerificationOf(log, g)
         case None => !m[g].verified && m[g].setup.None?
         case Some(v) => m[g].verified && m[g].setup == Some(Grant(v.token, Stamp(v.at + DAY)))
  }

  /** What a step makes of one row, and what it reports of that. */
  ghost predicate SignupMoved(m: map<Id, Registration>, m': map<Id, Registration>, e: Option<Event>, g: Id) {
    if g !in m then
      && !(e.Some? && (e.value.AddressVerified? || e.value.Created? || e.value.RegistrationRejected?) && e.value.reg == g)
      && if e.Some? && e.value.Filed? && e.value.reg == g then
           && g in m' && m'[g].email == e.value.address && m'[g].emailToken == e.value.token && m'[g].account == e.value.account
           && m'[g].expires == Stamp(e.value.at + DAY) && m'[g].status == Pending && !m'[g].verified && m'[g].setup.None?
         else g !in m'
    else
      && g in m' && m'[g].email == m[g].email && m'[g].emailToken == m[g].emailToken && m'[g].account == m[g].account
      && m'[g].expires == m[g].expires && !(e.Some? && e.value.Filed? && e.value.reg == g)
      && (if e.Some? && e.value.AddressVerified? && e.value.reg == g
          then m'[g].verified && m'[g].setup == Some(Grant(e.value.token, Stamp(e.value.at + DAY)))
          else m'[g].verified == m[g].verified && m'[g].setup == m[g].setup)
      && m'[g].status == if e.Some? && e.value.Created? && e.value.reg == g then Completed
                         else if e.Some? && e.value.RegistrationRejected? && e.value.reg == g then Rejected
                         else m[g].status
  }

  lemma SignupMoves(m: map<Id, Registration>, m': map<Id, Registration>, t: Task, i: Input, e: Option<Event>, g: Id)
    requires RegistrationsMove(m, m', t, i, e) && EventFits(t, i, e)
    requires t.Registering? && t.r.Approve1? ==> t.r.reg in m
    ensures SignupMoved(m, m', e, g)
  {
    hide Stamp, Before, Park, RegistrationRegistrations, RegistrationEvent, SignupMoved;
    if t.Registering? {
      SignupMovesInTask(m, m', t.r, i, e, g);
    } else {
      OtherTasksMoveNoSignup(m, t, i, e, g);
    }
  }

  lemma SignupMovesInTask(m: map<Id, Registration>, m': map<Id, Registration>, t: RegistrationTask, i: Input, e: Option<Event>, g: Id)
    requires RegistrationRegistrations(m, m', t, i, e) && RegistrationEvent(t, i, e)
    requires t.Approve1? ==> t.reg in m
    ensures SignupMoved(m, m', e, g)
  {
    hide Stamp, Before, Park;
  }

  lemma OtherTasksMoveNoSignup(m: map<Id, Registration>, t: Task, i: Input, e: Option<Event>, g: Id)
    requires EventFits(t, i, e) && !t.Registering?
    ensures SignupMoved(m, m, e, g)
  {
    hide Stamp, Before, RegistrationEvent;
  }

  lemma SignupStaysTold(log: Log, m: map<Id, Registration>, m': map<Id, Registration>, t: Task, i: Input, e: Option<Event>, g: Id)
    requires SignupTold(log, m, g) && RegistrationsMove(m, m', t, i, e) && EventFits(t, i, e)
    requires t.Registering? && t.r.Approve1? ==> t.r.reg in m
    ensures SignupTold(log + Logged(e), m', g)
  {
    hide Stamp, FilingOf, VerificationOf, StatusNow, RegistrationsMove, EventFits;
    SignupMoves(m, m', t, i, e, g);
    SignupAppended(log, e, g);
  }

  lemma ApprovedExists(cfg: Config, moves: seq<Move>, pid: nat)
    requires pid in Execute(cfg, moves).pool
    ensures var s := Execute(cfg, moves);
            var t := s.pool[pid]; t.Registering? && t.r.Approve1? ==> t.r.reg in s.db.registrations
  {
    hide Execute, RowsSound, RowSound, Grows, IsAdminEmail;
    SoundAlways(cfg, moves);
    assert Knows(cfg, Execute(cfg, moves).db.registrations, Execute(cfg, moves).pool[pid]);
  }

  lemma {:induction false} SignupToldAlways(cfg: Config, moves: seq<Move>, g: Id)
    ensures SignupTold(Execute(cfg, moves).log, Execute(cfg, moves).db.registrations, g)
  {
    if moves != [] {
      hide Step, SignupTold, RegistrationsMove, EventFits, NextFits;
      var before, m := moves[..|moves| - 1], moves[|moves| - 1];
      var s := Execute(cfg, before);
      SignupToldAlways(cfg, before, g);
      if m.Run? && m.pid in s.pool {
        var t := s.pool[m.pid];
        var o := Step(cfg, s.db, t, m.input);
        StepRegistrations(cfg, s.db, t, m.input);
        StepTells(cfg, s.db, t, m.input);
        ApprovedExists(cfg, before, m.pid);
        SignupStaysTold(s.log, s.db.registrations, o.db.registrations, t, m.input, o.event, g);
      }
    }
  }

  lemma DayOld(at: Instant, t: Instant)
    ensures Before(Stamp(t), Stamp(at + DAY)) <==> t < at / NANOS * NANOS + DAY
  {
    hide Before, Stamp;
    Lifetime(at, DAY, t);
  }

  lemma SetupToldExactly(log: Log, db: Db, g: Id, token: Id, t: Instant)
    requires SignupTold(log, db.registrations, g)
    ensures SetupOpen(db, g, token, Stamp(t)) <==> SetupGood(log, g, token, t)
  {
    hide Before, Stamp, FilingOf, VerificationOf, StatusNow;
    if VerificationOf(log, g).Some? {
      DayOld(VerificationOf(log, g).value.at, t);
    }
  }

  lemma MailToldExactly(log: Log, db: Db, g: Id, token: Id, t: Instant)
    requires SignupTold(log, db.registrations, g)
    ensures Verifiable(db, g, token, Stamp(t)) <==> MailGood(log, g, token, t)
  {
    hide Before, Stamp, FilingOf, VerificationOf, StatusNow;
    if FilingOf(log, g).Some? {
      DayOld(FilingOf(log, g).value.at, t);
    }
  }

  // ----------------------------------------------------------------- theorems

  /** The setup link of `g` opens, for every handler that asks, exactly while the history has it good. */
  lemma SetupLinkExactly(cfg: Config, moves: seq<Move>, g: Id, token: Id, i: Input)
    requires i.row == Some(g)
    ensures var s := Execute(cfg, moves);
            var found := Some(SetupOpened(g, token, i.now));
            && (Step(cfg, s.db, Registering(BeginRegister0(token)), i).event == found <==> SetupGood(s.log, g, token, i.now))
            && (Step(cfg, s.db, Registering(FinishRegister0(token)), i).event == found <==> SetupGood(s.log, g, token, i.now))
  {
    hide Execute, SignupTold, SetupGood, SetupOpen, Stamp;
    SignupToldAlways(cfg, moves, g);
    SetupToldExactly(Execute(cfg, moves).log, Execute(cfg, moves).db, g, token, i.now);
  }

  /**
   * A Freja registration goes on exactly while the link is good and Freja reports the address that was filed, up to
   * case; and then it is the filed address that is registered.
   */
  lemma FrejaRegistersExactly(cfg: Config, moves: seq<Move>, g: Id, token: Id, email: string, subject: string, i: Input)
    requires i.row == Some(g)
    ensures var s := Execute(cfg, moves);
            var filed := FilingOf(s.log, g);
            var o := Step(cfg, s.db, Registering(FrejaRegister0(token, email, subject)), i);
            if email != "" && SetupGood(s.log, g, token, i.now) && filed.Some? && SameUpToCase(email, filed.value.address) then
              o.next == Some(Registering(FrejaRegister1(g, filed.value.address, subject, email)))
            else o.event.None? && (o.next.Some? ==> o.next == Some(Registering(FrejaRegister0(token, email, subject))))
  {
    hide Execute, SetupGood, SetupOpen, Stamp, EqualFold, SameUpToCase, FilingOf, VerificationOf, StatusNow;
    var s := Execute(cfg, moves);
    SignupToldAlways(cfg, moves, g);
    SetupToldExactly(s.log, s.db, g, token, i.now);
    SetupNeedsRow(s.db, g, token, Stamp(i.now));
    if g in s.db.registrations {
      EqualFoldExactly(email, s.db.registrations[g].email);
    }
  }

  lemma SetupNeedsRow(db: Db, g: Id, token: Id, now: string)
    ensures SetupOpen(db, g, token, now) ==> g in db.registrations
  {
    hide Before;
  }

  /** A verification link verifies exactly while the history has it good, unless the new setup token is already another's. */
  lemma VerifiesExactly(cfg: Config, moves: seq<Move>, g: Id, token: Id, i: Input)
    requires i.row == Some(g)
    ensures var s := Execute(cfg, moves);
            Step(cfg, s.db, Registering(Verify0(token)), i).event.Some?
            <==> && token != "" && MailGood(s.log, g, token, i.now)
                 && forall h :: h != g ==> !SetupIssued(s.log, h, i.token)
  {
    hide Execute, MailGood, Verifiable, Stamp, SetupIssued, HoldsSetup, SignupTold, VerifyStep;
    var s := Execute(cfg, moves);
    forall h ensures SignupTold(s.log, s.db.registrations, h) {
      SignupToldAlways(cfg, moves, h);
    }
    MailToldExactly(s.log, s.db, g, token, i.now);
    SetupTokens(s.log, s.db.registrations, i.token);
    VerifyStepExactly(s.db, g, token, i);
  }

  predicate HoldsSetup(m: map<Id, Registration>, h: Id, token: Id) {
    h in m && m[h].setup.Some? && m[h].setup.value.token == token
  }

  lemma SetupTokens(log: Log, m: map<Id, Registration>, token: Id)
    requires forall h :: SignupTold(log, m, h)
    ensures forall h :: HoldsSetup(m, h, token) <==> SetupIssued(log, h, token)
  {
    hide Stamp, FilingOf, VerificationOf, StatusNow;
    forall h ensures HoldsSetup(m, h, token) <==> SetupIssued(log, h, token) {
      assert SignupTold(log, m, h);
    }
  }

  lemma VerifyStepExactly(db: Db, g: Id, token: Id, i: Input)
    requires i.row == Some(g)
    ensures VerifyStep(db, token, i).event.Some?
            <==> Verifiable(db, g, token, Stamp(i.now)) && forall h :: h != g ==> !HoldsSetup(db.registrations, h, i.token)
  {
    hide Stamp, Before;
    if Verifiable(db, g, token, Stamp(i.now)) && VerifyEmail(db, g, i.token, i.now).None? {
      var h :| h in db.registrations && h != g && db.registrations[h].setup.Some? && db.registrations[h].setup.value.token == i.token;
      assert HoldsSetup(db.registrations, h, i.token);
    }
  }

  // ------------------------------------------------------------ what was submitted

  predicate LinkUsed(log: Log, g: Id) {
    exists k :: 0 <= k < |log| && log[k].SetupOpened? && log[k].reg == g
  }

  /** What is submitted for a registration comes through its link; a Freja subject comes with the filed address. */
  ghost predicate SubmittedWell(before: Log, e: Event) {
    match e
    case AddressVerified(g, token, at) => exists mailed :: MailGood(before, g, mailed, at)
    case SetupOpened(g, token, at) => SetupGood(before, g, token, at)
    case Parked(g, c) => LinkUsed(before, g)
    case SubjectSubmitted(g, subject, reported) =>
      LinkUsed(before, g) && FilingOf(before, g).Some? && SameUpToCase(reported, FilingOf(before, g).value.address)
    case _ => true
  }

  ghost predicate AllSubmittedWell(log: Log) {
    forall k :: 0 <= k < |log| ==> SubmittedWell(log[..k], log[k])
  }

  /** A request that opened the link knows it, and Freja's address was compared. */
  ghost predicate Opened(log: Log, t: Task) {
    match t
    case Registering(FinishRegister1(g, email)) => LinkUsed(log, g)
    case Registering(FrejaRegister1(g, email, subject, reported)) => LinkUsed(log, g) && SameUpToCase(reported, email)
    case _ => true
  }

  lemma LinkUsedStays(log: Log, more: Log, g: Id)
    requires LinkUsed(log, g)
    ensures LinkUsed(log + more, g)
  {
    var k :| 0 <= k < |log| && log[k].SetupOpened? && log[k].reg == g;
    assert (log + more)[k] == log[k];
  }

  lemma OpenedStays(log: Log, more: Log, t: Task)
    requires Opened(log, t)
    ensures Opened(log + more, t)
  {
    hide LinkUsed, SameUpToCase;
    if t.Registering? && (t.r.FinishRegister1? || t.r.FrejaRegister1?) {
      LinkUsedStays(log, more, t.r.reg);
    }
  }

  lemma NewlyUsed(log: Log, e: Option<Event>)
    requires e.Some? && e.value.SetupOpened?
    ensures LinkUsed(log + Logged(e), e.value.reg)
  {
    assert (log + Logged(e))[|log|] == e.value;
  }

  lemma NextOpened(cfg: Config, db: Db, log: Log, t: Task, i: Input, o: Outcome)
    requires NextFits(cfg, db, t, i, o) && o.next.Some?
    ensures Opened(log + Logged(o.event), o.next.value)
  {
    hide Stamp, SetupOpen, IsAdminEmail, EqualFold, SameUpToCase, LinkUsed, CurrentUser, UserNamed, HasFrejaEmail, KeysOf, FrejaKnown,
      EmailTaken, ResetOpen, ResetPending;
    match o.next.value
    case Registering(FinishRegister1(g, email)) => NewlyUsed(log, o.event);
    case Registering(FrejaRegister1(g, email, subject, reported)) =>
      NewlyUsed(log, o.event);
      EqualFoldExactly(reported, email);
    case _ =>
  }

  lemma EventSubmittedWell(cfg: Config, s: Sys, t: Task, i: Input, o: Outcome)
    requires o == Step(cfg, s.db, t, i) && Opened(s.log, t) && Knows(cfg, s.db.registrations, t)
    requires forall h :: SignupTold(s.log, s.db.registrations, h)
    ensures o.event.Some? ==> SubmittedWell(s.log, o.event.value)
  {
    hide Step, Stamp, SetupOpen, SignupTold, IsAdminEmail, EqualFold, SameUpToCase, LinkUsed, MailGood, SetupGood, RowSound, Verifiable,
      RegistrationsMove, FilingOf, VerificationOf, StatusNow, NextFits;
    StepTells(cfg, s.db, t, i);
    StepLooksUp(cfg, s.db, t, i);
    StepRegistrations(cfg, s.db, t, i);
    if o.event.Some? {
      match o.event.value
      case AddressVerified(g, token, at) => VerifiedWell(s, o.db.registrations, t, i, o.event);
      case SetupOpened(g, token, at) => SetupToldExactly(s.log, s.db, g, token, at);
      case SubjectSubmitted(g, subject, reported) => FiledAddress(s.log, s.db.registrations, g);
      case _ =>
    }
  }

  lemma FiledAddress(log: Log, m: map<Id, Registration>, g: Id)
    requires SignupTold(log, m, g) && g in m
    ensures FilingOf(log, g).Some? && FilingOf(log, g).value.address == m[g].email
  {
    hide Stamp, VerificationOf, StatusNow;
  }

  lemma VerifiedWell(s: Sys, m': map<Id, Registration>, t: Task, i: Input, e: Option<Event>)
    requires e.Some? && e.value.AddressVerified? && RegistrationsMove(s.db.registrations, m', t, i, e) && EventFits(t, i, e)
    requires SignupTold(s.log, s.db.registrations, e.value.reg)
    ensures exists mailed :: MailGood(s.log, e.value.reg, mailed, e.value.at)
  {
    hide Stamp, Before, SignupTold, MailGood;
    MailToldExactly(s.log, s.db, e.value.reg, t.r.token, i.now);
  }

  ghost predicate Signed(s: Sys) {
    AllSubmittedWell(s.log) && forall p :: p in s.pool ==> Opened(s.log, s.pool[p])
  }

  lemma SubmittedAppended(log: Log, e: Option<Event>)
    requires AllSubmittedWell(log) && (e.Some? ==> SubmittedWell(log, e.value))
    ensures AllSubmittedWell(log + Logged(e))
  {
    hide SubmittedWell;
    var all := log + Logged(e);
    forall k | 0 <= k < |all| ensures SubmittedWell(all[..k], all[k]) {
      assert all[..k] == log[..k];
      if k == |log| {
        assert log[..k] == log;
      }
    }
  }

  lemma ArrivalOpened(log: Log, t: Task)
    requires IsRequest(t)
    ensures Opened(log, t)
  {
  }

  lemma StepKeepsSigned(cfg: Config, moves: seq<Move>, pid: nat, i: Input)
    requires Signed(Execute(cfg, moves)) && pid in Execute(cfg, moves).pool
    ensures var s := Execute(cfg, moves); Signed(After(s, pid, Step(cfg, s.db, s.pool[pid], i)))
  {
    hide Execute, Step, SignupTold, Opened, AllSubmittedWell, SubmittedWell, Knows, RowsSound, NextFits, EventFits;
    var s := Execute(cfg, moves);
    var o := Step(cfg, s.db, s.pool[pid], i);
    SoundAlways(cfg, moves);
    forall h ensures SignupTold(s.log, s.db.registrations, h) {
      SignupToldAlways(cfg, moves, h);
    }
    EventSubmittedWell(cfg, s, s.pool[pid], i, o);
    SubmittedAppended(s.log, o.event);
    StepTells(cfg, s.db, s.pool[pid], i);
    if o.next.Some? {
      NextOpened(cfg, s.db, s.log, s.pool[pid], i, o);
    }
    forall p | p in s.pool ensures Opened(s.log + Logged(o.event), s.pool[p]) {
      OpenedStays(s.log, Logged(o.event), s.pool[p]);
    }
  }

  lemma {:induction false} SignedAlways(cfg: Config, moves: seq<Move>)
    ensures Signed(Execute(cfg, moves))
  {
    if moves != [] {
      hide Step, Opened, AllSubmittedWell;
      var before, m := moves[..|moves| - 1], moves[|moves| - 1];
      SignedAlways(cfg, before);
      if m.Run? && m.pid in Execute(cfg, before).pool {
        StepKeepsSigned(cfg, before, m.pid, m.input);
      } else if m.Arrive? && IsRequest(m.task) {
        ArrivalOpened(Execute(cfg, before).log, m.task);
      }
    } else {
      assert AllSubmittedWell([]);
    }
  }

  /**
   * In every run, an address is verified by the link mailed to it, within a day and once; credentials and Freja
   * subjects are submitted through the setup link, opened within a day of the verification and before any decision;
   * and a Freja subject only with the filed address, up to case.
   */
  lemma SubmissionsAreWarranted(cfg: Config, moves: seq<Move>, k: nat)
    requires k < |Execute(cfg, moves).log|
    ensures var log := Execute(cfg, moves).log; SubmittedWell(log[..k], log[k])
  {
    hide Execute, SubmittedWell, Opened;
    SignedAlways(cfg, moves);
  }
}
