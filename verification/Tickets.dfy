/**
 * The challenges and tokens that may be used once and for a limited time answer as the event history would:
 * a request goes on exactly if the latest issue has not been taken since and is younger than its lifetime.
 */
module Tickets {
  import opened Basics
  import opened Text
  import opened Timestamps
  import opened Tables
  import opened Requests
  import opened Runs
  import opened Effects
  import opened Steps
  import opened History
  import opened Conservation

  // ------------------------------------------------------------------ history

  predicate Takes(e: Event, r: Resource) {
    match r
    case LoginTicket(u) => e.LoginTaken? && e.user == u
    case AddTicket(u) => e.AddTaken? && e.user == u
    case LinkToken(k) => e.LinkTaken? && e.link == k
    case EmailToken(k) => e.EmailTakenOut? && e.email == k
    case _ => false
  }

  /** What is stored in a row, and for how long it is good. */
  predicate IsStored(r: Resource) {
    r.LoginTicket? || r.AddTicket? || r.LinkToken? || r.EmailToken?
  }

  /** Five minutes for a challenge, ten for a link token, a day for an e-mail token. */
  function Lifetime(r: Resource): nat
    requires IsStored(r)
  {
    match r
    case LoginTicket(u) => 5 * MINUTE
    case AddTicket(u) => 5 * MINUTE
    case LinkToken(k) => 10 * MINUTE
    case EmailToken(k) => DAY
  }

  /** The latest issue, unless it has been taken since. */
  function Outstanding(log: Log, r: Resource): (e: Option<Event>)
    requires IsStored(r)
    ensures e.Some? ==> Issues(e.value, r) && e.value in log
  {
    if log == [] then None
    else if Issues(log[|log| - 1], r) then Some(log[|log| - 1])
    else if Takes(log[|log| - 1], r) then None
    else Outstanding(log[..|log| - 1], r)
  }

  /** Issued, not taken since, and read at `t` less than the lifetime after the second of the issue. */
  predicate Good(log: Log, r: Resource, t: nat)
    requires IsStored(r)
  {
    Outstanding(log, r).Some? && t < Outstanding(log, r).value.at / NANOS * NANOS + Lifetime(r)
  }

  lemma OutstandingAppended(log: Log, e: Option<Event>, r: Resource)
    requires IsStored(r)
    ensures Outstanding(log + Logged(e), r)
            == if e.Some? && Issues(e.value, r) then e else if e.Some? && Takes(e.value, r) then None else Outstanding(log, r)
  {
    NoEvent(log);
    if e.Some? {
      assert (log + [e.value])[..|log|] == log;
    }
  }

  // --------------------------------------------------------------------- rows

  /** The row is there exactly if the history has it outstanding, and holds what was issued. */
  ghost predicate RowTold(log: Log, db: Db, r: Resource)
    requires IsStored(r)
  {
    match Outstanding(log, r)
    case None => !InTable(db, r)
    case Some(e) =>
      InTable(db, r) &&
      match r
      case LoginTicket(u) => db.logins[u].expires == Stamp(e.at + 5 * MINUTE)
      case AddTicket(u) => db.adds[u].expires == Stamp(e.at + 5 * MINUTE)
      case LinkToken(k) => db.links[k] == Link(e.user, e.subject, e.address, Stamp(e.at + 10 * MINUTE))
      case EmailToken(k) => db.emails[k] == EmailChange(e.user, e.address, Stamp(e.at + DAY))
      case _ => false
  }

  lemma LoginTold(log: Log, db: Db, d: Db, t: Task, i: Input, o: Outcome, u: Id)
    requires RowTold(log, db, LoginTicket(u)) && LoginsMove(db.logins, d.logins, t, i, o) && EventFits(t, i, o.event)
    ensures RowTold(log + Logged(o.event), d, LoginTicket(u))
  {
    hide Stamp, Before, Outstanding;
    OutstandingAppended(log, o.event, LoginTicket(u));
  }

  lemma AddTold(log: Log, db: Db, d: Db, t: Task, i: Input, o: Outcome, u: Id)
    requires RowTold(log, db, AddTicket(u)) && AddsMove(db.adds, d.adds, t, i, o) && EventFits(t, i, o.event)
    ensures RowTold(log + Logged(o.event), d, AddTicket(u))
  {
    hide Stamp, Before, Outstanding, AddsMove, EventFits;
    AddMoved(db.adds, d.adds, t, i, o, u);
    OutstandingAppended(log, o.event, AddTicket(u));
  }

  /** The challenge of `u` is the one a step issues, is gone if it takes it, and else stays. */
  lemma AddMoved(m: map<Id, Challenge>, m': map<Id, Challenge>, t: Task, i: Input, o: Outcome, u: Id)
    requires AddsMove(m, m', t, i, o) && EventFits(t, i, o.event)
    ensures if o.event.Some? && Issues(o.event.value, AddTicket(u)) then u in m' && m'[u].expires == Stamp(o.event.value.at + 5 * MINUTE)
            else if o.event.Some? && Takes(o.event.value, AddTicket(u)) then u !in m'
            else (u in m' <==> u in m) && (u in m ==> m'[u] == m[u])
  {
    hide Stamp, Before;
  }

  lemma LinkTold(log: Log, db: Db, d: Db, t: Task, i: Input, o: Outcome, k: Id)
    requires RowTold(log, db, LinkToken(k)) && LinksMove(db.links, d.links, t, i, o) && EventFits(t, i, o.event)
    ensures RowTold(log + Logged(o.event), d, LinkToken(k))
  {
    hide Stamp, Before, Outstanding, LinksMove, EventFits;
    LinkMoved(db.links, d.links, t, i, o, k);
    OutstandingAppended(log, o.event, LinkToken(k));
  }

  /** Likewise for a link token. */
  lemma LinkMoved(m: map<Id, Link>, m': map<Id, Link>, t: Task, i: Input, o: Outcome, k: Id)
    requires LinksMove(m, m', t, i, o) && EventFits(t, i, o.event)
    ensures if o.event.Some? && Issues(o.event.value, LinkToken(k)) then
              var e := o.event.value; k in m' && m'[k] == Link(e.user, e.subject, e.address, Stamp(e.at + 10 * MINUTE))
            else if o.event.Some? && Takes(o.event.value, LinkToken(k)) then k !in m'
            else (k in m' <==> k in m) && (k in m ==> m'[k] == m[k])
  {
    hide Stamp, Before;
  }

  lemma EmailTold(log: Log, db: Db, d: Db, t: Task, i: Input, o: Outcome, k: Id)
    requires RowTold(log, db, EmailToken(k)) && EmailsMove(db.emails, d.emails, t, i, o) && EventFits(t, i, o.event)
    ensures RowTold(log + Logged(o.event), d, EmailToken(k))
  {
    hide Stamp, Before, Outstanding;
    OutstandingAppended(log, o.event, EmailToken(k));
  }

  lemma StepTellsRow(cfg: Config, s: Sys, pid: nat, i: Input, r: Resource)
    requires IsStored(r) && pid in s.pool && RowTold(s.log, s.db, r)
    ensures var o := Step(cfg, s.db, s.pool[pid], i); RowTold(s.log + Logged(o.event), o.db, r)
  {
    hide Step, Effect, RowTold, LoginsMove, AddsMove, LinksMove, EmailsMove, EventFits, NextFits;
    var t := s.pool[pid];
    var o := Step(cfg, s.db, t, i);
    StepEffect(cfg, s.db, t, i);
    TicketMoves(cfg, s.db, t, i, o);
    match r
    case LoginTicket(u) => LoginTold(s.log, s.db, o.db, t, i, o, u);
    case AddTicket(u) => AddTold(s.log, s.db, o.db, t, i, o, u);
    case LinkToken(k) => LinkTold(s.log, s.db, o.db, t, i, o, k);
    case EmailToken(k) => EmailTold(s.log, s.db, o.db, t, i, o, k);
    case _ =>
  }

  lemma {:induction false} RowToldAlways(cfg: Config, moves: seq<Move>, r: Resource)
    requires IsStored(r)
    ensures RowTold(Execute(cfg, moves).log, Execute(cfg, moves).db, r)
  {
    if moves != [] {
      hide Step, RowTold;
      var s, m := Execute(cfg, moves[..|moves| - 1]), moves[|moves| - 1];
      RowToldAlways(cfg, moves[..|moves| - 1], r);
      if m.Run? && m.pid in s.pool {
        StepTellsRow(cfg, s, m.pid, m.input, r);
      }
    } else {
      NothingStored(r);
    }
  }

  lemma NothingStored(r: Resource)
    requires IsStored(r)
    ensures RowTold([], EMPTY, r)
  {
  }

  // ------------------------------------------------------------------ theorems

  lemma Unexpired(at: Instant, lifetime: nat, t: Instant)
    requires lifetime % NANOS == 0 && lifetime <= SESSION
    ensures Before(Stamp(t), Stamp(at + lifetime)) <==> t < at / NANOS * NANOS + lifetime
  {
    hide Before, Stamp;
    Timestamps.Lifetime(at, lifetime, t);
  }

  lemma Expiry(log: Log, db: Db, r: Resource, t: Instant)
    requires IsStored(r) && RowTold(log, db, r)
    ensures match r
            case LoginTicket(u) => Good(log, r, t) <==> u in db.logins && Before(Stamp(t), db.logins[u].expires)
            case AddTicket(u) => Good(log, r, t) <==> u in db.adds && Before(Stamp(t), db.adds[u].expires)
            case LinkToken(k) => Good(log, r, t) <==> k in db.links && Before(Stamp(t), db.links[k].expires)
            case EmailToken(k) => Good(log, r, t) <==> k in db.emails && Before(Stamp(t), db.emails[k].expires)
            case _ => true
  {
    hide Before, Stamp, Outstanding;
    if Outstanding(log, r).Some? {
      Unexpired(Outstanding(log, r).value.at, Lifetime(r), t);
    }
  }

  /** finishLogin finds a challenge exactly if the latest one of the user is untaken and younger than five minutes. */
  lemma LoginTakenExactly(cfg: Config, moves: seq<Move>, u: Id, i: Input)
    ensures var s := Execute(cfg, moves);
            Step(cfg, s.db, LoggingIn(FinishLogin1(u)), i).next
            == if Good(s.log, LoginTicket(u), i.now) then Some(LoggingIn(FinishLogin2(u))) else None
  {
    hide Execute, Good, RowTold, Before, Stamp;
    RowToldAlways(cfg, moves, LoginTicket(u));
    Expiry(Execute(cfg, moves).log, Execute(cfg, moves).db, LoginTicket(u), i.now);
  }

  /** Finishing a passkey, from the settings or by a reset link, finds a challenge exactly under the same condition. */
  lemma AddTakenExactly(cfg: Config, moves: seq<Move>, u: Id, r: Id, began: Instant, i: Input)
    ensures var s := Execute(cfg, moves);
            && Step(cfg, s.db, Settings(FinishAdd0(u)), i).next
               == (if Good(s.log, AddTicket(u), i.now) then Some(Settings(FinishAdd1(u, i.now))) else None)
            && Step(cfg, s.db, Resetting(FinishReset1(r, u, began)), i).next
               == (if Good(s.log, AddTicket(u), began) then Some(Resetting(FinishReset2(r, u, began))) else None)
  {
    hide Execute, Good, RowTold, Before, Stamp;
    RowToldAlways(cfg, moves, AddTicket(u));
    Expiry(Execute(cfg, moves).log, Execute(cfg, moves).db, AddTicket(u), i.now);
    Expiry(Execute(cfg, moves).log, Execute(cfg, moves).db, AddTicket(u), began);
  }

  /** A link is confirmed exactly with an untaken token of that user younger than ten minutes, for what it was issued for. */
  lemma LinkTakenExactly(cfg: Config, moves: seq<Move>, u: Id, k: Id, i: Input)
    ensures var s := Execute(cfg, moves);
            var issued := Outstanding(s.log, LinkToken(k));
            Step(cfg, s.db, Settings(ConfirmLink0(u, k)), i).next
            == if Good(s.log, LinkToken(k), i.now) && issued.value.user == u
               then Some(Settings(ConfirmLink1(u, issued.value.subject, issued.value.address))) else None
  {
    hide Execute, Before, Stamp, Outstanding;
    RowToldAlways(cfg, moves, LinkToken(k));
    Expiry(Execute(cfg, moves).log, Execute(cfg, moves).db, LinkToken(k), i.now);
  }

  /** An e-mail change is confirmed exactly with an untaken token younger than a day, for the user and address it names. */
  lemma EmailTakenExactly(cfg: Config, moves: seq<Move>, k: Id, i: Input)
    ensures var s := Execute(cfg, moves);
            var issued := Outstanding(s.log, EmailToken(k));
            Step(cfg, s.db, Settings(ConfirmEmail0(k)), i).next
            == if k != "" && Good(s.log, EmailToken(k), i.now)
               then Some(Settings(ConfirmEmail1(issued.value.user, issued.value.address))) else None
  {
    hide Execute, Before, Stamp, Outstanding;
    RowToldAlways(cfg, moves, EmailToken(k));
    Expiry(Execute(cfg, moves).log, Execute(cfg, moves).db, EmailToken(k), i.now);
  }

  // -------------------------------------------------------------- what was taken

  /** What is taken was good when it was, and holds what it was issued for. */
  predicate TakenWell(before: Log, e: Event) {
    match e
    case LoginTaken(u, at) => Good(before, LoginTicket(u), at)
    case AddTaken(u, at) => Good(before, AddTicket(u), at)
    case LinkTaken(k, u, subject, address, at) =>
      && Good(before, LinkToken(k), at)
      && var issued := Outstanding(before, LinkToken(k)).value;
      && issued.user == u && issued.subject == subject && issued.address == address
    case EmailTakenOut(k, u, address, at) =>
      && Good(before, EmailToken(k), at)
      && Outstanding(before, EmailToken(k)).value.user == u && Outstanding(before, EmailToken(k)).value.address == address
    case _ => true
  }

  ghost predicate AllTakenWell(log: Log) {
    forall k :: 0 <= k < |log| ==> TakenWell(log[..k], log[k])
  }

  lemma LoginTakenWell(s: Sys, u: Id, t: Task, i: Input, o: Outcome)
    requires RowTold(s.log, s.db, LoginTicket(u)) && LoginsMove(s.db.logins, o.db.logins, t, i, o) && EventFits(t, i, o.event)
    requires o.event.Some? && o.event.value.LoginTaken? && o.event.value.user == u
    ensures TakenWell(s.log, o.event.value)
  {
    hide RowTold, Good, Before, Stamp;
    Expiry(s.log, s.db, LoginTicket(u), i.now);
  }

  lemma AddTakenWell(s: Sys, u: Id, t: Task, i: Input, o: Outcome)
    requires RowTold(s.log, s.db, AddTicket(u)) && AddsMove(s.db.adds, o.db.adds, t, i, o) && EventFits(t, i, o.event)
    requires o.event.Some? && o.event.value.AddTaken? && o.event.value.user == u
    ensures TakenWell(s.log, o.event.value)
  {
    hide RowTold, Good, Before, Stamp;
    Expiry(s.log, s.db, AddTicket(u), o.event.value.at);
  }

  lemma LinkTakenWell(s: Sys, k: Id, t: Task, i: Input, o: Outcome)
    requires RowTold(s.log, s.db, LinkToken(k)) && LinksMove(s.db.links, o.db.links, t, i, o) && EventFits(t, i, o.event)
    requires o.event.Some? && o.event.value.LinkTaken? && o.event.value.link == k
    ensures TakenWell(s.log, o.event.value)
  {
    hide Outstanding, Before, Stamp;
    Expiry(s.log, s.db, LinkToken(k), i.now);
  }

  lemma EmailTakenWell(s: Sys, k: Id, t: Task, i: Input, o: Outcome)
    requires RowTold(s.log, s.db, EmailToken(k)) && EmailsMove(s.db.emails, o.db.emails, t, i, o) && EventFits(t, i, o.event)
    requires o.event.Some? && o.event.value.EmailTakenOut? && o.event.value.email == k
    ensures TakenWell(s.log, o.event.value)
  {
    hide Outstanding, Before, Stamp;
    Expiry(s.log, s.db, EmailToken(k), i.now);
  }

  lemma StepTakesWell(cfg: Config, moves: seq<Move>, pid: nat, i: Input)
    requires pid in Execute(cfg, moves).pool
    ensures var s := Execute(cfg, moves);
            var e := Step(cfg, s.db, s.pool[pid], i).event; e.Some? ==> TakenWell(s.log, e.value)
  {
    hide Execute, Step, Effect, RowTold, LoginsMove, AddsMove, LinksMove, EmailsMove, EventFits, NextFits, Good;
    var s := Execute(cfg, moves);
    var t, o := s.pool[pid], Step(cfg, s.db, s.pool[pid], i);
    StepEffect(cfg, s.db, t, i);
    TicketMoves(cfg, s.db, t, i, o);
    if o.event.Some? {
      match o.event.value
      case LoginTaken(u, at) =>
        RowToldAlways(cfg, moves, LoginTicket(u));
        LoginTakenWell(s, u, t, i, o);
      case AddTaken(u, at) =>
        RowToldAlways(cfg, moves, AddTicket(u));
        AddTakenWell(s, u, t, i, o);
      case LinkTaken(k, u, subject, address, at) =>
        RowToldAlways(cfg, moves, LinkToken(k));
        LinkTakenWell(s, k, t, i, o);
      case EmailTakenOut(k, u, address, at) =>
        RowToldAlways(cfg, moves, EmailToken(k));
        EmailTakenWell(s, k, t, i, o);
      case _ =>
    }
  }

  lemma {:induction false} AllTakenWellAlways(cfg: Config, moves: seq<Move>)
    ensures AllTakenWell(Execute(cfg, moves).log)
  {
    if moves != [] {
      hide Step, TakenWell;
      var before, m := moves[..|moves| - 1], moves[|moves| - 1];
      var s := Execute(cfg, before);
      AllTakenWellAlways(cfg, before);
      if m.Run? && m.pid in s.pool {
        StepTakesWell(cfg, before, m.pid, m.input);
        TakenWellAppended(s.log, Step(cfg, s.db, s.pool[m.pid], m.input).event);
      }
    }
  }

  lemma TakenWellAppended(log: Log, e: Option<Event>)
    requires AllTakenWell(log) && (e.Some? ==> TakenWell(log, e.value))
    ensures AllTakenWell(log + Logged(e))
  {
    hide TakenWell;
    var all := log + Logged(e);
    forall k | 0 <= k < |all| ensures TakenWell(all[..k], all[k]) {
      assert all[..k] == log[..k];
      if k == |log| {
        assert log[..k] == log;
      }
    }
  }

  /** In every run, whatever was taken was issued before, untaken since, unexpired, and for the same user and content. */
  lemma TakenAsIssued(cfg: Config, moves: seq<Move>, k: nat)
    requires k < |Execute(cfg, moves).log|
    ensures var log := Execute(cfg, moves).log; TakenWell(log[..k], log[k])
  {
    hide Execute, TakenWell;
    AllTakenWellAlways(cfg, moves);
  }
}
