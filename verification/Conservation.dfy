/**
 * One-shot authority is conserved: whatever is begun can be cashed in at most once, at any interleaving
 * of statements, because every challenge, token and hook has exactly one place to be at a time.
 */
module Conservation {
  import opened Basics
  import opened Tables
  import opened Requests
  import opened Runs
  import opened Effects
  import opened Steps
  import opened Timestamps
  import opened Text

  /** Something a user, a token or a registration may be used for once per issue. */
  datatype Resource =
    | LoginTicket(user: Id)    // beginLogin upsert -> passkey session
    | AddTicket(user: Id)      // add/begin or reset/begin upsert -> new passkey
    | LinkToken(token: Id)     // frejaLink insert -> frejaLinkConfirm
    | EmailToken(token: Id)    // requestEmailChange insert -> confirmEmailChange
    | HookTicket(reg: Id)      // account created -> OnUserCreated called
    | Pass(act: Action, why: Approver)   // admin admitted by GetSession -> the decision asked for

  predicate Issues(e: Event, r: Resource) {
    match r
    case LoginTicket(u) => e.LoginBegun? && e.user == u
    case AddTicket(u) => e.AddBegun? && e.user == u
    case LinkToken(k) => e.LinkIssued? && e.link == k
    case EmailToken(k) => e.EmailIssued? && e.email == k
    case HookTicket(g) => e.Created? && e.reg == g
    case Pass(act, why) => e.Admitted? && e.act == act && why == By(e.user, e.cookie, e.at)
  }

  predicate Spends(e: Event, r: Resource) {
    match r
    case LoginTicket(u) => e.SessionMade? && e.user == u && e.how == ByPasskey
    case AddTicket(u) => e.KeyAdded? && e.user == u
    case LinkToken(k) => e.LinkTaken? && e.link == k
    case EmailToken(k) => e.EmailTakenOut? && e.email == k
    case HookTicket(g) => e.HookRun? && e.reg == g
    case Pass(act, why) => why.By? && DecisionOf(e) == Some((act, why))
  }

  /** A request that took the resource out of its table and has not used it yet. */
  predicate Holds(t: Task, r: Resource) {
    match r
    case LoginTicket(u) => t == LoggingIn(FinishLogin2(u)) || t == LoggingIn(EnterSession(u, ByPasskey))
    case AddTicket(u) => (t.Settings? && t.s.FinishAdd1? && t.s.user == u) || (t.Resetting? && t.q.FinishReset2? && t.q.user == u)
    case LinkToken(k) => false
    case EmailToken(k) => false
    case HookTicket(g) => t.Registering? && t.r.Approve2? && t.r.reg == g
    case Pass(act, why) => why.By? && Pursues(t) == Some((act, why))
  }

  /** The row is in its table. */
  predicate InTable(db: Db, r: Resource) {
    match r
    case LoginTicket(u) => u in db.logins
    case AddTicket(u) => u in db.adds
    case LinkToken(k) => k in db.links
    case EmailToken(k) => k in db.emails
    case HookTicket(g) => false
    case Pass(act, why) => false
  }

  function One(b: bool): nat {
    if b then 1 else 0
  }

  function Issued(log: Log, r: Resource): nat {
    if log == [] then 0 else Issued(log[..|log| - 1], r) + One(Issues(log[|log| - 1], r))
  }

  function Spent(log: Log, r: Resource): nat {
    if log == [] then 0 else Spent(log[..|log| - 1], r) + One(Spends(log[|log| - 1], r))
  }

  ghost function Holders(pool: map<nat, Task>, r: Resource): set<nat> {
    set pid | pid in pool && Holds(pool[pid], r)
  }

  // -------------------------------------------------------------------- steps

  /** What a step spends, hands on and leaves stored is covered by what it issues, had and found stored. */
  ghost predicate Conserves(db: Db, t: Task, o: Outcome, r: Resource) {
    One(o.event.Some? && Spends(o.event.value, r)) + One(o.next.Some? && Holds(o.next.value, r)) + One(InTable(o.db, r))
    <= One(o.event.Some? && Issues(o.event.value, r)) + One(Holds(t, r)) + One(InTable(db, r))
  }

  /** For tokens that are never overwritten or dropped the two sides are equal. */
  ghost predicate Balances(db: Db, o: Outcome, r: Resource) {
    One(o.event.Some? && Spends(o.event.value, r)) + One(InTable(o.db, r))
    == One(o.event.Some? && Issues(o.event.value, r)) + One(InTable(db, r))
  }

  lemma LoginTicketConserved(cfg: Config, db: Db, t: Task, i: Input, o: Outcome, u: Id)
    requires LoginsMove(db.logins, o.db.logins, t, i, o) && EventFits(t, i, o.event) && NextFits(cfg, db, t, i, o)
    ensures Conserves(db, t, o, LoginTicket(u))
  {
    hide Conserves, LoginLogins, LoginEvent, LoginNext, RegistrationEvent, RegistrationNext, SettingsEvent, SettingsNext, ResetEvent,
      ResetNext, GateEvent, GateNext;
    if t.LoggingIn? {
      LoginTicketMoved(db, t.l, i, o, u);
    } else {
      LoginTicketElsewhere(cfg, db, t, i, o, u);
    }
  }

  lemma LoginTicketMoved(db: Db, t: LoginTask, i: Input, o: Outcome, u: Id)
    requires LoginLogins(db.logins, o.db.logins, t, i, o) && LoginEvent(t, i, o.event)
    requires o.next.Some? ==> LoginNext(db, t, i, o.event, o.next.value)
    ensures Conserves(db, LoggingIn(t), o, LoginTicket(u))
  {
    hide Stamp, Before, UserNamed, HasSubject, HasFrejaEmail, SubjectFree, KeysOf;
  }

  lemma LoginTicketElsewhere(cfg: Config, db: Db, t: Task, i: Input, o: Outcome, u: Id)
    requires o.db.logins == db.logins && EventFits(t, i, o.event) && NextFits(cfg, db, t, i, o) && !t.LoggingIn?
    ensures Conserves(db, t, o, LoginTicket(u))
  {
    hide Stamp, CurrentUser, IsAdminEmail, SetupOpen, ResetOpen, ResetPending, EqualFold, KeysOf, FrejaKnown, EmailTaken;
  }

  lemma AddTicketConserved(cfg: Config, db: Db, t: Task, i: Input, o: Outcome, u: Id)
    requires AddsMove(db.adds, o.db.adds, t, i, o) && EventFits(t, i, o.event) && NextFits(cfg, db, t, i, o)
    ensures Conserves(db, t, o, AddTicket(u))
  {
    hide Conserves, SettingsAdds, ResetAdds, LoginEvent, LoginNext, RegistrationEvent, RegistrationNext, SettingsEvent, SettingsNext,
      ResetEvent, ResetNext, GateEvent, GateNext;
    if t.Settings? {
      AddTicketInSettings(db, t.s, i, o, u);
    } else if t.Resetting? {
      AddTicketInReset(db, t.q, i, o, u);
    } else {
      AddTicketElsewhere(cfg, db, t, i, o, u);
    }
  }

  lemma AddTicketInSettings(db: Db, t: SettingsTask, i: Input, o: Outcome, u: Id)
    requires SettingsAdds(db.adds, o.db.adds, t, i, o) && SettingsEvent(t, i, o.event)
    requires o.next.Some? ==> SettingsNext(db, t, i, o.next.value)
    ensures Conserves(db, Settings(t), o, AddTicket(u))
  {
    hide Stamp, Before, KeysOf, FrejaKnown, EmailTaken;
  }

  lemma AddTicketInReset(db: Db, t: ResetTask, i: Input, o: Outcome, u: Id)
    requires ResetAdds(db.adds, o.db.adds, t, i, o) && ResetEvent(t, i, o.event)
    requires o.next.Some? ==> ResetNext(db, t, i, o, o.next.value)
    ensures Conserves(db, Resetting(t), o, AddTicket(u))
  {
    hide Stamp, Before, ResetOpen, ResetPending, EqualFold;
  }

  lemma AddTicketElsewhere(cfg: Config, db: Db, t: Task, i: Input, o: Outcome, u: Id)
    requires o.db.adds == db.adds && EventFits(t, i, o.event) && NextFits(cfg, db, t, i, o)
    requires !t.Settings? && !t.Resetting?
    ensures Conserves(db, t, o, AddTicket(u))
  {
    hide Stamp, CurrentUser, IsAdminEmail, SetupOpen, EqualFold, UserNamed, HasFrejaEmail, KeysOf;
  }

  lemma HookTicketConserved(cfg: Config, db: Db, t: Task, i: Input, o: Outcome, g: Id)
    requires EventFits(t, i, o.event) && NextFits(cfg, db, t, i, o)
    ensures Conserves(db, t, o, HookTicket(g))
  {
    hide Stamp, CurrentUser, IsAdminEmail, SetupOpen, ResetOpen, ResetPending, EqualFold, UserNamed, HasFrejaEmail, KeysOf, FrejaKnown,
      EmailTaken;
  }

  /** Whoever decides has the pass, and does not keep it. */
  lemma PassSpent(cfg: Config, db: Db, t: Task, i: Input, o: Outcome, pass: Resource)
    requires EventFits(t, i, o.event) && NextFits(cfg, db, t, i, o) && pass.Pass?
    requires o.event.Some? && Spends(o.event.value, pass)
    ensures Holds(t, pass) && (o.next.Some? ==> !Holds(o.next.value, pass))
  {
    hide LoginNext, SettingsNext, Stamp, CurrentUser, IsAdminEmail, SetupOpen, ResetOpen, ResetPending;
  }

  /** Whoever has the pass had it before, or was admitted. */
  lemma PassHandedOn(cfg: Config, db: Db, t: Task, i: Input, o: Outcome, pass: Resource)
    requires NextFits(cfg, db, t, i, o) && pass.Pass? && o.next.Some? && Holds(o.next.value, pass)
    ensures Holds(t, pass) || (o.event.Some? && Issues(o.event.value, pass))
  {
    hide Stamp, CurrentUser, IsAdminEmail, KeysOf, FrejaKnown, EmailTaken, ResetPending, ResetOpen, SetupOpen, EqualFold, UserNamed,
      HasFrejaEmail;
  }

  lemma PassConserved(cfg: Config, db: Db, t: Task, i: Input, o: Outcome, act: Action, why: Approver)
    requires EventFits(t, i, o.event) && NextFits(cfg, db, t, i, o)
    ensures Conserves(db, t, o, Pass(act, why))
  {
    hide EventFits, NextFits, Holds, Spends, Issues;
    var pass := Pass(act, why);
    if o.event.Some? && Spends(o.event.value, pass) {
      PassSpent(cfg, db, t, i, o, pass);
    } else if o.next.Some? && Holds(o.next.value, pass) {
      PassHandedOn(cfg, db, t, i, o, pass);
    }
  }

  lemma LinksBalance(db: Db, t: Task, i: Input, o: Outcome, token: Id)
    requires LinksMove(db.links, o.db.links, t, i, o) && EventFits(t, i, o.event)
    ensures Balances(db, o, LinkToken(token)) && Conserves(db, t, o, LinkToken(token))
  {
    hide Stamp;
  }

  lemma EmailsBalance(db: Db, t: Task, i: Input, o: Outcome, token: Id)
    requires EmailsMove(db.emails, o.db.emails, t, i, o) && EventFits(t, i, o.event)
    ensures Balances(db, o, EmailToken(token)) && Conserves(db, t, o, EmailToken(token))
  {
    hide Stamp;
  }

  lemma TicketMoves(cfg: Config, db: Db, t: Task, i: Input, o: Outcome)
    requires Effect(cfg, db, t, i, o)
    ensures LoginsMove(db.logins, o.db.logins, t, i, o) && AddsMove(db.adds, o.db.adds, t, i, o)
    ensures LinksMove(db.links, o.db.links, t, i, o) && EmailsMove(db.emails, o.db.emails, t, i, o)
    ensures EventFits(t, i, o.event) && NextFits(cfg, db, t, i, o)
  {
  }

  lemma StepConserves(cfg: Config, db: Db, t: Task, i: Input, r: Resource)
    ensures Conserves(db, t, Step(cfg, db, t, i), r)
    ensures r.LinkToken? || r.EmailToken? ==> Balances(db, Step(cfg, db, t, i), r)
  {
    hide Effect, Step, Conserves, Balances, EventFits, NextFits, LoginsMove, AddsMove, LinksMove, EmailsMove;
    var o := Step(cfg, db, t, i);
    StepEffect(cfg, db, t, i);
    TicketMoves(cfg, db, t, i, o);
    match r
    case LoginTicket(u) => LoginTicketConserved(cfg, db, t, i, o, u);
    case AddTicket(u) => AddTicketConserved(cfg, db, t, i, o, u);
    case HookTicket(g) => HookTicketConserved(cfg, db, t, i, o, g);
    case Pass(act, why) => PassConserved(cfg, db, t, i, o, act, why);
    case LinkToken(token) => LinksBalance(db, t, i, o, token);
    case EmailToken(token) => EmailsBalance(db, t, i, o, token);
  }

  // --------------------------------------------------------------------- runs

  lemma SetSplit(s: set<nat>, x: nat)
    ensures |s| == |s - {x}| + One(x in s)
  {
  }

  lemma HoldersReplaced(pool: map<nat, Task>, pid: nat, next: Option<Task>, r: Resource)
    requires pid in pool
    ensures |Holders(Replaced(pool, pid, next), r)| + One(Holds(pool[pid], r))
            == |Holders(pool, r)| + One(next.Some? && Holds(next.value, r))
  {
    var before, after := Holders(pool, r), Holders(Replaced(pool, pid, next), r);
    hide Holds;
    var replaced := Replaced(pool, pid, next);
    SetSplit(before, pid);
    SetSplit(after, pid);
    assert pid in before <==> Holds(pool[pid], r);
    assert pid in after <==> next.Some? && Holds(next.value, r);
    forall p ensures p in before - {pid} <==> p in after - {pid} {
      assert p != pid ==> (p in pool <==> p in replaced);
    }
    assert before - {pid} == after - {pid};
  }

  lemma HoldersArrived(pool: map<nat, Task>, pid: nat, t: Task, r: Resource)
    requires pid !in pool && IsRequest(t)
    ensures Holders(pool[pid := t], r) == Holders(pool, r)
  {
  }

  lemma HoldersVanished(pool: map<nat, Task>, pid: nat, r: Resource)
    ensures |Holders(pool - {pid}, r)| <= |Holders(pool, r)|
  {
    var before, after := Holders(pool, r), Holders(pool - {pid}, r);
    assert after == before - {pid};
    assert |before| == |before - {pid}| + One(pid in before);
  }

  lemma LogAppended(log: Log, e: Option<Event>, r: Resource)
    ensures Issued(log + Logged(e), r) == Issued(log, r) + One(e.Some? && Issues(e.value, r))
    ensures Spent(log + Logged(e), r) == Spent(log, r) + One(e.Some? && Spends(e.value, r))
  {
    if e.Some? {
      assert (log + [e.value])[..|log|] == log;
    } else {
      assert log + [] == log;
    }
  }

  ghost predicate Covered(s: Sys, r: Resource) {
    && Spent(s.log, r) + |Holders(s.pool, r)| + One(InTable(s.db, r)) <= Issued(s.log, r)
    && (r.LinkToken? || r.EmailToken? ==> Spent(s.log, r) + One(InTable(s.db, r)) == Issued(s.log, r))
  }

  lemma StepKeepsCover(cfg: Config, s: Sys, pid: nat, o: Outcome, r: Resource)
    requires pid in s.pool && Covered(s, r)
    requires Conserves(s.db, s.pool[pid], o, r) && (r.LinkToken? || r.EmailToken? ==> Balances(s.db, o, r))
    ensures Covered(After(s, pid, o), r)
  {
    HoldersReplaced(s.pool, pid, o.next, r);
    LogAppended(s.log, o.event, r);
  }

  /**
   * In every run, for every resource: uses so far, plus requests holding it, plus the stored row,
   * never exceed the times it was issued. Link and e-mail tokens balance exactly.
   */
  lemma {:induction false} ConservedAlways(cfg: Config, moves: seq<Move>, r: Resource)
    ensures Covered(Execute(cfg, moves), r)
  {
    if moves == [] {
      assert Holders(map[], r) == {};
    } else {
      hide Step, Holds, InTable, Issues, Spends;
      var s, m := Execute(cfg, moves[..|moves| - 1]), moves[|moves| - 1];
      ConservedAlways(cfg, moves[..|moves| - 1], r);
      match m
      case Arrive(pid, task) =>
        if IsRequest(task) && pid !in s.pool {
          HoldersArrived(s.pool, pid, task, r);
        }
      case Run(pid, input) =>
        if pid in s.pool {
          StepConserves(cfg, s.db, s.pool[pid], input, r);
          StepKeepsCover(cfg, s, pid, Step(cfg, s.db, s.pool[pid], input), r);
        }
      case Vanish(pid) => HoldersVanished(s.pool, pid, r);
    }
  }

  /** Passkey logins never outnumber beginLogin challenges, not even counting the one still outstanding. */
  lemma PasskeyLoginsWithinBegins(cfg: Config, moves: seq<Move>, u: Id)
    ensures var s := Execute(cfg, moves);
            Spent(s.log, LoginTicket(u)) + One(u in s.db.logins) <= Issued(s.log, LoginTicket(u))
  {
    hide Execute;
    ConservedAlways(cfg, moves, LoginTicket(u));
  }

  /** Settings and reset share one challenge table: together they add no more passkeys than were begun. */
  lemma AddedKeysWithinBegins(cfg: Config, moves: seq<Move>, u: Id)
    ensures var s := Execute(cfg, moves);
            Spent(s.log, AddTicket(u)) + One(u in s.db.adds) <= Issued(s.log, AddTicket(u))
  {
    hide Execute;
    ConservedAlways(cfg, moves, AddTicket(u));
  }

  /** Everything decided on the admin pages takes an admission of its own: same cookie, same reading, same request. */
  lemma DecisionsWithinAdmissions(cfg: Config, moves: seq<Move>, act: Action, why: Approver)
    ensures var log := Execute(cfg, moves).log; Spent(log, Pass(act, why)) <= Issued(log, Pass(act, why))
  {
    hide Execute;
    ConservedAlways(cfg, moves, Pass(act, why));
  }

  /** A link or e-mail token issued once is consumed at most once, and exactly when it is no longer stored. */
  lemma TokenConsumedOnce(cfg: Config, moves: seq<Move>, r: Resource)
    requires r.LinkToken? || r.EmailToken?
    requires Issued(Execute(cfg, moves).log, r) == 1
    ensures var s := Execute(cfg, moves); Spent(s.log, r) == if InTable(s.db, r) then 0 else 1
  {
    hide Execute;
    ConservedAlways(cfg, moves, r);
  }
}
