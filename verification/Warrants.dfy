/**
 * In every run, what a request does rests on what it was let in for: the earlier events that warrant it are in
 * the log, and were true when they were logged.
 */
module Warrants {
  import opened Basics
  import opened Text
  import opened Timestamps
  import opened Tables
  import opened Requests
  import opened Runs
  import opened Effects
  import opened Steps
  import opened History
  import opened Conservation
  import opened Accounts
  import opened Tickets
  import opened Lookups
  import opened ResetLinks

  // ----------------------------------------------------------- what was logged

  /** GetSession let `u` in for `act`. */
  predicate LetIn(log: Log, u: Id, act: Action) {
    exists k :: 0 <= k < |log| && log[k].Admitted? && log[k].user == u && log[k].act == act
  }

  /** A lookup found `u` for this purpose, by an address that `u` then answered to. */
  predicate Found(log: Log, u: Id, purpose: Purpose) {
    exists k :: 0 <= k < |log| && log[k].LookedUp? && log[k].user == u && log[k].purpose == purpose
  }

  /** The login challenge of `u` was taken. */
  predicate ChallengeTaken(log: Log, u: Id) {
    exists k :: 0 <= k < |log| && log[k].LoginTaken? && log[k].user == u
  }

  /** A passkey reset link of `u` was opened. */
  predicate PasskeyLinkOpened(log: Log, u: Id) {
    exists k :: 0 <= k < |log| && log[k].ResetOpened? && log[k].user == u && log[k].provider == ViaPasskey
  }

  /** `u` asked, from the settings, for an e-mail change to what normalises to this address. */
  predicate AskedFor(e: Event, u: Id, address: string) {
    e.Admitted? && e.user == u && e.act.ChangeEmail? && TrimSpace(Lower(e.act.email)) == address
  }

  predicate ChangeAsked(log: Log, u: Id, address: string) {
    exists k :: 0 <= k < |log| && AskedFor(log[k], u, address)
  }

  predicate Renaming(log: Log, u: Id, address: string) {
    exists k :: 0 <= k < |log| && log[k].EmailTakenOut? && log[k].user == u && log[k].address == address
  }

  /** What `e` rests on. */
  ghost predicate Warranted(before: Log, e: Event) {
    match e
    case LookedUp(u, address, ToReset) => Bears(before, u, address)
    case LookedUp(u, address, purpose) => Answers(before, u, address)
    case LoginTaken(u, at) => Found(before, u, ToFinish)
    case SessionMade(s, u, at, ByPasskey) => Found(before, u, ToFinish) && ChallengeTaken(before, u)
    case AddBegun(u, at) => LetIn(before, u, BeginAdd) || PasskeyLinkOpened(before, u)
    case KeyAdded(u, c, at, via) => AddTaken(u, at) in before
    case LinkIssued(k, u, subject, address, at) => LetIn(before, u, LinkFreja(address, subject))
    case EmailIssued(k, u, address, at) => ChangeAsked(before, u, address)
    case Renamed(u, address) => Renaming(before, u, address)
    case ResetFiled(r, u, provider) => Found(before, u, ToReset)
    case ResetOpened(r, u, provider, address, at) =>
      && RequestOf(before, r).Some? && RequestOf(before, r).value.user == u
      && (exists token :: LinkGood(before, r, token, provider, at))
      && (provider == ViaFreja ==> Bears(before, u, address))
    case SubjectReset(u, subject, address, r, began) => ResetOpened(r, u, ViaFreja, address, began) in before
    case _ => true
  }

  ghost predicate AllWarranted(log: Log) {
    forall k :: 0 <= k < |log| ==> Warranted(log[..k], log[k])
  }

  /** What a request in flight rests on. */
  ghost predicate Rests(log: Log, t: Task) {
    match t
    case Gated(Gate1(cookie, u, role, act, at)) => LetIn(log, u, act)
    case LoggingIn(FinishLogin1(u)) => u != "" ==> Found(log, u, ToFinish)
    case LoggingIn(FinishLogin2(u)) => Found(log, u, ToFinish) && ChallengeTaken(log, u)
    case LoggingIn(EnterSession(u, ByPasskey)) => Found(log, u, ToFinish) && ChallengeTaken(log, u)
    case Settings(BeginAdd0(u)) => LetIn(log, u, BeginAdd)
    case Settings(FinishAdd1(u, began)) => AddTaken(u, began) in log
    case Settings(Link0(u, email, subject)) => LetIn(log, u, LinkFreja(email, subject))
    case Settings(Link1(u, email, subject)) => LetIn(log, u, LinkFreja(email, subject))
    case Settings(ChangeEmail0(u, email)) => ChangeAsked(log, u, email)
    case Settings(ChangeEmail1(u, email)) => ChangeAsked(log, u, email)
    case Settings(ConfirmEmail1(u, email)) => Renaming(log, u, email)
    case Resetting(RequestReset1(u, provider)) => Found(log, u, ToReset)
    case Resetting(RequestReset2(u, provider)) => Found(log, u, ToReset)
    case Resetting(BeginReset1(u)) => PasskeyLinkOpened(log, u)
    case Resetting(FinishReset2(r, u, began)) => AddTaken(u, began) in log
    case Resetting(ResetFreja1(r, u, email, subject, began)) => ResetOpened(r, u, ViaFreja, email, began) in log
    case _ => true
  }

  // ------------------------------------------------------------------ the log grows

  lemma LetInStays(log: Log, more: Log, u: Id, act: Action)
    requires LetIn(log, u, act)
    ensures LetIn(log + more, u, act)
  {
    var k :| 0 <= k < |log| && log[k].Admitted? && log[k].user == u && log[k].act == act;
    assert (log + more)[k] == log[k];
  }

  lemma FoundStays(log: Log, more: Log, u: Id, purpose: Purpose)
    requires Found(log, u, purpose)
    ensures Found(log + more, u, purpose)
  {
    var k :| 0 <= k < |log| && log[k].LookedUp? && log[k].user == u && log[k].purpose == purpose;
    assert (log + more)[k] == log[k];
  }

  lemma ChallengeStays(log: Log, more: Log, u: Id)
    requires ChallengeTaken(log, u)
    ensures ChallengeTaken(log + more, u)
  {
    var k :| 0 <= k < |log| && log[k].LoginTaken? && log[k].user == u;
    assert (log + more)[k] == log[k];
  }

  lemma LinkStays(log: Log, more: Log, u: Id)
    requires PasskeyLinkOpened(log, u)
    ensures PasskeyLinkOpened(log + more, u)
  {
    var k :| 0 <= k < |log| && log[k].ResetOpened? && log[k].user == u && log[k].provider == ViaPasskey;
    assert (log + more)[k] == log[k];
  }

  lemma AskedStays(log: Log, more: Log, u: Id, address: string)
    requires ChangeAsked(log, u, address)
    ensures ChangeAsked(log + more, u, address)
  {
    hide AskedFor;
    var k :| 0 <= k < |log| && AskedFor(log[k], u, address);
    assert (log + more)[k] == log[k];
  }

  lemma RenamingStays(log: Log, more: Log, u: Id, address: string)
    requires Renaming(log, u, address)
    ensures Renaming(log + more, u, address)
  {
    var k :| 0 <= k < |log| && log[k].EmailTakenOut? && log[k].user == u && log[k].address == address;
    assert (log + more)[k] == log[k];
  }

  lemma RestsStays(log: Log, more: Log, t: Task)
    requires Rests(log, t)
    ensures Rests(log + more, t)
  {
    hide LetIn, Found, ChallengeTaken, PasskeyLinkOpened, ChangeAsked, Renaming;
    match t
    case Gated(Gate1(cookie, u, role, act, at)) => LetInStays(log, more, u, act);
    case LoggingIn(FinishLogin1(u)) => if u != "" { FoundStays(log, more, u, ToFinish); }
    case LoggingIn(FinishLogin2(u)) => FoundStays(log, more, u, ToFinish); ChallengeStays(log, more, u);
    case LoggingIn(EnterSession(u, ByPasskey)) => FoundStays(log, more, u, ToFinish); ChallengeStays(log, more, u);
    case Settings(BeginAdd0(u)) => LetInStays(log, more, u, BeginAdd);
    case Settings(Link0(u, email, subject)) => LetInStays(log, more, u, LinkFreja(email, subject));
    case Settings(Link1(u, email, subject)) => LetInStays(log, more, u, LinkFreja(email, subject));
    case Settings(ChangeEmail0(u, email)) => AskedStays(log, more, u, email);
    case Settings(ChangeEmail1(u, email)) => AskedStays(log, more, u, email);
    case Settings(ConfirmEmail1(u, email)) => RenamingStays(log, more, u, email);
    case Resetting(RequestReset1(u, provider)) => FoundStays(log, more, u, ToReset);
    case Resetting(RequestReset2(u, provider)) => FoundStays(log, more, u, ToReset);
    case Resetting(BeginReset1(u)) => LinkStays(log, more, u);
    case _ =>
  }

  lemma WarrantedAppended(log: Log, e: Option<Event>)
    requires AllWarranted(log) && (e.Some? ==> Warranted(log, e.value))
    ensures AllWarranted(log + Logged(e))
  {
    hide Warranted;
    var all := log + Logged(e);
    forall k | 0 <= k < |all| ensures Warranted(all[..k], all[k]) {
      assert all[..k] == log[..k];
      if k == |log| {
        assert log[..k] == log;
      }
    }
  }

  // ---------------------------------------------------------------------- steps

  lemma LastLogged(log: Log, e: Event)
    ensures (log + [e])[|log|] == e
  {
  }

  /** A request rests on what it has just reported, or on what it rested on before. */
  lemma LoginRests(db: Db, log: Log, t: LoginTask, i: Input, o: Outcome)
    requires Rests(log, LoggingIn(t)) && o.next.Some? && LoginNext(db, t, i, o.event, o.next.value)
    requires t.FinishLogin1? ==> t.user != "" && o.event == Some(LoginTaken(t.user, i.now))
    ensures Rests(log + Logged(o.event), o.next.value)
  {
    hide LetIn, Stamp, Before, UserNamed, HasFrejaEmail, KeysOf;
    RestsStays(log, Logged(o.event), LoggingIn(t));
    if o.event.Some? {
      LastLogged(log, o.event.value);
    }
  }

  lemma SettingsRest(db: Db, log: Log, t: SettingsTask, i: Input, o: Outcome)
    requires Rests(log, Settings(t)) && o.next.Some? && SettingsNext(db, t, i, o.next.value)
    requires t.FinishAdd0? ==> o.event == Some(AddTaken(t.user, i.now))
    requires t.ConfirmEmail0? ==>
               && o.event.Some? && o.event.value.EmailTakenOut? && o.next.value.Settings? && o.next.value.s.ConfirmEmail1?
               && o.event.value.user == o.next.value.s.user && o.event.value.address == o.next.value.s.email
    ensures Rests(log + Logged(o.event), o.next.value)
  {
    hide LetIn, Found, ChallengeTaken, PasskeyLinkOpened, ChangeAsked, KeysOf, FrejaKnown, EmailTaken;
    RestsStays(log, Logged(o.event), Settings(t));
    if o.event.Some? {
      LastLogged(log, o.event.value);
    }
  }

  lemma ResettingRests(db: Db, log: Log, t: ResetTask, i: Input, o: Outcome)
    requires Rests(log, Resetting(t)) && o.next.Some? && ResetNext(db, t, i, o, o.next.value)
    requires t.RequestReset0? || t.BeginReset0? ==> EventFits(Resetting(t), i, o.event) && LookupTells(db, Resetting(t), i, o.event)
    requires (t.RequestReset0? || t.BeginReset0?) && o.next.value != Resetting(t) ==> o.event.Some?
    requires t.RequestReset0? && o.event.Some? ==>
               o.next.value.Resetting? && o.next.value.q.RequestReset1? && o.next.value.q.user == o.event.value.user
    requires t.BeginReset0? && o.event.Some? ==>
               o.next.value.Resetting? && o.next.value.q.BeginReset1? && o.next.value.q.user == o.event.value.user
    requires t.FinishReset1? ==> o.event == Some(AddTaken(t.user, t.began))
    ensures Rests(log + Logged(o.event), o.next.value)
  {
    hide LetIn, ChallengeTaken, ChangeAsked, Renaming, Stamp, ResetOpen, ResetPending, EqualFold, Lower, TrimSpace, UserLike;
    RestsStays(log, Logged(o.event), Resetting(t));
    if o.event.Some? {
      LastLogged(log, o.event.value);
    }
  }

  lemma GateRests(db: Db, log: Log, t: GateTask, i: Input, o: Outcome)
    requires Rests(log, Gated(t)) && o.next.Some? && GateNext(db, t, i, o.event, o.next.value) && (t.Gate1? ==> o.event.None?)
    ensures Rests(log + Logged(o.event), o.next.value)
  {
    hide Stamp, CurrentUser, Lower, TrimSpace;
    NoEvent(log);
    if t.Gate0? {
      LastLogged(log, o.event.value);
    } else if t.act.ChangeEmail? {
      var k :| 0 <= k < |log| && log[k].Admitted? && log[k].user == t.user && log[k].act == t.act;
      assert AskedFor(log[k], t.user, TrimSpace(Lower(t.act.email)));
    }
  }

  lemma OthersRest(cfg: Config, db: Db, log: Log, t: RegistrationTask, i: Input, o: Outcome)
    requires o.next.Some? && RegistrationNext(cfg, db, t, i, o, o.next.value)
    ensures Rests(log, o.next.value)
  {
    hide Stamp, SetupOpen, IsAdminEmail, EqualFold;
  }

  lemma FindsLead(cfg: Config, db: Db, t: ResetTask, i: Input)
    ensures var o := Step(cfg, db, Resetting(t), i);
            && (t.RequestReset0? && o.next.Some? && o.next.value != Resetting(t) ==>
                  o.event.Some? && o.event.value.LookedUp? && o.next.value == Resetting(RequestReset1(o.event.value.user, t.provider)))
            && (t.BeginReset0? && o.next.Some? && o.next.value != Resetting(t) ==>
                  o.event.Some? && o.event.value.ResetOpened? && o.next.value == Resetting(BeginReset1(o.event.value.user)))
            && (t.RequestReset0? || t.BeginReset0? ==> o.event.Some? ==> o.next.Some? && o.next.value != Resetting(t))
  {
    hide Stamp, FindReset, FindUserLike, Lower, TrimSpace, EqualFold, UpsertIdentity, GrantResetStep, InsertKeyStep, BeginAddStep;
  }

  lemma TakesLead(cfg: Config, moves: seq<Move>, t: Task, i: Input)
    ensures var s := Execute(cfg, moves);
            var o := Step(cfg, s.db, t, i);
            && (t.LoggingIn? && t.l.FinishLogin1? && o.next.Some? ==> t.l.user != "" && o.event == Some(LoginTaken(t.l.user, i.now)))
            && (t.Settings? && t.s.FinishAdd0? && o.next.Some? ==> o.event == Some(AddTaken(t.s.user, i.now)))
            && (t.Resetting? && t.q.FinishReset1? && o.next.Some? ==> o.event == Some(AddTaken(t.q.user, t.q.began)))
            && (t.Settings? && t.s.ConfirmEmail0? && o.next.Some? ==>
                  && o.event.Some? && o.event.value.EmailTakenOut? && o.next.value.Settings? && o.next.value.s.ConfirmEmail1?
                  && o.event.value.user == o.next.value.s.user && o.event.value.address == o.next.value.s.email)
  {
    hide Execute, Step, Effect, EventFits, NextFits, Stamp, Before;
    var s := Execute(cfg, moves);
    StepEffect(cfg, s.db, t, i);
    TicketMoves(cfg, s.db, t, i, Step(cfg, s.db, t, i));
    NobodyHasNoLogin(cfg, moves);
  }

  lemma NextRests(cfg: Config, moves: seq<Move>, pid: nat, i: Input)
    requires pid in Execute(cfg, moves).pool && Rests(Execute(cfg, moves).log, Execute(cfg, moves).pool[pid])
    ensures var s := Execute(cfg, moves);
            var o := Step(cfg, s.db, s.pool[pid], i); o.next.Some? ==> Rests(s.log + Logged(o.event), o.next.value)
  {
    hide Execute, Step, Rests, EventFits, LookupTells, RegistrationNext, LoginNext, SettingsNext, ResetNext, GateNext;
    var s := Execute(cfg, moves);
    var t, o := s.pool[pid], Step(cfg, s.db, s.pool[pid], i);
    StepTells(cfg, s.db, t, i);
    StepLooksUp(cfg, s.db, t, i);
    TakesLead(cfg, moves, t, i);
    if o.next.Some? {
      match t
      case Registering(r) => OthersRest(cfg, s.db, s.log + Logged(o.event), r, i, o);
      case LoggingIn(l) => LoginRests(s.db, s.log, l, i, o);
      case Settings(q) => SettingsRest(s.db, s.log, q, i, o);
      case Resetting(q) => FindsLead(cfg, s.db, q, i); ResettingRests(s.db, s.log, q, i, o);
      case Gated(g) => GateTellsOnce(g, i, o.event); GateRests(s.db, s.log, g, i, o);
    }
  }

  lemma GateTellsOnce(t: GateTask, i: Input, e: Option<Event>)
    requires EventFits(Gated(t), i, e)
    ensures t.Gate1? ==> e.None?
  {
  }

  /** Where the event is one that a lookup reports. */
  lemma LookupWarranted(cfg: Config, moves: seq<Move>, t: Task, i: Input)
    ensures var s := Execute(cfg, moves);
            var e := Step(cfg, s.db, t, i).event;
            e.Some? && (e.value.LookedUp? || e.value.ResetOpened?) ==> Warranted(s.log, e.value)
  {
    hide Execute, Step, Answers, Bears, UserNamed, UserLike, ResetOpen, LinkGood, Stamp, NextFits, EqualFold, Lower, TrimSpace, RequestOf;
    var s := Execute(cfg, moves);
    var e := Step(cfg, s.db, t, i).event;
    StepTells(cfg, s.db, t, i);
    StepLooksUp(cfg, s.db, t, i);
    if e.Some? && e.value.LookedUp? {
      NamedExactly(cfg, moves, e.value.user, e.value.address);
    } else if e.Some? && e.value.ResetOpened? {
      var token := t.q.token;
      ReachedLinks(cfg, moves, e.value.reset, token, e.value.provider, e.value.at);
      assert LinkGood(s.log, e.value.reset, token, e.value.provider, e.value.at);
      if e.value.provider == ViaFreja {
        BearsFold(s, e.value.user, e.value.address);
      }
    }
  }

  lemma BearsFold(s: Sys, u: Id, address: string)
    requires u in s.db.users && EqualFold(address, s.db.users[u].username) && NameNow(s.log, u) == Some(s.db.users[u].username)
    ensures Bears(s.log, u, address)
  {
    hide EqualFold, SameUpToCase, NameNow;
    EqualFoldExactly(address, s.db.users[u].username);
    EqualFoldExactly(s.db.users[u].username, address);
    FoldTurned(address, s.db.users[u].username);
  }

  lemma FoldTurned(a: string, b: string)
    ensures EqualFold(a, b) <==> EqualFold(b, a)
  {
  }

  lemma EventWarranted(cfg: Config, moves: seq<Move>, pid: nat, i: Input)
    requires pid in Execute(cfg, moves).pool && Rests(Execute(cfg, moves).log, Execute(cfg, moves).pool[pid])
    ensures var s := Execute(cfg, moves);
            var e := Step(cfg, s.db, s.pool[pid], i).event; e.Some? ==> Warranted(s.log, e.value)
  {
    hide Execute, Step, NextFits, Found, LetIn, ChallengeTaken, PasskeyLinkOpened, ChangeAsked, Renaming, Answers, Bears, LinkGood,
      RequestOf;
    var s := Execute(cfg, moves);
    var t, o := s.pool[pid], Step(cfg, s.db, s.pool[pid], i);
    StepTells(cfg, s.db, t, i);
    if o.event.Some? && (o.event.value.LookedUp? || o.event.value.ResetOpened?) {
      LookupWarranted(cfg, moves, t, i);
    } else {
      NobodyTakes(cfg, moves, t, i);
    }
  }

  lemma NobodyTakes(cfg: Config, moves: seq<Move>, t: Task, i: Input)
    ensures var s := Execute(cfg, moves);
            t == LoggingIn(FinishLogin1("")) ==> Step(cfg, s.db, t, i).event.None?
  {
    hide Execute, Stamp, Before;
    NobodyHasNoLogin(cfg, moves);
  }

  // ----------------------------------------------------------------------- runs

  ghost predicate WellFounded(s: Sys) {
    AllWarranted(s.log) && forall p :: p in s.pool ==> Rests(s.log, s.pool[p])
  }

  lemma ArrivalRests(log: Log, t: Task)
    requires IsRequest(t)
    ensures Rests(log, t)
  {
  }

  lemma StepKeepsWarrants(cfg: Config, moves: seq<Move>, pid: nat, i: Input)
    requires WellFounded(Execute(cfg, moves)) && pid in Execute(cfg, moves).pool
    ensures var s := Execute(cfg, moves); WellFounded(After(s, pid, Step(cfg, s.db, s.pool[pid], i)))
  {
    hide Execute, Step, Rests, Warranted, AllWarranted;
    var s := Execute(cfg, moves);
    var o := Step(cfg, s.db, s.pool[pid], i);
    EventWarranted(cfg, moves, pid, i);
    WarrantedAppended(s.log, o.event);
    NextRests(cfg, moves, pid, i);
    forall p | p in s.pool ensures Rests(s.log + Logged(o.event), s.pool[p]) {
      RestsStays(s.log, Logged(o.event), s.pool[p]);
    }
  }

  lemma {:induction false} WellFoundedAlways(cfg: Config, moves: seq<Move>)
    ensures WellFounded(Execute(cfg, moves))
  {
    if moves != [] {
      hide Step, Rests, AllWarranted;
      var before, m := moves[..|moves| - 1], moves[|moves| - 1];
      WellFoundedAlways(cfg, before);
      if m.Run? && m.pid in Execute(cfg, before).pool {
        StepKeepsWarrants(cfg, before, m.pid, m.input);
      } else if m.Arrive? && IsRequest(m.task) {
        ArrivalRests(Execute(cfg, before).log, m.task);
      }
    } else {
      assert AllWarranted([]);
    }
  }

  // ------------------------------------------------------------------- theorems

  /**
   * In every run: whoever a lookup reports then answered to the address; whoever links, changes the address or adds
   * a passkey was let in for that, or opened a reset link that was good; and what is filed, added, renamed or reset
   * follows the lookup, the challenge, the token or the link it needs.
   */
  lemma EventsAreWarranted(cfg: Config, moves: seq<Move>, k: nat)
    requires k < |Execute(cfg, moves).log|
    ensures var log := Execute(cfg, moves).log; Warranted(log[..k], log[k])
  {
    hide Execute, Warranted, Rests;
    WellFoundedAlways(cfg, moves);
  }

  lemma Prefix(log: Log, k: nat, n: nat)
    requires n < k <= |log|
    ensures log[..k][n] == log[n] && log[..k][..n] == log[..n]
  {
  }

  /**
   * Every passkey session belongs to a user whom finishLogin's lookup found, by exactly the name the user then had and
   * at a moment when the latest ban or unban left the user unbanned; and whose challenge, begun less than five minutes
   * before it was taken, was taken.
   */
  lemma PasskeySessionsAreUnbanned(cfg: Config, moves: seq<Move>, k: nat)
    requires var log := Execute(cfg, moves).log; k < |log| && log[k].SessionMade? && log[k].how == ByPasskey
    ensures var log := Execute(cfg, moves).log;
            var u := log[k].user;
            && (exists n, name :: 0 <= n < k && log[n] == LookedUp(u, name, ToFinish)
                                  && NameNow(log[..n], u) == Some(name) && !BannedNow(log[..n], u))
            && (exists n :: 0 <= n < k && log[n].LoginTaken? && log[n].user == u && Good(log[..n], LoginTicket(u), log[n].at))
  {
    hide Execute, Good, NameNow, BannedNow;
    var log := Execute(cfg, moves).log;
    var u := log[k].user;
    EventsAreWarranted(cfg, moves, k);
    assert Found(log[..k], u, ToFinish) && ChallengeTaken(log[..k], u);
    var n :| 0 <= n < k && log[..k][n].LookedUp? && log[..k][n].user == u && log[..k][n].purpose == ToFinish;
    Prefix(log, k, n);
    EventsAreWarranted(cfg, moves, n);
    assert log[n] == LookedUp(u, log[n].address, ToFinish);
    var c :| 0 <= c < k && log[..k][c].LoginTaken? && log[..k][c].user == u;
    Prefix(log, k, c);
    TakenAsIssued(cfg, moves, c);
  }

  /**
   * Every passkey added, from the settings or by a reset, follows a challenge of its user that was taken at the reading
   * the addition carries, while it was the latest one, untaken, and begun less than five minutes (from its whole
   * second) before.
   */
  lemma KeysAreFresh(cfg: Config, moves: seq<Move>, k: nat)
    requires k < |Execute(cfg, moves).log| && Execute(cfg, moves).log[k].KeyAdded?
    ensures var log := Execute(cfg, moves).log;
            var (u, at) := (log[k].user, log[k].at);
            exists n :: 0 <= n < k && log[n] == AddTaken(u, at)
                        && Outstanding(log[..n], AddTicket(u)).Some? && Outstanding(log[..n], AddTicket(u)).value.AddBegun?
                        && at < Outstanding(log[..n], AddTicket(u)).value.at / NANOS * NANOS + 5 * MINUTE
  {
    hide Execute, Outstanding;
    var log := Execute(cfg, moves).log;
    EventsAreWarranted(cfg, moves, k);
    var e := AddTaken(log[k].user, log[k].at);
    var n :| 0 <= n < k && log[..k][n] == e;
    Prefix(log, k, n);
    TakenAsIssued(cfg, moves, n);
  }

  /** Every subject a Freja reset brings came with the name, up to case, that the account had when its good link was opened. */
  lemma ResetSubjectsMatch(cfg: Config, moves: seq<Move>, k: nat)
    requires k < |Execute(cfg, moves).log| && Execute(cfg, moves).log[k].SubjectReset?
    ensures var log := Execute(cfg, moves).log;
            var e := log[k];
            exists n :: 0 <= n < k && log[n] == ResetOpened(e.reset, e.user, ViaFreja, e.address, e.began)
                        && NameNow(log[..n], e.user).Some? && SameUpToCase(NameNow(log[..n], e.user).value, e.address)
  {
    hide Execute, NameNow, SameUpToCase, LinkGood, RequestOf;
    var log := Execute(cfg, moves).log;
    EventsAreWarranted(cfg, moves, k);
    var opening := ResetOpened(log[k].reset, log[k].user, ViaFreja, log[k].address, log[k].began);
    var n :| 0 <= n < k && log[..k][n] == opening;
    Prefix(log, k, n);
    EventsAreWarranted(cfg, moves, n);
  }

  /** Every e-mail change is for an address its user asked for, without the white space around it and in lower case. */
  lemma ChangesAreAsked(cfg: Config, moves: seq<Move>, k: nat)
    requires k < |Execute(cfg, moves).log| && Execute(cfg, moves).log[k].EmailIssued?
    ensures var log := Execute(cfg, moves).log;
            exists n :: 0 <= n < k && log[n].Admitted? && log[n].user == log[k].user && log[n].act.ChangeEmail?
                        && Normalised(log[n].act.email, log[k].address)
  {
    hide Execute, TrimSpace, Lower, Normalised;
    var log := Execute(cfg, moves).log;
    EventsAreWarranted(cfg, moves, k);
    var n :| 0 <= n < k && AskedFor(log[..k][n], log[k].user, log[k].address);
    Prefix(log, k, n);
    NormalisedExactly(log[n].act.email, log[k].address);
  }
}
