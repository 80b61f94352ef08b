/** The session table answers as the event history would, whatever was swept and whenever. */
module Sessions {
  import opened Basics
  import opened Text
  import opened Timestamps
  import opened Tables
  import opened Requests
  import opened Runs
  import opened Effects
  import opened Steps
  import opened Integrity
  import opened History

  // -------------------------------------------------------------------- users

  /** The users table says of `u` what the history says. */
  ghost predicate ToldOf(log: Log, m: map<Id, User>, u: Id) {
    && (u in m <==> RoleNow(log, u).Some?)
    && (u in m ==> m[u].role == RoleNow(log, u).value && m[u].banned == BannedNow(log, u) && NameNow(log, u) == Some(m[u].username))
    && (u !in m ==> !BannedNow(log, u) && NameNow(log, u).None?)
  }

  lemma UserTold(log: Log, m: map<Id, User>, m': map<Id, User>, t: Task, i: Input, e: Option<Event>, u: Id)
    requires ToldOf(log, m, u) && UsersMove(m, m', t, e) && EventFits(t, i, e)
    ensures ToldOf(log + Logged(e), m', u)
  {
    hide ToldOf, RoleNow, BannedNow, NameNow;
    NoEvent(log);
    UserMoved(m, m', t, i, e, u);
    if e.Some? {
      UserToldAfter(log, m, m', e.value, u);
    } else {
      SameUserTold(log, m, m', u);
    }
  }

  /** What an event makes of user `u`. */
  ghost predicate MovedUser(m: map<Id, User>, m': map<Id, User>, e: Event, u: Id) {
    if e.Created? && e.user == u then u in m' && m'[u] == User(e.email, Passive, false) && u !in m
    else if (e.Granted? || e.Banned? || e.Renamed?) && e.user == u then
      && u in m && u in m'
      && m'[u] == if e.Granted? then m[u].(role := e.role)
                  else if e.Banned? then m[u].(banned := e.banned)
                  else m[u].(username := e.address)
    else SameUser(m, m', u)
  }

  ghost predicate SameUser(m: map<Id, User>, m': map<Id, User>, u: Id) {
    (u in m <==> u in m') && (u in m ==> m'[u] == m[u])
  }

  lemma UserMoved(m: map<Id, User>, m': map<Id, User>, t: Task, i: Input, e: Option<Event>, u: Id)
    requires UsersMove(m, m', t, e) && EventFits(t, i, e)
    ensures if e.Some? then MovedUser(m, m', e.value, u) else SameUser(m, m', u)
  {
    hide Stamp, NameFree;
  }

  lemma UserToldAfter(log: Log, m: map<Id, User>, m': map<Id, User>, e: Event, u: Id)
    requires ToldOf(log, m, u) && MovedUser(m, m', e, u)
    ensures ToldOf(log + [e], m', u)
  {
    hide RoleNow, BannedNow, NameNow, Live, LastSweep;
    OneMoreEvent(log, e, u);
  }

  lemma SameUserTold(log: Log, m: map<Id, User>, m': map<Id, User>, u: Id)
    requires ToldOf(log, m, u) && SameUser(m, m', u)
    ensures ToldOf(log, m', u)
  {
    hide RoleNow, BannedNow, NameNow;
  }

  // ----------------------------------------------------------------- sessions

  /** Row `c` is the live session of the history; a live session without row is past its end. */
  ghost predicate Tracked(log: Log, m: map<Id, Session>, c: Id) {
    match Live(log, c)
    case None => c !in m
    case Some((u, at)) => if c in m then m[c].user == u && m[c].expires == Stamp(at + SESSION) else Expired(at, LastSweep(log))
  }

  lemma SweptIsExpired(at: Instant, w: Instant)
    ensures Before(Stamp(at + SESSION), Stamp(w)) ==> Expired(at, w)
    ensures Before(Stamp(w), Stamp(at + SESSION)) <==> !Expired(at, w)
  {
    Lifetime(at, SESSION, w);
    StampOrder(at + SESSION, w);
  }

  lemma SessionTracked(log: Log, m: map<Id, Session>, m': map<Id, Session>, t: Task, i: Input, e: Option<Event>, c: Id)
    requires Tracked(log, m, c) && SessionsMove(m, m', t, i, e) && EventFits(t, i, e)
    ensures Tracked(log + Logged(e), m', c)
  {
    hide SessionsMove, EventFits, Stamp, Before, Expired, Live, LastSweep;
    NoEvent(log);
    if t == LoggingIn(Sweep0) {
      SessionSwept(log, m, m', i, e, c);
    } else {
      SessionMoved(m, m', t, i, e, c);
      if e.Some? {
        OneMoreEvent(log, e.value, c);
      }
    }
  }

  lemma SessionSwept(log: Log, m: map<Id, Session>, m': map<Id, Session>, i: Input, e: Option<Event>, c: Id)
    requires Tracked(log, m, c) && SessionsMove(m, m', LoggingIn(Sweep0), i, e)
    ensures Tracked(log + Logged(e), m', c)
  {
    hide Stamp, Before, Expired, Live, LastSweep;
    OneMoreEvent(log, e.value, c);
    if Live(log, c).Some? {
      var at := Live(log, c).value.1;
      SweptIsExpired(at, i.now);
      LaterIsExpired(at, LastSweep(log), LastSweep(log + Logged(e)));
      LaterIsExpired(at, i.now, LastSweep(log + Logged(e)));
    }
  }

  /** Without a sweep, row `c` is made as the event says, dropped as it says, or keeps its user and its end. */
  lemma SessionMoved(m: map<Id, Session>, m': map<Id, Session>, t: Task, i: Input, e: Option<Event>, c: Id)
    requires SessionsMove(m, m', t, i, e) && EventFits(t, i, e) && t != LoggingIn(Sweep0)
    ensures e.Some? ==> !e.value.Swept?
    ensures if e.Some? && e.value.SessionMade? && e.value.session == c then
              c in m' && m'[c].user == e.value.user && m'[c].expires == Stamp(e.value.at + SESSION)
            else if e.Some? && e.value.SessionDropped? && e.value.session == c then c !in m'
            else (c in m' <==> c in m) && (c in m ==> m'[c].user == m[c].user && m'[c].expires == m[c].expires)
  {
    hide Stamp, Before;
  }

  lemma LaterIsExpired(at: Instant, t: nat, t': nat)
    requires t <= t'
    ensures Expired(at, t) ==> Expired(at, t')
  {
  }

  // --------------------------------------------------------------------- runs

  ghost predicate Faithful(s: Sys) {
    (forall u :: ToldOf(s.log, s.db.users, u)) && (forall c :: Tracked(s.log, s.db.sessions, c))
  }

  lemma StepKeepsFaith(cfg: Config, s: Sys, pid: nat, i: Input, o: Outcome)
    requires Faithful(s) && pid in s.pool && Effect(cfg, s.db, s.pool[pid], i, o)
    ensures Faithful(After(s, pid, o))
  {
    var log := s.log + Logged(o.event);
    StepSessions(cfg, s.db, s.pool[pid], i, o);
    hide Effect, UsersMove, SessionsMove, EventFits, ToldOf, Tracked;
    forall u ensures ToldOf(log, o.db.users, u) {
      assert ToldOf(s.log, s.db.users, u);
      UserTold(s.log, s.db.users, o.db.users, s.pool[pid], i, o.event, u);
    }
    forall c ensures Tracked(log, o.db.sessions, c) {
      assert Tracked(s.log, s.db.sessions, c);
      SessionTracked(s.log, s.db.sessions, o.db.sessions, s.pool[pid], i, o.event, c);
    }
  }

  lemma StepSessions(cfg: Config, db: Db, t: Task, i: Input, o: Outcome)
    requires Effect(cfg, db, t, i, o)
    ensures UsersMove(db.users, o.db.users, t, o.event) && SessionsMove(db.sessions, o.db.sessions, t, i, o.event)
    ensures EventFits(t, i, o.event)
  {
  }

  lemma {:induction false} FaithfulAlways(cfg: Config, moves: seq<Move>)
    ensures Faithful(Execute(cfg, moves))
  {
    if moves != [] {
      hide Step, Effect, ToldOf, Tracked;
      var s, m := Execute(cfg, moves[..|moves| - 1]), moves[|moves| - 1];
      FaithfulAlways(cfg, moves[..|moves| - 1]);
      if m.Run? && m.pid in s.pool {
        StepEffect(cfg, s.db, s.pool[m.pid], m.input);
        StepKeepsFaith(cfg, s, m.pid, m.input, Step(cfg, s.db, s.pool[m.pid], m.input));
      }
    }
  }

  /** One state: rows and history give the same visitor to any reader not behind the last sweep. */
  lemma SameVisitor(s: Sys, c: Id, t: Instant)
    requires Faithful(s) && ForeignKeys(s.db) && t >= LastSweep(s.log)
    ensures CurrentUser(s.db, c, Stamp(t)) == Visitor(s.log, c, t)
  {
    hide Stamp, Before;
    assert Tracked(s.log, s.db.sessions, c);
    if Live(s.log, c).Some? {
      var (u, at) := Live(s.log, c).value;
      assert ToldOf(s.log, s.db.users, u);
      SweptIsExpired(at, t);
    }
  }

  /** Whoever GetSession lets in is the visitor of the history, even for a reading that a sweep has passed. */
  lemma AdmittedIsVisitor(s: Sys, c: Id, t: Instant)
    requires Faithful(s) && CurrentUser(s.db, c, Stamp(t)).Some?
    ensures Visitor(s.log, c, t) == CurrentUser(s.db, c, Stamp(t))
  {
    hide Stamp, Before;
    assert Tracked(s.log, s.db.sessions, c);
    var (u, at) := Live(s.log, c).value;
    assert ToldOf(s.log, s.db.users, u);
    SweptIsExpired(at, t);
  }

  /**
   * GetSession refines the history: after any run, for any cookie and any clock reading that no sweep has
   * passed, it answers user and role exactly when the latest creation of that session was for that user,
   * less than thirty days after the second it happened in, with no logout since, and the user's latest
   * ban or unban leaves them unbanned. Visits never extend a session.
   */
  lemma GetSessionRefinesHistory(cfg: Config, moves: seq<Move>, c: Id, t: Instant)
    requires t >= LastSweep(Execute(cfg, moves).log)
    ensures CurrentUser(Execute(cfg, moves).db, c, Stamp(t)) == Visitor(Execute(cfg, moves).log, c, t)
  {
    hide Step, ToldOf, Tracked, CurrentUser, Visitor;
    FaithfulAlways(cfg, moves);
    SchemaAlways(cfg, moves);
    SameVisitor(Execute(cfg, moves), c, t);
  }
}
