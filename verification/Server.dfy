/**
 * The handlers as the server runs them: methods over the tables, one request at a time. Every method is
 * proved to be a run of the statement machine, so whatever holds after every run holds of this object.
 */
module Server {
  import opened Basics
  import opened Text
  import opened Timestamps
  import opened Tables
  import opened Requests
  import opened Runs
  import opened PublicKeys
  import Accounts
  import Integrity

  /** One request, the moves made before it, and the clock and random values it is served with. */
  datatype Job = Job(before: seq<Move>, task: Task, env: Input)

  /** The answer to a lookup and the id drawn for a row may differ from statement to statement. */
  ghost predicate Drawn(env: Input, i: Input) {
    i == env.(row := i.row, id := i.id)
  }

  /** `run` is what came before, the arrival of the request, and some of its statements. */
  ghost predicate Served(job: Job, run: seq<Move>) {
    && |run| > |job.before| && run[..|job.before|] == job.before && run[|job.before|] == Arrive(0, job.task)
    && forall k :: |job.before| < k < |run| ==> run[k].Run? && run[k].pid == 0 && Drawn(job.env, run[k].input)
  }

  lemma OneMoreStatement(job: Job, run: seq<Move>, i: Input)
    requires Served(job, run) && Drawn(job.env, i)
    ensures Served(job, run + [Run(0, i)])
  {
    hide Drawn;
    var more := run + [Run(0, i)];
    assert more[..|job.before|] == run[..|job.before|];
    forall k | |job.before| < k < |more| ensures more[k].Run? && more[k].pid == 0 && Drawn(job.env, more[k].input) {
      assert k < |run| ==> more[k] == run[k];
    }
  }

  class Server {
    const cfg: Config

    var users: map<Id, User>
    var sessions: map<Id, Session>
    var identities: map<Id, Identity>
    var passkeys: map<Id, Passkey>
    var registrations: map<Id, Registration>
    var resets: map<Id, Reset>
    var logins: map<Id, Challenge>
    var adds: map<Id, Challenge>
    var links: map<Id, Link>
    var emails: map<Id, EmailChange>

    /** Every statement so far, and where the machine is after them. */
    ghost var run: seq<Move>
    ghost var sys: Sys

    function Rows(): Db
      reads this
    {
      Db(users, sessions, identities, passkeys, registrations, resets, logins, adds, links, emails)
    }

    /** `sys` is where `run` leads, and `run` serves one request at a time. */
    ghost predicate Reached()
      reads `run, `sys
    {
      sys == Execute(cfg, run) && forall k :: 0 <= k < |run| ==> run[k].pid == 0
    }

    /** The tables are what the machine's run leaves, with no request in flight. */
    ghost predicate Idle()
      reads this
    {
      Reached() && sys.db == Rows() && sys.pool == map[]
    }

    /** Between requests, `job` having just been served. */
    ghost predicate Done(job: Job)
      reads this
    {
      Idle() && Served(job, run)
    }

    /** The machine is in the middle of `job`, which is now at `t`. */
    ghost predicate InFlight(job: Job, t: Task)
      reads `run, `sys
    {
      Reached() && sys.pool == map[0 := t] && Served(job, run)
    }

    /** So is the server. */
    ghost predicate At(job: Job, t: Task)
      reads this
    {
      InFlight(job, t) && sys.db == Rows()
    }

    constructor (cfg: Config)
      ensures Idle() && this.cfg == cfg && run == [] && Rows() == EMPTY
    {
      this.cfg := cfg;
      users, sessions, identities, passkeys, registrations := map[], map[], map[], map[], map[];
      resets, logins, adds, links, emails := map[], map[], map[], map[], map[];
      run, sys := [], START;
    }

    ghost method Receive(t: Task, env: Input) returns (job: Job)
      requires Idle() && IsRequest(t)
      modifies `run, `sys
      ensures job == Job(old(run), t, env) && At(job, t) && sys.log == old(sys.log)
    {
      hide Step, Execute;
      ExecuteOneMore(cfg, run, Arrive(0, t));
      job := Job(run, t, env);
      run := run + [Arrive(0, t)];
      sys := Moved(cfg, sys, Arrive(0, t));
    }

    /** The tables have just become what statement `t` makes of them. */
    ghost method Commit(job: Job, t: Task, i: Input)
      requires InFlight(job, t) && Drawn(job.env, i)
      requires Step(cfg, sys.db, t, i).db == Rows()
      modifies `run, `sys
      ensures var o := old(Step(cfg, sys.db, t, i));
              && sys.log == old(sys.log) + Logged(o.event)
              && (if o.next.Some? then At(job, o.next.value) else Done(job))
    {
      hide Step, Execute;
      ExecuteOneMore(cfg, run, Run(0, i));
      OneMoreStatement(job, run, i);
      run := run + [Run(0, i)];
      sys := Moved(cfg, sys, Run(0, i));
    }

    // --------------------------------------------------------- lookups

    // What a WHERE clause asks of a row, column by column.

    predicate IsNamed(u: Id, email: string)
      reads `users
    {
      u in users && users[u].username == email && !users[u].banned
    }

    predicate IsLike(u: Id, email: string)
      reads `users
    {
      u in users && SameUpToCase(users[u].username, email)
    }

    predicate MailOpen(g: Id, token: Id, now: Instant)
      reads `registrations
    {
      && g in registrations && registrations[g].emailToken == token && !registrations[g].verified
      && Before(Stamp(now), registrations[g].expires)
    }

    predicate SetupLinkOpen(g: Id, token: Id, now: Instant)
      reads `registrations
    {
      && g in registrations && registrations[g].verified && registrations[g].status == Pending && registrations[g].setup.Some?
      && registrations[g].setup.value.token == token && Before(Stamp(now), registrations[g].setup.value.expires)
    }

    predicate ResetLinkOpen(r: Id, token: Id, provider: Provider, now: Instant)
      reads `resets, `users
    {
      && r in resets && resets[r].user in users && resets[r].status == Approved && resets[r].provider == provider
      && resets[r].setup.Some? && resets[r].setup.value.token == token && Before(Stamp(now), resets[r].setup.value.expires)
    }

    /** The challenge of `u` for adding a passkey is there and unexpired. */
    predicate AddOpen(u: Id, now: Instant)
      reads `adds
    {
      u in adds && Before(Stamp(now), adds[u].expires)
    }

    /** SELECT ... FROM users WHERE username = ? AND is_banned = 0 */
    method SelectUser(email: string) returns (row: Option<Id>)
      ensures FindUser(Rows(), row, email) == if row.Some? then Found(row.value) else Nothing
      ensures row.Some? ==> IsNamed(row.value, email)
    {
      row := None;
      if exists u :: u in users && UserNamed(Rows(), u, email) {
        var u :| u in users && UserNamed(Rows(), u, email);
        row := Some(u);
      }
    }

    /** SELECT id FROM users WHERE LOWER(username) = LOWER(?) */
    method SelectUserLike(email: string) returns (row: Option<Id>)
      ensures FindUserLike(Rows(), row, email) == if row.Some? then Found(row.value) else Nothing
      ensures row.Some? ==> IsLike(row.value, email)
    {
      hide Lower, SameUpToCase;
      row := None;
      if AnyUserLike(Rows(), email) {
        var u :| u in users && UserLike(Rows(), u, email);
        row := Some(u);
        EqualFoldExactly(users[u].username, email);
      }
    }

    /** The row a verification link may update. */
    method SelectVerifiable(token: Id, at: Instant) returns (row: Option<Id>)
      ensures FindVerifiable(Rows(), row, token, Stamp(at)) == if row.Some? then Found(row.value) else Nothing
      ensures row.Some? ==> MailOpen(row.value, token, at)
    {
      hide Before, Stamp;
      var now := Stamp(at);
      row := None;
      if exists g :: g in registrations && Verifiable(Rows(), g, token, now) {
        var g :| g in registrations && Verifiable(Rows(), g, token, now);
        row := Some(g);
      }
    }

    /** SELECT ... FROM registration_requests WHERE setup_token = ? AND ... */
    method SelectSetup(token: Id, at: Instant) returns (row: Option<Id>)
      ensures FindSetup(Rows(), row, token, Stamp(at)) == if row.Some? then Found(row.value) else Nothing
      ensures if row.Some? then old(SetupLinkOpen(row.value, token, at)) else forall g :: !old(SetupLinkOpen(g, token, at))
    {
      hide Before, Stamp;
      var now := Stamp(at);
      row := None;
      assert forall g :: SetupLinkOpen(g, token, at) <==> SetupOpen(Rows(), g, token, now);
      if exists g :: g in registrations && SetupOpen(Rows(), g, token, now) {
        var g :| g in registrations && SetupOpen(Rows(), g, token, now);
        row := Some(g);
      }
    }

    /** SELECT ... FROM credential_reset_requests JOIN users WHERE setup_token = ? AND ... */
    method SelectReset(token: Id, at: Instant, provider: Provider) returns (row: Option<Id>)
      ensures FindReset(Rows(), row, token, Stamp(at), provider) == if row.Some? then Found(row.value) else Nothing
      ensures row.Some? ==> ResetLinkOpen(row.value, token, provider, at)
    {
      hide Before, Stamp;
      var now := Stamp(at);
      row := None;
      if exists r :: r in resets && ResetOpen(Rows(), r, token, now, provider) {
        var r :| r in resets && ResetOpen(Rows(), r, token, now, provider);
        row := Some(r);
      }
    }

    /** SELECT user_id FROM user_identities WHERE provider_subject = ? */
    method SelectSubject(subject: string) returns (row: Option<Id>)
      ensures FindSubject(Rows(), row, subject) == if row.Some? then Found(row.value) else Nothing
      ensures if row.Some? then HasSubject(Rows(), row.value, subject) else SubjectOfNobody(subject)
    {
      row := None;
      if exists k :: k in identities && HasSubject(Rows(), k, subject) {
        var k :| k in identities && HasSubject(Rows(), k, subject);
        row := Some(k);
      }
    }

    /** SELECT user_id FROM user_identities WHERE LOWER(provider_email) = LOWER(?) */
    method SelectFrejaEmail(email: string) returns (row: Option<Id>)
      ensures FindFrejaEmail(Rows(), row, email) == if row.Some? then Found(row.value) else Nothing
      ensures row.Some? ==> row.value in identities && ReportsFor(identities[row.value].user, email)
    {
      hide Lower, SameUpToCase;
      row := None;
      if exists k :: k in identities && HasFrejaEmail(Rows(), k, email) {
        var k :| k in identities && HasFrejaEmail(Rows(), k, email);
        EqualFoldExactly(identities[k].email, email);
        row := Some(k);
      }
    }

    // -------------------------------------------------------- sessions

    /** The cookie names a session of `u`. */
    predicate Entered(cookie: Id, u: Id)
      reads `sessions
    {
      cookie in sessions && sessions[cookie].user == u
    }

    /** CreateSession */
    method CreateSession(u: Id, how: How, id: Uuid, env: Input, ghost job: Job) returns (cookie: Option<Id>)
      requires At(job, LoggingIn(EnterSession(u, how))) && job.env == env
      modifies `sessions, `run, `sys
      ensures Done(job)
      ensures cookie == if id !in old(sessions) && u in users then Some(id) else None
      ensures if cookie.Some? then Entered(id, u) else sessions == old(sessions)
    {
      hide Stamp, Done, InFlight;
      cookie := None;
      if id !in sessions && u in users {
        sessions := sessions[id := Session(u, Stamp(env.now + SESSION), Stamp(env.now))];
        cookie := Some(id);
      }
      Commit(job, LoggingIn(EnterSession(u, how)), env.(id := id));
    }

    /** The cookie is that of an unexpired session of an unbanned admin. */
    predicate IsAdmin(cookie: Id, now: Instant)
      reads this
    {
      var who := CurrentUser(Rows(), cookie, Stamp(now));
      who.Some? && who.value.1 == Admin
    }

    /** RequireAuth and, for admin pages, RequireRole: GetSession's SELECT and UPDATE. */
    method RequireAuth(cookie: Id, act: Action, env: Input, ghost job: Job) returns (user: Option<Id>)
      requires At(job, Gated(Gate0(cookie, act))) && job.env == env
      modifies `sessions, `run, `sys
      ensures if user.Some? then At(job, Enter(act, cookie, user.value, env.now)) else Done(job)
      ensures var who := old(CurrentUser(Rows(), cookie, Stamp(env.now)));
              && user == (if who.Some? && (NeedsAdmin(act) ==> who.value.1 == Admin) then Some(who.value.0) else None)
              && (user.Some? ==> user.value in users)
    {
      hide Stamp, Before, Done, InFlight;
      var who := CurrentUser(Rows(), cookie, Stamp(env.now));
      Commit(job, Gated(Gate0(cookie, act)), env);
      user := None;
      if who.Some? {
        user := Touch(cookie, who.value.0, who.value.1, act, env, job);
      }
    }

    method Touch(cookie: Id, u: Id, role: Role, act: Action, env: Input, ghost job: Job) returns (user: Option<Id>)
      requires At(job, Gated(Gate1(cookie, u, role, act, env.now))) && job.env == env
      modifies `sessions, `run, `sys
      ensures user == if NeedsAdmin(act) && role != Admin then None else Some(u)
      ensures if user.Some? then At(job, Enter(act, cookie, u, env.now)) else Done(job)
    {
      hide Stamp, Done, InFlight, Enter;
      if cookie in sessions {
        sessions := sessions[cookie := sessions[cookie].(lastSeen := Stamp(env.now))];
      }
      Commit(job, Gated(Gate1(cookie, u, role, act, env.now)), env);
      user := if NeedsAdmin(act) && role != Admin then None else Some(u);
    }

    method Logout(cookie: Id, env: Input) returns (ok: bool)
      requires Idle()
      modifies this
      ensures Done(Job(old(run), Gated(Gate0(cookie, Action.Logout)), env))
      ensures ok ==> cookie !in sessions
    {
      hide Step, Stamp, Before, Done, InFlight, CurrentUser;
      ghost var job := Receive(Gated(Gate0(cookie, Action.Logout)), env);
      var user := RequireAuth(cookie, Action.Logout, env, job);
      ok := user.Some?;
      if ok {
        DeleteSession(cookie, env, job);
      }
    }

    /** DELETE FROM sessions WHERE id = ? */
    method DeleteSession(cookie: Id, env: Input, ghost job: Job)
      requires At(job, LoggingIn(Logout0(cookie))) && job.env == env
      modifies `sessions, `run, `sys
      ensures Done(job) && cookie !in sessions
    {
      hide Stamp, Done, InFlight;
      sessions := sessions - {cookie};
      Commit(job, LoggingIn(Logout0(cookie)), env);
    }

    /** CleanupSessions */
    method CleanupSessions(env: Input)
      requires Idle()
      modifies this
      ensures Done(Job(old(run), LoggingIn(Sweep0), env)) && Rows() == DeleteExpired(old(Rows()), Stamp(env.now))
    {
      hide Stamp, Before, Done, InFlight;
      ghost var job := Receive(LoggingIn(Sweep0), env);
      var now := Stamp(env.now);
      sessions := map s | s in sessions && !Before(sessions[s].expires, now) :: sessions[s];
      Commit(job, LoggingIn(Sweep0), env);
    }

    // --------------------------------------------------- passkey login

    method BeginLogin(email: string, env: Input) returns (ok: bool)
      requires Idle()
      modifies this
      ensures Done(Job(old(run), LoggingIn(BeginLogin0(email)), env))
      ensures ok ==>
                && env.challenge.Some?
                && exists u :: old(IsNamed(u, email) && HasPasskey(u))
                               && logins == old(logins)[u := Challenge(env.challenge.value, Stamp(env.now + 5 * MINUTE))]
      ensures !ok ==> Rows() == old(Rows())
    {
      hide Stamp, Done, InFlight, UserNamed, FindUser, KeysOf, IsNamed, HasPasskey;
      ok := false;
      ghost var job := Receive(LoggingIn(BeginLogin0(email)), env);
      var row := SelectUser(email);
      Commit(job, LoggingIn(BeginLogin0(email)), env.(row := row));
      if row.Some? {
        var u := row.value;
        CountedByUser(u);
        var has := KeysOf(Rows(), u) != {} && env.challenge.Some?;
        Commit(job, LoggingIn(BeginLogin1(u)), env);
        if has {
          ok := UpsertLogin(u, env.challenge.value, env, job);
        }
      }
    }

    /** INSERT INTO webauthn_login_sessions ... ON CONFLICT (user_id) DO UPDATE */
    method UpsertLogin(u: Id, challenge: string, env: Input, ghost job: Job) returns (ok: bool)
      requires At(job, LoggingIn(BeginLogin2(u, challenge))) && job.env == env
      modifies `logins, `run, `sys
      ensures Done(job) && ok == (u in users)
      ensures if ok then logins == old(logins)[u := Challenge(challenge, Stamp(env.now + 5 * MINUTE))] else Rows() == old(Rows())
    {
      hide Stamp, Done, InFlight;
      ok := u in users;
      if ok {
        logins := logins[u := Challenge(challenge, Stamp(env.now + 5 * MINUTE))];
      }
      Commit(job, LoggingIn(BeginLogin2(u, challenge)), env);
    }

    /** The empty user id, with which finishLogin goes on after a failed lookup, never has a challenge. */
    lemma NoLoginForNobody()
      requires Idle()
      ensures "" !in logins
    {
      hide Execute;
      Accounts.NobodyHasNoLogin(cfg, run);
    }

    method FinishLogin(email: string, env: Input) returns (cookie: Option<Id>)
      requires Idle()
      modifies this
      ensures Done(Job(old(run), LoggingIn(FinishLogin0(email)), env))
      ensures cookie.Some? ==> cookie.value in sessions && var u := sessions[cookie.value].user;
                               && old(IsNamed(u, email)) && u in old(logins) && Before(Stamp(env.now), old(logins)[u].expires)
                               && u !in logins
      ensures cookie.None? ==> sessions == old(sessions)
    {
      hide Stamp, Before, Done, InFlight, UserNamed, FindUser, IsNamed;
      cookie := None;
      NoLoginForNobody();
      ghost var job := Receive(LoggingIn(FinishLogin0(email)), env);
      var row := SelectUser(email);
      var u := if row.Some? then row.value else "";
      Commit(job, LoggingIn(FinishLogin0(email)), env.(row := row));
      var taken := TakeLogin(u, env, job);
      if taken {
        cookie := VerifyLogin(u, env, job);
      }
    }

    /** DELETE FROM webauthn_login_sessions ... RETURNING session_data */
    method TakeLogin(u: Id, env: Input, ghost job: Job) returns (taken: bool)
      requires At(job, LoggingIn(FinishLogin1(u))) && job.env == env
      modifies `logins, `run, `sys
      ensures if taken then At(job, LoggingIn(FinishLogin2(u))) else Done(job)
      ensures taken ==> u in old(logins) && Before(Stamp(env.now), old(logins)[u].expires) && u !in logins
    {
      hide Stamp, Before, Done, InFlight;
      taken := u in logins && Before(Stamp(env.now), logins[u].expires);
      if taken {
        logins := logins - {u};
      }
      Commit(job, LoggingIn(FinishLogin1(u)), env);
    }

    /** What the WebAuthn library verified becomes the new sign count and a session. */
    method VerifyLogin(u: Id, env: Input, ghost job: Job) returns (cookie: Option<Id>)
      requires At(job, LoggingIn(FinishLogin2(u))) && job.env == env
      modifies `passkeys, `sessions, `run, `sys
      ensures Done(job) && (if cookie.Some? then Entered(cookie.value, u) else sessions == old(sessions))
    {
      hide Stamp, Done, InFlight;
      cookie := None;
      match env.asserted {
        case None =>
          Commit(job, LoggingIn(FinishLogin2(u)), env);
        case Some((credId, count)) =>
          passkeys := map k | k in passkeys ::
            if passkeys[k].user == u && passkeys[k].credId == credId then passkeys[k].(signCount := count) else passkeys[k];
          Commit(job, LoggingIn(FinishLogin2(u)), env);
          cookie := CreateSession(u, ByPasskey, env.id, env, job);
      }
    }

    // ----------------------------------------------------- Freja login

    method FrejaLogin(email: string, subject: string, env: Input) returns (cookie: Option<Id>)
      requires Idle()
      modifies this
      ensures Done(Job(old(run), LoggingIn(FrejaLogin0(email, subject)), env))
      ensures if cookie.Some? then
                && email != "" && cookie.value in sessions
                && var u := sessions[cookie.value].user;
                   old(SubjectOf(u, subject)) || (subject != "" && old(SubjectOfNobody(subject) && ReportsFor(u, email)))
              else sessions == old(sessions)
    {
      hide Stamp, Done, InFlight, FindSubject, HasSubject, SubjectOf, SubjectOfNobody, ReportsFor;
      cookie := None;
      ghost var job := Receive(LoggingIn(FrejaLogin0(email, subject)), env);
      var row := SelectSubject(subject);
      Commit(job, LoggingIn(FrejaLogin0(email, subject)), env.(row := row));
      if email != "" {
        if row.Some? {
          assert SubjectOf(identities[row.value].user, subject) by { SubjectFound(row.value, subject); }
          cookie := CreateSession(identities[row.value].user, ByFreja, env.id, env, job);
        } else if subject != "" {
          cookie := FrejaFallback(email, subject, env, job);
        }
      }
    }

    predicate SubjectOf(u: Id, subject: string)
      reads `identities
    {
      exists k :: k in identities && identities[k].user == u && identities[k].subject == subject
    }

    predicate SubjectOfNobody(subject: string)
      reads `identities
    {
      forall k :: k in identities ==> identities[k].subject != subject
    }

    predicate ReportsFor(u: Id, email: string)
      reads `identities
    {
      exists k :: k in identities && identities[k].user == u && SameUpToCase(identities[k].email, email)
    }

    lemma SubjectFound(k: Id, subject: string)
      requires HasSubject(Rows(), k, subject)
      ensures SubjectOf(identities[k].user, subject)
    {
    }

    /** The lookup by e-mail address and the rebinding UPDATE, whose failure is ignored. */
    method FrejaFallback(email: string, subject: string, env: Input, ghost job: Job) returns (cookie: Option<Id>)
      requires At(job, LoggingIn(FrejaLogin1(email, subject))) && job.env == env
      modifies `identities, `sessions, `run, `sys
      ensures Done(job)
      ensures if cookie.Some? then cookie.value in sessions && var u := sessions[cookie.value].user; old(ReportsFor(u, email))
              else sessions == old(sessions)
    {
      hide Stamp, Done, InFlight, FindFrejaEmail, Lower, ReportsFor;
      cookie := None;
      var row := SelectFrejaEmail(email);
      Commit(job, LoggingIn(FrejaLogin1(email, subject)), env.(row := row));
      if row.Some? {
        var u := identities[row.value].user;
        RebindSubject(u, subject, env, job);
        cookie := CreateSession(u, ByFreja, env.id, env, job);
      }
    }

    method RebindSubject(u: Id, subject: string, env: Input, ghost job: Job)
      requires At(job, LoggingIn(FrejaLogin2(u, subject))) && job.env == env
      modifies `identities, `run, `sys
      ensures At(job, LoggingIn(EnterSession(u, ByFreja)))
    {
      hide Stamp, Done, InFlight;
      match Rebind(Rows(), u, subject) {
        case None =>
        case Some(d) => identities := d.identities;
      }
      Commit(job, LoggingIn(FrejaLogin2(u, subject)), env);
    }

    // ---------------------------------------------------- registration

    method SubmitRequest(email: string, env: Input) returns (ok: bool)
      requires Idle()
      modifies this
      ensures Done(Job(old(run), Registering(Submit0(email)), env))
      ensures ok <==> registrations != old(registrations)
      ensures ok ==> email != "" && (forall u :: !old(IsLike(u, email))) && old(NeverFiled(email))
                     && registrations == old(registrations)[env.id := Fresh(email, env)]
    {
      hide Stamp, Done, InFlight, AnyUserLike, EmailRegistered, IsLike, NeverFiled, Fresh;
      ok := false;
      NobodyLike(email);
      FiledBefore(email);
      ghost var job := Receive(Registering(Submit0(email)), env);
      var refused := email == "" || AnyUserLike(Rows(), email);
      Commit(job, Registering(Submit0(email)), env);
      if !refused {
        var registered := EmailRegistered(Rows(), email);
        Commit(job, Registering(Submit1(email)), env);
        if !registered {
          ok := InsertRequest(email, env, job);
        }
      }
    }

    lemma NobodyLike(email: string)
      ensures AnyUserLike(Rows(), email) <==> exists u :: IsLike(u, email)
    {
      hide Lower, SameUpToCase;
      forall u | u in users ensures UserLike(Rows(), u, email) <==> IsLike(u, email) {
        EqualFoldExactly(users[u].username, email);
      }
      if u :| IsLike(u, email) {
        assert UserLike(Rows(), u, email);
      }
    }

    predicate NeverFiled(email: string)
      reads `registrations
    {
      forall g :: g in registrations ==> registrations[g].email != email
    }

    lemma FiledBefore(email: string)
      ensures EmailRegistered(Rows(), email) <==> !NeverFiled(email)
    {
    }

    /** An unverified, undecided row whose verification link is good for a day. */
    function Fresh(email: string, env: Input): Registration {
      Registration(env.token, email, Stamp(env.now + DAY), false, Pending, None, None, None, false, env.account, ViaPasskey, "", None)
    }

    /** INSERT INTO registration_requests */
    method InsertRequest(email: string, env: Input, ghost job: Job) returns (ok: bool)
      requires At(job, Registering(Submit2(email))) && job.env == env
      modifies `registrations, `run, `sys
      ensures Done(job) && (ok <==> registrations != old(registrations))
      ensures ok ==> registrations == old(registrations)[env.id := Fresh(email, env)]
    {
      hide Stamp, Done, InFlight;
      ok := env.id !in registrations
        && !exists g :: g in registrations &&
             (registrations[g].email == email || registrations[g].emailToken == env.token || registrations[g].account == env.account);
      if ok {
        registrations := registrations[env.id := Registration(env.token, email, Stamp(env.now + DAY), false, Pending, None, None, None,
                                                              false, env.account, ViaPasskey, "", None)];
      }
      Commit(job, Registering(Submit2(email)), env);
    }

    method VerifyEmail(token: Id, env: Input) returns (ok: bool)
      requires Idle()
      modifies this
      ensures Done(Job(old(run), Registering(Verify0(token)), env))
      ensures ok <==> registrations != old(registrations)
      ensures ok ==> exists g :: old(MailOpen(g, token, env.now)) && registrations == old(registrations)[g :=
                       old(registrations)[g].(verified := true, setup := Some(Grant(env.token, Stamp(env.now + DAY))))]
    {
      hide Stamp, Before, Done, InFlight, FindVerifiable;
      ok := false;
      ghost var job := Receive(Registering(Verify0(token)), env);
      var row := SelectVerifiable(token, env.now);
      if token != "" && row.Some? {
        ok := VerifyRow(row.value, env);
      }
      Commit(job, Registering(Verify0(token)), env.(row := row));
    }

    /** UPDATE registration_requests SET email_verified = 1, setup_token = ?, ... of one unverified row */
    method VerifyRow(g: Id, env: Input) returns (ok: bool)
      requires g in registrations && !registrations[g].verified
      modifies `registrations
      ensures Rows() == Try(old(Rows()), Tables.VerifyEmail(old(Rows()), g, env.token, env.now), None, None).db
      ensures ok <==> registrations != old(registrations)
      ensures ok ==> registrations == old(registrations)[g :=
                       old(registrations)[g].(verified := true, setup := Some(Grant(env.token, Stamp(env.now + DAY))))]
    {
      hide Stamp;
      ok := !exists h :: h in registrations && h != g && registrations[h].setup.Some? && registrations[h].setup.value.token == env.token;
      if ok {
        registrations := registrations[g :=
          registrations[g].(verified := true, setup := Some(Grant(env.token, Stamp(env.now + DAY))))];
        assert registrations[g] != old(registrations)[g];
      }
    }

    method BeginRegisterPasskey(token: Id, env: Input) returns (ok: bool)
      requires Idle()
      modifies this
      ensures Done(Job(old(run), Registering(BeginRegister0(token)), env))
      ensures ok <==> env.challenge.Some? && exists g :: old(SetupLinkOpen(g, token, env.now))
      ensures !ok ==> Rows() == old(Rows())
    {
      hide Stamp, Done, InFlight, FindSetup, SetupLinkOpen;
      var row := SelectSetup(token, env.now);
      ghost var job := Receive(Registering(BeginRegister0(token)), env);
      Commit(job, Registering(BeginRegister0(token)), env.(row := row));
      ok := row.Some? && env.challenge.Some?;
      if ok {
        var g := row.value;
        registrations := registrations[g := registrations[g].(challenge := env.challenge)];
        Commit(job, Registering(BeginRegister1(g, env.challenge.value)), env);
      }
    }

    method FinishRegisterPasskey(token: Id, env: Input) returns (ok: bool)
      requires Idle()
      modifies this
      ensures Done(Job(old(run), Registering(FinishRegister0(token)), env))
      ensures ok ==> env.attested.Some? && exists g :: old(SetupLinkOpen(g, token, env.now)) && old(registrations)[g].challenge.Some?
      ensures !ok ==> Rows() == old(Rows())
    {
      hide Stamp, Done, InFlight, FindSetup;
      ghost var job := Receive(Registering(FinishRegister0(token)), env);
      var row := SelectSetup(token, env.now);
      Commit(job, Registering(FinishRegister0(token)), env.(row := row));
      ok := row.Some? && registrations[row.value].challenge.Some?;
      if ok {
        ok := ParkCredential(row.value, registrations[row.value].email, env, job);
      }
    }

    /** FinishRegistration's answer is parked, and auto-approved for an ADMIN_EMAIL address. */
    method ParkCredential(g: Id, email: string, env: Input, ghost job: Job) returns (ok: bool)
      requires At(job, Registering(FinishRegister1(g, email))) && job.env == env
      modifies `registrations, `users, `passkeys, `identities, `sessions, `run, `sys
      ensures Done(job) && ok == env.attested.Some? && (!ok ==> Rows() == old(Rows()))
    {
      hide Stamp, Done, InFlight, Park, IsAdminEmail;
      ok := env.attested.Some?;
      if ok && g in registrations {
        registrations := registrations[g := registrations[g].(credential := Some(Park(env.attested.value)), submitted := true)];
      }
      Commit(job, Registering(FinishRegister1(g, email)), env);
      if ok {
        var admin := MatchesAdminEmail(email);
        if admin {
          var account, cookie := AutoApprove(g, false, env.id, env, job);
        }
      }
    }

    /** The setup link of `g` is open, and `email` is its address up to case. */
    predicate FrejaFits(g: Id, token: Id, email: string, now: Instant)
      reads `registrations
    {
      SetupLinkOpen(g, token, now) && SameUpToCase(email, registrations[g].email)
    }

    /** A setup token is of one row only. */
    lemma OneSetupRow(token: Id, now: Instant, g: Id, h: Id)
      requires Idle() && SetupLinkOpen(g, token, now) && SetupLinkOpen(h, token, now)
      ensures g == h
    {
      hide Execute, Before, Stamp;
      Integrity.SchemaAlways(cfg, run);
      assert Clash(registrations[g], registrations[h]);
    }

    /** Any row of the token decides whether some row fits. */
    lemma FitsFound(token: Id, email: string, now: Instant)
      requires Idle()
      ensures forall h :: SetupLinkOpen(h, token, now) ==>
                h in registrations && (EqualFold(email, registrations[h].email) <==> exists g :: FrejaFits(g, token, email, now))
      ensures (exists g :: FrejaFits(g, token, email, now)) ==> exists h :: SetupLinkOpen(h, token, now)
    {
      hide EqualFold, SameUpToCase, Idle;
      forall h | SetupLinkOpen(h, token, now)
        ensures h in registrations && (EqualFold(email, registrations[h].email) <==> exists g :: FrejaFits(g, token, email, now))
      {
        SetupRowExists(h, token, now);
        EqualFoldExactly(email, registrations[h].email);
        assert EqualFold(email, registrations[h].email) ==> FrejaFits(h, token, email, now);
        if g :| FrejaFits(g, token, email, now) {
          OneSetupRow(token, now, g, h);
        }
      }
    }

    lemma SetupRowExists(g: Id, token: Id, now: Instant)
      requires SetupLinkOpen(g, token, now)
      ensures g in registrations
    {
    }

    /** A new administrator's cookie. */
    predicate Welcomed(before: map<Id, User>, cookie: Id)
      reads `users, `sessions
    {
      cookie in sessions && Joined(before, sessions[cookie].user) && users[sessions[cookie].user].role == Admin
    }

    method FrejaRegister(token: Id, email: string, subject: string, sessionId: Uuid, env: Input) returns (ok: bool, cookie: Option<Id>)
      requires Idle()
      modifies this
      ensures Done(Job(old(run), Registering(FrejaRegister0(token, email, subject)), env))
      ensures ok <==> email != "" && exists g :: old(FrejaFits(g, token, email, env.now))
      ensures !ok ==> Rows() == old(Rows()) && cookie.None?
      ensures if cookie.Some? then Welcomed(old(users), cookie.value) else sessions == old(sessions)
    {
      hide Stamp, Done, InFlight, FindSetup, EqualFold, SetupLinkOpen, FrejaFits, Idle;
      cookie := None;
      FitsFound(token, email, env.now);
      var row := SelectSetup(token, env.now);
      ghost var job := Receive(Registering(FrejaRegister0(token, email, subject)), env);
      Commit(job, Registering(FrejaRegister0(token, email, subject)), env.(row := row));
      ok := email != "" && row.Some? && EqualFold(email, registrations[row.value].email);
      if ok {
        cookie := SubmitSubject(row.value, registrations[row.value].email, subject, email, sessionId, env, job);
      }
    }

    method SubmitSubject(g: Id, email: string, subject: string, ghost reported: string, sessionId: Uuid, env: Input, ghost job: Job)
      returns (cookie: Option<Id>)
      requires At(job, Registering(FrejaRegister1(g, email, subject, reported))) && job.env == env
      modifies `registrations, `users, `passkeys, `identities, `sessions, `run, `sys
      ensures Done(job)
      ensures if cookie.Some? then Welcomed(old(users), cookie.value) else sessions == old(sessions)
    {
      hide Stamp, Done, InFlight, IsAdminEmail;
      cookie := None;
      if g in registrations {
        registrations := registrations[g := registrations[g].(provider := ViaFreja, frejaSub := subject, submitted := true)];
      }
      Commit(job, Registering(FrejaRegister1(g, email, subject, reported)), env);
      var admin := MatchesAdminEmail(email);
      if admin {
        var account;
        account, cookie := AutoApprove(g, true, sessionId, env, job);
      }
    }

    // -------------------------------------------------------- approval

    /** isAdminEmail */
    method MatchesAdminEmail(email: string) returns (found: bool)
      ensures found <==> exists k :: 0 <= k < |cfg.adminEmails| && SameAddress(cfg.adminEmails[k], email)
      ensures found == IsAdminEmail(cfg, email)
    {
      hide EqualFold, TrimSpace, SameAddress;
      for n := 0 to |cfg.adminEmails|
        invariant forall k :: 0 <= k < n ==> !EqualFold(TrimSpace(cfg.adminEmails[k]), TrimSpace(email))
        invariant forall k :: 0 <= k < n ==> !SameAddress(cfg.adminEmails[k], email)
      {
        SameAddressExactly(cfg.adminEmails[n], email);
        if EqualFold(TrimSpace(cfg.adminEmails[n]), TrimSpace(email)) {
          return true;
        }
      }
      return false;
    }

    /** The one account that is new is `u`. */
    predicate Joined(before: map<Id, User>, u: Id)
      reads `users
    {
      u !in before && u in users && users == before[u := users[u]]
    }

    /** maybeAutoApprove, and for Freja the session that follows. */
    method AutoApprove(g: Id, viaFreja: bool, sessionId: Uuid, env: Input, ghost job: Job)
      returns (account: Option<Id>, cookie: Option<Id>)
      requires At(job, Registering(Approve0(g, Bootstrap(viaFreja)))) && job.env == env
      modifies `users, `passkeys, `identities, `registrations, `sessions, `run, `sys
      ensures Done(job)
      ensures if account.Some? then Joined(old(users), account.value) && users[account.value].role == Admin else users == old(users)
      ensures if cookie.Some? then viaFreja && account.Some? && Entered(cookie.value, account.value) else sessions == old(sessions)
    {
      hide Stamp, Done, InFlight;
      cookie := None;
      account := SendApproval(g, Bootstrap(viaFreja), env, job);
      if account.Some? {
        cookie := PromoteAccount(account.value, viaFreja, sessionId, env, job);
      }
    }

    method PromoteAccount(u: Id, viaFreja: bool, sessionId: Uuid, env: Input, ghost job: Job) returns (cookie: Option<Id>)
      requires At(job, Registering(Promote(u, viaFreja))) && job.env == env && u in users
      modifies `users, `sessions, `run, `sys
      ensures Done(job) && users == old(users)[u := old(users)[u].(role := Admin)]
      ensures if cookie.Some? then viaFreja && Entered(cookie.value, u) else sessions == old(sessions)
    {
      hide Stamp, Done, InFlight;
      cookie := None;
      UpdateRole(u, Admin);
      Commit(job, Registering(Promote(u, viaFreja)), env);
      if viaFreja {
        cookie := CreateSession(u, ByRegistration, sessionId, env, job);
      }
    }

    /** SendApprovalEmail: SELECT, transaction, hook. */
    method SendApproval(g: Id, why: Approver, env: Input, ghost job: Job) returns (account: Option<Id>)
      requires At(job, Registering(Approve0(g, why))) && job.env == env
      modifies `users, `passkeys, `identities, `registrations, `run, `sys
      ensures if account.Some? && why.Bootstrap? then At(job, Registering(Promote(account.value, why.viaFreja))) else Done(job)
      ensures if account.Some? then Joined(old(users), account.value) else users == old(users)
    {
      hide Stamp, Done, InFlight, ApprovalStep, PromoteStep;
      account := None;
      var pending := g in registrations && registrations[g].status == Pending;
      Commit(job, Registering(Approve0(g, why)), env);
      if pending {
        account := ApproveRow(g, registrations[g], why, env, job);
      }
    }

    /** The transaction and, once it is committed, the hook. */
    method ApproveRow(g: Id, row: Registration, why: Approver, env: Input, ghost job: Job) returns (account: Option<Id>)
      requires At(job, Registering(Approve1(g, row, why))) && job.env == env
      modifies `users, `passkeys, `identities, `registrations, `run, `sys
      ensures if account.Some? && why.Bootstrap? then At(job, Registering(Promote(account.value, why.viaFreja))) else Done(job)
      ensures if account.Some? then Joined(old(users), account.value) else users == old(users)
    {
      hide At, Done;
      account := None;
      var ok := Approval(g, row, why, env, job);
      if ok {
        CallOnUserCreated(g, row.account, why, env, job);
        account := Some(row.account);
      }
    }

    /** The hook changes no table. */
    method CallOnUserCreated(g: Id, u: Id, why: Approver, env: Input, ghost job: Job)
      requires At(job, Registering(Approve2(g, u, why))) && job.env == env
      modifies `run, `sys
      ensures if why.Bootstrap? then At(job, Registering(Promote(u, why.viaFreja))) else Done(job)
      ensures sys.log == old(sys.log) + [HookRun(g, u)]
    {
      hide Stamp, Done, InFlight;
      Commit(job, Registering(Approve2(g, u, why)), env);
    }

    method Approval(g: Id, row: Registration, why: Approver, env: Input, ghost job: Job) returns (ok: bool)
      requires At(job, Registering(Approve1(g, row, why))) && job.env == env
      modifies `users, `passkeys, `identities, `registrations, `run, `sys
      ensures if ok then At(job, Registering(Approve2(g, row.account, why))) else Done(job)
      ensures if ok then Joined(old(users), row.account) else users == old(users)
    {
      hide Stamp, Done, InFlight, ApproveFreja, ApprovePasskey;
      if row.provider == ViaFreja {
        ok := SendApprovalFreja(g, row, env.id);
      } else {
        ok := SendApprovalPasskey(g, row, env.id);
      }
      Commit(job, Registering(Approve1(g, row, why)), env);
    }

    method InsertUserRow(u: Id, email: string) returns (ok: bool)
      modifies `users
      ensures ok <==> u !in old(users) && forall v :: v in old(users) ==> old(users)[v].username != email
      ensures users == if ok then old(users)[u := User(email, Passive, false)] else old(users)
    {
      ok := u !in users && !exists v :: v in users && users[v].username == email;
      if ok {
        users := users[u := User(email, Passive, false)];
      }
    }

    method CompleteRow(g: Id, u: Id)
      modifies `registrations
      ensures Rows() == CompleteRegistration(old(Rows()), g, u)
    {
      if g in registrations {
        registrations := registrations[g := registrations[g].(status := Completed, user := Some(u))];
      }
    }

    /** sendApprovalPasskey between BEGIN and COMMIT; a failing statement rolls back. */
    method SendApprovalPasskey(g: Id, row: Registration, id: Id) returns (ok: bool)
      modifies `users, `passkeys, `registrations
      ensures match ApprovePasskey(old(Rows()), g, row.account, row.email, row.credential, id)
              case None => !ok && Rows() == old(Rows())
              case Some(d) => ok && Rows() == d
      ensures ok ==> Joined(old(users), row.account)
    {
      hide Unpark, CompleteRegistration;
      if row.credential.None? || Unpark(row.credential.value).None? {
        return false;
      }
      var stored, before := Unpark(row.credential.value).value, users;
      ok := InsertUserRow(row.account, row.email);
      if ok {
        if id in passkeys || exists k :: k in passkeys && passkeys[k].credId == stored.id {
          users := before;
          ok := false;
        } else {
          passkeys := passkeys[id := Passkey(row.account, stored.id, stored.publicKey, stored.signCount)];
          CompleteRow(g, row.account);
        }
      }
    }

    /** sendApprovalFreja between BEGIN and COMMIT. */
    method SendApprovalFreja(g: Id, row: Registration, id: Id) returns (ok: bool)
      modifies `users, `identities, `registrations
      ensures match ApproveFreja(old(Rows()), g, row.account, row.email, row.frejaSub, id)
              case None => !ok && Rows() == old(Rows())
              case Some(d) => ok && Rows() == d
      ensures ok ==> Joined(old(users), row.account)
    {
      hide CompleteRegistration;
      var before := users;
      ok := InsertUserRow(row.account, row.email);
      if ok {
        var held := exists k :: k in identities && identities[k].subject == row.frejaSub;
        assert held == exists k :: k in identities && HasSubject(Rows(), k, row.frejaSub) by {
          assert forall k :: k in identities ==> (HasSubject(Rows(), k, row.frejaSub) <==> identities[k].subject == row.frejaSub);
        }
        if !held && id in identities {
          users := before;
          ok := false;
        } else {
          if !held {
            identities := identities[id := Identity(row.account, row.frejaSub, row.email)];
          }
          CompleteRow(g, row.account);
        }
      }
    }

    // ----------------------------------------------------------- admin

    method ApproveRegistration(cookie: Id, g: Id, env: Input) returns (account: Option<Id>)
      requires Idle()
      modifies this
      ensures Done(Job(old(run), Gated(Gate0(cookie, Approve(g))), env))
      ensures if account.Some? then Joined(old(users), account.value) else users == old(users)
    {
      hide Step, Stamp, Done, InFlight, CurrentUser;
      account := None;
      ghost var job := Receive(Gated(Gate0(cookie, Approve(g))), env);
      var admin := RequireAuth(cookie, Approve(g), env, job);
      if admin.Some? {
        account := SendApproval(g, By(admin.value, cookie, env.now), env, job);
      }
    }

    method RejectRegistration(cookie: Id, g: Id, env: Input)
      requires Idle()
      modifies this
      ensures Done(Job(old(run), Gated(Gate0(cookie, Reject(g))), env))
      ensures registrations ==
                if old(IsAdmin(cookie, env.now)) && g in old(registrations) && old(registrations)[g].status == Pending
                then old(registrations)[g := old(registrations)[g].(status := Rejected)] else old(registrations)
    {
      hide Step, Stamp, Done, InFlight, CurrentUser;
      ghost var job := Receive(Gated(Gate0(cookie, Reject(g))), env);
      var admin := RequireAuth(cookie, Reject(g), env, job);
      if admin.Some? {
        RejectRow(g, env, By(admin.value, cookie, env.now), job);
      }
    }

    /** UPDATE registration_requests SET status='rejected' WHERE id=? AND status='pending' */
    method RejectRow(g: Id, env: Input, ghost why: Approver, ghost job: Job)
      requires At(job, Registering(Reject0(g, why))) && job.env == env
      modifies `registrations, `run, `sys
      ensures Done(job)
      ensures registrations ==
                if g in old(registrations) && old(registrations)[g].status == Pending
                then old(registrations)[g := old(registrations)[g].(status := Rejected)] else old(registrations)
    {
      hide Stamp, Done, InFlight;
      if g in registrations && registrations[g].status == Pending {
        registrations := registrations[g := registrations[g].(status := Rejected)];
      }
      Commit(job, Registering(Reject0(g, why)), env);
    }

    /** banUser and unbanUser */
    method SetUserBan(cookie: Id, u: Id, banned: bool, env: Input)
      requires Idle()
      modifies this
      ensures Done(Job(old(run), Gated(Gate0(cookie, SetBanned(u, banned))), env))
      ensures users == if old(IsAdmin(cookie, env.now)) && u in old(users) then old(users)[u := old(users)[u].(banned := banned)]
                       else old(users)
    {
      hide Step, Stamp, Done, InFlight, CurrentUser;
      ghost var job := Receive(Gated(Gate0(cookie, SetBanned(u, banned))), env);
      var admin := RequireAuth(cookie, SetBanned(u, banned), env, job);
      if admin.Some? {
        UpdateBan(u, banned, env, By(admin.value, cookie, env.now), job);
      }
    }

    /** UPDATE users SET is_banned=? WHERE id=? */
    method UpdateBan(u: Id, banned: bool, env: Input, ghost why: Approver, ghost job: Job)
      requires At(job, Gated(SetBanned0(u, banned, why))) && job.env == env
      modifies `users, `run, `sys
      ensures Done(job)
      ensures users == if u in old(users) then old(users)[u := old(users)[u].(banned := banned)] else old(users)
    {
      hide Stamp, Done, InFlight;
      if u in users {
        users := users[u := users[u].(banned := banned)];
      }
      Commit(job, Gated(SetBanned0(u, banned, why)), env);
    }

    method SetUserRole(cookie: Id, u: Id, role: Role, env: Input)
      requires Idle()
      modifies this
      ensures Done(Job(old(run), Gated(Gate0(cookie, ChangeRole(u, role))), env))
      ensures users == if old(IsAdmin(cookie, env.now)) && u in old(users) then old(users)[u := old(users)[u].(role := role)]
                       else old(users)
    {
      hide Step, Stamp, Done, InFlight, CurrentUser;
      ghost var job := Receive(Gated(Gate0(cookie, ChangeRole(u, role))), env);
      var admin := RequireAuth(cookie, ChangeRole(u, role), env, job);
      if admin.Some? {
        ChangeUserRole(u, role, By(admin.value, cookie, env.now), env, job);
      }
    }

    method ChangeUserRole(u: Id, role: Role, why: Approver, env: Input, ghost job: Job)
      requires At(job, Gated(ChangeRole0(u, role, why))) && job.env == env
      modifies `users, `run, `sys
      ensures Done(job)
      ensures users == if u in old(users) then old(users)[u := old(users)[u].(role := role)] else old(users)
    {
      hide Stamp, Done, InFlight;
      UpdateRole(u, role);
      Commit(job, Gated(ChangeRole0(u, role, why)), env);
    }

    /** UPDATE users SET role=? WHERE id=? */
    method UpdateRole(u: Id, role: Role)
      modifies `users
      ensures Rows() == SetRole(old(Rows()), u, role)
    {
      if u in users {
        users := users[u := users[u].(role := role)];
      }
    }

    method ApproveCredentialReset(cookie: Id, r: Id, env: Input) returns (ok: bool)
      requires Idle()
      modifies this
      ensures Done(Job(old(run), Gated(Gate0(cookie, GrantReset(r))), env))
      ensures ok <==> resets != old(resets)
    {
      hide Step, Stamp, Done, InFlight, CurrentUser;
      ok := false;
      ghost var job := Receive(Gated(Gate0(cookie, GrantReset(r))), env);
      var admin := RequireAuth(cookie, GrantReset(r), env, job);
      if admin.Some? {
        ok := GrantRequest(r, By(admin.value, cookie, env.now), env, job);
      }
    }

    method GrantRequest(r: Id, why: Approver, env: Input, ghost job: Job) returns (ok: bool)
      requires At(job, Resetting(GrantReset0(r, why))) && job.env == env
      modifies `resets, `run, `sys
      ensures Done(job) && (ok <==> resets != old(resets))
    {
      hide Stamp, Done, InFlight;
      ok := false;
      var pending := r in resets && resets[r].status == Pending;
      Commit(job, Resetting(GrantReset0(r, why)), env);
      if pending {
        ok := GrantPendingReset(r, why, env, job);
      }
    }

    /** UPDATE credential_reset_requests SET status='approved', ... WHERE id=? AND status='pending' */
    method GrantPendingReset(r: Id, why: Approver, env: Input, ghost job: Job) returns (ok: bool)
      requires At(job, Resetting(GrantReset1(r, why))) && job.env == env
      modifies `resets, `run, `sys
      ensures Done(job) && (ok <==> resets != old(resets))
    {
      hide Stamp, Done, InFlight;
      ok := r in resets && resets[r].status == Pending
        && !exists q :: q in resets && q != r && resets[q].setup.Some? && resets[q].setup.value.token == env.token;
      if ok {
        resets := resets[r := resets[r].(status := Approved, setup := Some(Grant(env.token, Stamp(env.now + 48 * HOUR))))];
      }
      Commit(job, Resetting(GrantReset1(r, why)), env);
    }

    method RejectCredentialReset(cookie: Id, r: Id, env: Input)
      requires Idle()
      modifies this
      ensures Done(Job(old(run), Gated(Gate0(cookie, DenyReset(r))), env))
      ensures resets ==
                if old(IsAdmin(cookie, env.now)) && r in old(resets) && old(resets)[r].status == Pending
                then old(resets)[r := old(resets)[r].(status := Rejected)] else old(resets)
    {
      hide Step, Stamp, Done, InFlight, CurrentUser;
      ghost var job := Receive(Gated(Gate0(cookie, DenyReset(r))), env);
      var admin := RequireAuth(cookie, DenyReset(r), env, job);
      if admin.Some? {
        DenyRow(r, env, By(admin.value, cookie, env.now), job);
      }
    }

    /** UPDATE credential_reset_requests SET status='rejected' WHERE id=? AND status='pending' */
    method DenyRow(r: Id, env: Input, ghost why: Approver, ghost job: Job)
      requires At(job, Resetting(DenyReset0(r, why))) && job.env == env
      modifies `resets, `run, `sys
      ensures Done(job)
      ensures resets ==
                if r in old(resets) && old(resets)[r].status == Pending
                then old(resets)[r := old(resets)[r].(status := Rejected)] else old(resets)
    {
      hide Stamp, Done, InFlight;
      if r in resets && resets[r].status == Pending {
        resets := resets[r := resets[r].(status := Rejected)];
      }
      Commit(job, Resetting(DenyReset0(r, why)), env);
    }

    // -------------------------------------------------------- settings

    method BeginAddPasskey(cookie: Id, env: Input) returns (ok: bool)
      requires Idle()
      modifies this
      ensures Done(Job(old(run), Gated(Gate0(cookie, BeginAdd)), env))
      ensures ok <==> env.challenge.Some? && old(CurrentUser(Rows(), cookie, Stamp(env.now))).Some?
    {
      hide Step, Stamp, Done, InFlight, CurrentUser;
      ok := false;
      ghost var job := Receive(Gated(Gate0(cookie, BeginAdd)), env);
      var user := RequireAuth(cookie, BeginAdd, env, job);
      if user.Some? {
        ok := StoreAddChallenge(user.value, env, job);
      }
    }

    method StoreAddChallenge(u: Id, env: Input, ghost job: Job) returns (ok: bool)
      requires At(job, Settings(BeginAdd0(u))) && job.env == env && u in users
      modifies `adds, `run, `sys
      ensures Done(job) && (ok <==> env.challenge.Some?)
    {
      hide Stamp, Done, InFlight;
      ok := UpsertAdd(u, env);
      Commit(job, Settings(BeginAdd0(u)), env);
    }

    /** INSERT INTO webauthn_add_sessions ... ON CONFLICT (user_id) DO UPDATE */
    method UpsertAdd(u: Id, env: Input) returns (ok: bool)
      modifies `adds
      ensures Rows() == BeginAddStep(old(Rows()), u, env).db
      ensures ok <==> env.challenge.Some? && u in users
      ensures adds == if ok then old(adds)[u := Challenge(env.challenge.value, Stamp(env.now + 5 * MINUTE))] else old(adds)
    {
      hide Stamp;
      ok := env.challenge.Some? && u in users;
      if ok {
        adds := adds[u := Challenge(env.challenge.value, Stamp(env.now + 5 * MINUTE))];
      }
    }

    method FinishAddPasskey(cookie: Id, env: Input) returns (ok: bool)
      requires Idle()
      modifies this
      ensures Done(Job(old(run), Gated(Gate0(cookie, FinishAdd)), env))
      ensures ok <==> passkeys != old(passkeys)
      ensures var who := old(CurrentUser(Rows(), cookie, Stamp(env.now)));
              ok ==> who.Some? && old(AddOpen(who.value.0, env.now)) && env.attested.Some?
                     && passkeys == old(passkeys)[env.id := Attested(who.value.0, env.attested.value)]
    {
      hide Step, Stamp, Done, InFlight, CurrentUser, AddOpen, Attested;
      ok := false;
      ghost var job := Receive(Gated(Gate0(cookie, FinishAdd)), env);
      var user := RequireAuth(cookie, FinishAdd, env, job);
      if user.Some? {
        ok := AddKey(user.value, env, job);
      }
    }

    /** The row for what an authenticator attested. */
    function Attested(u: Id, c: Credential): Passkey {
      Passkey(u, c.id, KeyColumn(c.publicKey), c.signCount)
    }

    method AddKey(u: Id, env: Input, ghost job: Job) returns (ok: bool)
      requires At(job, Settings(FinishAdd0(u))) && job.env == env
      modifies `passkeys, `adds, `run, `sys
      ensures Done(job) && (ok <==> passkeys != old(passkeys))
      ensures ok ==> old(AddOpen(u, env.now)) && env.attested.Some? && passkeys == old(passkeys)[env.id := Attested(u, env.attested.value)]
    {
      hide Stamp, Before, Done, InFlight, Attested;
      ok := false;
      var taken := TakeAddRow(u, env.now);
      Commit(job, Settings(FinishAdd0(u)), env);
      if taken {
        ok := InsertAddedKey(u, env, job);
      }
    }

    method InsertAddedKey(u: Id, env: Input, ghost job: Job) returns (ok: bool)
      requires At(job, Settings(FinishAdd1(u, env.now))) && job.env == env
      modifies `passkeys, `run, `sys
      ensures Done(job) && (ok <==> passkeys != old(passkeys))
      ensures ok ==> env.attested.Some? && passkeys == old(passkeys)[env.id := Attested(u, env.attested.value)]
    {
      hide Stamp, Done, InFlight, InsertKeyStep, Attested;
      ok := InsertAttestedKey(u, env);
      Commit(job, Settings(FinishAdd1(u, env.now)), env);
    }

    /** DELETE FROM webauthn_add_sessions WHERE user_id = ? AND expires_at > ? RETURNING session_data */
    method TakeAddRow(u: Id, at: Instant) returns (taken: bool)
      modifies `adds
      ensures taken <==> TakeAdd(old(Rows()), u, Stamp(at)).Some?
      ensures taken <==> old(AddOpen(u, at))
      ensures Rows() == if taken then TakeAdd(old(Rows()), u, Stamp(at)).value else old(Rows())
    {
      hide Before, Stamp;
      var now := Stamp(at);
      taken := u in adds && Before(now, adds[u].expires);
      if taken {
        adds := adds - {u};
      }
    }

    /** INSERT INTO webauthn_credentials, of what FinishRegistration verified */
    method InsertAttestedKey(u: Id, env: Input) returns (ok: bool)
      modifies `passkeys
      ensures ok ==> env.attested.Some? && passkeys == old(passkeys)[env.id := Attested(u, env.attested.value)]
      ensures ok <==> passkeys != old(passkeys)
      ensures forall next, began, via :: InsertKeyStep(old(Rows()), u, next, began, via, env) ==
                if ok then Outcome(Rows(), next, Some(KeyAdded(u, env.attested.value, began, via))) else Stop(Rows())
    {
      hide KeyColumn;
      ok := false;
      match env.attested {
        case None =>
        case Some(c) =>
          ok := env.id !in passkeys && u in users && !exists k :: k in passkeys && passkeys[k].credId == c.id;
          if ok {
            passkeys := passkeys[env.id := Passkey(u, c.id, KeyColumn(c.publicKey), c.signCount)];
          }
      }
    }

    method DeletePasskey(cookie: Id, k: Id, env: Input) returns (ok: bool)
      requires Idle()
      modifies this
      ensures Done(Job(old(run), Gated(Gate0(cookie, DeleteKey(k))), env))
      ensures var who := old(CurrentUser(Rows(), cookie, Stamp(env.now)));
              ok <==> who.Some? && |old(KeysOf(Rows(), who.value.0))| > 1
    {
      hide Step, Stamp, Done, InFlight, CurrentUser;
      ok := false;
      ghost var job := Receive(Gated(Gate0(cookie, DeleteKey(k))), env);
      var user := RequireAuth(cookie, DeleteKey(k), env, job);
      if user.Some? {
        ok := DeleteUnlessLast(user.value, k, env, job);
      }
    }

    method DeleteUnlessLast(u: Id, k: Id, env: Input, ghost job: Job) returns (ok: bool)
      requires At(job, Settings(DeleteKey0(u, k))) && job.env == env
      modifies `passkeys, `run, `sys
      ensures Done(job) && (ok <==> |old(KeysOf(Rows(), u))| > 1)
    {
      hide Stamp, Done, InFlight, KeysOf;
      var count := |KeysOf(Rows(), u)|;
      Commit(job, Settings(DeleteKey0(u, k)), env);
      ok := count > 1;
      if ok {
        DeleteKeyRow(u, k, env, job);
      }
    }

    /** DELETE FROM webauthn_credentials WHERE id = ? AND user_id = ? */
    method DeleteKeyRow(u: Id, k: Id, env: Input, ghost job: Job)
      requires At(job, Settings(DeleteKey1(u, k))) && job.env == env
      modifies `passkeys, `run, `sys
      ensures Done(job)
    {
      hide Stamp, Done, InFlight;
      if k in passkeys && passkeys[k].user == u {
        passkeys := passkeys - {k};
      }
      Commit(job, Settings(DeleteKey1(u, k)), env);
    }

    method FrejaLink(cookie: Id, email: string, subject: string, env: Input) returns (ok: bool)
      requires Idle()
      modifies this
      ensures Done(Job(old(run), Gated(Gate0(cookie, LinkFreja(email, subject))), env))
      ensures ok <==> links != old(links)
      ensures var who := old(CurrentUser(Rows(), cookie, Stamp(env.now)));
              ok ==> who.Some? && email != "" && old(UnknownToFreja(subject, email))
                     && links == old(links)[env.token := Link(who.value.0, subject, email, Stamp(env.now + 10 * MINUTE))]
    {
      hide Step, Stamp, Done, InFlight, CurrentUser, FrejaKnown, UnknownToFreja;
      ok := false;
      ghost var job := Receive(Gated(Gate0(cookie, LinkFreja(email, subject))), env);
      var user := RequireAuth(cookie, LinkFreja(email, subject), env, job);
      if user.Some? {
        ok := StoreLink(user.value, email, subject, env, job);
      }
    }

    /** No row has the subject or, up to case, the address. */
    predicate UnknownToFreja(subject: string, email: string)
      reads `identities
    {
      forall k :: k in identities ==> identities[k].subject != subject && !SameUpToCase(identities[k].email, email)
    }

    lemma FrejaKnownExactly(subject: string, email: string)
      ensures FrejaKnown(Rows(), subject, email) <==> !UnknownToFreja(subject, email)
    {
      hide Lower, SameUpToCase;
      forall k | k in identities ensures HasFrejaEmail(Rows(), k, email) <==> SameUpToCase(identities[k].email, email) {
        EqualFoldExactly(identities[k].email, email);
      }
      if !UnknownToFreja(subject, email) {
        var k :| k in identities && (identities[k].subject == subject || SameUpToCase(identities[k].email, email));
        assert HasSubject(Rows(), k, subject) || HasFrejaEmail(Rows(), k, email);
      }
    }

    method StoreLink(u: Id, email: string, subject: string, env: Input, ghost job: Job) returns (ok: bool)
      requires At(job, Settings(Link0(u, email, subject))) && job.env == env
      modifies `links, `run, `sys
      ensures Done(job) && (ok <==> links != old(links))
      ensures ok ==> email != "" && UnknownToFreja(subject, email)
                     && links == old(links)[env.token := Link(u, subject, email, Stamp(env.now + 10 * MINUTE))]
    {
      hide Stamp, Done, InFlight, FrejaKnown, UnknownToFreja;
      ok := false;
      FrejaKnownExactly(subject, email);
      var refused := email == "" || FrejaKnown(Rows(), subject, email);
      Commit(job, Settings(Link0(u, email, subject)), env);
      if !refused {
        ok := InsertLinkRow(u, email, subject, env, job);
      }
    }

    /** INSERT INTO freja_link_confirmations */
    method InsertLinkRow(u: Id, email: string, subject: string, env: Input, ghost job: Job) returns (ok: bool)
      requires At(job, Settings(Link1(u, email, subject))) && job.env == env
      modifies `links, `run, `sys
      ensures Done(job) && (ok <==> links != old(links))
      ensures ok ==> links == old(links)[env.token := Link(u, subject, email, Stamp(env.now + 10 * MINUTE))]
    {
      hide Stamp, Done, InFlight;
      ok := env.token !in links && u in users;
      if ok {
        links := links[env.token := Link(u, subject, email, Stamp(env.now + 10 * MINUTE))];
      }
      Commit(job, Settings(Link1(u, email, subject)), env);
    }

    method FrejaLinkConfirm(cookie: Id, token: Id, env: Input) returns (ok: bool)
      requires Idle()
      modifies this
      ensures Done(Job(old(run), Gated(Gate0(cookie, ConfirmLink(token))), env))
      ensures var who := old(CurrentUser(Rows(), cookie, Stamp(env.now)));
              ok ==> who.Some? && old(LinkOpen(token, who.value.0, env.now)) && token !in links
                     && SubjectHeldAfter(old(identities), who.value.0, old(links)[token].subject, old(links)[token].email, env)
      ensures links == old(links) ==> identities == old(identities)
    {
      hide Step, Stamp, Before, Done, InFlight, CurrentUser, LinkOpen, SubjectHeldAfter;
      ok := false;
      ghost var job := Receive(Gated(Gate0(cookie, ConfirmLink(token))), env);
      var user := RequireAuth(cookie, ConfirmLink(token), env, job);
      if user.Some? {
        ok := ConsumeLink(user.value, token, env, job);
      }
    }

    predicate LinkOpen(token: Id, u: Id, now: Instant)
      reads `links
    {
      token in links && links[token].user == u && Before(Stamp(now), links[token].expires)
    }

    /** The row is there unless some row had the subject already; then nothing changes. */
    predicate SubjectHeldAfter(before: map<Id, Identity>, u: Id, subject: string, email: string, env: Input)
      reads `identities
    {
      identities == if exists k :: k in before && before[k].subject == subject then before
                    else before[env.id := Identity(u, subject, email)]
    }

    /** DELETE FROM freja_link_confirmations ... RETURNING, and the identity it confirms */
    method ConsumeLink(u: Id, token: Id, env: Input, ghost job: Job) returns (ok: bool)
      requires At(job, Settings(ConfirmLink0(u, token))) && job.env == env
      modifies `links, `identities, `run, `sys
      ensures Done(job)
      ensures ok ==> old(LinkOpen(token, u, env.now)) && token !in links
                     && SubjectHeldAfter(old(identities), u, old(links)[token].subject, old(links)[token].email, env)
      ensures links == old(links) ==> identities == old(identities)
    {
      hide Stamp, Before, Done, InFlight, SubjectHeldAfter;
      ok := token in links && links[token].user == u && Before(Stamp(env.now), links[token].expires);
      if ok {
        var l := links[token];
        links := links - {token};
        Commit(job, Settings(ConfirmLink0(u, token)), env);
        ok := InsertIdentity(u, l.subject, l.email, env, job);
      } else {
        Commit(job, Settings(ConfirmLink0(u, token)), env);
      }
    }

    lemma HeldByColumn(subject: string)
      ensures (exists k :: k in identities && HasSubject(Rows(), k, subject))
              <==> exists k :: k in identities && identities[k].subject == subject
    {
      if k :| k in identities && identities[k].subject == subject {
        assert HasSubject(Rows(), k, subject);
      }
    }

    /** INSERT INTO user_identities ... ON CONFLICT (provider, provider_subject) DO NOTHING */
    method InsertIdentity(u: Id, subject: string, email: string, env: Input, ghost job: Job) returns (ok: bool)
      requires At(job, Settings(ConfirmLink1(u, subject, email))) && job.env == env
      modifies `identities, `run, `sys
      ensures Done(job) && (ok ==> SubjectHeldAfter(old(identities), u, subject, email, env))
    {
      hide Stamp, Done, InFlight;
      var held := exists k :: k in identities && HasSubject(Rows(), k, subject);
      assert held <==> exists k :: k in identities && identities[k].subject == subject by { HeldByColumn(subject); }
      ok := held || (env.id !in identities && u in users);
      if ok && !held {
        identities := identities[env.id := Identity(u, subject, email)];
      }
      Commit(job, Settings(ConfirmLink1(u, subject, email)), env);
    }

    method FrejaUnlink(cookie: Id, env: Input) returns (ok: bool)
      requires Idle()
      modifies this
      ensures Done(Job(old(run), Gated(Gate0(cookie, UnlinkFreja)), env))
      ensures var who := old(CurrentUser(Rows(), cookie, Stamp(env.now)));
              && (ok <==> who.Some? && old(HasPasskey(who.value.0)))
              && (ok ==> IdentitiesOf(Rows(), who.value.0) == {}) && (!ok ==> identities == old(identities))
    {
      hide Step, Stamp, Done, InFlight, CurrentUser, IdentitiesOf, HasPasskey;
      ok := false;
      ghost var job := Receive(Gated(Gate0(cookie, UnlinkFreja)), env);
      var user := RequireAuth(cookie, UnlinkFreja, env, job);
      if user.Some? {
        ok := UnlinkWithPasskey(user.value, env, job);
      }
    }

    predicate HasPasskey(u: Id)
      reads `passkeys
    {
      exists k :: k in passkeys && passkeys[k].user == u
    }

    lemma CountedByUser(u: Id)
      ensures HasPasskey(u) <==> KeysOf(Rows(), u) != {}
    {
      if HasPasskey(u) {
        var k :| k in passkeys && passkeys[k].user == u;
        assert k in KeysOf(Rows(), u);
      }
    }

    method UnlinkWithPasskey(u: Id, env: Input, ghost job: Job) returns (ok: bool)
      requires At(job, Settings(Unlink0(u))) && job.env == env
      modifies `identities, `run, `sys
      ensures Done(job) && (ok <==> HasPasskey(u))
      ensures if ok then IdentitiesOf(Rows(), u) == {} else identities == old(identities)
    {
      hide Stamp, Done, InFlight, IdentitiesOf;
      ok := HasPasskey(u);
      assert ok <==> KeysOf(Rows(), u) != {} by { CountedByUser(u); }
      hide KeysOf, HasPasskey;
      Commit(job, Settings(Unlink0(u)), env);
      if ok {
        DeleteIdentities(u, env, job);
      }
    }

    /** DELETE FROM user_identities WHERE user_id = ? */
    method DeleteIdentities(u: Id, env: Input, ghost job: Job)
      requires At(job, Settings(Unlink1(u))) && job.env == env
      modifies `identities, `run, `sys
      ensures Done(job) && IdentitiesOf(Rows(), u) == {}
    {
      hide Stamp, Done, InFlight;
      identities := map k | k in identities && identities[k].user != u :: identities[k];
      Commit(job, Settings(Unlink1(u)), env);
    }

    method RequestEmailChange(cookie: Id, newEmail: string, env: Input) returns (ok: bool)
      requires Idle()
      modifies this
      ensures Done(Job(old(run), Gated(Gate0(cookie, ChangeEmail(newEmail))), env))
      ensures ok <==> emails != old(emails)
      ensures var who := old(CurrentUser(Rows(), cookie, Stamp(env.now)));
              ok ==>
                && who.Some?
                && exists address :: Normalised(newEmail, address) && address != "" && old(FreeFor(who.value.0, address))
                                     && emails == old(emails)[env.token := EmailChange(who.value.0, address, Stamp(env.now + DAY))]
    {
      hide Step, Stamp, Done, InFlight, CurrentUser, EmailTaken, Lower, TrimSpace, Normalised, FreeFor;
      NormalisedExactly(newEmail, TrimSpace(Lower(newEmail)));
      ok := false;
      ghost var job := Receive(Gated(Gate0(cookie, ChangeEmail(newEmail))), env);
      var user := RequireAuth(cookie, ChangeEmail(newEmail), env, job);
      if user.Some? {
        ok := StoreEmailChange(user.value, TrimSpace(Lower(newEmail)), env, job);
      }
    }

    /** No other user's name is this address in some case. */
    predicate FreeFor(u: Id, email: string)
      reads `users
    {
      forall v :: v in users && v != u ==> !LowerOf(users[v].username, email)
    }

    lemma TakenExactly(u: Id, email: string)
      ensures EmailTaken(Rows(), u, email) <==> !FreeFor(u, email)
    {
      hide Lower, LowerOf;
      forall v | v in users ensures Lower(users[v].username) == email <==> LowerOf(users[v].username, email) {
        LowerOfExactly(users[v].username, email);
      }
    }

    method StoreEmailChange(u: Id, email: string, env: Input, ghost job: Job) returns (ok: bool)
      requires At(job, Settings(ChangeEmail0(u, email))) && job.env == env
      modifies `emails, `run, `sys
      ensures Done(job) && (ok <==> emails != old(emails))
      ensures ok ==> email != "" && FreeFor(u, email) && emails == old(emails)[env.token := EmailChange(u, email, Stamp(env.now + DAY))]
    {
      hide Stamp, Done, InFlight, EmailTaken, FreeFor;
      ok := false;
      TakenExactly(u, email);
      var refused := email == "" || EmailTaken(Rows(), u, email);
      Commit(job, Settings(ChangeEmail0(u, email)), env);
      if !refused {
        ok := InsertEmailChangeRow(u, email, env, job);
      }
    }

    /** INSERT INTO email_change_tokens */
    method InsertEmailChangeRow(u: Id, email: string, env: Input, ghost job: Job) returns (ok: bool)
      requires At(job, Settings(ChangeEmail1(u, email))) && job.env == env
      modifies `emails, `run, `sys
      ensures Done(job) && (ok <==> emails != old(emails))
      ensures ok ==> emails == old(emails)[env.token := EmailChange(u, email, Stamp(env.now + DAY))]
    {
      hide Stamp, Done, InFlight;
      ok := env.token !in emails && u in users;
      if ok {
        emails := emails[env.token := EmailChange(u, email, Stamp(env.now + DAY))];
      }
      Commit(job, Settings(ChangeEmail1(u, email)), env);
    }

    method ConfirmEmailChange(token: Id, env: Input) returns (ok: bool)
      requires Idle()
      modifies this
      ensures Done(Job(old(run), Settings(ConfirmEmail0(token)), env))
      ensures ok ==> old(ChangeOpen(token, env.now)) && token !in emails
                     && RenamedTo(old(users), old(emails)[token].user, old(emails)[token].newEmail)
                     && ReaddressedTo(old(identities), old(emails)[token].user, old(emails)[token].newEmail)
      ensures !ok ==> users == old(users) && identities == old(identities)
    {
      hide Stamp, Before, Done, InFlight, RenamedTo, ReaddressedTo;
      ghost var job := Receive(Settings(ConfirmEmail0(token)), env);
      ok := token != "" && token in emails && Before(Stamp(env.now), emails[token].expires);
      if ok {
        var change := emails[token];
        emails := emails - {token};
        Commit(job, Settings(ConfirmEmail0(token)), env);
        ok := Rename(change.user, change.newEmail, env, job);
      } else {
        Commit(job, Settings(ConfirmEmail0(token)), env);
      }
    }

    predicate ChangeOpen(token: Id, now: Instant)
      reads `emails
    {
      token != "" && token in emails && Before(Stamp(now), emails[token].expires)
    }

    /** The user has that name, which no other user has, and no other user's row changed. */
    predicate RenamedTo(before: map<Id, User>, u: Id, email: string)
      reads `users
    {
      && users == (if u in before then before[u := before[u].(username := email)] else before)
      && forall v :: v in before && u in before && v != u ==> before[v].username != email
    }

    /** Every Freja row of the user, and no other, reports that address. */
    predicate ReaddressedTo(before: map<Id, Identity>, u: Id, email: string)
      reads `identities
    {
      && identities.Keys == before.Keys
      && forall k :: k in before ==>
           && identities[k].user == before[k].user && identities[k].subject == before[k].subject
           && identities[k].email == if before[k].user == u then email else before[k].email
    }

    /** The new user name, and the same address for the Freja rows. */
    method Rename(u: Id, email: string, env: Input, ghost job: Job) returns (ok: bool)
      requires At(job, Settings(ConfirmEmail1(u, email))) && job.env == env
      modifies `users, `identities, `run, `sys
      ensures Done(job) && (!ok ==> users == old(users) && identities == old(identities))
      ensures ok ==> RenamedTo(old(users), u, email) && ReaddressedTo(old(identities), u, email)
    {
      hide Stamp, Done, InFlight, ReaddressedTo;
      ok := u !in users || !exists v :: v in users && v != u && users[v].username == email;
      if ok && u in users {
        users := users[u := users[u].(username := email)];
      }
      Commit(job, Settings(ConfirmEmail1(u, email)), env);
      if ok {
        SyncFrejaEmail(u, email, env, job);
      }
    }

    /** UPDATE user_identities SET provider_email=? WHERE user_id=? */
    method SyncFrejaEmail(u: Id, email: string, env: Input, ghost job: Job)
      requires At(job, Settings(ConfirmEmail2(u, email))) && job.env == env
      modifies `identities, `run, `sys
      ensures Done(job) && ReaddressedTo(old(identities), u, email)
    {
      hide Stamp, Done, InFlight;
      identities := map k | k in identities ::
        if identities[k].user == u then identities[k].(email := email) else identities[k];
      Commit(job, Settings(ConfirmEmail2(u, email)), env);
    }

    // ---------------------------------------------------------- resets

    method RequestCredentialReset(email: string, provider: Provider, env: Input) returns (ok: bool)
      requires Idle()
      modifies this
      ensures Done(Job(old(run), Resetting(RequestReset0(email, provider)), env))
      ensures ok <==> resets != old(resets)
      ensures ok ==> exists u, address :: Normalised(email, address) && old(IsLike(u, address) && NonePending(u, provider))
                       && resets == old(resets)[env.id := Reset(u, provider, None, Pending)]
    {
      hide Stamp, Done, InFlight, FindUserLike, Lower, TrimSpace, Normalised, IsLike, NonePending;
      NormalisedExactly(email, TrimSpace(Lower(email)));
      ok := false;
      ghost var job := Receive(Resetting(RequestReset0(email, provider)), env);
      var row := SelectUserLike(TrimSpace(Lower(email)));
      Commit(job, Resetting(RequestReset0(email, provider)), env.(row := row));
      if row.Some? {
        ok := FileReset(row.value, provider, env, job);
      }
    }

    predicate NonePending(u: Id, provider: Provider)
      reads `resets
    {
      forall r :: r in resets && resets[r].user == u && resets[r].provider == provider ==> resets[r].status != Pending
    }

    lemma PendingByColumn(u: Id, provider: Provider)
      ensures ResetPending(Rows(), u, provider) <==> !NonePending(u, provider)
    {
    }

    method FileReset(u: Id, provider: Provider, env: Input, ghost job: Job) returns (ok: bool)
      requires At(job, Resetting(RequestReset1(u, provider))) && job.env == env
      modifies `resets, `run, `sys
      ensures Done(job) && (ok <==> resets != old(resets))
      ensures ok ==> old(NonePending(u, provider)) && resets == old(resets)[env.id := Reset(u, provider, None, Pending)]
    {
      hide Stamp, Done, InFlight, ResetPending, NonePending;
      ok := false;
      PendingByColumn(u, provider);
      var pending := ResetPending(Rows(), u, provider);
      Commit(job, Resetting(RequestReset1(u, provider)), env);
      if !pending {
        ok := InsertResetRow(u, provider, env, job);
      }
    }

    method InsertResetRow(u: Id, provider: Provider, env: Input, ghost job: Job) returns (ok: bool)
      requires At(job, Resetting(RequestReset2(u, provider))) && job.env == env
      modifies `resets, `run, `sys
      ensures Done(job) && (ok <==> resets != old(resets))
      ensures ok ==> resets == old(resets)[env.id := Reset(u, provider, None, Pending)]
    {
      hide Stamp, Done, InFlight;
      ok := env.id !in resets && u in users;
      if ok {
        resets := resets[env.id := Reset(u, provider, None, Pending)];
      }
      Commit(job, Resetting(RequestReset2(u, provider)), env);
    }

    method BeginResetPasskey(token: Id, env: Input) returns (ok: bool)
      requires Idle()
      modifies this
      ensures Done(Job(old(run), Resetting(BeginReset0(token)), env))
      ensures ok ==>
                && env.challenge.Some?
                && exists r :: old(ResetLinkOpen(r, token, ViaPasskey, env.now))
                               && adds == old(adds)[old(resets)[r].user := Challenge(env.challenge.value, Stamp(env.now + 5 * MINUTE))]
      ensures !ok ==> Rows() == old(Rows())
    {
      hide Stamp, Done, InFlight, FindReset;
      ok := false;
      ghost var job := Receive(Resetting(BeginReset0(token)), env);
      var row := SelectReset(token, env.now, ViaPasskey);
      Commit(job, Resetting(BeginReset0(token)), env.(row := row));
      if row.Some? {
        ok := StoreResetChallenge(resets[row.value].user, env, job);
      }
    }

    method StoreResetChallenge(u: Id, env: Input, ghost job: Job) returns (ok: bool)
      requires At(job, Resetting(BeginReset1(u))) && job.env == env
      modifies `adds, `run, `sys
      ensures Done(job) && (!ok ==> Rows() == old(Rows()))
      ensures ok ==> env.challenge.Some? && adds == old(adds)[u := Challenge(env.challenge.value, Stamp(env.now + 5 * MINUTE))]
    {
      hide Stamp, Done, InFlight;
      ok := UpsertAdd(u, env);
      Commit(job, Resetting(BeginReset1(u)), env);
    }

    method FinishResetPasskey(token: Id, env: Input) returns (ok: bool)
      requires Idle()
      modifies this
      ensures Done(Job(old(run), Resetting(FinishReset0(token)), env))
      ensures ok <==> passkeys != old(passkeys)
      ensures ok ==> exists r :: old(ResetLinkOpen(r, token, ViaPasskey, env.now) && AddOpen(resets[r].user, env.now))
                       && env.attested.Some? && passkeys == old(passkeys)[env.id := Attested(old(resets)[r].user, env.attested.value)]
    {
      hide Stamp, Done, InFlight, FindReset, AddOpen, Attested;
      ok := false;
      ghost var job := Receive(Resetting(FinishReset0(token)), env);
      var row := SelectReset(token, env.now, ViaPasskey);
      Commit(job, Resetting(FinishReset0(token)), env.(row := row));
      if row.Some? {
        ok := StoreResetKey(row.value, resets[row.value].user, env, job);
      }
    }

    method StoreResetKey(r: Id, u: Id, env: Input, ghost job: Job) returns (ok: bool)
      requires At(job, Resetting(FinishReset1(r, u, env.now))) && job.env == env
      modifies `adds, `passkeys, `resets, `run, `sys
      ensures Done(job) && (ok <==> passkeys != old(passkeys))
      ensures ok ==> old(AddOpen(u, env.now)) && env.attested.Some? && passkeys == old(passkeys)[env.id := Attested(u, env.attested.value)]
    {
      hide Stamp, Done, InFlight, InsertKeyStep, TakeAdd, AddOpen, Attested;
      ok := false;
      var taken := TakeAddRow(u, env.now);
      Commit(job, Resetting(FinishReset1(r, u, env.now)), env);
      if taken {
        ok := InsertResetKey(r, u, env, job);
      }
    }

    method InsertResetKey(r: Id, u: Id, env: Input, ghost job: Job) returns (ok: bool)
      requires At(job, Resetting(FinishReset2(r, u, env.now))) && job.env == env
      modifies `passkeys, `resets, `run, `sys
      ensures Done(job) && (ok <==> passkeys != old(passkeys))
      ensures ok ==> env.attested.Some? && passkeys == old(passkeys)[env.id := Attested(u, env.attested.value)]
    {
      hide Stamp, Done, InFlight, InsertKeyStep, Attested;
      ok := InsertAttestedKey(u, env);
      Commit(job, Resetting(FinishReset2(r, u, env.now)), env);
      if ok {
        CompleteKeyReset(r, env, job);
      }
    }

    method CompleteKeyReset(r: Id, env: Input, ghost job: Job)
      requires At(job, Resetting(FinishReset3(r))) && job.env == env
      modifies `resets, `run, `sys
      ensures Done(job)
    {
      hide Stamp, Done, InFlight;
      CompleteResetRow(r);
      Commit(job, Resetting(FinishReset3(r)), env);
    }

    /** UPDATE credential_reset_requests SET status='completed' WHERE id=? */
    method CompleteResetRow(r: Id)
      modifies `resets
      ensures Rows() == CompleteReset(old(Rows()), r)
    {
      if r in resets {
        resets := resets[r := resets[r].(status := Completed)];
      }
    }

    method ResetFreja(token: Id, email: string, subject: string, sessionId: Uuid, env: Input) returns (cookie: Option<Id>)
      requires Idle()
      modifies this
      ensures Done(Job(old(run), Resetting(ResetFreja0(token, email, subject)), env))
      ensures if cookie.Some? then
                && email != "" && cookie.value in sessions
                && exists r :: old(ResetLinkOpen(r, token, ViaFreja, env.now)) && old(resets)[r].user == sessions[cookie.value].user
                               && SameUpToCase(email, old(users)[old(resets)[r].user].username)
              else sessions == old(sessions)
    {
      hide Stamp, Done, InFlight, FindReset, EqualFold, SameUpToCase;
      cookie := None;
      ghost var job := Receive(Resetting(ResetFreja0(token, email, subject)), env);
      var row := SelectReset(token, env.now, ViaFreja);
      Commit(job, Resetting(ResetFreja0(token, email, subject)), env.(row := row));
      if email != "" && row.Some? {
        var u := resets[row.value].user;
        EqualFoldExactly(email, users[u].username);
        if EqualFold(email, users[u].username) {
          cookie := StoreResetSubject(row.value, u, email, subject, sessionId, env, job);
        }
      }
    }

    method StoreResetSubject(r: Id, u: Id, email: string, subject: string, sessionId: Uuid, env: Input, ghost job: Job)
      returns (cookie: Option<Id>)
      requires At(job, Resetting(ResetFreja1(r, u, email, subject, env.now))) && job.env == env
      modifies `identities, `resets, `sessions, `run, `sys
      ensures Done(job) && (if cookie.Some? then Entered(cookie.value, u) else sessions == old(sessions))
    {
      hide Stamp, Done, InFlight, UpsertIdentity;
      cookie := None;
      var ok := BindSubject(r, u, email, subject, env, job);
      if ok {
        CompleteFrejaReset(r, u, env, job);
        cookie := CreateSession(u, ByReset(r, env.now), sessionId, env, job);
      }
    }

    method BindSubject(r: Id, u: Id, email: string, subject: string, env: Input, ghost job: Job) returns (ok: bool)
      requires At(job, Resetting(ResetFreja1(r, u, email, subject, env.now))) && job.env == env
      modifies `identities, `run, `sys
      ensures if ok then At(job, Resetting(ResetFreja2(r, u, env.now))) else Done(job)
    {
      hide Stamp, Done, InFlight, UpsertIdentity;
      ok := UpsertIdentityRow(env.id, u, subject, email);
      Commit(job, Resetting(ResetFreja1(r, u, email, subject, env.now)), env);
    }

    method CompleteFrejaReset(r: Id, u: Id, env: Input, ghost job: Job)
      requires At(job, Resetting(ResetFreja2(r, u, env.now))) && job.env == env
      modifies `resets, `run, `sys
      ensures At(job, LoggingIn(EnterSession(u, ByReset(r, env.now))))
    {
      hide Stamp, Done, InFlight;
      CompleteResetRow(r);
      Commit(job, Resetting(ResetFreja2(r, u, env.now)), env);
    }

    /** INSERT INTO user_identities ... ON CONFLICT (provider, provider_subject) DO UPDATE SET provider_email */
    method UpsertIdentityRow(id: Id, u: Id, subject: string, email: string) returns (ok: bool)
      modifies `identities
      ensures match UpsertIdentity(old(Rows()), id, u, subject, email)
              case None => !ok && Rows() == old(Rows())
              case Some(d) => ok && Rows() == d
    {
      var held := exists k :: k in identities && HasSubject(Rows(), k, subject);
      ok := held || (id !in identities && u in users);
      if held {
        identities := map k | k in identities ::
          if HasSubject(Rows(), k, subject) then identities[k].(email := email) else identities[k];
      } else if ok {
        identities := identities[id := Identity(u, subject, email)];
      }
    }
  }
}
