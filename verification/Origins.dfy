/** Where each account's user name and Freja subjects come from: its registration, or something its user confirmed. */
module Origins {
  import opened Basics
  import opened Text
  import opened Timestamps
  import opened Tables
  import opened Requests
  import opened Runs
  import opened Effects
  import opened Steps
  import opened PublicKeys
  import opened Accounts

  // ------------------------------------------------------------------ origins

  /** The verified address of the registration behind `u`. */
  ghost predicate Registered(m: map<Id, Registration>, u: Id, name: string) {
    exists g :: Behind(m, g, u) && m[g].email == name
  }

  /** An e-mail token of `u` for this address was used. */
  ghost predicate Confirmed(log: Log, u: Id, name: string) {
    exists token, at :: EmailTakenOut(token, u, name, at) in log
  }

  ghost predicate NameFrom(log: Log, m: map<Id, Registration>, u: Id, name: string) {
    Registered(m, u, name) || Confirmed(log, u, name)
  }

  /** The subject was submitted for the registration whose account is `u`. */
  ghost predicate Submitted(log: Log, m: map<Id, Registration>, u: Id, subject: string) {
    exists g, reported :: g in m && m[g].account == u && SubjectSubmitted(g, subject, reported) in log
  }

  /** A link token of `u` for this subject and address was used. */
  ghost predicate LinkedWith(log: Log, u: Id, subject: string, address: string) {
    exists token, at :: LinkTaken(token, u, subject, address, at) in log
  }

  /** A reset of `u` was carried out with this subject and address. */
  ghost predicate ResetWith(log: Log, u: Id, subject: string, address: string) {
    exists r, began :: SubjectReset(u, subject, address, r, began) in log
  }

  ghost predicate Own(log: Log, m: map<Id, Registration>, u: Id, subject: string) {
    || Submitted(log, m, u, subject)
    || (exists address :: LinkedWith(log, u, subject, address)) || (exists address :: ResetWith(log, u, subject, address))
  }

  ghost predicate HasOwn(log: Log, m: map<Id, Registration>, u: Id) {
    exists subject :: Own(log, m, u, subject)
  }

  /** A subject is the account's own, or a login by e-mail address put it in the place of one that was. */
  ghost predicate SubjectFrom(log: Log, m: map<Id, Registration>, u: Id, subject: string) {
    Own(log, m, u, subject) || (SubjectRebound(u, subject) in log && HasOwn(log, m, u))
  }

  /**
   * The address of a Freja row of `u`: the registration's, one Freja reported with a link of `u`, one `u` confirmed,
   * or one Freja reported in a reset, be it another account's, together with a subject of `u`.
   */
  ghost predicate AddressFrom(log: Log, m: map<Id, Registration>, u: Id, address: string) {
    || Registered(m, u, address) || Confirmed(log, u, address)
    || (exists subject :: LinkedWith(log, u, subject, address))
    || (exists v, subject :: ResetWith(log, v, subject, address) && SubjectFrom(log, m, u, subject))
  }

  // --------------------------------------------------------------------- state

  ghost predicate RowSubmitted(log: Log, g: Id, row: Registration) {
    row.provider == ViaFreja ==> exists reported :: SubjectSubmitted(g, row.frejaSub, reported) in log
  }

  ghost predicate RowsSubmitted(log: Log, m: map<Id, Registration>) {
    forall g :: g in m ==> RowSubmitted(log, g, m[g])
  }

  /** What a request in flight is about to store has its origin. */
  ghost predicate Brings(log: Log, t: Task) {
    match t
    case Registering(Approve1(g, row, why)) => RowSubmitted(log, g, row)
    case Settings(ConfirmLink1(u, subject, email)) => LinkedWith(log, u, subject, email)
    case Settings(ConfirmEmail1(u, email)) => Confirmed(log, u, email)
    case Settings(ConfirmEmail2(u, email)) => Confirmed(log, u, email)
    case _ => true
  }

  ghost predicate NamesHaveOrigins(log: Log, db: Db) {
    forall u :: u in db.users ==> NameFrom(log, db.registrations, u, db.users[u].username)
  }

  ghost predicate RowFrom(log: Log, m: map<Id, Registration>, row: Identity) {
    SubjectFrom(log, m, row.user, row.subject) && AddressFrom(log, m, row.user, row.email)
  }

  ghost predicate RowsHaveOrigins(log: Log, db: Db) {
    forall k :: k in db.identities ==> RowFrom(log, db.registrations, db.identities[k])
  }

  // ---------------------------------------------------------------------- growth

  lemma ConfirmedStays(log: Log, more: Log, u: Id, name: string)
    requires Confirmed(log, u, name)
    ensures Confirmed(log + more, u, name)
  {
    var token, at :| EmailTakenOut(token, u, name, at) in log;
    assert EmailTakenOut(token, u, name, at) in log + more;
  }

  lemma LinkedStays(log: Log, more: Log, u: Id, subject: string, address: string)
    requires LinkedWith(log, u, subject, address)
    ensures LinkedWith(log + more, u, subject, address)
  {
    var token, at :| LinkTaken(token, u, subject, address, at) in log;
    assert LinkTaken(token, u, subject, address, at) in log + more;
  }

  lemma ResetStays(log: Log, more: Log, u: Id, subject: string, address: string)
    requires ResetWith(log, u, subject, address)
    ensures ResetWith(log + more, u, subject, address)
  {
    var r, began :| SubjectReset(u, subject, address, r, began) in log;
    assert SubjectReset(u, subject, address, r, began) in log + more;
  }

  lemma RegisteredStays(m: map<Id, Registration>, m': map<Id, Registration>, u: Id, name: string)
    requires Registered(m, u, name) && AllGrow(m, m')
    ensures Registered(m', u, name)
  {
    var g :| Behind(m, g, u) && m[g].email == name;
    assert Behind(m', g, u) && m'[g].email == name;
  }

  lemma NameFromStays(log: Log, more: Log, m: map<Id, Registration>, m': map<Id, Registration>, u: Id, name: string)
    requires NameFrom(log, m, u, name) && AllGrow(m, m')
    ensures NameFrom(log + more, m', u, name)
  {
    hide Registered, Confirmed, AllGrow;
    if Registered(m, u, name) {
      RegisteredStays(m, m', u, name);
    } else {
      ConfirmedStays(log, more, u, name);
    }
  }

  lemma SubmittedStays(log: Log, more: Log, m: map<Id, Registration>, m': map<Id, Registration>, u: Id, subject: string)
    requires Submitted(log, m, u, subject) && AllGrow(m, m')
    ensures Submitted(log + more, m', u, subject)
  {
    var g, reported :| g in m && m[g].account == u && SubjectSubmitted(g, subject, reported) in log;
    assert m'[g].account == u && SubjectSubmitted(g, subject, reported) in log + more;
  }

  lemma OwnStays(log: Log, more: Log, m: map<Id, Registration>, m': map<Id, Registration>, u: Id, subject: string)
    requires Own(log, m, u, subject) && AllGrow(m, m')
    ensures Own(log + more, m', u, subject)
  {
    hide Submitted, LinkedWith, ResetWith, AllGrow;
    if Submitted(log, m, u, subject) {
      SubmittedStays(log, more, m, m', u, subject);
    } else if address :| LinkedWith(log, u, subject, address) {
      LinkedStays(log, more, u, subject, address);
    } else {
      var address :| ResetWith(log, u, subject, address);
      ResetStays(log, more, u, subject, address);
    }
  }

  lemma SubjectFromStays(log: Log, more: Log, m: map<Id, Registration>, m': map<Id, Registration>, u: Id, subject: string)
    requires SubjectFrom(log, m, u, subject) && AllGrow(m, m')
    ensures SubjectFrom(log + more, m', u, subject)
  {
    hide Own, AllGrow;
    if Own(log, m, u, subject) {
      OwnStays(log, more, m, m', u, subject);
    } else {
      var first :| Own(log, m, u, first);
      OwnStays(log, more, m, m', u, first);
    }
  }

  lemma AddressFromStays(log: Log, more: Log, m: map<Id, Registration>, m': map<Id, Registration>, u: Id, address: string)
    requires AddressFrom(log, m, u, address) && AllGrow(m, m')
    ensures AddressFrom(log + more, m', u, address)
  {
    hide Registered, Confirmed, LinkedWith, ResetWith, SubjectFrom, AllGrow;
    if Registered(m, u, address) {
      RegisteredStays(m, m', u, address);
    } else if Confirmed(log, u, address) {
      ConfirmedStays(log, more, u, address);
    } else if subject :| LinkedWith(log, u, subject, address) {
      LinkedStays(log, more, u, subject, address);
    } else {
      var v, subject :| ResetWith(log, v, subject, address) && SubjectFrom(log, m, u, subject);
      ResetStays(log, more, v, subject, address);
      SubjectFromStays(log, more, m, m', u, subject);
    }
  }

  lemma BringsStays(log: Log, more: Log, t: Task)
    requires Brings(log, t)
    ensures Brings(log + more, t)
  {
    hide Confirmed, LinkedWith;
    match t
    case Registering(Approve1(g, row, why)) =>
      if row.provider == ViaFreja {
        var reported :| SubjectSubmitted(g, row.frejaSub, reported) in log;
        assert SubjectSubmitted(g, row.frejaSub, reported) in log + more;
      }
    case Settings(ConfirmLink1(u, subject, email)) => LinkedStays(log, more, u, subject, email);
    case Settings(ConfirmEmail1(u, email)) => ConfirmedStays(log, more, u, email);
    case Settings(ConfirmEmail2(u, email)) => ConfirmedStays(log, more, u, email);
    case _ =>
  }

  // ----------------------------------------------------------------- submissions

  lemma RowsStaySubmitted(log: Log, m: map<Id, Registration>, m': map<Id, Registration>, t: Task, i: Input, e: Option<Event>, g: Id)
    requires RegistrationsMove(m, m', t, i, e) && EventFits(t, i, e) && g in m' && (g in m ==> RowSubmitted(log, g, m[g]))
    ensures RowSubmitted(log + Logged(e), g, m'[g])
  {
    hide Stamp, Before, Park;
    if m'[g].provider == ViaFreja {
      if t.Registering? && t.r.FrejaRegister1? && t.r.reg == g {
        assert SubjectSubmitted(g, m'[g].frejaSub, t.r.reported) in log + Logged(e);
      } else {
        var reported :| SubjectSubmitted(g, m[g].frejaSub, reported) in log;
        assert SubjectSubmitted(g, m'[g].frejaSub, reported) in log + Logged(e);
      }
    }
  }

  lemma NextBrings(cfg: Config, db: Db, log: Log, t: Task, i: Input, o: Outcome)
    requires NextFits(cfg, db, t, i, o) && RowsSubmitted(log, db.registrations) && Brings(log, t) && o.next.Some?
    requires LinksMove(db.links, o.db.links, t, i, o) && EmailsMove(db.emails, o.db.emails, t, i, o)
    ensures Brings(log + Logged(o.event), o.next.value)
  {
    hide Stamp, IsAdminEmail, CurrentUser, SetupOpen, ResetOpen, ResetPending, EqualFold, UserNamed, HasFrejaEmail, KeysOf, FrejaKnown,
      EmailTaken, Confirmed, LinkedWith, RowSubmitted;
    match o.next.value
    case Registering(Approve1(g, row, why)) => BringsStays(log, Logged(o.event), o.next.value);
    case Settings(ConfirmLink1(u, subject, email)) => NewlyLinked(log, o.event, u, subject, email);
    case Settings(ConfirmEmail1(u, email)) => NewlyConfirmed(log, o.event, u, email);
    case Settings(ConfirmEmail2(u, email)) => ConfirmedStays(log, Logged(o.event), u, email);
    case _ =>
  }

  lemma NewlyLinked(log: Log, e: Option<Event>, u: Id, subject: string, address: string)
    requires e.Some? && e.value.LinkTaken? && e.value.user == u && e.value.subject == subject && e.value.address == address
    ensures LinkedWith(log + Logged(e), u, subject, address)
  {
    assert LinkTaken(e.value.link, u, subject, address, e.value.at) in log + Logged(e);
  }

  lemma NewlyConfirmed(log: Log, e: Option<Event>, u: Id, address: string)
    requires e.Some? && e.value.EmailTakenOut? && e.value.user == u && e.value.address == address
    ensures Confirmed(log + Logged(e), u, address)
  {
    assert EmailTakenOut(e.value.email, u, address, e.value.at) in log + Logged(e);
  }

  lemma NewlyReset(log: Log, e: Option<Event>)
    requires e.Some? && e.value.SubjectReset?
    ensures ResetWith(log + Logged(e), e.value.user, e.value.subject, e.value.address)
  {
    assert SubjectReset(e.value.user, e.value.subject, e.value.address, e.value.reset, e.value.began) in log + Logged(e);
  }

  // ----------------------------------------------------------------- rows

  /** An approval takes the address of the registration it completes. */
  lemma CreatedName(m': map<Id, Registration>, g: Id, u: Id, email: string)
    requires Behind(m', g, u) && m'[g].email == email
    ensures Registered(m', u, email)
  {
  }

  lemma UserNameMoves(m: map<Id, User>, m': map<Id, User>, t: Task, i: Input, e: Option<Event>, u: Id)
    requires UsersMove(m, m', t, e) && EventFits(t, i, e) && u in m'
    ensures u !in m ==> e.Some? && e.value.Created? && e.value.user == u && m'[u].username == e.value.email
    ensures u in m && m'[u].username != m[u].username ==> t.Settings? && t.s.ConfirmEmail1? && t.s.user == u && m'[u].username == t.s.email
  {
  }

  lemma NameHasOrigin(log: Log, db: Db, d: Db, t: Task, i: Input, e: Option<Event>, u: Id)
    requires NamesHaveOrigins(log, db) && AllGrow(db.registrations, d.registrations) && Brings(log, t)
    requires UsersMove(db.users, d.users, t, e) && EventFits(t, i, e) && u in d.users
    requires e.Some? && e.value.Created? ==>
               Behind(d.registrations, e.value.reg, e.value.user) && d.registrations[e.value.reg].email == e.value.email
    ensures NameFrom(log + Logged(e), d.registrations, u, d.users[u].username)
  {
    hide UsersMove, EventFits, AllGrow, Behind, Confirmed, Registered;
    UserNameMoves(db.users, d.users, t, i, e, u);
    if u !in db.users {
      CreatedName(d.registrations, e.value.reg, u, e.value.email);
    } else if d.users[u].username == db.users[u].username {
      NameFromStays(log, Logged(e), db.registrations, d.registrations, u, db.users[u].username);
    } else {
      BringsStays(log, Logged(e), t);
    }
  }

  /** A new row is that of an approval, a link or a reset. */
  ghost predicate NewRow(t: Task, e: Option<Event>, row: Identity) {
    || (t.Registering? && t.r.Approve1? && e.Some? && t.r.row.provider == ViaFreja
        && row == Identity(t.r.row.account, t.r.row.frejaSub, t.r.row.email))
    || (t.Settings? && t.s.ConfirmLink1? && row == Identity(t.s.user, t.s.subject, t.s.email))
    || (t.Resetting? && e.Some? && e.value.SubjectReset? && row == Identity(e.value.user, e.value.subject, e.value.address))
  }

  /** A row that was there keeps its owner; its subject changes by rebinding, its address by its owner's token or by a reset. */
  ghost predicate SameRow(t: Task, e: Option<Event>, row: Identity, row': Identity) {
    && row'.user == row.user && (row'.subject == row.subject || e == Some(SubjectRebound(row.user, row'.subject)))
    && (|| row'.email == row.email
        || t == Settings(ConfirmEmail2(row.user, row'.email))
        || (e.Some? && e.value.SubjectReset? && e.value.subject == row.subject && e.value.address == row'.email))
  }

  lemma RowMoves(m: map<Id, Identity>, m': map<Id, Identity>, t: Task, i: Input, e: Option<Event>, k: Id)
    requires IdentitiesMove(m, m', t, i, e) && EventFits(t, i, e) && k in m'
    ensures if k in m then SameRow(t, e, m[k], m'[k]) else NewRow(t, e, m'[k])
  {
  }

  lemma NewRowHasOrigin(log: Log, db: Db, d: Db, t: Task, e: Option<Event>, row: Identity)
    requires AllGrow(db.registrations, d.registrations) && Brings(log, t) && NewRow(t, e, row)
    requires t.Registering? && t.r.Approve1? && e.Some? ==>
               && t.r.reg in db.registrations && db.registrations[t.r.reg].account == t.r.row.account
               && Registered(d.registrations, t.r.row.account, t.r.row.email)
    ensures RowFrom(log + Logged(e), d.registrations, row)
  {
    hide Registered, Confirmed, LinkedWith, ResetWith;
    if t.Registering? {
      var reported :| SubjectSubmitted(t.r.reg, row.subject, reported) in log;
      assert SubjectSubmitted(t.r.reg, row.subject, reported) in log + Logged(e);
      assert d.registrations[t.r.reg].account == row.user;
    } else if t.Settings? {
      BringsStays(log, Logged(e), t);
    } else {
      NewlyReset(log, e);
    }
  }

  lemma SameRowHasOrigin(log: Log, db: Db, d: Db, t: Task, e: Option<Event>, row: Identity, row': Identity)
    requires AllGrow(db.registrations, d.registrations) && Brings(log, t) && SameRow(t, e, row, row')
    requires RowFrom(log, db.registrations, row)
    ensures RowFrom(log + Logged(e), d.registrations, row')
  {
    hide AllGrow, Own, Brings, Registered, Confirmed, LinkedWith, ResetWith;
    SubjectFromStays(log, Logged(e), db.registrations, d.registrations, row.user, row.subject);
    if row'.email == row.email {
      AddressFromStays(log, Logged(e), db.registrations, d.registrations, row.user, row.email);
    } else if t == Settings(ConfirmEmail2(row.user, row'.email)) {
      BringsStays(log, Logged(e), t);
      assert Brings(log + Logged(e), t);
      BringsConfirmed(log + Logged(e), row.user, row'.email);
    } else {
      NewlyReset(log, e);
    }
  }

  lemma BringsConfirmed(log: Log, u: Id, email: string)
    requires Brings(log, Settings(ConfirmEmail2(u, email)))
    ensures Confirmed(log, u, email)
  {
  }

  // --------------------------------------------------------------------- runs

  ghost predicate Originated(s: Sys) {
    && RowsSubmitted(s.log, s.db.registrations) && NamesHaveOrigins(s.log, s.db) && RowsHaveOrigins(s.log, s.db)
    && forall p :: p in s.pool ==> Brings(s.log, s.pool[p])
  }

  lemma ApproverKnows(cfg: Config, s: Sys, pid: nat)
    requires Sound(cfg, s) && pid in s.pool
    ensures var t := s.pool[pid];
            t.Registering? && t.r.Approve1? ==>
              t.r.reg in s.db.registrations && s.db.registrations[t.r.reg].account == t.r.row.account
  {
    hide RowSound, IsAdminEmail;
    assert Knows(cfg, s.db.registrations, s.pool[pid]);
  }

  lemma CreationBehind(cfg: Config, s: Sys, pid: nat, i: Input)
    requires Accounted(cfg, s) && pid in s.pool
    ensures var o := Step(cfg, s.db, s.pool[pid], i);
            o.event.Some? && o.event.value.Created? ==>
              && Behind(o.db.registrations, o.event.value.reg, o.event.value.user)
              && o.db.registrations[o.event.value.reg].email == o.event.value.email
  {
    hide Step, Effect, Accounted;
    var o := Step(cfg, s.db, s.pool[pid], i);
    StepEffect(cfg, s.db, s.pool[pid], i);
    if o.event.Some? && o.event.value.Created? {
      CreationStep(cfg, s, pid, i, o);
    }
  }

  lemma CreationRegistered(cfg: Config, s: Sys, pid: nat, i: Input)
    requires Accounted(cfg, s) && pid in s.pool
    ensures var t := s.pool[pid];
            var o := Step(cfg, s.db, t, i);
            t.Registering? && t.r.Approve1? && o.event.Some? ==> Registered(o.db.registrations, t.r.row.account, t.r.row.email)
  {
    hide Step, Accounted, Behind, NextFits;
    var t := s.pool[pid];
    CreationBehind(cfg, s, pid, i);
    StepTells(cfg, s.db, t, i);
    var o := Step(cfg, s.db, t, i);
    if t.Registering? && t.r.Approve1? && o.event.Some? {
      CreatedName(o.db.registrations, o.event.value.reg, o.event.value.user, o.event.value.email);
    }
  }

  lemma TokenMoves(cfg: Config, db: Db, t: Task, i: Input)
    ensures var o := Step(cfg, db, t, i); LinksMove(db.links, o.db.links, t, i, o) && EmailsMove(db.emails, o.db.emails, t, i, o)
  {
    hide Step, NextFits, EventFits, UserExists, UsersMove, RegistrationsMove, SessionsMove, PasskeysMove, IdentitiesMove, ResetsMove,
      LoginsMove, AddsMove, LinksMove, EmailsMove;
    StepEffect(cfg, db, t, i);
  }

  lemma StepKeepsOrigins(cfg: Config, s: Sys, pid: nat, i: Input)
    requires Originated(s) && Accounted(cfg, s) && pid in s.pool
    ensures Originated(After(s, pid, Step(cfg, s.db, s.pool[pid], i)))
  {
    hide Step, Sound, UniqueRegistrations, Backed, EventFits, NextFits, UsersMove, RegistrationsMove, IdentitiesMove, LinksMove, EmailsMove,
      RowSubmitted, NameFrom, RowFrom, Brings, AllGrow, Behind, Registered, SameRow, NewRow;
    var t := s.pool[pid];
    var o := Step(cfg, s.db, t, i);
    var log := s.log + Logged(o.event);
    StepTells(cfg, s.db, t, i);
    StepUsers(cfg, s.db, t, i);
    StepRegistrations(cfg, s.db, t, i);
    StepIdentities(cfg, s.db, t, i);
    TokenMoves(cfg, s.db, t, i);
    RegistrationsGrow(s.db.registrations, o.db.registrations, t, i, o.event);
    ApproverKnows(cfg, s, pid);
    CreationBehind(cfg, s, pid, i);
    CreationRegistered(cfg, s, pid, i);
    forall g | g in o.db.registrations ensures RowSubmitted(log, g, o.db.registrations[g]) {
      RowsStaySubmitted(s.log, s.db.registrations, o.db.registrations, t, i, o.event, g);
    }
    forall u | u in o.db.users ensures NameFrom(log, o.db.registrations, u, o.db.users[u].username) {
      NameHasOrigin(s.log, s.db, o.db, t, i, o.event, u);
    }
    forall k | k in o.db.identities ensures RowFrom(log, o.db.registrations, o.db.identities[k]) {
      RowMoves(s.db.identities, o.db.identities, t, i, o.event, k);
      if k in s.db.identities {
        SameRowHasOrigin(s.log, s.db, o.db, t, o.event, s.db.identities[k], o.db.identities[k]);
      } else {
        NewRowHasOrigin(s.log, s.db, o.db, t, o.event, o.db.identities[k]);
      }
    }
    if o.next.Some? {
      NextBrings(cfg, s.db, s.log, t, i, o);
    }
    forall p | p in s.pool ensures Brings(log, s.pool[p]) {
      BringsStays(s.log, Logged(o.event), s.pool[p]);
    }
  }

  lemma ArrivalBrings(log: Log, t: Task)
    requires IsRequest(t)
    ensures Brings(log, t)
  {
  }

  lemma {:induction false} OriginatedAlways(cfg: Config, moves: seq<Move>)
    ensures Originated(Execute(cfg, moves))
  {
    if moves != [] {
      hide Step, Accounted, RowsSubmitted, NamesHaveOrigins, RowsHaveOrigins, Brings;
      var s, m := Execute(cfg, moves[..|moves| - 1]), moves[|moves| - 1];
      OriginatedAlways(cfg, moves[..|moves| - 1]);
      if m.Run? && m.pid in s.pool {
        BackedAlways(cfg, moves[..|moves| - 1]);
        StepKeepsOrigins(cfg, s, m.pid, m.input);
      } else if m.Arrive? && IsRequest(m.task) {
        ArrivalBrings(s.log, m.task);
      }
    }
  }

  /**
   * After any run a user's name is the verified address of the completed registration the account was created
   * for, or an address for which an e-mail token of that user was used.
   */
  lemma UserNamesHaveOrigins(cfg: Config, moves: seq<Move>, u: Id)
    requires u in Execute(cfg, moves).db.users
    ensures var s := Execute(cfg, moves); NameFrom(s.log, s.db.registrations, u, s.db.users[u].username)
  {
    hide Execute, NameFrom;
    OriginatedAlways(cfg, moves);
  }

  /**
   * After any run a Freja subject an account holds was submitted for the registration the account was created for,
   * confirmed by a link token of its user or brought by a reset of its user; or a login by e-mail address put it
   * in the place of one that came that way. The row's e-mail address is the registration's, one that came with such
   * a link, one that its user confirmed by an e-mail token, or one that came with a reset using a subject of the account.
   */
  lemma FrejaRowsHaveOrigins(cfg: Config, moves: seq<Move>, k: Id)
    requires k in Execute(cfg, moves).db.identities
    ensures var s := Execute(cfg, moves);
            var row := s.db.identities[k];
            SubjectFrom(s.log, s.db.registrations, row.user, row.subject) && AddressFrom(s.log, s.db.registrations, row.user, row.email)
  {
    hide Execute, SubjectFrom, AddressFrom;
    OriginatedAlways(cfg, moves);
  }
}
