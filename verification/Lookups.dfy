/** Which row each lookup finds, and when a check lets a request go on, column by column or by the event history. */
module Lookups {
  import opened Basics
  import opened Text
  import opened Timestamps
  import opened Tables
  import opened Requests
  import opened Runs
  import opened Steps
  import opened History
  import opened Sessions
  import opened Registrations

  // ------------------------------------------------------------------- names

  /** By the history, `u` is a user of exactly this name who is not banned. */
  predicate Answers(log: Log, u: Id, name: string) {
    NameNow(log, u) == Some(name) && !BannedNow(log, u)
  }

  /** By the history, `u` is a user whose name is this one up to case. */
  predicate Bears(log: Log, u: Id, name: string) {
    NameNow(log, u).Some? && SameUpToCase(NameNow(log, u).value, name)
  }

  lemma Told(cfg: Config, moves: seq<Move>, u: Id)
    ensures ToldOf(Execute(cfg, moves).log, Execute(cfg, moves).db.users, u)
  {
    hide Execute, ToldOf, Tracked;
    FaithfulAlways(cfg, moves);
  }

  lemma NamedExactly(cfg: Config, moves: seq<Move>, u: Id, name: string)
    ensures var s := Execute(cfg, moves);
            && (UserNamed(s.db, u, name) <==> Answers(s.log, u, name))
            && (UserLike(s.db, u, name) <==> Bears(s.log, u, name))
  {
    hide Execute, SameUpToCase, Lower, NameNow, BannedNow, RoleNow;
    Told(cfg, moves, u);
    var s := Execute(cfg, moves);
    if u in s.db.users {
      EqualFoldExactly(s.db.users[u].username, name);
    }
  }

  lemma EveryoneNamed(cfg: Config, moves: seq<Move>, name: string)
    ensures var s := Execute(cfg, moves);
            && (forall u :: UserNamed(s.db, u, name) <==> Answers(s.log, u, name))
            && (forall u :: UserLike(s.db, u, name) <==> Bears(s.log, u, name))
  {
    hide Execute, UserNamed, UserLike, Answers, Bears;
    var s := Execute(cfg, moves);
    forall u ensures UserNamed(s.db, u, name) <==> Answers(s.log, u, name) {
      NamedExactly(cfg, moves, u, name);
    }
    forall u ensures UserLike(s.db, u, name) <==> Bears(s.log, u, name) {
      NamedExactly(cfg, moves, u, name);
    }
  }

  /**
   * finishLogin goes on with the user whose latest name is exactly the address and whom the latest ban or unban
   * leaves unbanned, and with nobody's id exactly if there is no such user.
   */
  lemma FinishLoginFinds(cfg: Config, moves: seq<Move>, email: string, i: Input)
    ensures var s := Execute(cfg, moves);
            var next := Step(cfg, s.db, LoggingIn(FinishLogin0(email)), i).next;
            match i.row
            case Some(u) =>
              next == Some(LoggingIn(if Answers(s.log, u, email) then FinishLogin1(u) else FinishLogin0(email)))
            case None =>
              next == Some(LoggingIn(if forall u :: !Answers(s.log, u, email) then FinishLogin1("") else FinishLogin0(email)))
  {
    hide Execute, Answers, UserNamed;
    EveryoneNamed(cfg, moves, email);
    NamedIsUser(Execute(cfg, moves).db, email);
  }

  lemma NamedIsUser(db: Db, email: string)
    ensures forall u :: UserNamed(db, u, email) || UserLike(db, u, email) ==> u in db.users
  {
    hide Lower;
  }

  /** beginLogin goes on with exactly such a user, and with nobody else. */
  lemma BeginLoginFinds(cfg: Config, moves: seq<Move>, email: string, i: Input)
    ensures var s := Execute(cfg, moves);
            var next := Step(cfg, s.db, LoggingIn(BeginLogin0(email)), i).next;
            match i.row
            case Some(u) => next == Some(LoggingIn(if Answers(s.log, u, email) then BeginLogin1(u) else BeginLogin0(email)))
            case None => next == if forall u :: !Answers(s.log, u, email) then None else Some(LoggingIn(BeginLogin0(email)))
  {
    hide Execute, Answers, UserNamed;
    EveryoneNamed(cfg, moves, email);
    NamedIsUser(Execute(cfg, moves).db, email);
  }

  /** A sign-up goes on exactly if no account has the address as its name up to case, and then if it was not filed before. */
  lemma SubmissionGoesOn(cfg: Config, moves: seq<Move>, email: string, i: Input)
    ensures var s := Execute(cfg, moves);
            && Step(cfg, s.db, Registering(Submit0(email)), i).next
               == (if email != "" && forall u :: !Bears(s.log, u, email) then Some(Registering(Submit1(email))) else None)
            && Step(cfg, s.db, Registering(Submit1(email)), i).next
               == (if forall g :: !FiledFor(s.log, g, email) then Some(Registering(Submit2(email))) else None)
  {
    hide Execute, Bears, UserLike, FiledFor;
    EveryoneNamed(cfg, moves, email);
    NamedIsUser(Execute(cfg, moves).db, email);
    EveryoneFiled(cfg, moves, email);
  }

  predicate FiledFor(log: Log, g: Id, email: string) {
    FilingOf(log, g).Some? && FilingOf(log, g).value.address == email
  }

  lemma EveryoneFiled(cfg: Config, moves: seq<Move>, email: string)
    ensures var s := Execute(cfg, moves);
            forall g :: FiledFor(s.log, g, email) <==> g in s.db.registrations && s.db.registrations[g].email == email
  {
    hide Execute, FilingOf, VerificationOf, StatusNow, Stamp;
    var s := Execute(cfg, moves);
    forall g ensures FiledFor(s.log, g, email) <==> g in s.db.registrations && s.db.registrations[g].email == email {
      SignupToldAlways(cfg, moves, g);
    }
  }

  /** A reset is asked for by an address that is the account's name up to case and surrounding white space. */
  lemma ResetFinds(cfg: Config, moves: seq<Move>, email: string, provider: Provider, i: Input, address: string)
    requires Normalised(email, address)
    ensures var s := Execute(cfg, moves);
            var t := Resetting(RequestReset0(email, provider));
            match i.row
            case Some(u) =>
              Step(cfg, s.db, t, i).next == Some(if Bears(s.log, u, address) then Resetting(RequestReset1(u, provider)) else t)
            case None => Step(cfg, s.db, t, i).next == if forall u :: !Bears(s.log, u, address) then None else Some(t)
  {
    hide Execute, Bears, UserLike, TrimSpace, Lower, Normalised;
    NormalisedExactly(email, address);
    EveryoneNamed(cfg, moves, address);
    NamedIsUser(Execute(cfg, moves).db, address);
  }

  /** An e-mail change goes on exactly if no other account's name is the new address in some case. */
  lemma EmailChangeGoesOn(cfg: Config, moves: seq<Move>, u: Id, email: string, i: Input)
    ensures var s := Execute(cfg, moves);
            Step(cfg, s.db, Settings(ChangeEmail0(u, email)), i).next
            == if email != "" && forall v :: v != u ==> !BearsLower(s.log, v, email) then Some(Settings(ChangeEmail1(u, email))) else None
  {
    hide Execute, BearsLower;
    EveryoneLower(cfg, moves, email);
  }

  predicate BearsLower(log: Log, v: Id, email: string) {
    NameNow(log, v).Some? && LowerOf(NameNow(log, v).value, email)
  }

  lemma EveryoneLower(cfg: Config, moves: seq<Move>, email: string)
    ensures var s := Execute(cfg, moves);
            forall v :: BearsLower(s.log, v, email) <==> v in s.db.users && Lower(s.db.users[v].username) == email
  {
    hide Execute, LowerOf, Lower, NameNow, BannedNow, RoleNow;
    var s := Execute(cfg, moves);
    forall v ensures BearsLower(s.log, v, email) <==> v in s.db.users && Lower(s.db.users[v].username) == email {
      Told(cfg, moves, v);
      if v in s.db.users {
        LowerOfExactly(s.db.users[v].username, email);
      }
    }
  }

  // ------------------------------------------------------------ Freja identities

  /** Row `k` says that this subject is `u`'s. */
  predicate Subject(db: Db, k: Id, u: Id, subject: string) {
    k in db.identities && db.identities[k].user == u && db.identities[k].subject == subject
  }

  /** Row `k`, of `u`, reports this address up to case. */
  predicate Reports(db: Db, k: Id, u: Id, email: string) {
    k in db.identities && db.identities[k].user == u && SameUpToCase(db.identities[k].email, email)
  }

  /** A Freja login goes to the owner of the subject; if there is none, and only then, it falls back to the address. */
  lemma FrejaLoginFinds(cfg: Config, db: Db, email: string, subject: string, i: Input)
    requires email != ""
    ensures var t := LoggingIn(FrejaLogin0(email, subject));
            match i.row
            case Some(k) =>
              && (forall u :: Subject(db, k, u, subject) ==> Step(cfg, db, t, i).next == Some(LoggingIn(EnterSession(u, ByFreja))))
              && ((forall u :: !Subject(db, k, u, subject)) ==> Step(cfg, db, t, i) == Goto(db, t))
            case None =>
              Step(cfg, db, t, i).next
              == if exists k, u :: Subject(db, k, u, subject) then Some(t)
                 else if subject != "" then Some(LoggingIn(FrejaLogin1(email, subject))) else None
  {
    hide BeginLoginStep, FinishLoginStep, SignCountStep, FrejaFallbackStep, FrejaRebindStep, Stamp, Before;
    forall k ensures HasSubject(db, k, subject) <==> exists u :: Subject(db, k, u, subject) {
      if k in db.identities {
        assert Subject(db, k, db.identities[k].user, subject) <==> HasSubject(db, k, subject);
      }
    }
  }

  /** The fallback goes to the owner of a row with that address up to case, and to nobody if there is none. */
  lemma FallbackFinds(cfg: Config, db: Db, email: string, subject: string, i: Input)
    ensures var t := LoggingIn(FrejaLogin1(email, subject));
            match i.row
            case Some(k) =>
              && (forall u :: Reports(db, k, u, email) ==> Step(cfg, db, t, i) == Goto(db, LoggingIn(FrejaLogin2(u, subject))))
              && ((forall u :: !Reports(db, k, u, email)) ==> Step(cfg, db, t, i) == Goto(db, t))
            case None => Step(cfg, db, t, i).next == if exists k, u :: Reports(db, k, u, email) then Some(t) else None
  {
    hide Lower, SameUpToCase;
    forall k ensures HasFrejaEmail(db, k, email) <==> exists u :: Reports(db, k, u, email) {
      if k in db.identities {
        EqualFoldExactly(db.identities[k].email, email);
        assert Reports(db, k, db.identities[k].user, email) <==> HasFrejaEmail(db, k, email);
      }
    }
    if i.row.Some? && i.row.value in db.identities {
      assert Reports(db, i.row.value, db.identities[i.row.value].user, email) <==> HasFrejaEmail(db, i.row.value, email);
    }
  }

  /** Linking goes on exactly if no account has the subject or, up to case, the address. */
  lemma LinkGoesOn(cfg: Config, db: Db, u: Id, email: string, subject: string, i: Input)
    ensures Step(cfg, db, Settings(Link0(u, email, subject)), i).next
            == if email != "" && forall k, v :: !Subject(db, k, v, subject) && !Reports(db, k, v, email)
               then Some(Settings(Link1(u, email, subject))) else None
  {
    hide Lower, SameUpToCase;
    forall k | k in db.identities
      ensures HasSubject(db, k, subject) <==> Subject(db, k, db.identities[k].user, subject)
      ensures HasFrejaEmail(db, k, email) <==> Reports(db, k, db.identities[k].user, email)
    {
      EqualFoldExactly(db.identities[k].email, email);
    }
    if FrejaKnown(db, subject, email) {
      var k :| k in db.identities && (HasSubject(db, k, subject) || HasFrejaEmail(db, k, email));
      assert Subject(db, k, db.identities[k].user, subject) || Reports(db, k, db.identities[k].user, email);
    } else {
      forall k, v ensures !Subject(db, k, v, subject) && !Reports(db, k, v, email) {
        assert k in db.identities ==> !(HasSubject(db, k, subject) || HasFrejaEmail(db, k, email));
      }
    }
  }

  // ---------------------------------------------------------- addresses of rows

  /** Syncing the address: every row of the user reports the new one, and nothing else changes. */
  lemma AddressFollows(cfg: Config, db: Db, u: Id, email: string, i: Input)
    ensures var o := Step(cfg, db, Settings(ConfirmEmail2(u, email)), i);
            && o.db == db.(identities := o.db.identities) && o.db.identities.Keys == db.identities.Keys
            && forall k :: k in db.identities ==>
                 && o.db.identities[k].user == db.identities[k].user && o.db.identities[k].subject == db.identities[k].subject
                 && o.db.identities[k].email == if db.identities[k].user == u then email else db.identities[k].email
  {
  }

  /** A reset: the row with the subject, whosever it is, reports the new address; no other row changes. */
  lemma AddressOfReset(cfg: Config, db: Db, r: Id, u: Id, email: string, subject: string, began: Instant, i: Input, k: Id)
    requires k in db.identities
    requires Step(cfg, db, Resetting(ResetFreja1(r, u, email, subject, began)), i).event.Some?
    ensures var m := Step(cfg, db, Resetting(ResetFreja1(r, u, email, subject, began)), i).db.identities;
            && k in m && m[k].user == db.identities[k].user && m[k].subject == db.identities[k].subject
            && m[k].email == if db.identities[k].subject == subject then email else db.identities[k].email
  {
    hide Step;
    StepIdentities(cfg, db, Resetting(ResetFreja1(r, u, email, subject, began)), i);
  }
}
