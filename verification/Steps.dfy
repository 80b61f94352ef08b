/** Every statement of every request has the effect that Effects describes. */
module Steps {
  import opened Basics
  import opened Text
  import opened Timestamps
  import opened Tables
  import opened Requests
  import opened PublicKeys
  import opened Effects

  lemma LoginUserExists(db: Db, t: LoginTask, i: Input)
    ensures UserExists(db, LoggingIn(t), LoginStep(db, t, i))
  {
  }

  lemma SettingsUserExists(db: Db, t: SettingsTask, i: Input)
    ensures UserExists(db, Settings(t), SettingsStep(db, t, i))
  {
  }

  lemma ResetUserExists(db: Db, t: ResetTask, i: Input)
    ensures UserExists(db, Resetting(t), ResetStep(db, t, i))
  {
    if t.ResetFreja1? {
      UpsertEffect(db, i.id, t.user, t.subject, t.email);
    }
  }

  // Statements whose effect takes an argument.

  /** What both approval transactions do to users and registration_requests. */
  ghost predicate AccountOpened(db: Db, d: Db, g: Id, row: Registration) {
    && row.account !in db.users && NameFree(db.users, row.email)
    && d.users == db.users[row.account := User(row.email, Passive, false)]
    && d.registrations == if g in db.registrations
       then db.registrations[g := db.registrations[g].(status := Completed, user := Some(row.account))]
       else db.registrations
  }

  lemma ApproveFrejaOpens(db: Db, g: Id, row: Registration, id: Id)
    ensures var d := ApproveFreja(db, g, row.account, row.email, row.frejaSub, id);
            d.Some? ==> AccountOpened(db, d.value, g, row)
  {
    hide Unpark, LinkIdentity, InsertPasskey;
    if InsertUser(db, row.account, row.email).Some? {
      assert NameFree(db.users, row.email);
    }
  }

  lemma ApprovePasskeyOpens(db: Db, g: Id, row: Registration, id: Id)
    ensures var d := ApprovePasskey(db, g, row.account, row.email, row.credential, id);
            d.Some? ==> AccountOpened(db, d.value, g, row)
  {
    hide Unpark, LinkIdentity, InsertPasskey;
    if InsertUser(db, row.account, row.email).Some? {
      assert NameFree(db.users, row.email);
    }
  }

  lemma ApprovalUsers(db: Db, g: Id, row: Registration, why: Approver, id: Id)
    ensures var o := ApprovalStep(db, g, row, why, id);
            if o.event.None? then o == Stop(db)
            else o.event == Some(Created(g, row.account, row.email, why)) && AccountOpened(db, o.db, g, row)
  {
    if row.provider == ViaFreja {
      ApproveFrejaOpens(db, g, row, id);
    } else {
      ApprovePasskeyOpens(db, g, row, id);
    }
  }

  lemma InsertPasskeyEffect(db: Db, id: Id, u: Id, credId: seq<Byte>, publicKey: seq<Byte>, signCount: int)
    ensures var d := InsertPasskey(db, id, u, credId, publicKey, signCount);
            d.Some? ==> u in db.users && KeyInserted(db.passkeys, d.value.passkeys, id, u, credId, publicKey, signCount)
  {
  }

  lemma ApprovePasskeyUnparks(db: Db, g: Id, row: Registration, id: Id)
    ensures var d := ApprovePasskey(db, g, row.account, row.email, row.credential, id);
            d.Some? ==> KeyUnparked(db.passkeys, d.value.passkeys, id, row)
  {
    hide Unpark, InsertPasskey;
    if row.credential.Some? && Unpark(row.credential.value).Some? {
      var stored, d := Unpark(row.credential.value).value, InsertUser(db, row.account, row.email);
      if d.Some? {
        InsertPasskeyEffect(d.value, id, row.account, stored.id, stored.publicKey, stored.signCount);
      }
    }
  }

  lemma ApprovalPasskeys(db: Db, g: Id, row: Registration, why: Approver, id: Id)
    ensures var o := ApprovalStep(db, g, row, why, id);
            if o.event.None? || row.provider == ViaFreja then o.db.passkeys == db.passkeys
            else KeyUnparked(db.passkeys, o.db.passkeys, id, row)
  {
    hide KeyUnparked;
    ApprovePasskeyUnparks(db, g, row, id);
  }

  lemma InsertKeyEffect(db: Db, u: Id, next: Option<Task>, began: Instant, via: Option<Id>, i: Input)
    ensures var o := InsertKeyStep(db, u, next, began, via, i);
            || (o.db == db && o.event.None? && o.next.None?)
            || (o.next == next && u in db.users && KeyAttested(db.passkeys, o.db.passkeys, u, began, via, i, o.event))
  {
    hide KeyColumn;
    if i.attested.Some? {
      InsertPasskeyEffect(db, i.id, u, i.attested.value.id, KeyColumn(i.attested.value.publicKey), i.attested.value.signCount);
    }
  }

  lemma FiledEffect(db: Db, email: string, i: Input)
    ensures var d := InsertRegistration(db, i.id, i.token, i.account, email, i.now);
            d.Some? ==> RowFiled(db.registrations, d.value.registrations, email, i)
  {
  }

  lemma VerifyEffect(db: Db, token: Id, i: Input)
    ensures var o := VerifyStep(db, token, i);
            if o.event.None? then o.db.registrations == db.registrations
            else
              && i.row.Some? && VerifiedRow(db.registrations, o.db.registrations, i.row.value, token, i)
              && o.event == Some(AddressVerified(i.row.value, i.token, i.now))
  {
  }

  lemma SignCountEffect(db: Db, u: Id, i: Input)
    requires i.asserted.Some?
    ensures SignCounted(db.passkeys, SignCountStep(db, u, i).db.passkeys, u, i.asserted.value.0, i.asserted.value.1)
  {
  }

  lemma UpsertLoginEffect(db: Db, u: Id, challenge: string, now: Instant)
    ensures var d := UpsertLogin(db, u, challenge, now);
            d.Some? ==> u in db.users && d.value.logins == db.logins[u := Challenge(challenge, Stamp(now + 5 * MINUTE))]
  {
    hide Stamp;
  }

  lemma UpsertAddEffect(db: Db, u: Id, challenge: string, now: Instant)
    ensures var d := UpsertAdd(db, u, challenge, now);
            d.Some? ==> u in db.users && d.value.adds == db.adds[u := Challenge(challenge, Stamp(now + 5 * MINUTE))]
  {
    hide Stamp;
  }

  lemma BeginAddEffect(db: Db, u: Id, i: Input)
    ensures BegunAdd(db.adds, BeginAddStep(db, u, i).db.adds, u, i, BeginAddStep(db, u, i))
  {
    hide UpsertAdd, Stamp;
    if i.challenge.Some? {
      UpsertAddEffect(db, u, i.challenge.value, i.now);
    }
  }

  lemma TakeEmailEffect(db: Db, token: Id, i: Input)
    ensures var o := TakeEmailStep(db, token, i);
            if token in db.emails && Before(Stamp(i.now), db.emails[token].expires) then
              && o.db.emails == db.emails - {token}
              && o.event == Some(EmailTakenOut(token, db.emails[token].user, db.emails[token].newEmail, i.now))
              && o.next == Some(Settings(ConfirmEmail1(db.emails[token].user, db.emails[token].newEmail)))
            else o == Stop(db)
  {
    hide Stamp, Before;
  }

  lemma TakeLinkEffect(db: Db, u: Id, token: Id, i: Input)
    ensures var o := TakeLinkStep(db, u, token, i);
            if token in db.links && db.links[token].user == u && Before(Stamp(i.now), db.links[token].expires) then
              && o.db.links == db.links - {token}
              && o.event == Some(LinkTaken(token, u, db.links[token].subject, db.links[token].email, i.now))
              && o.next == Some(Settings(ConfirmLink1(u, db.links[token].subject, db.links[token].email)))
            else o == Stop(db)
  {
    hide Stamp, Before;
  }

  lemma ApproveResetEffect(db: Db, r: Id, token: Id, now: Instant)
    requires r in db.resets && db.resets[r].status == Pending
    ensures var d := ApproveReset(db, r, token, now);
            d.Some? ==>
              && ResetTokenFree(db.resets, r, token)
              && d.value.resets == db.resets[r := db.resets[r].(status := Approved, setup := Some(Grant(token, Stamp(now + 48 * HOUR))))]
  {
    hide Stamp;
  }

  lemma GrantEffect(db: Db, r: Id, why: Approver, i: Input)
    ensures var o := GrantResetStep(db, r, why, i);
            (o.db == db && o.event.None?) || GrantedReset(db.resets, o.db.resets, r, why, i, o.event)
  {
    hide Stamp, ApproveReset, ResetTokenFree;
    if r in db.resets && db.resets[r].status == Pending {
      ApproveResetEffect(db, r, i.token, i.now);
    }
  }

  ghost predicate SubjectHeld(db: Db, subject: string) {
    exists i :: i in db.identities && HasSubject(db, i, subject)
  }

  lemma UpsertUpdates(db: Db, id: Id, u: Id, subject: string, email: string)
    requires SubjectHeld(db, subject)
    ensures var d := UpsertIdentity(db, id, u, subject, email);
            d.Some? && SubjectReaddressed(db.identities, d.value.identities, subject, email)
    ensures !SubjectFree(db.identities, subject)
  {
    var m, d := db.identities, UpsertIdentity(db, id, u, subject, email).value.identities;
    assert d.Keys == m.Keys;
    forall i | i in m ensures d[i] == if m[i].subject == subject then m[i].(email := email) else m[i] {
      assert HasSubject(db, i, subject) <==> m[i].subject == subject;
    }
  }

  lemma UpsertInserts(db: Db, id: Id, u: Id, subject: string, email: string)
    requires !SubjectHeld(db, subject)
    ensures var d := UpsertIdentity(db, id, u, subject, email);
            d.Some? ==> u in db.users && IdentityInserted(db.identities, d.value.identities, id, u, subject, email)
    ensures SubjectFree(db.identities, subject)
  {
    assert forall i :: i in db.identities ==> !HasSubject(db, i, subject);
  }

  lemma UpsertEffect(db: Db, id: Id, u: Id, subject: string, email: string)
    ensures var d := UpsertIdentity(db, id, u, subject, email);
            d.Some? ==>
              if SubjectFree(db.identities, subject) then
                u in db.users && IdentityInserted(db.identities, d.value.identities, id, u, subject, email)
              else SubjectReaddressed(db.identities, d.value.identities, subject, email)
  {
    hide UpsertIdentity, SubjectReaddressed, IdentityInserted, SubjectHeld, SubjectFree;
    if SubjectHeld(db, subject) {
      UpsertUpdates(db, id, u, subject, email);
    } else {
      UpsertInserts(db, id, u, subject, email);
    }
  }

  lemma LinkEffect(db: Db, id: Id, u: Id, subject: string, email: string)
    ensures var d := LinkIdentity(db, id, u, subject, email);
            d.Some? ==> IdentityLinked(db.identities, d.value.identities, id, u, subject, email)
  {
    if exists i :: i in db.identities && HasSubject(db, i, subject) {
    } else {
      assert forall i :: i in db.identities ==> !HasSubject(db, i, subject);
    }
  }

  lemma ApproveFrejaLinks(db: Db, g: Id, row: Registration, id: Id)
    ensures var d := ApproveFreja(db, g, row.account, row.email, row.frejaSub, id);
            d.Some? ==> IdentityLinked(db.identities, d.value.identities, id, row.account, row.frejaSub, row.email)
  {
    hide LinkIdentity, IdentityLinked;
    var d := InsertUser(db, row.account, row.email);
    if d.Some? {
      LinkEffect(d.value, id, row.account, row.frejaSub, row.email);
    }
  }

  lemma ApprovalIdentities(db: Db, g: Id, row: Registration, why: Approver, id: Id)
    ensures var o := ApprovalStep(db, g, row, why, id);
            if o.event.None? || row.provider == ViaPasskey then o.db.identities == db.identities
            else IdentityLinked(db.identities, o.db.identities, id, row.account, row.frejaSub, row.email)
  {
    hide IdentityLinked;
    ApproveFrejaLinks(db, g, row, id);
  }

  lemma RebindEffect(db: Db, u: Id, subject: string)
    ensures var d := Rebind(db, u, subject); d.Some? ==> Rebound(db.identities, d.value.identities, u, subject)
  {
    var m := db.identities;
    if Rebind(db, u, subject).Some? {
      forall i, j | i in m && j in m && m[i].user == u && m[j].user == u ensures i == j {
        assert i in IdentitiesOf(db, u) && j in IdentitiesOf(db, u);
      }
      forall i, j | i in m && j in m && m[i].user == u && m[j].user != u ensures m[j].subject != subject {
        assert i in IdentitiesOf(db, u);
        assert HasSubject(db, j, subject) <==> m[j].subject == subject;
      }
    }
  }

  lemma RegistrationStepUsers(cfg: Config, db: Db, t: RegistrationTask, i: Input)
    ensures var o := RegistrationStep(cfg, db, t, i); RegistrationUsers(db.users, o.db.users, t, o.event)
  {
    if t.Approve1? {
      ApprovalUsers(db, t.reg, t.row, t.why, i.id);
    }
  }

  lemma SettingsStepUsers(db: Db, t: SettingsTask, i: Input)
    ensures var o := SettingsStep(db, t, i); SettingsUsers(db.users, o.db.users, t, o.event)
  {
    hide BeginAddStep, TakeAdd, InsertKeyStep, DeletePasskey, InsertLink, TakeLinkStep, LinkIdentity, Unlink, InsertEmailChange,
      TakeEmailStep, SetFrejaEmail, Stamp, Before, KeysOf, FrejaKnown, EmailTaken;
  }

  lemma GateStepUsers(db: Db, t: GateTask, i: Input)
    ensures var o := GateStep(db, t, i); GateUsers(db.users, o.db.users, t, o.event)
  {
  }

  lemma RegistrationStepRegistrations(cfg: Config, db: Db, t: RegistrationTask, i: Input)
    ensures var o := RegistrationStep(cfg, db, t, i); RegistrationRegistrations(db.registrations, o.db.registrations, t, i, o.event)
  {
    hide RowFiled, InsertRegistration, VerifiedRow, VerifyStep, ApprovalStep, FindSetup, AnyUserLike, EmailRegistered, IsAdminEmail,
      EqualFold, Stamp, Before;
    match t
    case Submit2(email) => FiledEffect(db, email, i);
    case Verify0(token) => VerifyEffect(db, token, i);
    case Approve1(g, row, why) => ApprovalUsers(db, g, row, why, i.id);
    case _ =>
  }

  lemma LoginStepSessions(db: Db, t: LoginTask, i: Input)
    ensures var o := LoginStep(db, t, i); LoginSessions(db.sessions, o.db.sessions, t, i, o.event)
  {
    hide Stamp, Before, Lower, Rebind, SetSignCount;
  }

  lemma GateStepSessions(db: Db, t: GateTask, i: Input)
    ensures var o := GateStep(db, t, i); GateSessions(db.sessions, o.db.sessions, t, i, o.event)
  {
  }

  lemma RegistrationStepPasskeys(cfg: Config, db: Db, t: RegistrationTask, i: Input)
    ensures var o := RegistrationStep(cfg, db, t, i); RegistrationPasskeys(db.passkeys, o.db.passkeys, t, i, o.event)
  {
    hide KeyUnparked, ApprovalStep, FindSetup, FindVerifiable, Stamp, Park, IsAdminEmail, EqualFold;
    match t
    case Approve1(g, row, why) => ApprovalPasskeys(db, g, row, why, i.id);
    case _ =>
  }

  lemma LoginStepPasskeys(db: Db, t: LoginTask, i: Input)
    ensures var o := LoginStep(db, t, i); LoginPasskeys(db.passkeys, o.db.passkeys, t, i, o.event)
  {
    if t.FinishLogin2? && i.asserted.Some? {
      SignCountEffect(db, t.user, i);
    }
  }

  lemma SettingsStepPasskeys(db: Db, t: SettingsTask, i: Input)
    ensures var o := SettingsStep(db, t, i); SettingsPasskeys(db.passkeys, o.db.passkeys, t, i, o.event)
  {
    hide BeginAddStep, TakeAdd, InsertKeyStep, InsertLink, TakeLinkStep, LinkIdentity, Unlink, InsertEmailChange, TakeEmailStep,
      SetUsername, SetFrejaEmail, KeyAttested, Stamp, Before, KeysOf, FrejaKnown, EmailTaken;
    match t
    case FinishAdd1(u, began) => InsertKeyEffect(db, u, None, began, None, i);
    case _ =>
  }

  lemma ResetStepPasskeys(db: Db, t: ResetTask, i: Input)
    ensures var o := ResetStep(db, t, i); ResetPasskeys(db.passkeys, o.db.passkeys, t, i, o.event)
  {
    hide InsertKeyStep, KeyAttested, Stamp, Before, EqualFold;
    match t
    case FinishReset2(r, u, began) => InsertKeyEffect(db, u, Some(Resetting(FinishReset3(r))), began, Some(r), i);
    case _ =>
  }

  lemma RegistrationStepIdentities(cfg: Config, db: Db, t: RegistrationTask, i: Input)
    ensures var o := RegistrationStep(cfg, db, t, i); RegistrationIdentities(db.identities, o.db.identities, t, i, o.event)
  {
    hide IdentityLinked, ApprovalStep, FindSetup, FindVerifiable, Stamp, Park, IsAdminEmail, EqualFold;
    match t
    case Approve1(g, row, why) => ApprovalIdentities(db, g, row, why, i.id);
    case _ =>
  }

  lemma LoginStepIdentities(db: Db, t: LoginTask, i: Input)
    ensures var o := LoginStep(db, t, i); LoginIdentities(db.identities, o.db.identities, t, i, o.event)
  {
    if t.FrejaLogin2? {
      RebindEffect(db, t.user, t.subject);
    }
  }

  lemma SettingsStepIdentities(db: Db, t: SettingsTask, i: Input)
    ensures var o := SettingsStep(db, t, i); SettingsIdentities(db.identities, o.db.identities, t, i, o.event)
  {
    if t.ConfirmLink1? {
      LinkEffect(db, i.id, t.user, t.subject, t.email);
    }
  }

  lemma ResetStepIdentities(db: Db, t: ResetTask, i: Input)
    ensures var o := ResetStep(db, t, i); ResetIdentities(db.identities, o.db.identities, t, i, o.event)
  {
    if t.ResetFreja1? {
      UpsertEffect(db, i.id, t.user, t.subject, t.email);
    }
  }

  lemma ResetStepResets(db: Db, t: ResetTask, i: Input)
    ensures var o := ResetStep(db, t, i); ResetResets(db.resets, o.db.resets, t, i, o.event)
  {
    hide GrantedReset, GrantResetStep, InsertKeyStep, BeginAddStep, Stamp, Before, EqualFold, ResetOpen, FindReset;
    match t
    case GrantReset1(r, why) => GrantEffect(db, r, why, i);
    case _ =>
  }

  lemma LoginStepLogins(db: Db, t: LoginTask, i: Input)
    ensures var o := LoginStep(db, t, i); LoginLogins(db.logins, o.db.logins, t, i, o)
  {
    hide UpsertLogin, Stamp, Before, Lower, Rebind, SetSignCount, HasFrejaEmail;
    match t
    case BeginLogin2(u, challenge) => UpsertLoginEffect(db, u, challenge, i.now);
    case _ =>
  }

  lemma SettingsStepAdds(db: Db, t: SettingsTask, i: Input)
    ensures var o := SettingsStep(db, t, i); SettingsAdds(db.adds, o.db.adds, t, i, o)
  {
    hide BegunAdd, BeginAddStep, InsertKeyStep, DeletePasskey, InsertLink, TakeLinkStep, LinkIdentity, Unlink, InsertEmailChange,
      TakeEmailStep, SetUsername, SetFrejaEmail, KeysOf, FrejaKnown, EmailTaken, Stamp, Before;
    if t.BeginAdd0? {
      BeginAddEffect(db, t.user, i);
    }
  }

  lemma ResetStepAdds(db: Db, t: ResetTask, i: Input)
    ensures var o := ResetStep(db, t, i); ResetAdds(db.adds, o.db.adds, t, i, o)
  {
    if t.BeginReset1? {
      BeginAddEffect(db, t.user, i);
    }
  }

  lemma SettingsStepLinks(db: Db, t: SettingsTask, i: Input)
    ensures var o := SettingsStep(db, t, i); SettingsLinks(db.links, o.db.links, t, i, o)
  {
    hide BeginAddStep, TakeAdd, InsertKeyStep, DeletePasskey, TakeLinkStep, LinkIdentity, Unlink, InsertEmailChange, TakeEmailStep,
      SetUsername, SetFrejaEmail, KeysOf, FrejaKnown, EmailTaken, Stamp, Before;
    if t.ConfirmLink0? {
      TakeLinkEffect(db, t.user, t.token, i);
    }
  }

  lemma SettingsStepEmails(db: Db, t: SettingsTask, i: Input)
    ensures var o := SettingsStep(db, t, i); SettingsEmails(db.emails, o.db.emails, t, i, o)
  {
    hide BeginAddStep, TakeAdd, InsertKeyStep, DeletePasskey, InsertLink, TakeLinkStep, LinkIdentity, Unlink, TakeEmailStep,
      SetUsername, SetFrejaEmail, KeysOf, FrejaKnown, EmailTaken, Stamp, Before;
    if t.ConfirmEmail0? {
      TakeEmailEffect(db, t.token, i);
    }
  }

  lemma RegistrationStepEvent(cfg: Config, db: Db, t: RegistrationTask, i: Input)
    ensures RegistrationEvent(t, i, RegistrationStep(cfg, db, t, i).event)
  {
    hide FindSetup, FindVerifiable, ApprovePasskey, ApproveFreja, Stamp, Park, IsAdminEmail, EqualFold;
  }

  lemma RegistrationStepNext(cfg: Config, db: Db, t: RegistrationTask, i: Input)
    ensures NextFits(cfg, db, Registering(t), i, RegistrationStep(cfg, db, t, i))
  {
    hide ApprovePasskey, ApproveFreja, Stamp, Park, IsAdminEmail, EqualFold, Before, SetupOpen, Verifiable;
  }

  lemma LoginStepEvent(db: Db, t: LoginTask, i: Input)
    ensures LoginEvent(t, i, LoginStep(db, t, i).event)
  {
    hide Stamp, Before, Lower, Rebind, SetSignCount;
  }

  lemma LoginStepNext(cfg: Config, db: Db, t: LoginTask, i: Input)
    ensures NextFits(cfg, db, LoggingIn(t), i, LoginStep(db, t, i))
  {
    hide Stamp, Before, Lower, Rebind, SetSignCount;
  }

  lemma SettingsStepEvent(db: Db, t: SettingsTask, i: Input)
    ensures SettingsEvent(t, i, SettingsStep(db, t, i).event)
  {
    hide Stamp, Before, Lower, KeyColumn;
  }

  lemma SettingsStepNext(cfg: Config, db: Db, t: SettingsTask, i: Input)
    ensures NextFits(cfg, db, Settings(t), i, SettingsStep(db, t, i))
  {
    hide Stamp, Before, Lower, KeyColumn;
  }

  lemma ResetStepEvent(db: Db, t: ResetTask, i: Input)
    ensures ResetEvent(t, i, ResetStep(db, t, i).event)
  {
    hide Stamp, Before, Lower, KeyColumn, EqualFold, FindReset;
  }

  lemma ResetStepNext(cfg: Config, db: Db, t: ResetTask, i: Input)
    ensures NextFits(cfg, db, Resetting(t), i, ResetStep(db, t, i))
  {
    hide Stamp, Before, Lower, KeyColumn, EqualFold;
  }

  lemma GateStepEvent(db: Db, t: GateTask, i: Input)
    ensures GateEvent(t, i, GateStep(db, t, i).event)
  {
    hide Stamp, Before;
  }

  lemma GateStepNext(cfg: Config, db: Db, t: GateTask, i: Input)
    ensures NextFits(cfg, db, Gated(t), i, GateStep(db, t, i))
  {
    hide Stamp, Before;
  }

  lemma RegistrationEffect(cfg: Config, db: Db, t: RegistrationTask, i: Input)
    ensures Effect(cfg, db, Registering(t), i, RegistrationStep(cfg, db, t, i))
  {
    hide RegistrationStep, RegistrationEvent, RegistrationUsers, RegistrationRegistrations, RegistrationPasskeys, RegistrationIdentities,
      NextFits;
    RegistrationStepEvent(cfg, db, t, i);
    RegistrationStepNext(cfg, db, t, i);
    RegistrationStepUsers(cfg, db, t, i);
    RegistrationStepRegistrations(cfg, db, t, i);
    RegistrationStepPasskeys(cfg, db, t, i);
    RegistrationStepIdentities(cfg, db, t, i);
  }

  lemma LoginEffect(cfg: Config, db: Db, t: LoginTask, i: Input)
    ensures Effect(cfg, db, LoggingIn(t), i, LoginStep(db, t, i))
  {
    hide LoginStep, LoginEvent, LoginSessions, LoginPasskeys, LoginIdentities, LoginLogins, NextFits, UserExists;
    LoginStepEvent(db, t, i);
    LoginStepNext(cfg, db, t, i);
    LoginUserExists(db, t, i);
    LoginStepSessions(db, t, i);
    LoginStepPasskeys(db, t, i);
    LoginStepIdentities(db, t, i);
    LoginStepLogins(db, t, i);
  }

  lemma SettingsEffect(cfg: Config, db: Db, t: SettingsTask, i: Input)
    ensures Effect(cfg, db, Settings(t), i, SettingsStep(db, t, i))
  {
    hide SettingsStep, SettingsEvent, SettingsUsers, SettingsPasskeys, SettingsIdentities, SettingsAdds, SettingsLinks, SettingsEmails,
      NextFits, UserExists;
    SettingsStepEvent(db, t, i);
    SettingsStepNext(cfg, db, t, i);
    SettingsUserExists(db, t, i);
    SettingsStepUsers(db, t, i);
    SettingsStepPasskeys(db, t, i);
    SettingsStepIdentities(db, t, i);
    SettingsStepAdds(db, t, i);
    SettingsStepLinks(db, t, i);
    SettingsStepEmails(db, t, i);
  }

  lemma ResetEffect(cfg: Config, db: Db, t: ResetTask, i: Input)
    ensures Effect(cfg, db, Resetting(t), i, ResetStep(db, t, i))
  {
    hide ResetStep, ResetEvent, ResetPasskeys, ResetIdentities, ResetResets, ResetAdds, NextFits, UserExists;
    ResetStepEvent(db, t, i);
    ResetStepNext(cfg, db, t, i);
    ResetUserExists(db, t, i);
    ResetStepPasskeys(db, t, i);
    ResetStepIdentities(db, t, i);
    ResetStepResets(db, t, i);
    ResetStepAdds(db, t, i);
  }

  lemma GateEffect(cfg: Config, db: Db, t: GateTask, i: Input)
    ensures Effect(cfg, db, Gated(t), i, GateStep(db, t, i))
  {
    hide GateStep, GateEvent, GateUsers, GateSessions, NextFits;
    GateStepEvent(db, t, i);
    GateStepNext(cfg, db, t, i);
    GateStepUsers(db, t, i);
    GateStepSessions(db, t, i);
  }

  // What lookups report.

  lemma RegistrationLooksUp(cfg: Config, db: Db, t: RegistrationTask, i: Input)
    ensures LookupTells(db, Registering(t), i, RegistrationStep(cfg, db, t, i).event)
  {
    hide ApprovalStep, InsertRegistration, VerifyStep, Stamp, Park, IsAdminEmail, EqualFold, Before, SetupOpen;
  }

  lemma LoginLooksUp(db: Db, t: LoginTask, i: Input)
    ensures LookupTells(db, LoggingIn(t), i, LoginStep(db, t, i).event)
  {
    hide Stamp, Before, UserNamed, Rebind, SetSignCount, KeysOf, HasFrejaEmail, HasSubject;
  }

  lemma ResetLooksUp(db: Db, t: ResetTask, i: Input)
    ensures LookupTells(db, Resetting(t), i, ResetStep(db, t, i).event)
  {
    hide Stamp, Before, EqualFold, UserLike, Lower, TrimSpace, GrantResetStep, InsertKeyStep, BeginAddStep, UpsertIdentity, ResetPending;
  }

  /** Every row a lookup reports is one its WHERE clause asks for. */
  lemma StepLooksUp(cfg: Config, db: Db, t: Task, i: Input)
    ensures LookupTells(db, t, i, Step(cfg, db, t, i).event)
  {
    hide RegistrationStep, LoginStep, SettingsStep, ResetStep, GateStep, SetupOpen, UserNamed, UserLike, LinkTells, EqualFold;
    match t
    case Registering(r) => RegistrationLooksUp(cfg, db, r, i);
    case LoggingIn(l) => LoginLooksUp(db, l, i);
    case Resetting(q) => ResetLooksUp(db, q, i);
    case _ =>
  }

  /** Every step changes the tables only in these ways. */
  lemma StepEffect(cfg: Config, db: Db, t: Task, i: Input)
    ensures Effect(cfg, db, t, i, Step(cfg, db, t, i))
  {
    hide Effect, RegistrationStep, LoginStep, SettingsStep, ResetStep, GateStep;
    match t
    case Registering(r) => RegistrationEffect(cfg, db, r, i);
    case LoggingIn(l) => LoginEffect(cfg, db, l, i);
    case Settings(s) => SettingsEffect(cfg, db, s, i);
    case Resetting(q) => ResetEffect(cfg, db, q, i);
    case Gated(g) => GateEffect(cfg, db, g, i);
  }

  // One table at a time, for proofs that need no more.

  lemma StepTells(cfg: Config, db: Db, t: Task, i: Input)
    ensures var o := Step(cfg, db, t, i); NextFits(cfg, db, t, i, o) && EventFits(t, i, o.event)
  {
    hide Step, NextFits, EventFits, UserExists, UsersMove, RegistrationsMove, SessionsMove, PasskeysMove, IdentitiesMove, ResetsMove,
      LoginsMove, AddsMove, LinksMove, EmailsMove;
    StepEffect(cfg, db, t, i);
  }

  lemma StepUsers(cfg: Config, db: Db, t: Task, i: Input)
    ensures var o := Step(cfg, db, t, i); UsersMove(db.users, o.db.users, t, o.event)
  {
    hide Step, NextFits, EventFits, UserExists, UsersMove, RegistrationsMove, SessionsMove, PasskeysMove, IdentitiesMove, ResetsMove,
      LoginsMove, AddsMove, LinksMove, EmailsMove;
    StepEffect(cfg, db, t, i);
  }

  lemma StepRegistrations(cfg: Config, db: Db, t: Task, i: Input)
    ensures var o := Step(cfg, db, t, i); RegistrationsMove(db.registrations, o.db.registrations, t, i, o.event)
  {
    hide Step, NextFits, EventFits, UserExists, UsersMove, RegistrationsMove, SessionsMove, PasskeysMove, IdentitiesMove, ResetsMove,
      LoginsMove, AddsMove, LinksMove, EmailsMove;
    StepEffect(cfg, db, t, i);
  }

  lemma StepPasskeys(cfg: Config, db: Db, t: Task, i: Input)
    ensures var o := Step(cfg, db, t, i); PasskeysMove(db.passkeys, o.db.passkeys, t, i, o.event)
  {
    hide Step, NextFits, EventFits, UserExists, UsersMove, RegistrationsMove, SessionsMove, PasskeysMove, IdentitiesMove, ResetsMove,
      LoginsMove, AddsMove, LinksMove, EmailsMove;
    StepEffect(cfg, db, t, i);
  }

  lemma StepIdentities(cfg: Config, db: Db, t: Task, i: Input)
    ensures var o := Step(cfg, db, t, i); IdentitiesMove(db.identities, o.db.identities, t, i, o.event)
  {
    hide Step, NextFits, EventFits, UserExists, UsersMove, RegistrationsMove, SessionsMove, PasskeysMove, IdentitiesMove, ResetsMove,
      LoginsMove, AddsMove, LinksMove, EmailsMove;
    StepEffect(cfg, db, t, i);
  }

  lemma StepResets(cfg: Config, db: Db, t: Task, i: Input)
    ensures var o := Step(cfg, db, t, i); ResetsMove(db.resets, o.db.resets, t, i, o.event)
  {
    hide Step, NextFits, EventFits, UserExists, UsersMove, RegistrationsMove, SessionsMove, PasskeysMove, IdentitiesMove, ResetsMove,
      LoginsMove, AddsMove, LinksMove, EmailsMove;
    StepEffect(cfg, db, t, i);
  }
}
