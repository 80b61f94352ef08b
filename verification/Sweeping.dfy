/**
 * CleanupSessions is invisible: leaving every sweep out of a run changes no answer of GetSession, no other
 * table, no request's progress and no event.
 */
module Sweeping {
  import opened Basics
  import opened Text
  import opened Timestamps
  import opened Tables
  import opened Requests
  import opened Runs
  import opened PublicKeys
  import opened Integrity
  import opened Effects
  import opened Steps
  import opened History
  import opened Sessions

  // ------------------------------------- statements that do not see the sessions

  function Put(d: Option<Db>, x: map<Id, Session>): Option<Db> {
    match d
    case None => None
    case Some(v) => Some(v.(sessions := x))
  }

  lemma LookupsIgnore(db: Db, x: map<Id, Session>, row: Option<Id>, a: string, b: string)
    ensures var d := db.(sessions := x);
            && FindUser(d, row, a) == FindUser(db, row, a)
            && FindUserLike(d, row, a) == FindUserLike(db, row, a)
            && FindSubject(d, row, a) == FindSubject(db, row, a)
            && FindFrejaEmail(d, row, a) == FindFrejaEmail(db, row, a)
  {
    hide Lower;
    var d := db.(sessions := x);
    assert forall u :: UserNamed(d, u, a) == UserNamed(db, u, a);
    assert forall u :: UserLike(d, u, a) == UserLike(db, u, a);
    assert forall k :: HasSubject(d, k, a) == HasSubject(db, k, a);
    assert forall k :: HasFrejaEmail(d, k, a) == HasFrejaEmail(db, k, a);
  }

  lemma TokensIgnore(db: Db, x: map<Id, Session>, row: Option<Id>, token: Id, now: string, p: Provider)
    ensures var d := db.(sessions := x);
            && FindVerifiable(d, row, token, now) == FindVerifiable(db, row, token, now)
            && FindSetup(d, row, token, now) == FindSetup(db, row, token, now)
            && FindReset(d, row, token, now, p) == FindReset(db, row, token, now, p)
  {
    hide Before;
    var d := db.(sessions := x);
    assert forall g :: Verifiable(d, g, token, now) == Verifiable(db, g, token, now);
    assert forall g :: SetupOpen(d, g, token, now) == SetupOpen(db, g, token, now);
    assert forall r :: ResetOpen(d, r, token, now, p) == ResetOpen(db, r, token, now, p);
  }

  lemma ChecksIgnore(db: Db, x: map<Id, Session>, u: Id, a: string, b: string, p: Provider)
    ensures var d := db.(sessions := x);
            && KeysOf(d, u) == KeysOf(db, u)
            && AnyUserLike(d, a) == AnyUserLike(db, a)
            && EmailRegistered(d, a) == EmailRegistered(db, a)
            && EmailTaken(d, u, a) == EmailTaken(db, u, a)
            && FrejaKnown(d, a, b) == FrejaKnown(db, a, b)
            && ResetPending(d, u, p) == ResetPending(db, u, p)
  {
    hide Lower;
    var d := db.(sessions := x);
    assert forall v :: UserLike(d, v, a) == UserLike(db, v, a);
    assert forall k :: HasSubject(d, k, a) == HasSubject(db, k, a) && HasFrejaEmail(d, k, b) == HasFrejaEmail(db, k, b);
  }

  lemma RegisteringIgnores(db: Db, x: map<Id, Session>, g: Id, token: Id, account: Uuid, email: string, now: Instant)
    ensures InsertRegistration(db.(sessions := x), g, token, account, email, now)
            == Put(InsertRegistration(db, g, token, account, email, now), x)
  {
    hide Stamp;
  }

  lemma VerifyingIgnores(db: Db, x: map<Id, Session>, g: Id, token: Id, now: Instant)
    requires g in db.registrations
    ensures VerifyEmail(db.(sessions := x), g, token, now) == Put(VerifyEmail(db, g, token, now), x)
  {
    hide Stamp;
  }

  lemma AccountsIgnore(db: Db, x: map<Id, Session>, id: Id, u: Id, email: string)
    ensures InsertUser(db.(sessions := x), u, email) == Put(InsertUser(db, u, email), x)
    ensures SetUsername(db.(sessions := x), u, email) == Put(SetUsername(db, u, email), x)
  {
  }

  lemma PasskeysIgnore(db: Db, x: map<Id, Session>, id: Id, u: Id, credId: seq<Byte>, key: seq<Byte>, count: int)
    ensures InsertPasskey(db.(sessions := x), id, u, credId, key, count) == Put(InsertPasskey(db, id, u, credId, key, count), x)
    ensures SetSignCount(db.(sessions := x), u, credId, count) == SetSignCount(db, u, credId, count).(sessions := x)
  {
    assert SetSignCount(db.(sessions := x), u, credId, count).passkeys == SetSignCount(db, u, credId, count).passkeys;
  }

  lemma LinkingIgnores(db: Db, x: map<Id, Session>, id: Id, u: Id, subject: string, email: string)
    ensures LinkIdentity(db.(sessions := x), id, u, subject, email) == Put(LinkIdentity(db, id, u, subject, email), x)
  {
    HeldIgnores(db, x, subject);
    hide HasSubject;
    if SubjectHeld(db, subject) {
      assert SubjectHeld(db.(sessions := x), subject);
    }
  }

  lemma HeldIgnores(db: Db, x: map<Id, Session>, subject: string)
    ensures SubjectHeld(db.(sessions := x), subject) == SubjectHeld(db, subject)
    ensures forall k :: HasSubject(db.(sessions := x), k, subject) == HasSubject(db, k, subject)
  {
    var d := db.(sessions := x);
    assert forall k :: HasSubject(d, k, subject) == HasSubject(db, k, subject);
  }

  lemma UpsertIgnores(db: Db, x: map<Id, Session>, id: Id, u: Id, subject: string, email: string)
    ensures UpsertIdentity(db.(sessions := x), id, u, subject, email) == Put(UpsertIdentity(db, id, u, subject, email), x)
  {
    var d := db.(sessions := x);
    HeldIgnores(db, x, subject);
    hide HasSubject;
    if SubjectHeld(db, subject) {
      assert UpsertIdentity(d, id, u, subject, email).value.identities == UpsertIdentity(db, id, u, subject, email).value.identities;
    }
  }

  lemma RebindIgnores(db: Db, x: map<Id, Session>, u: Id, subject: string)
    ensures Rebind(db.(sessions := x), u, subject) == Put(Rebind(db, u, subject), x)
  {
    var d := db.(sessions := x);
    assert IdentitiesOf(d, u) == IdentitiesOf(db, u);
    assert forall k :: HasSubject(d, k, subject) == HasSubject(db, k, subject);
    if Rebind(db, u, subject).Some? {
      assert Rebind(d, u, subject).value.identities == Rebind(db, u, subject).value.identities;
    }
  }

  lemma UnlinkIgnores(db: Db, x: map<Id, Session>, u: Id, email: string)
    ensures Unlink(db.(sessions := x), u) == Unlink(db, u).(sessions := x)
    ensures SetFrejaEmail(db.(sessions := x), u, email) == SetFrejaEmail(db, u, email).(sessions := x)
  {
    var d := db.(sessions := x);
    assert Unlink(d, u).identities == Unlink(db, u).identities;
    assert SetFrejaEmail(d, u, email).identities == SetFrejaEmail(db, u, email).identities;
  }

  lemma GrantIgnores(db: Db, x: map<Id, Session>, r: Id, token: Id, now: Instant)
    ensures ApproveReset(db.(sessions := x), r, token, now) == Put(ApproveReset(db, r, token, now), x)
  {
    hide Stamp;
  }

  lemma CompletionIgnores(db: Db, x: map<Id, Session>, g: Id, u: Id)
    ensures CompleteRegistration(db.(sessions := x), g, u) == CompleteRegistration(db, g, u).(sessions := x)
  {
  }

  lemma FrejaIgnores(db: Db, x: map<Id, Session>, g: Id, row: Registration, id: Id)
    ensures ApproveFreja(db.(sessions := x), g, row.account, row.email, row.frejaSub, id)
            == Put(ApproveFreja(db, g, row.account, row.email, row.frejaSub, id), x)
  {
    hide InsertUser, LinkIdentity;
    AccountsIgnore(db, x, id, row.account, row.email);
    var d := InsertUser(db, row.account, row.email);
    if d.Some? {
      LinkingIgnores(d.value, x, id, row.account, row.frejaSub, row.email);
    }
  }

  lemma PasskeyIgnores(db: Db, x: map<Id, Session>, g: Id, row: Registration, id: Id)
    ensures ApprovePasskey(db.(sessions := x), g, row.account, row.email, row.credential, id)
            == Put(ApprovePasskey(db, g, row.account, row.email, row.credential, id), x)
  {
    hide Unpark, InsertUser, InsertPasskey, CompleteRegistration;
    if row.credential.Some? && Unpark(row.credential.value).Some? {
      var c := Unpark(row.credential.value).value;
      AccountsIgnore(db, x, id, row.account, row.email);
      var d := InsertUser(db, row.account, row.email);
      if d.Some? {
        KeyedIgnores(d.value, x, g, row.account, c, id);
      }
    }
  }

  function KeyedAndCompleted(db: Db, g: Id, u: Id, c: Stored, id: Id): Option<Db> {
    match InsertPasskey(db, id, u, c.id, c.publicKey, c.signCount)
    case None => None
    case Some(d) => Some(CompleteRegistration(d, g, u))
  }

  lemma KeyedIgnores(db: Db, x: map<Id, Session>, g: Id, u: Id, c: Stored, id: Id)
    ensures KeyedAndCompleted(db.(sessions := x), g, u, c, id) == Put(KeyedAndCompleted(db, g, u, c, id), x)
  {
    hide InsertPasskey, CompleteRegistration;
    PasskeysIgnore(db, x, id, u, c.id, c.publicKey, c.signCount);
    var d := InsertPasskey(db, id, u, c.id, c.publicKey, c.signCount);
    if d.Some? {
      CompletionIgnores(d.value, x, g, u);
    }
  }

  lemma ApprovalIgnores(db: Db, x: map<Id, Session>, g: Id, row: Registration, why: Approver, id: Id)
    ensures ApprovalStep(db.(sessions := x), g, row, why, id) == With(ApprovalStep(db, g, row, why, id), x)
  {
    hide ApproveFreja, ApprovePasskey;
    FrejaIgnores(db, x, g, row, id);
    PasskeyIgnores(db, x, g, row, id);
  }

  // --------------------------------------------------------- steps that do not

  function With(o: Outcome, x: map<Id, Session>): Outcome {
    o.(db := o.db.(sessions := x))
  }

  lemma TryIgnores(db: Db, x: map<Id, Session>, d: Option<Db>, e: Option<Event>)
    ensures Try(db.(sessions := x), Put(d, x), None, e) == With(Try(db, d, None, e), x)
  {
  }

  lemma VerifiableIsKnown(db: Db, g: Id, token: Id, now: string)
    requires Verifiable(db, g, token, now)
    ensures g in db.registrations
  {
    hide Before;
  }

  lemma VerifyIgnores(db: Db, x: map<Id, Session>, token: Id, i: Input)
    ensures VerifyStep(db.(sessions := x), token, i) == With(VerifyStep(db, token, i), x)
  {
    hide Stamp, FindVerifiable, FindSetup, FindReset, Verifiable, VerifyEmail, Try, Put;
    var found := FindVerifiable(db, i.row, token, Stamp(i.now));
    TokensIgnore(db, x, i.row, token, Stamp(i.now), ViaPasskey);
    if found.Found? {
      VerifiableIsKnown(db, found.id, token, Stamp(i.now));
      VerifyingIgnores(db, x, found.id, i.token, i.now);
      TryIgnores(db, x, VerifyEmail(db, found.id, i.token, i.now), Some(AddressVerified(found.id, i.token, i.now)));
    }
  }

  lemma SetupIgnores(db: Db, x: map<Id, Session>, token: Id, email: string, subject: string, i: Input)
    ensures BeginRegisterStep(db.(sessions := x), token, i) == With(BeginRegisterStep(db, token, i), x)
    ensures FinishRegisterStep(db.(sessions := x), token, i) == With(FinishRegisterStep(db, token, i), x)
    ensures FrejaRegisterStep(db.(sessions := x), token, email, subject, i) == With(FrejaRegisterStep(db, token, email, subject, i), x)
  {
    hide Stamp, FindSetup, EqualFold;
    TokensIgnore(db, x, i.row, token, Stamp(i.now), ViaPasskey);
  }

  lemma RegistrationRowsIgnore(db: Db, x: map<Id, Session>, g: Id, text: string)
    ensures SetChallenge(db.(sessions := x), g, text) == SetChallenge(db, g, text).(sessions := x)
    ensures SetFreja(db.(sessions := x), g, text) == SetFreja(db, g, text).(sessions := x)
    ensures RejectRegistration(db.(sessions := x), g) == RejectRegistration(db, g).(sessions := x)
  {
  }

  lemma SubmissionIgnores(cfg: Config, db: Db, x: map<Id, Session>, g: Id, email: string, i: Input)
    ensures SubmitCredentialStep(cfg, db.(sessions := x), g, email, i) == With(SubmitCredentialStep(cfg, db, g, email, i), x)
  {
    hide Park, IsAdminEmail;
  }

  lemma PromotionIgnores(db: Db, x: map<Id, Session>, u: Id, viaFreja: bool)
    ensures PromoteStep(db.(sessions := x), u, viaFreja) == With(PromoteStep(db, u, viaFreja), x)
  {
  }

  lemma SigningUpIgnores(cfg: Config, db: Db, x: map<Id, Session>, t: RegistrationTask, i: Input)
    requires t.Submit0? || t.Submit1? || t.Submit2? || t.Verify0? || t.BeginRegister0? || t.FinishRegister0? || t.FrejaRegister0?
    ensures RegistrationStep(cfg, db.(sessions := x), t, i) == With(RegistrationStep(cfg, db, t, i), x)
  {
    hide Stamp, AnyUserLike, EmailRegistered, InsertRegistration, VerifyStep, BeginRegisterStep, FinishRegisterStep, FrejaRegisterStep;
    match t
    case Submit0(email) => ChecksIgnore(db, x, "", email, "", ViaPasskey);
    case Submit1(email) => ChecksIgnore(db, x, "", email, "", ViaPasskey);
    case Submit2(email) => RegisteringIgnores(db, x, i.id, i.token, i.account, email, i.now);
    case Verify0(token) => VerifyIgnores(db, x, token, i);
    case BeginRegister0(token) => SetupIgnores(db, x, token, "", "", i);
    case FinishRegister0(token) => SetupIgnores(db, x, token, "", "", i);
    case FrejaRegister0(token, email, subject) => SetupIgnores(db, x, token, email, subject, i);
    case _ =>
  }

  lemma RegistrationIgnores(cfg: Config, db: Db, x: map<Id, Session>, t: RegistrationTask, i: Input)
    ensures RegistrationStep(cfg, db.(sessions := x), t, i) == With(RegistrationStep(cfg, db, t, i), x)
  {
    hide IsAdminEmail, ApprovalStep, SubmitCredentialStep, PromoteStep, SetChallenge, SetFreja, RejectRegistration, VerifyStep,
      BeginRegisterStep, FinishRegisterStep, FrejaRegisterStep, InsertRegistration, AnyUserLike, EmailRegistered;
    match t
    case BeginRegister1(g, challenge) => RegistrationRowsIgnore(db, x, g, challenge);
    case FinishRegister1(g, email) => SubmissionIgnores(cfg, db, x, g, email, i);
    case FrejaRegister1(g, email, subject, reported) => RegistrationRowsIgnore(db, x, g, subject);
    case Approve0(g, why) =>
    case Approve1(g, row, why) => ApprovalIgnores(db, x, g, row, why, i.id);
    case Approve2(g, u, why) =>
    case Promote(u, viaFreja) => PromotionIgnores(db, x, u, viaFreja);
    case Reject0(g, why) => RegistrationRowsIgnore(db, x, g, "");
    case _ => SigningUpIgnores(cfg, db, x, t, i);
  }

  lemma LookingUpIgnores(db: Db, x: map<Id, Session>, email: string, subject: string, i: Input)
    ensures BeginLoginStep(db.(sessions := x), email, i) == With(BeginLoginStep(db, email, i), x)
    ensures FinishLoginStep(db.(sessions := x), email, i) == With(FinishLoginStep(db, email, i), x)
    ensures FrejaLoginStep(db.(sessions := x), email, subject, i) == With(FrejaLoginStep(db, email, subject, i), x)
    ensures FrejaFallbackStep(db.(sessions := x), email, subject, i) == With(FrejaFallbackStep(db, email, subject, i), x)
  {
    hide FindUser, FindSubject, FindFrejaEmail;
    LookupsIgnore(db, x, i.row, email, "");
    LookupsIgnore(db, x, i.row, subject, "");
  }

  lemma SignCountIgnores(db: Db, x: map<Id, Session>, u: Id, i: Input)
    ensures SignCountStep(db.(sessions := x), u, i) == With(SignCountStep(db, u, i), x)
  {
    hide SetSignCount;
    if i.asserted.Some? {
      PasskeysIgnore(db, x, i.id, u, i.asserted.value.0, [], i.asserted.value.1);
    }
  }

  lemma TicketsIgnore(db: Db, x: map<Id, Session>, u: Id, challenge: string, now: Instant)
    ensures UpsertLogin(db.(sessions := x), u, challenge, now) == Put(UpsertLogin(db, u, challenge, now), x)
    ensures TakeLogin(db.(sessions := x), u, Stamp(now)) == Put(TakeLogin(db, u, Stamp(now)), x)
  {
    hide Stamp, Before;
  }

  lemma LoginIgnores(db: Db, x: map<Id, Session>, t: LoginTask, i: Input)
    requires !t.EnterSession? && !t.Logout0? && !t.Sweep0?
    ensures LoginStep(db.(sessions := x), t, i) == With(LoginStep(db, t, i), x)
  {
    hide KeysOf, BeginLoginStep, FinishLoginStep, FrejaLoginStep, FrejaFallbackStep, SignCountStep, Rebind, UpsertLogin, TakeLogin;
    match t
    case BeginLogin0(email) => LookingUpIgnores(db, x, email, "", i);
    case FinishLogin0(email) => LookingUpIgnores(db, x, email, "", i);
    case FrejaLogin0(email, subject) => LookingUpIgnores(db, x, email, subject, i);
    case FrejaLogin1(email, subject) => LookingUpIgnores(db, x, email, subject, i);
    case _ => EnteringIgnores(db, x, t, i);
  }

  lemma EnteringIgnores(db: Db, x: map<Id, Session>, t: LoginTask, i: Input)
    requires t.BeginLogin1? || t.BeginLogin2? || t.FinishLogin1? || t.FinishLogin2? || t.FrejaLogin2?
    ensures LoginStep(db.(sessions := x), t, i) == With(LoginStep(db, t, i), x)
  {
    hide Stamp, KeysOf, SignCountStep, Rebind, UpsertLogin, TakeLogin;
    match t
    case BeginLogin1(u) => ChecksIgnore(db, x, u, "", "", ViaPasskey);
    case BeginLogin2(u, challenge) => TicketsIgnore(db, x, u, challenge, i.now);
    case FinishLogin1(u) => TicketsIgnore(db, x, u, "", i.now);
    case FinishLogin2(u) => SignCountIgnores(db, x, u, i);
    case FrejaLogin2(u, subject) => RebindIgnores(db, x, u, subject);
  }

  lemma KeyIgnores(db: Db, x: map<Id, Session>, u: Id, next: Option<Task>, began: Instant, via: Option<Id>, i: Input)
    ensures InsertKeyStep(db.(sessions := x), u, next, began, via, i) == With(InsertKeyStep(db, u, next, began, via, i), x)
  {
    hide KeyColumn, InsertPasskey;
    if i.attested.Some? {
      PasskeysIgnore(db, x, i.id, u, i.attested.value.id, KeyColumn(i.attested.value.publicKey), i.attested.value.signCount);
    }
  }

  lemma LinkTakeIgnores(db: Db, x: map<Id, Session>, u: Id, token: Id, now: string)
    ensures var (r, r') := (TakeLink(db, token, u, now), TakeLink(db.(sessions := x), token, u, now));
            if r.None? then r'.None? else r'.Some? && r'.value.0 == r.value.0.(sessions := x) && r'.value.1 == r.value.1
  {
    hide Before;
  }

  lemma EmailTakeIgnores(db: Db, x: map<Id, Session>, token: Id, now: string)
    ensures var (r, r') := (TakeEmailChange(db, token, now), TakeEmailChange(db.(sessions := x), token, now));
            if r.None? then r'.None? else r'.Some? && r'.value.0 == r.value.0.(sessions := x) && r'.value.1 == r.value.1
  {
    hide Before;
  }

  lemma TakeLinkIgnores(db: Db, x: map<Id, Session>, u: Id, token: Id, i: Input)
    ensures TakeLinkStep(db.(sessions := x), u, token, i) == With(TakeLinkStep(db, u, token, i), x)
  {
    hide Stamp, TakeLink;
    LinkTakeIgnores(db, x, u, token, Stamp(i.now));
  }

  lemma TakeEmailIgnores(db: Db, x: map<Id, Session>, token: Id, i: Input)
    ensures TakeEmailStep(db.(sessions := x), token, i) == With(TakeEmailStep(db, token, i), x)
  {
    hide Stamp, TakeEmailChange;
    EmailTakeIgnores(db, x, token, Stamp(i.now));
  }

  /** Statements by primary key, in short. */
  lemma TokenRowsIgnore(db: Db, x: map<Id, Session>, token: Id, u: Id, a: string, b: string, now: Instant)
    ensures InsertLink(db.(sessions := x), token, u, a, b, now) == Put(InsertLink(db, token, u, a, b, now), x)
    ensures InsertEmailChange(db.(sessions := x), token, u, a, now) == Put(InsertEmailChange(db, token, u, a, now), x)
  {
    hide Stamp;
  }

  lemma ChallengesIgnore(db: Db, x: map<Id, Session>, u: Id, k: Id, now: string)
    ensures TakeAdd(db.(sessions := x), u, now) == Put(TakeAdd(db, u, now), x)
    ensures DeletePasskey(db.(sessions := x), u, k) == DeletePasskey(db, u, k).(sessions := x)
  {
    hide Before;
  }

  lemma UpsertAddIgnores(db: Db, x: map<Id, Session>, u: Id, challenge: string, now: Instant)
    ensures UpsertAdd(db.(sessions := x), u, challenge, now) == Put(UpsertAdd(db, u, challenge, now), x)
  {
    hide Stamp;
  }

  lemma BeginAddIgnores(db: Db, x: map<Id, Session>, u: Id, i: Input)
    ensures BeginAddStep(db.(sessions := x), u, i) == With(BeginAddStep(db, u, i), x)
  {
    hide Stamp, UpsertAdd;
    if i.challenge.Some? {
      UpsertAddIgnores(db, x, u, i.challenge.value, i.now);
    }
  }

  predicate AboutPasskeys(t: SettingsTask) {
    t.BeginAdd0? || t.FinishAdd0? || t.FinishAdd1? || t.DeleteKey0? || t.DeleteKey1?
  }

  lemma PasskeySettingsIgnore(db: Db, x: map<Id, Session>, t: SettingsTask, i: Input)
    requires AboutPasskeys(t)
    ensures SettingsStep(db.(sessions := x), t, i) == With(SettingsStep(db, t, i), x)
  {
    hide Stamp, Before, KeysOf, InsertKeyStep, BeginAddStep, TakeAdd, DeletePasskey;
    match t
    case FinishAdd0(u) => ChallengesIgnore(db, x, u, "", Stamp(i.now));
    case DeleteKey1(u, k) => ChallengesIgnore(db, x, u, k, "");
    case BeginAdd0(u) => BeginAddIgnores(db, x, u, i);
    case FinishAdd1(u, began) => KeyIgnores(db, x, u, None, began, None, i);
    case DeleteKey0(u, k) => ChecksIgnore(db, x, u, "", "", ViaPasskey);
  }

  predicate AboutFreja(t: SettingsTask) {
    t.Link0? || t.Link1? || t.ConfirmLink0? || t.ConfirmLink1? || t.Unlink0? || t.Unlink1?
  }

  lemma LinkingStepsIgnore(db: Db, x: map<Id, Session>, t: SettingsTask, i: Input)
    requires t.Link0? || t.Link1? || t.ConfirmLink0?
    ensures SettingsStep(db.(sessions := x), t, i) == With(SettingsStep(db, t, i), x)
  {
    hide Stamp, FrejaKnown, TakeLinkStep, InsertLink;
    match t
    case Link0(u, email, subject) => ChecksIgnore(db, x, u, subject, email, ViaPasskey);
    case Link1(u, email, subject) => TokenRowsIgnore(db, x, i.token, u, subject, email, i.now);
    case ConfirmLink0(u, token) => TakeLinkIgnores(db, x, u, token, i);
  }

  lemma FrejaSettingsIgnore(db: Db, x: map<Id, Session>, t: SettingsTask, i: Input)
    requires AboutFreja(t)
    ensures SettingsStep(db.(sessions := x), t, i) == With(SettingsStep(db, t, i), x)
  {
    hide KeysOf, FrejaKnown, TakeLinkStep, LinkIdentity, Unlink, InsertLink;
    match t
    case ConfirmLink1(u, subject, email) => LinkingIgnores(db, x, i.id, u, subject, email);
    case Unlink0(u) => ChecksIgnore(db, x, u, "", "", ViaPasskey);
    case Unlink1(u) => UnlinkIgnores(db, x, u, "");
    case _ => LinkingStepsIgnore(db, x, t, i);
  }

  lemma EmailSettingsIgnore(db: Db, x: map<Id, Session>, t: SettingsTask, i: Input)
    requires !AboutPasskeys(t) && !AboutFreja(t)
    ensures SettingsStep(db.(sessions := x), t, i) == With(SettingsStep(db, t, i), x)
  {
    hide Stamp, EmailTaken, TakeEmailStep, SetFrejaEmail, SetUsername, InsertEmailChange;
    match t
    case ChangeEmail0(u, email) => ChecksIgnore(db, x, u, email, "", ViaPasskey);
    case ChangeEmail1(u, email) => TokenRowsIgnore(db, x, i.token, u, email, "", i.now);
    case ConfirmEmail0(token) => TakeEmailIgnores(db, x, token, i);
    case ConfirmEmail1(u, email) => AccountsIgnore(db, x, i.id, u, email);
    case ConfirmEmail2(u, email) => UnlinkIgnores(db, x, u, email);
  }

  lemma SettingsIgnores(db: Db, x: map<Id, Session>, t: SettingsTask, i: Input)
    ensures SettingsStep(db.(sessions := x), t, i) == With(SettingsStep(db, t, i), x)
  {
    hide SettingsStep, AboutPasskeys, AboutFreja;
    if AboutPasskeys(t) {
      PasskeySettingsIgnore(db, x, t, i);
    } else if AboutFreja(t) {
      FrejaSettingsIgnore(db, x, t, i);
    } else {
      EmailSettingsIgnore(db, x, t, i);
    }
  }

  lemma ResetLookupsIgnore(db: Db, x: map<Id, Session>, token: Id, email: string, subject: string, p: Provider, i: Input)
    ensures RequestResetStep(db.(sessions := x), email, p, i) == With(RequestResetStep(db, email, p, i), x)
    ensures BeginResetStep(db.(sessions := x), token, i) == With(BeginResetStep(db, token, i), x)
    ensures FinishResetStep(db.(sessions := x), token, i) == With(FinishResetStep(db, token, i), x)
    ensures ResetFrejaStep(db.(sessions := x), token, email, subject, i) == With(ResetFrejaStep(db, token, email, subject, i), x)
  {
    hide Stamp, EqualFold, FindUserLike, FindReset, Lower, TrimSpace;
    LookupsIgnore(db, x, i.row, TrimSpace(Lower(email)), "");
    TokensIgnore(db, x, i.row, token, Stamp(i.now), ViaPasskey);
    TokensIgnore(db, x, i.row, token, Stamp(i.now), ViaFreja);
  }

  lemma NewResetIgnores(db: Db, x: map<Id, Session>, r: Id, u: Id, p: Provider)
    ensures InsertReset(db.(sessions := x), r, u, p) == Put(InsertReset(db, r, u, p), x)
  {
  }

  lemma ResetRowsIgnore(db: Db, x: map<Id, Session>, r: Id)
    ensures RejectReset(db.(sessions := x), r) == RejectReset(db, r).(sessions := x)
    ensures CompleteReset(db.(sessions := x), r) == CompleteReset(db, r).(sessions := x)
  {
  }

  lemma GrantStepIgnores(db: Db, x: map<Id, Session>, r: Id, why: Approver, i: Input)
    ensures GrantResetStep(db.(sessions := x), r, why, i) == With(GrantResetStep(db, r, why, i), x)
  {
    hide Stamp, ApproveReset;
    GrantIgnores(db, x, r, i.token, i.now);
  }

  predicate LooksUp(t: ResetTask) {
    t.RequestReset0? || t.BeginReset0? || t.FinishReset0? || t.ResetFreja0?
  }

  lemma LookupResetIgnores(db: Db, x: map<Id, Session>, t: ResetTask, i: Input)
    requires LooksUp(t)
    ensures ResetStep(db.(sessions := x), t, i) == With(ResetStep(db, t, i), x)
  {
    hide RequestResetStep, BeginResetStep, FinishResetStep, ResetFrejaStep;
    match t
    case RequestReset0(email, provider) => ResetLookupsIgnore(db, x, "", email, "", provider, i);
    case BeginReset0(token) => ResetLookupsIgnore(db, x, token, "", "", ViaPasskey, i);
    case FinishReset0(token) => ResetLookupsIgnore(db, x, token, "", "", ViaPasskey, i);
    case ResetFreja0(token, email, subject) => ResetLookupsIgnore(db, x, token, email, subject, ViaFreja, i);
  }

  lemma OtherResetIgnores(db: Db, x: map<Id, Session>, t: ResetTask, i: Input)
    requires !LooksUp(t)
    ensures ResetStep(db.(sessions := x), t, i) == With(ResetStep(db, t, i), x)
  {
    hide Stamp, ResetPending, GrantResetStep, InsertReset, RejectReset, CompleteReset, TakeAdd, InsertKeyStep, BeginAddStep, UpsertIdentity;
    match t
    case RequestReset1(u, provider) => ChecksIgnore(db, x, u, "", "", provider);
    case RequestReset2(u, provider) => NewResetIgnores(db, x, i.id, u, provider);
    case GrantReset1(r, why) => GrantStepIgnores(db, x, r, why, i);
    case DenyReset0(r, why) => ResetRowsIgnore(db, x, r);
    case BeginReset1(u) => BeginAddIgnores(db, x, u, i);
    case FinishReset1(r, u, began) => ChallengesIgnore(db, x, u, "", Stamp(began));
    case FinishReset2(r, u, began) => KeyIgnores(db, x, u, Some(Resetting(FinishReset3(r))), began, Some(r), i);
    case FinishReset3(r) => ResetRowsIgnore(db, x, r);
    case ResetFreja1(r, u, email, subject, began) => UpsertIgnores(db, x, i.id, u, subject, email);
    case ResetFreja2(r, u, began) => ResetRowsIgnore(db, x, r);
    case _ =>
  }

  lemma ResetIgnores(db: Db, x: map<Id, Session>, t: ResetTask, i: Input)
    ensures ResetStep(db.(sessions := x), t, i) == With(ResetStep(db, t, i), x)
  {
    hide ResetStep, LooksUp;
    if LooksUp(t) {
      LookupResetIgnores(db, x, t, i);
    } else {
      OtherResetIgnores(db, x, t, i);
    }
  }

  // -------------------------------------------------------------- simulation

  /** Two databases that differ in their sessions only, and answer this statement's question about them alike. */
  ghost predicate Alike(a: Db, b: Db, t: Task, i: Input) {
    && b == a.(sessions := b.sessions)
    && (t.Gated? && t.g.Gate0? ==> CurrentUser(a, t.g.cookie, Stamp(i.now)) == CurrentUser(b, t.g.cookie, Stamp(i.now)))
    && (t.LoggingIn? && t.l.EnterSession? ==> (i.id in a.sessions <==> i.id in b.sessions))
  }

  ghost predicate SameOutcome(oa: Outcome, ob: Outcome) {
    ob.event == oa.event && ob.next == oa.next && ob.db == oa.db.(sessions := ob.db.sessions)
  }

  lemma GateAlike(a: Db, b: Db, t: GateTask, i: Input)
    requires Alike(a, b, Gated(t), i)
    ensures SameOutcome(GateStep(a, t, i), GateStep(b, t, i))
  {
    hide Stamp, Before, CurrentUser;
  }

  lemma LoginAlike(a: Db, b: Db, t: LoginTask, i: Input)
    requires Alike(a, b, LoggingIn(t), i)
    ensures SameOutcome(LoginStep(a, t, i), LoginStep(b, t, i))
  {
    hide Stamp, Before, CurrentUser, LoginStep;
    if t.EnterSession? || t.Logout0? || t.Sweep0? {
      SessionsAlike(a, b, t, i);
    } else {
      LoginIgnores(a, b.sessions, t, i);
    }
  }

  lemma EntryAlike(a: Db, b: Db, u: Id, i: Input)
    requires b == a.(sessions := b.sessions) && (i.id in a.sessions <==> i.id in b.sessions)
    ensures InsertSession(a, i.id, u, i.now).Some? <==> InsertSession(b, i.id, u, i.now).Some?
  {
    hide Stamp;
  }

  lemma SessionsAlike(a: Db, b: Db, t: LoginTask, i: Input)
    requires Alike(a, b, LoggingIn(t), i) && (t.EnterSession? || t.Logout0? || t.Sweep0?)
    ensures SameOutcome(LoginStep(a, t, i), LoginStep(b, t, i))
  {
    hide Stamp, Before, CurrentUser, InsertSession, DeleteSession, DeleteExpired;
    if t.EnterSession? {
      EntryAlike(a, b, t.user, i);
    }
  }

  lemma StepAlike(cfg: Config, a: Db, b: Db, t: Task, i: Input)
    requires Alike(a, b, t, i)
    ensures SameOutcome(Step(cfg, a, t, i), Step(cfg, b, t, i))
  {
    hide RegistrationStep, LoginStep, SettingsStep, ResetStep, GateStep, CurrentUser;
    match t
    case Registering(r) => RegistrationIgnores(cfg, a, b.sessions, r, i);
    case LoggingIn(l) => LoginAlike(a, b, l, i);
    case Settings(s) => SettingsIgnores(a, b.sessions, s, i);
    case Resetting(q) => ResetIgnores(a, b.sessions, q, i);
    case Gated(g) => GateAlike(a, b, g, i);
  }

  // ------------------------------------------------------------ runs without

  const SWEEP: Task := LoggingIn(Sweep0)

  /** The move concerns a sweep and nothing else. */
  predicate IsCleanup(s: Sys, m: Move) {
    (m.Arrive? && m.task == SWEEP) || (m.pid in s.pool && s.pool[m.pid] == SWEEP)
  }

  /** The run with every sweep left out. */
  function Sweepless(cfg: Config, moves: seq<Move>): seq<Move> {
    if moves == [] then []
    else
      var before, m := moves[..|moves| - 1], moves[|moves| - 1];
      Sweepless(cfg, before) + if IsCleanup(Execute(cfg, before), m) then [] else [m]
  }

  function WithoutSweepers(pool: map<nat, Task>): map<nat, Task> {
    map p | p in pool && pool[p] != SWEEP :: pool[p]
  }

  function Unswept(log: Log): Log {
    if log == [] then []
    else Unswept(log[..|log| - 1]) + if log[|log| - 1].Swept? then [] else [log[|log| - 1]]
  }

  /** The latest clock reading so far. */
  function Clock(moves: seq<Move>): nat {
    if moves == [] then 0
    else
      var m, before := moves[|moves| - 1], Clock(moves[..|moves| - 1]);
      if m.Run? && m.input.now > before then m.input.now else before
  }

  /** The clock never goes back, and no session id is drawn that belonged to a session a sweep removed. */
  ghost predicate Timely(cfg: Config, moves: seq<Move>) {
    moves != [] ==>
      var before, m := moves[..|moves| - 1], moves[|moves| - 1];
      && Timely(cfg, before)
      && (m.Run? ==> m.input.now >= Clock(before))
      && (m.Run? && m.pid in Execute(cfg, before).pool && Enters(Execute(cfg, before).pool[m.pid])
          ==> !SweptAway(Execute(cfg, before), m.input.id))
  }

  /** The history has the session live, and yet its row is gone. */
  predicate SweptAway(s: Sys, id: Id) {
    Live(s.log, id).Some? && id !in s.db.sessions
  }

  predicate Enters(t: Task) {
    t.LoggingIn? && t.l.EnterSession?
  }

  lemma {:induction false} SweepsTellNothing(log: Log, u: Id)
    ensures RoleNow(Unswept(log), u) == RoleNow(log, u) && BannedNow(Unswept(log), u) == BannedNow(log, u)
    ensures Live(Unswept(log), u) == Live(log, u) && LastSweep(Unswept(log)) == 0
  {
    if log != [] {
      var before, e := log[..|log| - 1], log[|log| - 1];
      SweepsTellNothing(before, u);
      assert before + [e] == log;
      OneMoreEvent(before, e, u);
      OneMoreEvent(Unswept(before), e, u);
      NoEvent(Unswept(before));
    }
  }

  lemma SameVisitors(log: Log, c: Id, t: nat)
    ensures Visitor(Unswept(log), c, t) == Visitor(log, c, t)
  {
    SweepsTellNothing(log, c);
    if Live(log, c).Some? {
      SweepsTellNothing(log, Live(log, c).value.0);
    }
  }

  /** `b` is `a` without its sweeps. */
  ghost predicate Simulates(a: Sys, b: Sys) {
    b.db == a.db.(sessions := b.db.sessions) && b.pool == WithoutSweepers(a.pool) && b.log == Unswept(a.log)
  }

  lemma AppendUnswept(log: Log, e: Option<Event>)
    ensures Unswept(log + Logged(e)) == Unswept(log) + if e.Some? && e.value.Swept? then [] else Logged(e)
    ensures LastSweep(log + Logged(e)) == if e.Some? && e.value.Swept? && e.value.at > LastSweep(log) then e.value.at else LastSweep(log)
  {
    NoEvent(log);
    NoEvent(Unswept(log));
    if e.Some? {
      assert (log + [e.value])[..|log|] == log;
    }
  }

  lemma SweepersReplaced(pool: map<nat, Task>, pid: nat, next: Option<Task>)
    requires pid in pool && next != Some(SWEEP)
    ensures WithoutSweepers(Replaced(pool, pid, next)) == Replaced(WithoutSweepers(pool), pid, next)
  {
  }

  lemma SweepTells(cfg: Config, db: Db, i: Input)
    ensures Step(cfg, db, SWEEP, i) == Outcome(DeleteExpired(db, Stamp(i.now)), None, Some(Swept(i.now)))
  {
    hide DeleteExpired, Stamp;
  }

  lemma SweepStep(cfg: Config, a: Sys, b: Sys, pid: nat, i: Input)
    requires Simulates(a, b) && pid in a.pool && a.pool[pid] == SWEEP
    ensures Simulates(After(a, pid, Step(cfg, a.db, SWEEP, i)), b)
    ensures LastSweep(After(a, pid, Step(cfg, a.db, SWEEP, i)).log) == if i.now > LastSweep(a.log) then i.now else LastSweep(a.log)
  {
    hide Step, DeleteExpired, Stamp, Unswept, LastSweep;
    SweepTells(cfg, a.db, i);
    AppendUnswept(a.log, Some(Swept(i.now)));
    assert Unswept(a.log) + [] == Unswept(a.log);
    assert WithoutSweepers(a.pool - {pid}) == WithoutSweepers(a.pool);
  }

  lemma OnlySweepsSweep(cfg: Config, db: Db, t: Task, i: Input, o: Outcome)
    requires t != SWEEP && NextFits(cfg, db, t, i, o) && EventFits(t, i, o.event)
    ensures o.next != Some(SWEEP) && (o.event.Some? ==> !o.event.value.Swept?)
  {
    hide IsAdminEmail, Stamp, Before, Park;
  }

  lemma OtherStep(cfg: Config, a: Sys, b: Sys, pid: nat, i: Input)
    requires Simulates(a, b) && pid in a.pool && a.pool[pid] != SWEEP
    requires Alike(a.db, b.db, a.pool[pid], i)
    ensures Simulates(After(a, pid, Step(cfg, a.db, a.pool[pid], i)), After(b, pid, Step(cfg, b.db, a.pool[pid], i)))
    ensures LastSweep(After(a, pid, Step(cfg, a.db, a.pool[pid], i)).log) == LastSweep(a.log)
  {
    hide Step, Alike, EventFits, NextFits;
    var t := a.pool[pid];
    var o := Step(cfg, a.db, t, i);
    StepAlike(cfg, a.db, b.db, t, i);
    StepTells(cfg, a.db, t, i);
    OnlySweepsSweep(cfg, a.db, t, i, o);
    AppendUnswept(a.log, o.event);
    SweepersReplaced(a.pool, pid, o.next);
  }

  lemma AnswersAlike(a: Sys, b: Sys, t: Task, i: Input)
    requires Simulates(a, b) && Faithful(a) && Faithful(b) && ForeignKeys(a.db) && ForeignKeys(b.db)
    requires i.now >= LastSweep(a.log) && (Enters(t) ==> !SweptAway(a, i.id))
    ensures Alike(a.db, b.db, t, i)
  {
    hide ToldOf, CurrentUser, ForeignKeys, Visitor;
    SweepsTellNothing(a.log, i.id);
    assert Tracked(a.log, a.db.sessions, i.id) && Tracked(b.log, b.db.sessions, i.id);
    if t.Gated? && t.g.Gate0? {
      SameVisitor(a, t.g.cookie, i.now);
      SameVisitor(b, t.g.cookie, i.now);
      SameVisitors(a.log, t.g.cookie, i.now);
    }
  }

  lemma SweeperArrived(pool: map<nat, Task>, pid: nat, task: Task)
    ensures pid in WithoutSweepers(pool) <==> pid in pool && pool[pid] != SWEEP
    ensures pid !in pool ==>
              WithoutSweepers(pool[pid := task]) == if task == SWEEP then WithoutSweepers(pool) else WithoutSweepers(pool)[pid := task]
  {
  }

  lemma ArrivalSimulates(cfg: Config, a: Sys, b: Sys, pid: nat, task: Task)
    requires Simulates(a, b)
    ensures var m := Arrive(pid, task); Simulates(Moved(cfg, a, m), if IsCleanup(a, m) then b else Moved(cfg, b, m))
  {
    hide Step, IsRequest, WithoutSweepers, Unswept;
    SweeperArrived(a.pool, pid, task);
  }

  lemma VanishingSimulates(cfg: Config, a: Sys, b: Sys, pid: nat)
    requires Simulates(a, b)
    ensures var m := Vanish(pid); Simulates(Moved(cfg, a, m), if IsCleanup(a, m) then b else Moved(cfg, b, m))
  {
    hide Step;
    assert WithoutSweepers(a.pool - {pid}) == WithoutSweepers(a.pool) - {pid};
  }

  lemma RunSimulates(cfg: Config, a: Sys, b: Sys, pid: nat, i: Input)
    requires Simulates(a, b) && Faithful(a) && Faithful(b) && ForeignKeys(a.db) && ForeignKeys(b.db)
    requires LastSweep(a.log) <= i.now && (pid in a.pool && Enters(a.pool[pid]) ==> !SweptAway(a, i.id))
    ensures var m := Run(pid, i);
            && Simulates(Moved(cfg, a, m), if IsCleanup(a, m) then b else Moved(cfg, b, m))
            && LastSweep(Moved(cfg, a, m).log) <= i.now
  {
    hide Step, Faithful, ForeignKeys, After;
    if pid in a.pool && a.pool[pid] == SWEEP {
      SweepStep(cfg, a, b, pid, i);
    } else if pid in a.pool {
      AnswersAlike(a, b, a.pool[pid], i);
      OtherStep(cfg, a, b, pid, i);
    }
  }

  lemma MoveSimulates(cfg: Config, a: Sys, b: Sys, m: Move, clock: nat)
    requires Simulates(a, b) && Faithful(a) && Faithful(b) && ForeignKeys(a.db) && ForeignKeys(b.db)
    requires LastSweep(a.log) <= clock && (m.Run? ==> m.input.now >= clock)
    requires m.Run? && m.pid in a.pool && Enters(a.pool[m.pid]) ==> !SweptAway(a, m.input.id)
    ensures Simulates(Moved(cfg, a, m), if IsCleanup(a, m) then b else Moved(cfg, b, m))
    ensures LastSweep(Moved(cfg, a, m).log) <= if m.Run? then m.input.now else clock
  {
    hide Step, Faithful, ForeignKeys, Simulates, IsCleanup, SweptAway, After;
    match m
    case Arrive(pid, task) => ArrivalSimulates(cfg, a, b, pid, task);
    case Run(pid, i) => RunSimulates(cfg, a, b, pid, i);
    case Vanish(pid) => VanishingSimulates(cfg, a, b, pid);
  }

  lemma SweeplessNext(cfg: Config, moves: seq<Move>)
    requires moves != []
    ensures var before, m := moves[..|moves| - 1], moves[|moves| - 1];
            && Execute(cfg, moves) == Moved(cfg, Execute(cfg, before), m)
            && Execute(cfg, Sweepless(cfg, moves)) ==
                 if IsCleanup(Execute(cfg, before), m) then Execute(cfg, Sweepless(cfg, before))
                 else Moved(cfg, Execute(cfg, Sweepless(cfg, before)), m)
  {
    hide Moved, IsCleanup;
    var before, m := moves[..|moves| - 1], moves[|moves| - 1];
    assert Sweepless(cfg, before) + [] == Sweepless(cfg, before);
    ExecuteOneMore(cfg, Sweepless(cfg, before), m);
  }

  lemma {:induction false} SimulatesAlways(cfg: Config, moves: seq<Move>)
    requires Timely(cfg, moves)
    ensures Simulates(Execute(cfg, moves), Execute(cfg, Sweepless(cfg, moves)))
    ensures LastSweep(Execute(cfg, moves).log) <= Clock(moves)
  {
    if moves == [] {
      assert Simulates(START, START) && LastSweep(START.log) == 0;
    } else {
      hide Execute, Sweepless, Moved, ForeignKeys, Faithful, Simulates, IsCleanup, SweptAway, LastSweep;
      var before, m := moves[..|moves| - 1], moves[|moves| - 1];
      SimulatesAlways(cfg, before);
      FaithfulAlways(cfg, before);
      FaithfulAlways(cfg, Sweepless(cfg, before));
      ReferencesAlways(cfg, before);
      ReferencesAlways(cfg, Sweepless(cfg, before));
      MoveSimulates(cfg, Execute(cfg, before), Execute(cfg, Sweepless(cfg, before)), m, Clock(before));
      SweeplessNext(cfg, moves);
    }
  }

  lemma ReferencesAlways(cfg: Config, moves: seq<Move>)
    ensures ForeignKeys(Execute(cfg, moves).db)
  {
    hide Execute;
    SchemaAlways(cfg, moves);
  }

  /**
   * With a clock that never goes back, sweeps inserted anywhere in a run make no difference to any later
   * GetSession, to any other table, to the requests in flight, or to what has happened.
   */
  lemma CleanupIsInvisible(cfg: Config, moves: seq<Move>, c: Id, t: Instant)
    requires Timely(cfg, moves) && t >= Clock(moves)
    ensures var (a, b) := (Execute(cfg, moves), Execute(cfg, Sweepless(cfg, moves)));
            && CurrentUser(a.db, c, Stamp(t)) == CurrentUser(b.db, c, Stamp(t))
            && Simulates(a, b)
  {
    hide Execute, CurrentUser, Visitor, Faithful;
    var (a, b) := (Execute(cfg, moves), Execute(cfg, Sweepless(cfg, moves)));
    SimulatesAlways(cfg, moves);
    FaithfulAlways(cfg, moves);
    FaithfulAlways(cfg, Sweepless(cfg, moves));
    ReferencesAlways(cfg, moves);
    ReferencesAlways(cfg, Sweepless(cfg, moves));
    SweepsTellNothing(a.log, c);
    SameVisitor(a, c, t);
    SameVisitor(b, c, t);
    SameVisitors(a.log, c, t);
  }
}
