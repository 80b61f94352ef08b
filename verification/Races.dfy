/**
 * Handlers that check in one statement and act in another. What they protect survives every run in which no
 * two of them overlap on the same subject (in particular every run that handles one request at a time); which
 * statements break it is stated exactly, and so is how two overlapping requests get there.
 */
module Races {
  import opened Basics
  import opened Text
  import opened Timestamps
  import opened Tables
  import opened Requests
  import opened Runs
  import opened Effects
  import opened Steps
  import opened PublicKeys
  import opened Accounts
  import opened Integrity
  import Resets

  // ------------------------------------------------------------------ windows

  /** What a request between its check and its action must not share. */
  datatype Window =
    | Methods(user: Id)                          // counted passkeys, about to delete or unlink
    | ResetQueue(user: Id, provider: Provider)   // counted pending resets, about to insert
    | Finishing(reset: Id)                       // read an approved reset, about to complete it
    | Deciding(reg: Id)                          // read a pending registration, about to approve or reject

  function WindowOf(t: Task): Option<Window> {
    match t
    case Settings(DeleteKey1(u, k)) => Some(Methods(u))
    case Settings(Unlink1(u)) => Some(Methods(u))
    case Resetting(RequestReset2(u, provider)) => Some(ResetQueue(u, provider))
    case Resetting(FinishReset1(r, u, began)) => Some(Finishing(r))
    case Resetting(FinishReset2(r, u, began)) => Some(Finishing(r))
    case Resetting(FinishReset3(r)) => Some(Finishing(r))
    case Resetting(ResetFreja1(r, u, email, subject, began)) => Some(Finishing(r))
    case Resetting(ResetFreja2(r, u, began)) => Some(Finishing(r))
    case Registering(Approve1(g, row, why)) => Some(Deciding(g))
    case Registering(Reject0(g, why)) => Some(Deciding(g))
    case _ => None
  }

  ghost predicate Apart(t: Task, other: Task) {
    WindowOf(other).Some? ==> WindowOf(t) != WindowOf(other)
  }

  /** No two requests are in window `w` at once. */
  ghost predicate Alone(s: Sys, w: Window) {
    forall p, q :: p in s.pool && q in s.pool && WindowOf(s.pool[p]) == Some(w) && WindowOf(s.pool[q]) == Some(w) ==> p == q
  }

  ghost predicate AlwaysAlone(cfg: Config, moves: seq<Move>, w: Window) {
    Alone(Execute(cfg, moves), w) && (moves != [] ==> AlwaysAlone(cfg, moves[..|moves| - 1], w))
  }

  /** One request at a time. */
  ghost predicate Serial(cfg: Config, moves: seq<Move>) {
    && (forall p, q :: p in Execute(cfg, moves).pool && q in Execute(cfg, moves).pool ==> p == q)
    && (moves != [] ==> Serial(cfg, moves[..|moves| - 1]))
  }

  lemma {:induction false} SerialIsAlone(cfg: Config, moves: seq<Move>, w: Window)
    requires Serial(cfg, moves)
    ensures AlwaysAlone(cfg, moves, w)
  {
    hide Execute;
    if moves != [] {
      SerialIsAlone(cfg, moves[..|moves| - 1], w);
    }
  }

  lemma AloneBefore(cfg: Config, moves: seq<Move>, w: Window)
    requires moves != [] && AlwaysAlone(cfg, moves, w)
    ensures AlwaysAlone(cfg, moves[..|moves| - 1], w) && Alone(Execute(cfg, moves[..|moves| - 1]), w)
  {
    hide Execute, Alone;
  }

  // ------------------------------------------------------------------- checks

  /** What a request in its window has checked, and relies on. */
  ghost predicate Guarded(db: Db, t: Task) {
    match t
    case Settings(DeleteKey1(u, k)) => |KeysOf(db, u)| > 1
    case Settings(Unlink1(u)) => KeysOf(db, u) != {}
    case Resetting(RequestReset2(u, provider)) => !ResetPending(db, u, provider)
    case Resetting(FinishReset1(r, u, began)) => Open(db, r)
    case Resetting(FinishReset2(r, u, began)) => Open(db, r)
    case Resetting(FinishReset3(r)) => Open(db, r)
    case Resetting(ResetFreja1(r, u, email, subject, began)) => Open(db, r)
    case Resetting(ResetFreja2(r, u, began)) => Open(db, r)
    case Registering(Approve1(g, row, why)) => g in db.registrations && db.registrations[g].status == Pending
    case _ => true
  }

  predicate Open(db: Db, r: Id) {
    r in db.resets && db.resets[r].status == Approved
  }

  // ------------------------------------------------------------ login methods

  predicate DeletesKeyOf(t: Task, u: Id) {
    t.Settings? && t.s.DeleteKey1? && t.s.user == u
  }

  lemma KeysOfMove(db: Db, d: Db, t: Task, i: Input, e: Option<Event>, u: Id)
    requires PasskeysMove(db.passkeys, d.passkeys, t, i, e)
    ensures if DeletesKeyOf(t, u) then KeysOf(d, u) == KeysOf(db, u) - {t.s.key} else KeysOf(db, u) <= KeysOf(d, u)
  {
    hide KeyColumn, Unpark;
  }

  lemma IdentitiesOfMove(db: Db, d: Db, t: Task, i: Input, e: Option<Event>, u: Id)
    requires IdentitiesMove(db.identities, d.identities, t, i, e)
    ensures if t == Settings(Unlink1(u)) then IdentitiesOf(d, u) == {} else IdentitiesOf(db, u) <= IdentitiesOf(d, u)
  {
  }

  /**
   * Exactly which steps lock a user out: the last passkey goes only when its own deletion finds it the only one,
   * and the last login method only by that deletion without a Freja row, or by an unlink without a passkey.
   */
  lemma LockoutExactly(cfg: Config, db: Db, t: Task, i: Input, u: Id)
    ensures var d := Step(cfg, db, t, i).db;
            && (KeysOf(db, u) != {} ==> (KeysOf(d, u) == {} <==> DeletesKeyOf(t, u) && KeysOf(db, u) == {t.s.key}))
            && (CanLogIn(db, u) ==>
                  (!CanLogIn(d, u) <==>
                     || (DeletesKeyOf(t, u) && KeysOf(db, u) == {t.s.key} && IdentitiesOf(db, u) == {})
                     || (t == Settings(Unlink1(u)) && KeysOf(db, u) == {})))
  {
    var o := Step(cfg, db, t, i);
    StepPasskeys(cfg, db, t, i);
    StepIdentities(cfg, db, t, i);
    KeysOfMove(db, o.db, t, i, o.event, u);
    IdentitiesOfMove(db, o.db, t, i, o.event, u);
    if DeletesKeyOf(t, u) {
      assert o.db.identities == db.identities;
    } else if t == Settings(Unlink1(u)) {
      assert o.db.passkeys == db.passkeys;
    }
  }

  // ------------------------------------------------- a check outlives the others

  lemma BiggerSet(a: set<Id>, b: set<Id>)
    requires a <= b
    ensures |a| <= |b|
  {
    assert b == a + (b - a);
  }

  lemma MethodsGuardStays(cfg: Config, db: Db, t: Task, i: Input, x: Task, u: Id)
    requires Guarded(db, x) && WindowOf(x) == Some(Methods(u)) && Apart(t, x)
    ensures Guarded(Step(cfg, db, t, i).db, x)
  {
    var o := Step(cfg, db, t, i);
    StepPasskeys(cfg, db, t, i);
    StepIdentities(cfg, db, t, i);
    hide Step, PasskeysMove, IdentitiesMove, KeysOf;
    KeysOfMove(db, o.db, t, i, o.event, u);
    BiggerSet(KeysOf(db, u), KeysOf(o.db, u));
  }

  lemma ResetGuardStays(db: Db, d: Db, t: Task, i: Input, e: Option<Event>, x: Task)
    requires Guarded(db, x) && x.Resetting? && Apart(t, x)
    requires ResetsMove(db.resets, d.resets, t, i, e)
    ensures Guarded(d, x)
  {
    hide Stamp;
  }

  lemma DecidingGuardStays(db: Db, d: Db, t: Task, i: Input, e: Option<Event>, x: Task)
    requires Guarded(db, x) && x.Registering? && Apart(t, x)
    requires RegistrationsMove(db.registrations, d.registrations, t, i, e)
    ensures Guarded(d, x)
  {
    hide Stamp, Before, Park;
  }

  lemma GuardStays(cfg: Config, db: Db, t: Task, i: Input, x: Task)
    requires Guarded(db, x) && Apart(t, x)
    ensures Guarded(Step(cfg, db, t, i).db, x)
  {
    hide Step, ResetsMove, RegistrationsMove;
    var o := Step(cfg, db, t, i);
    StepResets(cfg, db, t, i);
    StepRegistrations(cfg, db, t, i);
    match x
    case Settings(DeleteKey1(u, k)) => MethodsGuardStays(cfg, db, t, i, x, u);
    case Settings(Unlink1(u)) => MethodsGuardStays(cfg, db, t, i, x, u);
    case Resetting(q) => ResetGuardStays(db, o.db, t, i, o.event, x);
    case Registering(r) => DecidingGuardStays(db, o.db, t, i, o.event, x);
    case _ =>
  }

  lemma MethodsChecked(db: Db, d: Db, t: SettingsTask, i: Input, e: Option<Event>, n: Task)
    requires SettingsNext(db, t, i, n) && SettingsPasskeys(db.passkeys, d.passkeys, t, i, e)
    ensures Guarded(d, n)
  {
    hide KeyAttested, FrejaKnown, EmailTaken;
    if t.DeleteKey0? || t.Unlink0? {
      assert KeysOf(d, t.user) == KeysOf(db, t.user);
    }
  }

  lemma ResetChecked(db: Db, d: Db, t: ResetTask, i: Input, o: Outcome, n: Task)
    requires ResetNext(db, t, i, o, n) && ResetResets(db.resets, d.resets, t, i, o.event)
    requires WindowOf(Resetting(t)).Some? && WindowOf(Resetting(t)) == WindowOf(n) ==> Guarded(db, Resetting(t))
    ensures WindowOf(n).Some? ==> Guarded(d, n)
  {
    hide Stamp, EqualFold, GrantedReset;
  }

  lemma RegistrationChecked(cfg: Config, db: Db, d: Db, t: RegistrationTask, i: Input, o: Outcome, n: Task)
    requires RegistrationNext(cfg, db, t, i, o, n) && RegistrationRegistrations(db.registrations, d.registrations, t, i, o.event)
    ensures Guarded(d, n)
  {
    hide Stamp, IsAdminEmail, SetupOpen, RowFiled, VerifiedRow;
  }

  lemma NothingChecked(cfg: Config, db: Db, d: Db, t: Task, i: Input, o: Outcome)
    requires NextFits(cfg, db, t, i, o) && o.next.Some? && (t.LoggingIn? || t.Gated?)
    ensures Guarded(d, o.next.value)
  {
    hide Stamp, CurrentUser, UserNamed, HasFrejaEmail, KeysOf;
  }

  /** A request enters its window by passing the check, and moves on inside it without losing it. */
  lemma NextGuarded(cfg: Config, db: Db, t: Task, i: Input, o: Outcome, w: Window)
    requires Effect(cfg, db, t, i, o) && (WindowOf(t) == Some(w) ==> Guarded(db, t))
    ensures o.next.Some? && WindowOf(o.next.value) == Some(w) ==> Guarded(o.db, o.next.value)
  {
    hide RegistrationNext, LoginNext, SettingsNext, ResetNext, GateNext, RegistrationRegistrations, ResetResets, SettingsPasskeys, Guarded,
      EventFits, UserExists, UsersMove, SessionsMove, LoginsMove, LinksMove, EmailsMove, AddsMove, IdentitiesMove;
    if o.next.Some? && WindowOf(o.next.value) == Some(w) {
      match t
      case Settings(s) => MethodsChecked(db, o.db, s, i, o.event, o.next.value);
      case Resetting(q) => ResetChecked(db, o.db, q, i, o, o.next.value);
      case Registering(r) => RegistrationChecked(cfg, db, o.db, r, i, o, o.next.value);
      case _ => NothingChecked(cfg, db, o.db, t, i, o);
    }
  }

  /** Every request in window `w` still has what it checked. */
  ghost predicate Protected(s: Sys, w: Window) {
    forall p :: p in s.pool && WindowOf(s.pool[p]) == Some(w) ==> Guarded(s.db, s.pool[p])
  }

  lemma StepProtects(cfg: Config, s: Sys, pid: nat, i: Input, w: Window)
    requires Protected(s, w) && Alone(s, w) && pid in s.pool
    ensures Protected(After(s, pid, Step(cfg, s.db, s.pool[pid], i)), w)
  {
    hide Step, Effect, Guarded, WindowOf;
    var t := s.pool[pid];
    var o := Step(cfg, s.db, t, i);
    StepEffect(cfg, s.db, t, i);
    NextGuarded(cfg, s.db, t, i, o, w);
    forall p | p in s.pool && p != pid && WindowOf(s.pool[p]) == Some(w) ensures Guarded(o.db, s.pool[p]) {
      GuardStays(cfg, s.db, t, i, s.pool[p]);
    }
  }

  lemma ArrivalGuarded(db: Db, t: Task)
    requires IsRequest(t)
    ensures Guarded(db, t)
  {
  }

  lemma {:induction false} ProtectedAlways(cfg: Config, moves: seq<Move>, w: Window)
    requires AlwaysAlone(cfg, moves, w)
    ensures Protected(Execute(cfg, moves), w)
  {
    if moves != [] {
      hide Step, Guarded, WindowOf, Alone;
      var before, m := moves[..|moves| - 1], moves[|moves| - 1];
      var s := Execute(cfg, before);
      AloneBefore(cfg, moves, w);
      ProtectedAlways(cfg, before, w);
      if m.Run? && m.pid in s.pool {
        StepProtects(cfg, s, m.pid, m.input, w);
      } else if m.Arrive? && IsRequest(m.task) {
        ArrivalGuarded(s.db, m.task);
      }
    }
  }

  /** The request that is about to run in window `w`, if that is where it is, still has what it checked. */
  lemma RunnerProtected(cfg: Config, moves: seq<Move>, pid: nat, w: Window)
    requires AlwaysAlone(cfg, moves, w) && pid in Execute(cfg, moves).pool
    ensures var s := Execute(cfg, moves); WindowOf(s.pool[pid]) == Some(w) ==> Guarded(s.db, s.pool[pid])
  {
    hide Execute, Guarded, WindowOf, AlwaysAlone;
    ProtectedAlways(cfg, moves, w);
  }

  // ------------------------------------------------------------- no lockout

  lemma GuardedStepKeepsMethods(cfg: Config, db: Db, t: Task, i: Input, u: Id)
    requires WindowOf(t) == Some(Methods(u)) ==> Guarded(db, t)
    ensures var d := Step(cfg, db, t, i).db;
            (KeysOf(db, u) != {} ==> KeysOf(d, u) != {}) && (CanLogIn(db, u) ==> CanLogIn(d, u))
  {
    hide Step, CanLogIn;
    LockoutExactly(cfg, db, t, i, u);
    if DeletesKeyOf(t, u) {
      assert KeysOf(db, u) == {t.s.key} ==> |KeysOf(db, u)| == 1;
    }
  }

  /**
   * No lockout: over every run in which no two deletions or unlinks of this user overlap, whatever anyone else
   * does, a user who has a passkey keeps having one, and a user with any login method is never left without.
   */
  lemma {:induction false} NoLockout(cfg: Config, moves: seq<Move>, more: seq<Move>, u: Id)
    requires AlwaysAlone(cfg, moves + more, Methods(u))
    ensures KeysOf(Execute(cfg, moves).db, u) != {} ==> KeysOf(Execute(cfg, moves + more).db, u) != {}
    ensures CanLogIn(Execute(cfg, moves).db, u) ==> CanLogIn(Execute(cfg, moves + more).db, u)
  {
    hide Execute, Step, Guarded, WindowOf, Alone, CanLogIn, KeysOf;
    if more == [] {
      assert moves + more == moves;
    } else {
      var before, m := more[..|more| - 1], more[|more| - 1];
      assert moves + more == (moves + before) + [m];
      assert (moves + more)[..|moves + more| - 1] == moves + before;
      AloneBefore(cfg, moves + more, Methods(u));
      NoLockout(cfg, moves, before, u);
      ExecuteOneMore(cfg, moves + before, m);
      var s := Execute(cfg, moves + before);
      if m.Run? && m.pid in s.pool {
        RunnerProtected(cfg, moves + before, m.pid, Methods(u));
        GuardedStepKeepsMethods(cfg, s.db, s.pool[m.pid], m.input, u);
      }
    }
  }

  /** The move creates the account of `u` for a Freja subject that some account holds already. */
  ghost predicate BornStranded(s: Sys, m: Move, u: Id) {
    && m.Run? && m.pid in s.pool && s.pool[m.pid].Registering? && s.pool[m.pid].r.Approve1?
    && var row := s.pool[m.pid].r.row;
    && row.account == u && row.provider == ViaFreja && Committable(s.db, row, m.input.id)
    && !SubjectFree(s.db.identities, row.frejaSub)
  }

  lemma NewUserApproved(m: map<Id, User>, m': map<Id, User>, t: Task, e: Option<Event>, u: Id)
    requires UsersMove(m, m', t, e) && u in m' && u !in m
    ensures t.Registering? && t.r.Approve1? && t.r.row.account == u && e.Some?
  {
  }

  lemma BirthGivesMethod(cfg: Config, s: Sys, m: Move, u: Id)
    requires ForeignKeys(s.db) && m.Run? && m.pid in s.pool && !BornStranded(s, m, u)
    requires u !in s.db.users && u in Step(cfg, s.db, s.pool[m.pid], m.input).db.users
    ensures CanLogIn(Step(cfg, s.db, s.pool[m.pid], m.input).db, u)
  {
    hide Step, ForeignKeys, UsersMove, Committable, AccountOpened, IdentityLinked, KeyUnparked, CanLogIn;
    var t := s.pool[m.pid];
    var o := Step(cfg, s.db, t, m.input);
    StepUsers(cfg, s.db, t, m.input);
    NewUserApproved(s.db.users, o.db.users, t, o.event, u);
    ApprovalAllOrNothing(cfg, s.db, t.r.reg, t.r.row, t.r.why, m.input);
    if Committable(s.db, t.r.row, m.input.id) {
      BirthExactly(cfg, s.db, t.r.reg, t.r.row, t.r.why, m.input);
    }
  }

  lemma ReferencesHold(cfg: Config, moves: seq<Move>)
    ensures ForeignKeys(Execute(cfg, moves).db)
  {
    hide Execute, ForeignKeys;
    SchemaAlways(cfg, moves);
  }

  /**
   * Nobody is locked out from birth on: over every run in which no two deletions or unlinks of this user overlap,
   * an existing user can log in, unless the account was created for a Freja subject that was held already.
   */
  lemma {:induction false} NoLockoutFromBirth(cfg: Config, moves: seq<Move>, u: Id)
    requires AlwaysAlone(cfg, moves, Methods(u)) && u in Execute(cfg, moves).db.users
    requires forall n :: 0 <= n < |moves| ==> !BornStranded(Execute(cfg, moves[..n]), moves[n], u)
    ensures CanLogIn(Execute(cfg, moves).db, u)
  {
    if moves != [] {
      hide Step, Guarded, WindowOf, Alone, CanLogIn, BornStranded, KeysOf, ForeignKeys;
      var before, m := moves[..|moves| - 1], moves[|moves| - 1];
      var s := Execute(cfg, before);
      AloneBefore(cfg, moves, Methods(u));
      assert forall n :: 0 <= n <= |before| ==> moves[..n] == before[..n];
      if u in s.db.users {
        NoLockoutFromBirth(cfg, before, u);
        if m.Run? && m.pid in s.pool {
          RunnerProtected(cfg, before, m.pid, Methods(u));
          GuardedStepKeepsMethods(cfg, s.db, s.pool[m.pid], m.input, u);
        }
      } else {
        assert !BornStranded(Execute(cfg, moves[..|before|]), moves[|before|], u);
        ReferencesHold(cfg, before);
        BirthGivesMethod(cfg, s, m, u);
      }
    }
  }

  lemma DeletionSteps(cfg: Config, db: Db, u: Id, k: Id, i: Input)
    ensures |KeysOf(db, u)| > 1 ==> Step(cfg, db, Settings(DeleteKey0(u, k)), i) == Goto(db, Settings(DeleteKey1(u, k)))
    ensures Step(cfg, db, Settings(DeleteKey1(u, k)), i) == Stop(DeletePasskey(db, u, k))
  {
    hide KeysOf, DeletePasskey;
  }

  lemma DeletionTakes(db: Db, u: Id, k: Id)
    requires k in KeysOf(db, u)
    ensures KeysOf(DeletePasskey(db, u, k), u) == KeysOf(db, u) - {k}
  {
    DeletionRemoves(db, u, k);
    hide DeletePasskey;
  }

  lemma DeletionRemoves(db: Db, u: Id, k: Id)
    requires k in KeysOf(db, u)
    ensures DeletePasskey(db, u, k).passkeys == db.passkeys - {k}
  {
  }

  /** Two overlapping deletions, each of which counted two passkeys, lock the user out. */
  lemma TwoDeletionsLockOut(cfg: Config, s: Sys, p: nat, q: nat, u: Id, a: Id, b: Id, i: Input)
    requires p != q && p in s.pool && q in s.pool && a != b && KeysOf(s.db, u) == {a, b}
    requires s.pool[p] == Settings(DeleteKey0(u, a)) && s.pool[q] == Settings(DeleteKey0(u, b))
    ensures var s' := Moved(cfg, Moved(cfg, Moved(cfg, Moved(cfg, s, Run(p, i)), Run(q, i)), Run(p, i)), Run(q, i));
            KeysOf(s'.db, u) == {} && s'.db.identities == s.db.identities
  {
    hide Step, KeysOf, DeletePasskey;
    assert |KeysOf(s.db, u)| == 2;
    DeletionSteps(cfg, s.db, u, a, i);
    DeletionSteps(cfg, s.db, u, b, i);
    DeletionSteps(cfg, DeletePasskey(s.db, u, a), u, b, i);
    DeletionTakes(s.db, u, a);
    DeletionTakes(DeletePasskey(s.db, u, a), u, b);
    var s2 := Moved(cfg, Moved(cfg, s, Run(p, i)), Run(q, i));
    assert s2.pool[p] == Settings(DeleteKey1(u, a)) && s2.pool[q] == Settings(DeleteKey1(u, b));
  }

  // ------------------------------------------------------------------- resets

  predicate IsPending(row: Reset, u: Id, provider: Provider) {
    row.user == u && row.provider == provider && row.status == Pending
  }

  /** At most one request is pending for this user and provider. */
  ghost predicate PendingOnce(m: map<Id, Reset>, u: Id, provider: Provider) {
    forall a, b :: a in m && b in m && IsPending(m[a], u, provider) && IsPending(m[b], u, provider) ==> a == b
  }

  lemma PendingRow(db: Db, u: Id, provider: Provider)
    ensures ResetPending(db, u, provider) <==> exists r :: r in db.resets && IsPending(db.resets[r], u, provider)
  {
    if ResetPending(db, u, provider) {
      var r :| r in db.resets && db.resets[r].user == u && db.resets[r].provider == provider && db.resets[r].status == Pending;
      assert IsPending(db.resets[r], u, provider);
    }
  }

  predicate InsertsSecond(db: Db, t: Task, i: Input, u: Id, provider: Provider) {
    t == Resetting(RequestReset2(u, provider)) && ResetPending(db, u, provider) && i.id !in db.resets && u in db.users
  }

  lemma PendingStays(m: map<Id, Reset>, m': map<Id, Reset>, t: Task, i: Input, e: Option<Event>, u: Id, provider: Provider)
    requires PendingOnce(m, u, provider) && ResetsMove(m, m', t, i, e)
    requires t == Resetting(RequestReset2(u, provider)) ==> m' == m || forall r :: r in m ==> !IsPending(m[r], u, provider)
    ensures PendingOnce(m', u, provider)
  {
    hide Stamp;
  }

  lemma SecondPendingInserted(cfg: Config, db: Db, t: Task, i: Input, u: Id, provider: Provider)
    requires InsertsSecond(db, t, i, u, provider)
    ensures !PendingOnce(Step(cfg, db, t, i).db.resets, u, provider)
  {
    PendingRow(db, u, provider);
    var r :| r in db.resets && IsPending(db.resets[r], u, provider);
    var m := Step(cfg, db, t, i).db.resets;
    assert m == db.resets[i.id := Reset(u, provider, None, Pending)];
    assert IsPending(m[r], u, provider) && IsPending(m[i.id], u, provider);
  }

  /** Exactly which steps make a second request pending: an insert whose count another insert has overtaken. */
  lemma SecondPendingExactly(cfg: Config, db: Db, t: Task, i: Input, u: Id, provider: Provider)
    requires PendingOnce(db.resets, u, provider)
    ensures !PendingOnce(Step(cfg, db, t, i).db.resets, u, provider) <==> InsertsSecond(db, t, i, u, provider)
  {
    var o := Step(cfg, db, t, i);
    if InsertsSecond(db, t, i, u, provider) {
      SecondPendingInserted(cfg, db, t, i, u, provider);
    } else {
      StepResets(cfg, db, t, i);
      PendingRow(db, u, provider);
      if t == Resetting(RequestReset2(u, provider)) {
        assert o.db.resets == db.resets || !ResetPending(db, u, provider);
      }
      hide Step, ResetsMove, PendingOnce, IsPending, ResetPending;
      PendingStays(db.resets, o.db.resets, t, i, o.event, u, provider);
    }
  }

  /** While no two requests of this user and provider overlap between count and insert, at most one is pending. */
  lemma {:induction false} OnePendingAlways(cfg: Config, moves: seq<Move>, u: Id, provider: Provider)
    requires AlwaysAlone(cfg, moves, ResetQueue(u, provider))
    ensures PendingOnce(Execute(cfg, moves).db.resets, u, provider)
  {
    if moves != [] {
      hide Step, Alone, PendingOnce, ResetPending;
      var before, m := moves[..|moves| - 1], moves[|moves| - 1];
      AloneBefore(cfg, moves, ResetQueue(u, provider));
      OnePendingAlways(cfg, before, u, provider);
      var s := Execute(cfg, before);
      if m.Run? && m.pid in s.pool {
        RunnerProtected(cfg, before, m.pid, ResetQueue(u, provider));
        SecondPendingExactly(cfg, s.db, s.pool[m.pid], m.input, u, provider);
      }
    }
  }

  lemma RequestSteps(cfg: Config, db: Db, u: Id, provider: Provider, i: Input)
    ensures !ResetPending(db, u, provider) ==>
              Step(cfg, db, Resetting(RequestReset1(u, provider)), i) == Goto(db, Resetting(RequestReset2(u, provider)))
    ensures u in db.users && i.id !in db.resets ==>
              Step(cfg, db, Resetting(RequestReset2(u, provider)), i)
              == Outcome(db.(resets := db.resets[i.id := Reset(u, provider, None, Pending)]), None, Some(ResetFiled(i.id, u, provider)))
  {
    hide ResetPending;
  }

  /** Two overlapping requests that both counted none leave two pending. */
  lemma TwoRequestsBothPending(cfg: Config, s: Sys, p: nat, q: nat, u: Id, provider: Provider, i: Input, j: Input)
    requires p != q && p in s.pool && q in s.pool && u in s.db.users && !ResetPending(s.db, u, provider)
    requires s.pool[p] == Resetting(RequestReset1(u, provider)) && s.pool[q] == s.pool[p]
    requires i.id != j.id && i.id !in s.db.resets && j.id !in s.db.resets
    ensures var s' := Moved(cfg, Moved(cfg, Moved(cfg, Moved(cfg, s, Run(p, i)), Run(q, i)), Run(p, i)), Run(q, j));
            !PendingOnce(s'.db.resets, u, provider)
  {
    hide Step, ResetPending;
    var row := Reset(u, provider, None, Pending);
    RequestSteps(cfg, s.db, u, provider, i);
    RequestSteps(cfg, s.db.(resets := s.db.resets[i.id := row]), u, provider, j);
    var s3 := Moved(cfg, Moved(cfg, Moved(cfg, s, Run(p, i)), Run(q, i)), Run(p, i));
    assert s3.db == s.db.(resets := s.db.resets[i.id := row]) && s3.pool[q] == Resetting(RequestReset2(u, provider));
    var m := Moved(cfg, s3, Run(q, j)).db.resets;
    assert IsPending(m[i.id], u, provider) && IsPending(m[j.id], u, provider);
  }

  function Completions(log: Log, r: Id): nat {
    if log == [] then 0 else Completions(log[..|log| - 1], r) + if log[|log| - 1] == ResetCompleted(r) then 1 else 0
  }

  ghost predicate CompletedAsLogged(s: Sys, r: Id) {
    Completions(s.log, r) == if r in s.db.resets && s.db.resets[r].status == Completed then 1 else 0
  }

  lemma CompletionStored(m: map<Id, Reset>, m': map<Id, Reset>, t: Task, i: Input, e: Option<Event>, r: Id)
    requires ResetsMove(m, m', t, i, e) && EventFits(t, i, e) && (e == Some(ResetCompleted(r)) ==> r in m)
    ensures (r in m' && m'[r].status == Completed) <==> (r in m && m[r].status == Completed) || e == Some(ResetCompleted(r))
  {
    hide Stamp;
  }

  predicate Completes(t: Task, r: Id) {
    t == Resetting(FinishReset3(r)) || (t.Resetting? && t.q.ResetFreja2? && t.q.reset == r)
  }

  predicate IsComplete(db: Db, r: Id) {
    r in db.resets && db.resets[r].status == Completed
  }

  lemma CompletionEvent(cfg: Config, db: Db, t: Task, i: Input, r: Id)
    ensures Step(cfg, db, t, i).event == Some(ResetCompleted(r)) <==> Completes(t, r)
  {
    hide ResetStep;
    StepTells(cfg, db, t, i);
    var o := Step(cfg, db, t, i);
    assert EventFits(t, i, o.event);
    hide Step, NextFits;
  }

  /** A row is completed exactly if its completion was reported. */
  ghost predicate CompletionTold(s: Sys, r: Id) {
    IsComplete(s.db, r) <==> Completions(s.log, r) >= 1
  }

  lemma FinisherKnowsRow(cfg: Config, moves: seq<Move>, pid: nat, r: Id)
    requires pid in Execute(cfg, moves).pool && Completes(Execute(cfg, moves).pool[pid], r)
    ensures r in Execute(cfg, moves).db.resets
  {
    hide Execute, Resets.Approving, Resets.Decided;
    Resets.OrderlyAlways(cfg, moves);
  }

  lemma StepTellsCompletion(cfg: Config, s: Sys, pid: nat, i: Input, r: Id)
    requires pid in s.pool && CompletionTold(s, r) && (Completes(s.pool[pid], r) ==> r in s.db.resets)
    ensures CompletionTold(After(s, pid, Step(cfg, s.db, s.pool[pid], i)), r)
  {
    hide Step, ResetsMove, EventFits, NextFits, Completes, Completions;
    var o := Step(cfg, s.db, s.pool[pid], i);
    StepResets(cfg, s.db, s.pool[pid], i);
    StepTells(cfg, s.db, s.pool[pid], i);
    CompletionEvent(cfg, s.db, s.pool[pid], i, r);
    CompletionStored(s.db.resets, o.db.resets, s.pool[pid], i, o.event, r);
    CompletionAppended(s.log, o.event, r);
  }

  lemma {:induction false} CompletionToldAlways(cfg: Config, moves: seq<Move>, r: Id)
    ensures CompletionTold(Execute(cfg, moves), r)
  {
    if moves != [] {
      hide Step, Completes, Completions, IsComplete;
      var before, m := moves[..|moves| - 1], moves[|moves| - 1];
      var s := Execute(cfg, before);
      CompletionToldAlways(cfg, before, r);
      if m.Run? && m.pid in s.pool {
        if Completes(s.pool[m.pid], r) {
          FinisherKnowsRow(cfg, before, m.pid, r);
        }
        StepTellsCompletion(cfg, s, m.pid, m.input, r);
      }
    }
  }

  /** Move `m` completes `r`, whose row is completed already. */
  predicate Recompletes(s: Sys, m: Move, r: Id) {
    m.Run? && m.pid in s.pool && Completes(s.pool[m.pid], r) && IsComplete(s.db, r)
  }

  lemma MoveCompletes(cfg: Config, s: Sys, m: Move, r: Id)
    ensures Completions(Moved(cfg, s, m).log, r)
            == Completions(s.log, r) + if m.Run? && m.pid in s.pool && Completes(s.pool[m.pid], r) then 1 else 0
  {
    hide Step, Completes, Completions;
    if m.Run? && m.pid in s.pool {
      CompletionEvent(cfg, s.db, s.pool[m.pid], m.input, r);
      CompletionAppended(s.log, Step(cfg, s.db, s.pool[m.pid], m.input).event, r);
    }
  }

  /** Exactly which moves complete a reset once more, at any interleaving: a completion whose row is completed already. */
  lemma SecondCompletionExactly(cfg: Config, moves: seq<Move>, m: Move, r: Id)
    ensures var (before, after) := (Completions(Execute(cfg, moves).log, r), Completions(Execute(cfg, moves + [m]).log, r));
            after > before >= 1 <==> Recompletes(Execute(cfg, moves), m, r)
  {
    hide Execute, Moved, Completes, Completions, IsComplete;
    ExecuteOneMore(cfg, moves, m);
    MoveCompletes(cfg, Execute(cfg, moves), m, r);
    CompletionToldAlways(cfg, moves, r);
  }

  /** A run completes a reset twice exactly if it holds such a move. */
  lemma {:induction false} CompletedTwiceExactly(cfg: Config, moves: seq<Move>, r: Id)
    ensures Completions(Execute(cfg, moves).log, r) >= 2
            <==> exists n :: 0 <= n < |moves| && Recompletes(Execute(cfg, moves[..n]), moves[n], r)
  {
    hide Moved, Completes, IsComplete, Recompletes;
    if moves != [] {
      var before, m := moves[..|moves| - 1], moves[|moves| - 1];
      assert before + [m] == moves;
      assert forall n :: 0 <= n <= |before| ==> moves[..n] == before[..n];
      assert before[..|before|] == before;
      CompletedTwiceExactly(cfg, before, r);
      SecondCompletionExactly(cfg, before, m, r);
      MoveCompletes(cfg, Execute(cfg, before), m, r);
      hide Execute, Completions;
      if n :| 0 <= n < |before| && Recompletes(Execute(cfg, before[..n]), before[n], r) {
        assert Recompletes(Execute(cfg, moves[..n]), moves[n], r);
      } else if Recompletes(Execute(cfg, before), m, r) {
        assert Recompletes(Execute(cfg, moves[..|before|]), moves[|before|], r);
      }
    }
  }

  lemma CompletionAppended(log: Log, e: Option<Event>, r: Id)
    ensures Completions(log + Logged(e), r) == Completions(log, r) + if e == Some(ResetCompleted(r)) then 1 else 0
  {
    if e.Some? {
      assert (log + [e.value])[..|log|] == log;
    } else {
      assert log + [] == log;
    }
  }

  /** Two overlapping requests that both opened the link complete it twice. */
  lemma TwoFinishesCompleteTwice(cfg: Config, s: Sys, p: nat, q: nat, r: Id, u: Id, began: Instant, i: Input)
    requires p != q && p in s.pool && q in s.pool
    requires s.pool[p] == Resetting(ResetFreja2(r, u, began)) && s.pool[q] == s.pool[p]
    ensures var s' := Moved(cfg, Moved(cfg, s, Run(p, i)), Run(q, i)); Completions(s'.log, r) == Completions(s.log, r) + 2
  {
    hide Completions;
    var s1 := Moved(cfg, s, Run(p, i));
    assert s1.log == s.log + Logged(Some(ResetCompleted(r))) && q in s1.pool && s1.pool[q] == s.pool[q];
    CompletionAppended(s.log, Some(ResetCompleted(r)), r);
    CompletionAppended(s1.log, Some(ResetCompleted(r)), r);
  }

  lemma GuardedCompletes(db: Db, t: Task, r: Id)
    requires Completes(t, r) && (WindowOf(t) == Some(Finishing(r)) ==> Guarded(db, t))
    ensures Open(db, r)
  {
  }

  /** While no two requests finish this reset at once, it completes at most once, and its row says whether it did. */
  lemma {:induction false} ResetCompletesOnce(cfg: Config, moves: seq<Move>, r: Id)
    requires AlwaysAlone(cfg, moves, Finishing(r))
    ensures CompletedAsLogged(Execute(cfg, moves), r)
  {
    if moves != [] {
      hide Step, Guarded, WindowOf, Alone, ResetsMove, EventFits, NextFits, Completes;
      var before, m := moves[..|moves| - 1], moves[|moves| - 1];
      var s := Execute(cfg, before);
      AloneBefore(cfg, moves, Finishing(r));
      ResetCompletesOnce(cfg, before, r);
      if m.Run? && m.pid in s.pool {
        var t := s.pool[m.pid];
        var o := Step(cfg, s.db, t, m.input);
        RunnerProtected(cfg, before, m.pid, Finishing(r));
        StepResets(cfg, s.db, t, m.input);
        StepTells(cfg, s.db, t, m.input);
        CompletionEvent(cfg, s.db, t, m.input, r);
        if Completes(t, r) {
          GuardedCompletes(s.db, t, r);
        }
        CompletionStored(s.db.resets, o.db.resets, t, m.input, o.event, r);
        CompletionAppended(s.log, o.event, r);
      }
    }
  }

  // --------------------------------------------------------------- rejections

  predicate IsCompleted(db: Db, g: Id) {
    g in db.registrations && db.registrations[g].status == Completed
  }

  predicate IsRejected(db: Db, g: Id) {
    g in db.registrations && db.registrations[g].status == Rejected
  }

  lemma RejectionMove(m: map<Id, Registration>, m': map<Id, Registration>, t: Task, i: Input, e: Option<Event>, g: Id)
    requires RegistrationsMove(m, m', t, i, e) && EventFits(t, i, e) && g in m && m[g].status == Rejected
    ensures g in m' && (m'[g].status == Rejected || m'[g].status == Completed)
    ensures m'[g].status == Completed <==> t.Registering? && t.r.Approve1? && t.r.reg == g && e.Some?
  {
    hide Stamp, Before, Park;
  }

  /**
   * Exactly which steps undo a rejection: an approval transaction for that registration, read before it was
   * rejected, that no constraint stops. It then is completed.
   */
  lemma RejectionUndoneExactly(cfg: Config, db: Db, t: Task, i: Input, g: Id)
    requires IsRejected(db, g)
    ensures var d := Step(cfg, db, t, i).db;
            && (!IsRejected(d, g) <==> t.Registering? && t.r.Approve1? && t.r.reg == g && Committable(db, t.r.row, i.id))
            && (!IsRejected(d, g) ==> IsCompleted(d, g))
  {
    hide Step, NextFits, EventFits, RegistrationsMove, Committable, AccountOpened, IdentityLinked, KeyUnparked;
    var o := Step(cfg, db, t, i);
    StepRegistrations(cfg, db, t, i);
    StepTells(cfg, db, t, i);
    RejectionMove(db.registrations, o.db.registrations, t, i, o.event, g);
    if t.Registering? && t.r.Approve1? && t.r.reg == g {
      ApprovalAllOrNothing(cfg, db, g, t.r.row, t.r.why, i);
    }
  }

  lemma GuardedStepKeepsRejection(cfg: Config, db: Db, t: Task, i: Input, g: Id)
    requires IsRejected(db, g) && (WindowOf(t) == Some(Deciding(g)) ==> Guarded(db, t))
    ensures IsRejected(Step(cfg, db, t, i).db, g)
  {
    hide Step, Committable;
    RejectionUndoneExactly(cfg, db, t, i, g);
  }

  /** While no approval of this registration overlaps its rejection, a rejected registration stays rejected. */
  lemma {:induction false} RejectedStays(cfg: Config, moves: seq<Move>, more: seq<Move>, g: Id)
    requires AlwaysAlone(cfg, moves + more, Deciding(g)) && IsRejected(Execute(cfg, moves).db, g)
    ensures IsRejected(Execute(cfg, moves + more).db, g)
  {
    hide Execute, Step, Alone, Guarded, WindowOf, IsRejected;
    if more == [] {
      assert moves + more == moves;
    } else {
      var before, m := more[..|more| - 1], more[|more| - 1];
      assert moves + more == (moves + before) + [m];
      assert (moves + more)[..|moves + more| - 1] == moves + before;
      AloneBefore(cfg, moves + more, Deciding(g));
      RejectedStays(cfg, moves, before, g);
      ExecuteOneMore(cfg, moves + before, m);
      var s := Execute(cfg, moves + before);
      if m.Run? && m.pid in s.pool {
        RunnerProtected(cfg, moves + before, m.pid, Deciding(g));
        GuardedStepKeepsRejection(cfg, s.db, s.pool[m.pid], m.input, g);
      }
    }
  }

  lemma DecisionSteps(cfg: Config, db: Db, g: Id, why: Approver, i: Input)
    requires g in db.registrations
    ensures db.registrations[g].status == Pending ==>
              Step(cfg, db, Registering(Approve0(g, why)), i) == Goto(db, Registering(Approve1(g, db.registrations[g], why)))
    ensures var o := Step(cfg, db, Registering(Reject0(g, why)), i); o.db == RejectRegistration(db, g) && o.next == None
  {
    hide RejectRegistration;
  }

  lemma RejectionKeepsCommittable(db: Db, g: Id, row: Registration, id: Id)
    requires Committable(db, row, id)
    ensures Committable(RejectRegistration(db, g), row, id)
  {
    hide Unpark;
  }

  /** An approval that read the row before a rejection still commits after it. */
  lemma ApprovalOverridesRejection(cfg: Config, s: Sys, p: nat, q: nat, g: Id, why: Approver, i: Input)
    requires p != q && p in s.pool && q in s.pool && g in s.db.registrations && s.db.registrations[g].status == Pending
    requires s.pool[p] == Registering(Approve0(g, why)) && s.pool[q] == Registering(Reject0(g, why))
    requires Committable(s.db, s.db.registrations[g], i.id)
    ensures var rejected := Moved(cfg, Moved(cfg, s, Run(p, i)), Run(q, i));
            var s' := Moved(cfg, rejected, Run(p, i));
            && IsRejected(rejected.db, g)
            && IsCompleted(s'.db, g) && s.db.registrations[g].account in s'.db.users
  {
    hide Step, Committable, IdentityLinked, KeyUnparked;
    var row := s.db.registrations[g];
    DecisionSteps(cfg, s.db, g, why, i);
    var s2 := Moved(cfg, Moved(cfg, s, Run(p, i)), Run(q, i));
    assert s2.db == RejectRegistration(s.db, g) && s2.pool[p] == Registering(Approve1(g, row, why));
    RejectionKeepsCommittable(s.db, g, row, i.id);
    ApprovalAllOrNothing(cfg, s2.db, g, row, why, i);
  }
}
