/** Every stored passkey still carries the key its authenticator gave, by whichever path it was stored. */
module Keys {
  import opened Basics
  import opened Text
  import opened Timestamps
  import opened Tables
  import opened Requests
  import opened Runs
  import opened Effects
  import opened Steps
  import opened PublicKeys
  import opened Accounts

  ghost predicate Matches(c: Credential, row: Passkey) {
    row.credId == c.id && row.publicKey == KeyColumn(c.publicKey)
  }

  /** The ceremony that row comes from: an addition by its user, or the submission of its user's registration. */
  ghost predicate Source(e: Event, m: map<Id, Registration>, row: Passkey) {
    || (e.KeyAdded? && e.user == row.user && Matches(e.credential, row))
    || (e.Parked? && e.reg in m && m[e.reg].account == row.user && Matches(e.credential, row))
  }

  ghost predicate Sourced(log: Log, m: map<Id, Registration>, row: Passkey) {
    exists j :: 0 <= j < |log| && Source(log[j], m, row)
  }

  ghost predicate ParkedEvent(e: Event, g: Id, text: string) {
    e.Parked? && e.reg == g && text == Park(e.credential)
  }

  /** The parked text of `g`, if any, is one that was parked for `g`. */
  ghost predicate WasParked(log: Log, g: Id, credential: Option<string>) {
    credential.Some? ==> exists j :: 0 <= j < |log| && ParkedEvent(log[j], g, credential.value)
  }

  ghost predicate Carries(log: Log, t: Task) {
    t.Registering? && t.r.Approve1? ==> WasParked(log, t.r.reg, t.r.row.credential)
  }

  // -------------------------------------------------------------------- steps

  lemma WasParkedStays(log: Log, more: Log, g: Id, credential: Option<string>)
    requires WasParked(log, g, credential)
    ensures WasParked(log + more, g, credential)
  {
    hide ParkedEvent;
    if credential.Some? {
      var j :| 0 <= j < |log| && ParkedEvent(log[j], g, credential.value);
      assert (log + more)[j] == log[j];
    }
  }

  lemma SourcedStays(log: Log, more: Log, m: map<Id, Registration>, m': map<Id, Registration>, row: Passkey, row': Passkey)
    requires Sourced(log, m, row) && AllGrow(m, m') && row' == row.(signCount := row'.signCount)
    ensures Sourced(log + more, m', row')
  {
    hide KeyColumn;
    var j :| 0 <= j < |log| && Source(log[j], m, row);
    assert (log + more)[j] == log[j];
    assert Source(log[j], m', row');
  }

  lemma NewlySourced(log: Log, e: Event, m: map<Id, Registration>, row: Passkey)
    requires Source(e, m, row)
    ensures Sourced(log + [e], m, row)
  {
    hide Source;
    assert (log + [e])[|log|] == e;
  }

  lemma RowWasParked(log: Log, m: map<Id, Registration>, m': map<Id, Registration>, t: Task, i: Input, e: Option<Event>, g: Id)
    requires RegistrationsMove(m, m', t, i, e) && EventFits(t, i, e) && g in m'
    requires g in m ==> WasParked(log, g, m[g].credential)
    ensures WasParked(log + Logged(e), g, m'[g].credential)
  {
    hide WasParked, Park, Stamp, Before;
    if t.Registering? && t.r.FinishRegister1? && t.r.reg == g && g in m && i.attested.Some? {
      NewlyParked(log, e.value, g, m'[g].credential);
    } else if g in m {
      WasParkedStays(log, Logged(e), g, m[g].credential);
    } else {
      NothingParked(log + Logged(e), g);
    }
  }

  lemma NewlyParked(log: Log, e: Event, g: Id, credential: Option<string>)
    requires credential.Some? && ParkedEvent(e, g, credential.value)
    ensures WasParked(log + [e], g, credential)
  {
    hide ParkedEvent;
    assert (log + [e])[|log|] == e;
  }

  lemma NothingParked(log: Log, g: Id)
    ensures WasParked(log, g, None)
  {
  }

  /** The key an approval unparks is the one that was parked, with one JSON layer off. */
  lemma UnparkedSource(log: Log, m: map<Id, Registration>, g: Id, row: Registration, key: Passkey)
    requires WasParked(log, g, row.credential) && row.credential.Some? && g in m && m[g].account == row.account
    requires Unpark(row.credential.value).Some? && key.user == row.account
    requires key.credId == Unpark(row.credential.value).value.id && key.publicKey == Unpark(row.credential.value).value.publicKey
    ensures Sourced(log, m, key)
  {
    var j :| 0 <= j < |log| && ParkedEvent(log[j], g, row.credential.value);
    hide Park, Unpark, KeyColumn;
    UnparkPark(log[j].credential);
    assert Source(log[j], m, key);
  }

  ghost predicate Provenanced(cfg: Config, s: Sys) {
    && (forall g :: g in s.db.registrations ==> WasParked(s.log, g, s.db.registrations[g].credential))
    && (forall p :: p in s.pool ==> Carries(s.log, s.pool[p]))
    && (forall k :: k in s.db.passkeys ==> Sourced(s.log, s.db.registrations, s.db.passkeys[k]))
  }

  lemma KeyIsSourced(cfg: Config, log: Log, db: Db, d: Db, t: Task, i: Input, e: Option<Event>, k: Id)
    requires PasskeysMove(db.passkeys, d.passkeys, t, i, e) && EventFits(t, i, e) && k in d.passkeys
    requires k in db.passkeys ==> Sourced(log, db.registrations, db.passkeys[k])
    requires AllGrow(db.registrations, d.registrations) && Carries(log, t) && Knows(cfg, db.registrations, t)
    ensures Sourced(log + Logged(e), d.registrations, d.passkeys[k])
  {
    hide Sourced, PasskeysMove, EventFits, Carries, Knows, AllGrow;
    if k in db.passkeys {
      OwnerAndKeyStay(db.passkeys, d.passkeys, t, i, e, k);
      SourcedStays(log, Logged(e), db.registrations, d.registrations, db.passkeys[k], d.passkeys[k]);
    } else if t.Registering? {
      ApprovedKeySourced(cfg, log, db, d, t, i, e, k);
      SourcedStays(log, Logged(e), db.registrations, d.registrations, d.passkeys[k], d.passkeys[k]);
    } else {
      AttestedKeySourced(log, db, d, t, i, e, k);
    }
  }

  lemma OwnerAndKeyStay(m: map<Id, Passkey>, m': map<Id, Passkey>, t: Task, i: Input, e: Option<Event>, k: Id)
    requires PasskeysMove(m, m', t, i, e) && k in m && k in m'
    ensures m'[k] == m[k].(signCount := m'[k].signCount)
  {
    hide KeyColumn, Unpark;
  }

  lemma ApprovedKeySourced(cfg: Config, log: Log, db: Db, d: Db, t: Task, i: Input, e: Option<Event>, k: Id)
    requires PasskeysMove(db.passkeys, d.passkeys, t, i, e) && k in d.passkeys && k !in db.passkeys && t.Registering?
    requires Carries(log, t) && Knows(cfg, db.registrations, t)
    ensures Sourced(log, db.registrations, d.passkeys[k])
  {
    hide Sourced, WasParked, KeyColumn, Unpark, IsAdminEmail;
    UnparkedSource(log, db.registrations, t.r.reg, t.r.row, d.passkeys[k]);
  }

  lemma AttestedKeySourced(log: Log, db: Db, d: Db, t: Task, i: Input, e: Option<Event>, k: Id)
    requires PasskeysMove(db.passkeys, d.passkeys, t, i, e) && k in d.passkeys && k !in db.passkeys && !t.Registering?
    ensures Sourced(log + Logged(e), d.registrations, d.passkeys[k])
  {
    hide Sourced, KeyColumn;
    NewlySourced(log, e.value, d.registrations, d.passkeys[k]);
  }

  lemma NextCarries(cfg: Config, db: Db, log: Log, t: Task, i: Input, o: Outcome)
    requires NextFits(cfg, db, t, i, o)
    requires forall g :: g in db.registrations ==> WasParked(log, g, db.registrations[g].credential)
    ensures o.next.Some? ==> Carries(log + Logged(o.event), o.next.value)
  {
    hide WasParked, Stamp, IsAdminEmail, CurrentUser;
    if o.next.Some? && o.next.value.Registering? && o.next.value.r.Approve1? {
      var g := o.next.value.r.reg;
      WasParkedStays(log, Logged(o.event), g, db.registrations[g].credential);
    }
  }

  lemma StepKeepsProvenance(cfg: Config, s: Sys, pid: nat, i: Input)
    requires Provenanced(cfg, s) && Sound(cfg, s) && pid in s.pool
    ensures Provenanced(cfg, After(s, pid, Step(cfg, s.db, s.pool[pid], i)))
  {
    hide Step, WasParked, Sourced, Carries, Knows, PasskeysMove, RegistrationsMove, EventFits, NextFits, AllGrow, RowsSound;
    var t := s.pool[pid];
    var o := Step(cfg, s.db, t, i);
    StepPasskeys(cfg, s.db, t, i);
    StepRegistrations(cfg, s.db, t, i);
    StepTells(cfg, s.db, t, i);
    RegistrationsGrow(s.db.registrations, o.db.registrations, t, i, o.event);
    NextCarries(cfg, s.db, s.log, t, i, o);
    forall g | g in o.db.registrations ensures WasParked(s.log + Logged(o.event), g, o.db.registrations[g].credential) {
      RowWasParked(s.log, s.db.registrations, o.db.registrations, t, i, o.event, g);
    }
    forall p | p in s.pool ensures Carries(s.log + Logged(o.event), s.pool[p]) {
      CarriesStays(s.log, Logged(o.event), s.pool[p]);
    }
    forall k | k in o.db.passkeys ensures Sourced(s.log + Logged(o.event), o.db.registrations, o.db.passkeys[k]) {
      KeyIsSourced(cfg, s.log, s.db, o.db, t, i, o.event, k);
    }
  }

  lemma CarriesStays(log: Log, more: Log, t: Task)
    requires Carries(log, t)
    ensures Carries(log + more, t)
  {
    hide WasParked;
    if t.Registering? && t.r.Approve1? {
      WasParkedStays(log, more, t.r.reg, t.r.row.credential);
    }
  }

  lemma {:induction false} ProvenancedAlways(cfg: Config, moves: seq<Move>)
    ensures Provenanced(cfg, Execute(cfg, moves))
  {
    if moves != [] {
      hide Step, WasParked, Sourced, Sound;
      var s, m := Execute(cfg, moves[..|moves| - 1]), moves[|moves| - 1];
      ProvenancedAlways(cfg, moves[..|moves| - 1]);
      SoundAlways(cfg, moves[..|moves| - 1]);
      if m.Run? && m.pid in s.pool {
        StepKeepsProvenance(cfg, s, m.pid, m.input);
      }
    }
  }

  // -------------------------------------------------------------- sign counts

  /** The count of the latest login with this credential of this user, or `first` if there was none. */
  function LatestCount(log: Log, u: Id, credId: seq<Byte>, first: int): int {
    if log == [] then first
    else
      var e := log[|log| - 1];
      if e.Asserted? && e.user == u && e.credId == credId then e.count else LatestCount(log[..|log| - 1], u, credId, first)
  }

  /** At `k` the row was stored, with the count that ceremony yielded: an addition, or the approval of a parked credential. */
  ghost predicate StoredAt(log: Log, k: nat, row: Passkey, first: int)
    requires k < |log|
  {
    || (log[k].KeyAdded? && log[k].user == row.user && log[k].credential.id == row.credId && log[k].credential.signCount == first)
    || (log[k].Created? && log[k].user == row.user
        && exists j :: 0 <= j < k && log[j].Parked? && log[j].reg == log[k].reg && log[j].credential.id == row.credId
                       && log[j].credential.signCount == first)
  }

  /** The stored count is that of the latest login since the row was stored, or the ceremony's. */
  ghost predicate CountTold(log: Log, row: Passkey) {
    exists k, first :: 0 <= k < |log| && StoredAt(log, k, row, first)
                       && row.signCount == LatestCount(log[k + 1..], row.user, row.credId, first)
  }

  lemma StoredStays(log: Log, more: Log, k: nat, row: Passkey, row': Passkey, first: int)
    requires k < |log| && StoredAt(log, k, row, first) && row'.user == row.user && row'.credId == row.credId
    ensures StoredAt(log + more, k, row', first)
  {
    assert (log + more)[k] == log[k] && forall j :: 0 <= j < k ==> (log + more)[j] == log[j];
  }

  lemma CountStays(log: Log, e: Option<Event>, row: Passkey, row': Passkey)
    requires CountTold(log, row) && row' == row.(signCount := row'.signCount)
    requires row'.signCount
             == if e.Some? && e.value.Asserted? && e.value.user == row.user && e.value.credId == row.credId then e.value.count
                else row.signCount
    ensures CountTold(log + Logged(e), row')
  {
    hide StoredAt;
    var k, first :| 0 <= k < |log| && StoredAt(log, k, row, first)
                    && row.signCount == LatestCount(log[k + 1..], row.user, row.credId, first);
    StoredStays(log, Logged(e), k, row, row', first);
    var since := log[k + 1..];
    assert (log + Logged(e))[k + 1..] == since + Logged(e);
    if e.Some? {
      assert (since + [e.value])[..|since|] == since;
    } else {
      assert since + [] == since;
    }
  }

  lemma NewlyCounted(log: Log, e: Option<Event>, row: Passkey)
    requires e.Some? && StoredAt(log + Logged(e), |log|, row, row.signCount)
    ensures CountTold(log + Logged(e), row)
  {
    hide StoredAt;
    assert (log + Logged(e))[|log| + 1..] == [];
  }

  /** The row an approval stores has the count that was parked. */
  lemma ApprovedCount(log: Log, t: Task, i: Input, e: Option<Event>, row: Passkey)
    requires t.Registering? && t.r.Approve1? && EventFits(t, i, e) && e.Some? && t.r.row.credential.Some?
    requires WasParked(log, t.r.reg, t.r.row.credential) && Unpark(t.r.row.credential.value).Some?
    requires var stored := Unpark(t.r.row.credential.value).value;
             row.user == t.r.row.account && row.credId == stored.id && row.signCount == stored.signCount
    ensures StoredAt(log + Logged(e), |log|, row, row.signCount)
  {
    hide Unpark, ParkedEvent, StoredAt;
    var j :| 0 <= j < |log| && ParkedEvent(log[j], t.r.reg, t.r.row.credential.value);
    ParkedReads(log[j], t.r.reg, t.r.row.credential.value);
    CreatedStores(log, e.value, j, row);
  }

  lemma ParkedReads(e: Event, g: Id, text: string)
    requires ParkedEvent(e, g, text)
    ensures e.Parked? && e.reg == g && Unpark(text).Some?
    ensures Unpark(text).value.id == e.credential.id && Unpark(text).value.signCount == e.credential.signCount
  {
    hide Park, Unpark;
    UnparkPark(e.credential);
  }

  lemma CreatedStores(log: Log, e: Event, j: nat, row: Passkey)
    requires e.Created? && e.user == row.user && j < |log| && log[j].Parked? && log[j].reg == e.reg
    requires log[j].credential.id == row.credId && log[j].credential.signCount == row.signCount
    ensures StoredAt(log + [e], |log|, row, row.signCount)
  {
    assert (log + [e])[j] == log[j] && (log + [e])[|log|] == e;
  }

  lemma KeyIsCounted(log: Log, m: map<Id, Passkey>, m': map<Id, Passkey>, t: Task, i: Input, e: Option<Event>, k: Id)
    requires PasskeysMove(m, m', t, i, e) && EventFits(t, i, e) && k in m' && Carries(log, t)
    requires k in m ==> CountTold(log, m[k])
    ensures CountTold(log + Logged(e), m'[k])
  {
    hide CountTold, WasParked, KeyColumn, Unpark, StoredAt, ParkedEvent;
    if k in m {
      CountStays(log, e, m[k], m'[k]);
    } else if t.Registering? {
      ApprovedCount(log, t, i, e, m'[k]);
      NewlyCounted(log, e, m'[k]);
    } else {
      AddedCount(log, e, m'[k]);
      NewlyCounted(log, e, m'[k]);
    }
  }

  lemma AddedCount(log: Log, e: Option<Event>, row: Passkey)
    requires e.Some? && e.value.KeyAdded? && e.value.user == row.user && e.value.credential.id == row.credId
    requires e.value.credential.signCount == row.signCount
    ensures StoredAt(log + Logged(e), |log|, row, row.signCount)
  {
    assert (log + Logged(e))[|log|] == e.value;
  }

  lemma {:induction false} CountsTold(cfg: Config, moves: seq<Move>, k: Id)
    requires k in Execute(cfg, moves).db.passkeys
    ensures CountTold(Execute(cfg, moves).log, Execute(cfg, moves).db.passkeys[k])
  {
    if moves != [] {
      hide Step, CountTold, PasskeysMove, EventFits, NextFits, WasParked, Sourced, Carries;
      var before, m := moves[..|moves| - 1], moves[|moves| - 1];
      var s := Execute(cfg, before);
      if k in s.db.passkeys {
        CountsTold(cfg, before, k);
      }
      if m.Run? && m.pid in s.pool {
        var t := s.pool[m.pid];
        var o := Step(cfg, s.db, t, m.input);
        ProvenancedAlways(cfg, before);
        StepPasskeys(cfg, s.db, t, m.input);
        StepTells(cfg, s.db, t, m.input);
        KeyIsCounted(s.log, s.db.passkeys, o.db.passkeys, t, m.input, o.event, k);
      }
    }
  }

  /** One webauthn.Credential as loadWAUser builds it. */
  datatype Loaded = Loaded(id: seq<Byte>, publicKey: seq<Byte>, signCount: int)

  function LoadRow(row: Passkey): Loaded {
    Loaded(row.credId, LoadKey(row.publicKey), row.signCount)
  }

  /**
   * After any run the sign count loaded for a passkey is the one its user's latest login with it reported since the row was
   * stored, or the one its ceremony yielded if there was none.
   */
  lemma SignCountIsLatest(cfg: Config, moves: seq<Move>, k: Id)
    requires k in Execute(cfg, moves).db.passkeys
    ensures var s := Execute(cfg, moves);
            var row := s.db.passkeys[k];
            exists n, first :: 0 <= n < |s.log| && StoredAt(s.log, n, row, first)
                               && LoadRow(row).signCount == LatestCount(s.log[n + 1..], row.user, row.credId, first)
  {
    hide Execute, StoredAt, LoadKey;
    CountsTold(cfg, moves, k);
  }

  // ------------------------------------------------------------------ loading

  /** loadWAUser: the rows of `u`, each once, in whatever order the query returns them. */
  method LoadWaUser(db: Db, u: Id) returns (ids: seq<Id>, credentials: seq<Loaded>)
    ensures |ids| == |credentials| == |KeysOf(db, u)|
    ensures forall k :: k in ids <==> k in KeysOf(db, u)
    ensures forall n :: 0 <= n < |ids| ==> ids[n] in db.passkeys && credentials[n] == LoadRow(db.passkeys[ids[n]])
  {
    hide LoadKey;
    ids, credentials := [], [];
    var rest := KeysOf(db, u);
    while rest != {}
      invariant |ids| == |credentials| && |ids| + |rest| == |KeysOf(db, u)|
      invariant forall k :: k in KeysOf(db, u) <==> k in ids || k in rest
      invariant forall n :: 0 <= n < |ids| ==> ids[n] in db.passkeys && credentials[n] == LoadRow(db.passkeys[ids[n]])
      decreases rest
    {
      var k :| k in rest;
      rest := rest - {k};
      ids, credentials := ids + [k], credentials + [LoadRow(db.passkeys[k])];
    }
  }

  /**
   * After any run, what loadWAUser reads from a row is the id and the exact public key that some ceremony
   * yielded, and that ceremony added a passkey for the row's user or registered the row's user.
   */
  lemma LoadedKeyIsAttested(cfg: Config, moves: seq<Move>, k: Id)
    requires k in Execute(cfg, moves).db.passkeys
    ensures var s := Execute(cfg, moves);
            var row := s.db.passkeys[k];
            exists j :: 0 <= j < |s.log| && Source(s.log[j], s.db.registrations, row)
                        && LoadRow(row).id == s.log[j].credential.id && LoadRow(row).publicKey == s.log[j].credential.publicKey
  {
    hide Execute, KeyColumn, LoadKey, WasParked, Carries;
    var s := Execute(cfg, moves);
    ProvenancedAlways(cfg, moves);
    assert Sourced(s.log, s.db.registrations, s.db.passkeys[k]);
    var j :| 0 <= j < |s.log| && Source(s.log[j], s.db.registrations, s.db.passkeys[k]);
    LoadKeyColumn(s.log[j].credential.publicKey);
  }
}
