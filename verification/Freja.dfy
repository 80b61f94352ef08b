/** Who owns a Freja subject: never two accounts, and never handed from one to another. */
module Freja {
  import opened Basics
  import opened Timestamps
  import opened Tables
  import opened Requests
  import opened Runs
  import opened Effects
  import opened Steps
  import opened Integrity

  /** Row `k` gives subject `subject` to `u`. */
  ghost predicate Row(m: map<Id, Identity>, k: Id, u: Id, subject: string) {
    k in m && m[k].subject == subject && m[k].user == u
  }

  ghost predicate OwnedBy(m: map<Id, Identity>, u: Id, subject: string) {
    exists k :: Row(m, k, u, subject)
  }

  /** The steps that may take `subject` away from `u`. */
  predicate Releases(t: Task, u: Id, subject: string) {
    || t == Settings(Unlink1(u))
    || (t.LoggingIn? && t.l.FrejaLogin2? && t.l.user == u && t.l.subject != subject)
  }

  /** No step moves a subject directly from one account to another. */
  lemma SubjectStaysPut(m: map<Id, Identity>, m': map<Id, Identity>, t: Task, i: Input, e: Option<Event>, subject: string, u: Id, v: Id)
    requires UniqueSubjects(m) && IdentitiesMove(m, m', t, i, e)
    requires OwnedBy(m, u, subject) && OwnedBy(m', v, subject)
    ensures u == v
  {
    var a :| Row(m, a, u, subject);
    var b :| Row(m', b, v, subject);
    if b in m && m[b].subject == subject {
      assert a == b;
    }
  }

  /** Only an unlink or a further rebind by the owner takes a subject away. */
  lemma OwnerKeepsSubject(m: map<Id, Identity>, m': map<Id, Identity>, t: Task, i: Input, e: Option<Event>, subject: string, u: Id)
    requires IdentitiesMove(m, m', t, i, e) && OwnedBy(m, u, subject) && !Releases(t, u, subject)
    ensures OwnedBy(m', u, subject)
  {
    var a :| Row(m, a, u, subject);
    assert Row(m', a, u, subject);
  }

  // --------------------------------------------------------------------- runs

  /** In every reachable state a subject has at most one owner, and one move never changes who that is. */
  lemma SubjectNeverTransferred(cfg: Config, moves: seq<Move>, m: Move, subject: string, u: Id, v: Id)
    requires OwnedBy(Execute(cfg, moves).db.identities, u, subject)
    ensures OwnedBy(Execute(cfg, moves).db.identities, v, subject) ==> v == u
    ensures OwnedBy(Execute(cfg, moves + [m]).db.identities, v, subject) ==> v == u
  {
    hide Execute, Step, OwnedBy;
    var s := Execute(cfg, moves);
    SubjectsUnique(cfg, moves);
    if OwnedBy(s.db.identities, v, subject) {
      OwnersAgree(s.db.identities, u, v, subject);
    }
    ExecuteOneMore(cfg, moves, m);
    if m.Run? && m.pid in s.pool {
      StepIdentities(cfg, s.db, s.pool[m.pid], m.input);
      var o := Step(cfg, s.db, s.pool[m.pid], m.input);
      if OwnedBy(o.db.identities, v, subject) {
        SubjectStaysPut(s.db.identities, o.db.identities, s.pool[m.pid], m.input, o.event, subject, u, v);
      }
    }
  }

  lemma SubjectsUnique(cfg: Config, moves: seq<Move>)
    ensures UniqueSubjects(Execute(cfg, moves).db.identities)
  {
    hide Execute;
    SchemaAlways(cfg, moves);
  }

  lemma OwnersAgree(m: map<Id, Identity>, u: Id, v: Id, subject: string)
    requires UniqueSubjects(m) && OwnedBy(m, u, subject) && OwnedBy(m, v, subject)
    ensures u == v
  {
    var a :| Row(m, a, u, subject);
    var b :| Row(m, b, v, subject);
    assert a == b;
  }

  /** No move of `more`, made after `moves`, releases `subject` from `u`. */
  ghost predicate Keeps(cfg: Config, moves: seq<Move>, more: seq<Move>, u: Id, subject: string) {
    more != [] ==>
      var before, m := more[..|more| - 1], more[|more| - 1];
      var s := Execute(cfg, moves + before);
      && Keeps(cfg, moves, before, u, subject)
      && (m.Run? && m.pid in s.pool ==> !Releases(s.pool[m.pid], u, subject))
  }

  lemma {:induction false} OwnershipLasts(cfg: Config, moves: seq<Move>, more: seq<Move>, u: Id, subject: string)
    requires OwnedBy(Execute(cfg, moves).db.identities, u, subject) && Keeps(cfg, moves, more, u, subject)
    ensures OwnedBy(Execute(cfg, moves + more).db.identities, u, subject)
  {
    hide Execute, Step, OwnedBy;
    if more == [] {
      assert moves + more == moves;
    } else {
      var before, m := more[..|more| - 1], more[|more| - 1];
      var s := Execute(cfg, moves + before);
      OwnershipLasts(cfg, moves, before, u, subject);
      assert moves + more == (moves + before) + [m];
      ExecuteOneMore(cfg, moves + before, m);
      if m.Run? && m.pid in s.pool {
        StepIdentities(cfg, s.db, s.pool[m.pid], m.input);
        var o := Step(cfg, s.db, s.pool[m.pid], m.input);
        OwnerKeepsSubject(s.db.identities, o.db.identities, s.pool[m.pid], m.input, o.event, subject, u);
      }
    }
  }

  // ------------------------------------------------------- login by e-mail

  /**
   * The rebinding UPDATE: the login goes ahead whatever becomes of it. The account owns the subject afterwards
   * exactly if it did before, or no row held it and the account has a single Freja row; with several, or with the
   * subject held elsewhere, UNIQUE fails, the error is ignored and nothing changes.
   */
  lemma RebindNeedsOneRow(cfg: Config, db: Db, u: Id, subject: string, i: Input)
    ensures var o := Step(cfg, db, LoggingIn(FrejaLogin2(u, subject)), i);
            && o.next == Some(LoggingIn(EnterSession(u, ByFreja)))
            && (OwnedBy(o.db.identities, u, subject) <==>
                  || OwnedBy(db.identities, u, subject)
                  || (SubjectFree(db.identities, subject) && exists k :: IdentitiesOf(db, u) == {k}))
            && (OwnedBy(o.db.identities, u, subject) || o.db == db)
  {
    if k :| k in IdentitiesOf(db, u) {
      if Rebind(db, u, subject).Some? {
        RebindTakes(cfg, db, u, subject, k, i);
      } else {
        RebindFails(db, u, subject, k);
      }
    } else {
      NoRowNothing(db, u, subject);
    }
  }

  lemma RebindTakes(cfg: Config, db: Db, u: Id, subject: string, k: Id, i: Input)
    requires k in IdentitiesOf(db, u) && Rebind(db, u, subject).Some?
    ensures OwnedBy(Step(cfg, db, LoggingIn(FrejaLogin2(u, subject)), i).db.identities, u, subject)
    ensures IdentitiesOf(db, u) == {k} && (OwnedBy(db.identities, u, subject) || SubjectFree(db.identities, subject))
  {
    assert Row(Step(cfg, db, LoggingIn(FrejaLogin2(u, subject)), i).db.identities, k, u, subject);
    if j :| j in db.identities && db.identities[j].subject == subject {
      assert HasSubject(db, j, subject);
      assert Row(db.identities, j, u, subject);
    }
  }

  lemma RebindFails(db: Db, u: Id, subject: string, k: Id)
    requires k in IdentitiesOf(db, u) && Rebind(db, u, subject).None?
    ensures !(SubjectFree(db.identities, subject) && exists j :: IdentitiesOf(db, u) == {j})
  {
    if j :| IdentitiesOf(db, u) == {j} {
      assert forall a, b :: a in IdentitiesOf(db, u) && b in IdentitiesOf(db, u) ==> a == b;
    }
  }

  lemma NoRowNothing(db: Db, u: Id, subject: string)
    requires IdentitiesOf(db, u) == {}
    ensures !OwnedBy(db.identities, u, subject) && !(exists k :: IdentitiesOf(db, u) == {k}) && Rebind(db, u, subject) == Some(db)
  {
    assert forall k :: k in db.identities && db.identities[k].user == u ==> k in IdentitiesOf(db, u);
    assert Rebind(db, u, subject).value.identities == db.identities;
    forall k ensures IdentitiesOf(db, u) != {k} {
      assert k in {k};
    }
  }

  /**
   * A Freja reset proceeds to its completion and to a session even where another account holds the subject: the
   * account owns it afterwards exactly if no other account did.
   */
  lemma ResetOwnsExactly(cfg: Config, db: Db, r: Id, u: Id, email: string, subject: string, began: Instant, i: Input)
    requires UniqueSubjects(db.identities)
    ensures var o := Step(cfg, db, Resetting(ResetFreja1(r, u, email, subject, began)), i);
            && (o.next == Some(Resetting(ResetFreja2(r, u, began))) <==>
                  !SubjectFree(db.identities, subject) || (i.id !in db.identities && u in db.users))
            && (o.next.None? ==> o == Stop(db))
            && (o.next.Some? ==>
                  (OwnedBy(o.db.identities, u, subject) <==> forall v :: OwnedBy(db.identities, v, subject) ==> v == u))
  {
    hide OwnedBy, UpsertIdentity, HasSubject;
    if SubjectFree(db.identities, subject) {
      UpsertInserts(db, i.id, u, subject, email);
    } else {
      var a :| a in db.identities && db.identities[a].subject == subject;
      UpsertKeepsOwners(db, i.id, u, subject, email, a);
      assert OwnedBy(db.identities, db.identities[a].user, subject);
    }
  }

  lemma UpsertInserts(db: Db, id: Id, u: Id, subject: string, email: string)
    requires SubjectFree(db.identities, subject)
    ensures UpsertIdentity(db, id, u, subject, email).Some? <==> id !in db.identities && u in db.users
    ensures id !in db.identities && u in db.users ==> OwnedBy(UpsertIdentity(db, id, u, subject, email).value.identities, u, subject)
    ensures forall v :: !OwnedBy(db.identities, v, subject)
  {
    var d := UpsertIdentity(db, id, u, subject, email);
    if id !in db.identities && u in db.users {
      assert Row(d.value.identities, id, u, subject);
    }
  }

  lemma UpsertKeepsOwners(db: Db, id: Id, u: Id, subject: string, email: string, a: Id)
    requires UniqueSubjects(db.identities) && a in db.identities && db.identities[a].subject == subject
    ensures UpsertIdentity(db, id, u, subject, email).Some?
    ensures forall v :: OwnedBy(UpsertIdentity(db, id, u, subject, email).value.identities, v, subject) <==> v == db.identities[a].user
    ensures forall v :: OwnedBy(db.identities, v, subject) <==> v == db.identities[a].user
  {
    assert HasSubject(db, a, subject);
    var m, m' := db.identities, UpsertIdentity(db, id, u, subject, email).value.identities;
    assert Row(m, a, m[a].user, subject) && Row(m', a, m[a].user, subject);
    assert forall k :: k in m' ==> m'[k].subject == m[k].subject && m'[k].user == m[k].user;
  }

  /** A login with a subject that `u` owns goes to `u`, whatever e-mail address Freja reports. */
  lemma OwnedSubjectResolves(cfg: Config, db: Db, u: Id, subject: string, email: string, i: Input)
    requires UniqueSubjects(db.identities) && OwnedBy(db.identities, u, subject) && email != ""
    ensures var o := Step(cfg, db, LoggingIn(FrejaLogin0(email, subject)), i);
            && (FindSubject(db, i.row, subject).NotAnAnswer? || o == Goto(db, LoggingIn(EnterSession(u, ByFreja))))
            && FindSubject(db, i.row, subject) != Nothing
  {
    var a :| Row(db.identities, a, u, subject);
    assert HasSubject(db, a, subject);
    if FindSubject(db, i.row, subject).Found? {
      assert i.row.value == a;
    }
  }

  /**
   * After an e-mail fallback login of an account with one Freja row, every later login with that subject
   * and any e-mail address resolves to the same account, until it unlinks or rebinds again.
   */
  lemma FallbackLoginSticks(cfg: Config, moves: seq<Move>, pid: nat, u: Id, subject: string, i: Input, more: seq<Move>,
      email: string, j: Input)
    requires var s := Execute(cfg, moves);
             && pid in s.pool && s.pool[pid] == LoggingIn(FrejaLogin2(u, subject))
             && SubjectFree(s.db.identities, subject) && exists k :: IdentitiesOf(s.db, u) == {k}
    requires Keeps(cfg, moves + [Run(pid, i)], more, u, subject) && email != ""
    ensures var db := Execute(cfg, moves + [Run(pid, i)] + more).db;
            && OwnedBy(db.identities, u, subject)
            && (FindSubject(db, j.row, subject).NotAnAnswer?
                || Step(cfg, db, LoggingIn(FrejaLogin0(email, subject)), j) == Goto(db, LoggingIn(EnterSession(u, ByFreja))))
  {
    hide Execute, Step, OwnedBy, Keeps, FindSubject;
    var after := moves + [Run(pid, i)];
    ExecuteOneMore(cfg, moves, Run(pid, i));
    RebindNeedsOneRow(cfg, Execute(cfg, moves).db, u, subject, i);
    OwnershipLasts(cfg, after, more, u, subject);
    SubjectsUnique(cfg, after + more);
    OwnedSubjectResolves(cfg, Execute(cfg, after + more).db, u, subject, email, j);
  }
}
