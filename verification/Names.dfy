/** User names are unique byte-wise only: exactly when two of them come to differ in case alone. */
module Names {
  import opened Basics
  import opened Text
  import opened Tables
  import opened Requests
  import opened Effects
  import opened Steps
  import opened Accounts

  /** No two user names are equal up to case, as the schema's comment would have it. */
  ghost predicate FoldsUnique(m: map<Id, User>) {
    forall a, b :: a in m && b in m && EqualFold(m[a].username, m[b].username) ==> a == b
  }

  /** Another row than `u` already holds this name up to case. */
  ghost predicate HeldByOther(m: map<Id, User>, name: string, u: Id) {
    exists v :: v in m && v != u && EqualFold(m[v].username, name)
  }

  ghost predicate BytesFree(m: map<Id, User>, name: string, u: Id) {
    forall v :: v in m && v != u ==> m[v].username != name
  }

  /** An approval that commits, or a confirmed e-mail change that passes UNIQUE, for a name held up to case. */
  ghost predicate BringsVariant(db: Db, t: Task, i: Input) {
    match t
    case Registering(Approve1(g, row, why)) => Committable(db, row, i.id) && HeldByOther(db.users, row.email, row.account)
    case Settings(ConfirmEmail1(u, email)) => u in db.users && BytesFree(db.users, email, u) && HeldByOther(db.users, email, u)
    case _ => false
  }

  lemma Named(m: map<Id, User>, u: Id, name: string, row: User)
    requires FoldsUnique(m) && row.username == name
    ensures FoldsUnique(m[u := row]) <==> !HeldByOther(m, name, u)
  {
    hide EqualFold;
    var m' := m[u := row];
    if v :| v in m && v != u && EqualFold(m[v].username, name) {
      assert EqualFold(m'[v].username, m'[u].username);
    } else {
      forall a, b | a in m' && b in m' && EqualFold(m'[a].username, m'[b].username) ensures a == b {
        FoldSymmetric(m'[a].username, m'[b].username);
      }
    }
  }

  lemma FoldSymmetric(a: string, b: string)
    ensures EqualFold(a, b) <==> EqualFold(b, a)
  {
  }

  lemma SameNames(m: map<Id, User>, m': map<Id, User>)
    requires FoldsUnique(m) && m'.Keys == m.Keys && forall u :: u in m ==> m'[u].username == m[u].username
    ensures FoldsUnique(m')
  {
    hide EqualFold;
  }

  lemma OthersKeepNames(m: map<Id, User>, m': map<Id, User>, t: Task, e: Option<Event>)
    requires UsersMove(m, m', t, e)
    requires (t.Registering? ==> !t.r.Approve1?) && (t.Settings? ==> !t.s.ConfirmEmail1?)
    ensures m'.Keys == m.Keys && forall u :: u in m ==> m'[u].username == m[u].username
  {
  }

  lemma RenameExactly(db: Db, u: Id, email: string)
    requires FoldsUnique(db.users)
    ensures var d := SetUsername(db, u, email);
            !FoldsUnique((if d.Some? then d.value else db).users)
            <==> u in db.users && BytesFree(db.users, email, u) && HeldByOther(db.users, email, u)
  {
    hide EqualFold, FoldsUnique, HeldByOther;
    if u in db.users && BytesFree(db.users, email, u) {
      Named(db.users, u, email, db.users[u].(username := email));
    }
  }

  /** Exactly which steps make two user names differ in case only. */
  lemma NamesFoldExactly(cfg: Config, db: Db, t: Task, i: Input)
    requires FoldsUnique(db.users)
    ensures !FoldsUnique(Step(cfg, db, t, i).db.users) <==> BringsVariant(db, t, i)
  {
    hide FoldsUnique, HeldByOther, Committable, BytesFree, SetUsername, Step;
    match t
    case Registering(Approve1(g, row, why)) => ApprovalBrings(cfg, db, g, row, why, i);
    case Settings(ConfirmEmail1(u, email)) =>
      RenameStep(cfg, db, u, email, i);
      RenameExactly(db, u, email);
    case _ => OtherStepsKeepNames(cfg, db, t, i);
  }

  lemma OtherStepsKeepNames(cfg: Config, db: Db, t: Task, i: Input)
    requires FoldsUnique(db.users)
    requires (t.Registering? ==> !t.r.Approve1?) && (t.Settings? ==> !t.s.ConfirmEmail1?)
    ensures FoldsUnique(Step(cfg, db, t, i).db.users)
  {
    hide FoldsUnique, UsersMove, Step;
    var o := Step(cfg, db, t, i);
    StepUsers(cfg, db, t, i);
    OthersKeepNames(db.users, o.db.users, t, o.event);
    SameNames(db.users, o.db.users);
  }

  lemma ApprovalBrings(cfg: Config, db: Db, g: Id, row: Registration, why: Approver, i: Input)
    requires FoldsUnique(db.users)
    ensures !FoldsUnique(Step(cfg, db, Registering(Approve1(g, row, why)), i).db.users)
            <==> Committable(db, row, i.id) && HeldByOther(db.users, row.email, row.account)
  {
    hide FoldsUnique, HeldByOther, Committable, IdentityLinked, KeyUnparked, Step;
    ApprovalAllOrNothing(cfg, db, g, row, why, i);
    Named(db.users, row.account, row.email, User(row.email, Passive, false));
  }

  lemma RenameStep(cfg: Config, db: Db, u: Id, email: string, i: Input)
    ensures var d := SetUsername(db, u, email);
            Step(cfg, db, Settings(ConfirmEmail1(u, email)), i).db == if d.Some? then d.value else db
  {
  }
}
