/** What the theorems about runs mean for the server object between requests. */
module Guarantees {
  import opened Basics
  import opened Timestamps
  import opened Tables
  import opened Requests
  import opened Runs
  import opened Integrity
  import opened History
  import opened Sessions
  import opened Accounts
  import opened Races
  import opened Authority
  import opened Server

  lemma {:induction false} OnePidIsSerial(cfg: Config, moves: seq<Move>)
    requires forall k :: 0 <= k < |moves| ==> moves[k].pid == 0
    ensures Serial(cfg, moves) && Execute(cfg, moves).pool.Keys <= {0}
  {
    hide Step;
    if moves != [] {
      OnePidIsSerial(cfg, moves[..|moves| - 1]);
    }
  }

  lemma ServerRunsAlone(s: Server, k: nat, w: Window)
    requires s.Idle() && k <= |s.run|
    ensures s.run[..k] + s.run[k..] == s.run && Execute(s.cfg, s.run).db == s.Rows()
    ensures AlwaysAlone(s.cfg, s.run, w)
  {
    hide Execute, Serial, AlwaysAlone;
    OnePidIsSerial(s.cfg, s.run);
    SerialIsAlone(s.cfg, s.run, w);
  }

  /** Between requests: every constraint holds, and no login challenge is anybody's but a user's. */
  lemma ServerIsConsistent(s: Server)
    requires s.Idle()
    ensures Schema(s.Rows()) && "" !in s.Rows().logins
  {
    hide Execute, Schema;
    SchemaAlways(s.cfg, s.run);
    NobodyHasNoLogin(s.cfg, s.run);
  }

  /** Between requests at most one reset is pending per user and provider, and each completed once if its row says so, else never. */
  lemma ServerResetsOnce(s: Server, u: Id, provider: Provider, r: Id)
    requires s.Idle()
    ensures PendingOnce(s.Rows().resets, u, provider) && CompletedAsLogged(s.sys, r)
  {
    hide Execute, AlwaysAlone, PendingOnce;
    ServerRunsAlone(s, 0, ResetQueue(u, provider));
    ServerRunsAlone(s, 0, Finishing(r));
    OnePendingAlways(s.cfg, s.run, u, provider);
    ResetCompletesOnce(s.cfg, s.run, r);
  }

  /** The queue lists exactly what can be approved, and every account belongs to a completed, verified registration. */
  lemma ServerIsSound(s: Server, g: Id, u: Id)
    requires s.Idle()
    ensures g in s.Rows().registrations ==> (Queued(s.Rows().registrations[g]) <==> Approvable(s.Rows().registrations[g]))
    ensures u in s.Rows().users ==> exists h :: Behind(s.Rows().registrations, h, u)
  {
    hide Execute, Queued, Approvable;
    if g in s.Rows().registrations {
      QueueIsApprovable(s.cfg, s.run, g);
    }
    if u in s.Rows().users {
      AccountsAreVerified(s.cfg, s.run, u);
    }
  }

  /** Whoever could log in, or had a passkey, at any earlier moment still can, and still has one. */
  lemma ServerNeverLocksOut(s: Server, k: nat, u: Id)
    requires s.Idle() && k <= |s.run|
    ensures CanLogIn(Execute(s.cfg, s.run[..k]).db, u) ==> CanLogIn(s.Rows(), u)
    ensures KeysOf(Execute(s.cfg, s.run[..k]).db, u) != {} ==> KeysOf(s.Rows(), u) != {}
  {
    hide Execute, AlwaysAlone, CanLogIn, KeysOf;
    ServerRunsAlone(s, k, Methods(u));
    NoLockout(s.cfg, s.run[..k], s.run[k..], u);
  }

  /** Whatever an admin decided was decided while the session used was an unbanned admin's. */
  lemma ServerDecidesByAdmins(s: Server, k: nat)
    requires s.Idle() && k < |s.sys.log| && Decision(s.sys.log[k])
    ensures AdminNow(s.sys.log[..k], s.sys.log[k].why)
  {
    hide Execute, Serial, Undisturbed, AdminNow;
    OnePidIsSerial(s.cfg, s.run);
    SerialIsUndisturbed(s.cfg, s.run, s.sys.log[k].why);
    DecisionsAreByAdmins(s.cfg, s.run, k);
  }

  /** GetSession on the live tables answers as the history of requests served does. */
  lemma ServerAnswersByHistory(s: Server, cookie: Id, t: Instant)
    requires s.Idle() && t >= LastSweep(s.sys.log)
    ensures CurrentUser(s.Rows(), cookie, Stamp(t)) == Visitor(s.sys.log, cookie, t)
  {
    hide Execute, CurrentUser, Visitor;
    GetSessionRefinesHistory(s.cfg, s.run, cookie, t);
  }
}
