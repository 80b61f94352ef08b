/** What the event log alone says about accounts and sessions: the reference the tables are compared with. */
module History {
  import opened Basics
  import opened Timestamps
  import opened Tables
  import opened Requests

  // ------------------------------------------------------------------ accounts

  predicate SetsRole(e: Event, u: Id) {
    (e.Created? || e.Granted?) && e.user == u
  }

  /** Where the role `u` has now was set. */
  function RoleIndex(log: Log, u: Id): (k: Option<nat>)
    ensures k.Some? ==> k.value < |log| && SetsRole(log[k.value], u)
  {
    if log == [] then None
    else if SetsRole(log[|log| - 1], u) then Some(|log| - 1)
    else RoleIndex(log[..|log| - 1], u)
  }

  /** The role of `u`, None before the account exists. */
  function RoleNow(log: Log, u: Id): Option<Role> {
    match RoleIndex(log, u)
    case None => None
    case Some(k) => if log[k].Granted? then Some(log[k].role) else Some(Passive)
  }

  /** What the latest ban or unban of `u` says. */
  function BannedNow(log: Log, u: Id): bool {
    if log == [] then false
    else
      var e := log[|log| - 1];
      if e.Banned? && e.user == u then e.banned else BannedNow(log[..|log| - 1], u)
  }

  /** The name the latest creation or renaming gave `u`. */
  function NameNow(log: Log, u: Id): Option<string> {
    if log == [] then None
    else
      var e := log[|log| - 1];
      if e.Created? && e.user == u then Some(e.email)
      else if e.Renamed? && e.user == u then Some(e.address)
      else NameNow(log[..|log| - 1], u)
  }

  // ------------------------------------------------------------------ sessions

  /** Whose session `s` is and when it was created, by the latest creation or logout of `s`. */
  function Live(log: Log, s: Id): Option<(Id, Instant)> {
    if log == [] then None
    else
      var e := log[|log| - 1];
      if e.SessionMade? && e.session == s then Some((e.user, e.at))
      else if e.SessionDropped? && e.session == s then None
      else Live(log[..|log| - 1], s)
  }

  /** A session ends thirty days after the second it was created in. */
  predicate Expired(at: Instant, t: nat) {
    t >= at / NANOS * NANOS + SESSION
  }

  /** Who is behind cookie `s` at time `t`. Sweeps, visits and the tables play no part. */
  function Visitor(log: Log, s: Id, t: nat): Option<(Id, Role)> {
    match Live(log, s)
    case None => None
    case Some((u, at)) =>
      if !Expired(at, t) && !BannedNow(log, u) && RoleNow(log, u).Some? then Some((u, RoleNow(log, u).value)) else None
  }

  /** The latest clock reading a sweep used. */
  function LastSweep(log: Log): nat {
    if log == [] then 0
    else
      var e, before := log[|log| - 1], LastSweep(log[..|log| - 1]);
      if e.Swept? && e.at > before then e.at else before
  }

  lemma OneMoreEvent(log: Log, e: Event, u: Id)
    ensures RoleNow(log + [e], u) == if SetsRole(e, u) then Some(if e.Granted? then e.role else Passive) else RoleNow(log, u)
    ensures BannedNow(log + [e], u) == if e.Banned? && e.user == u then e.banned else BannedNow(log, u)
    ensures NameNow(log + [e], u) == if e.Created? && e.user == u then Some(e.email)
                                     else if e.Renamed? && e.user == u then Some(e.address)
                                     else NameNow(log, u)
    ensures Live(log + [e], u) == if e.SessionMade? && e.session == u then Some((e.user, e.at))
                                  else if e.SessionDropped? && e.session == u then None
                                  else Live(log, u)
    ensures LastSweep(log + [e]) == if e.Swept? && e.at > LastSweep(log) then e.at else LastSweep(log)
  {
    assert (log + [e])[..|log|] == log;
  }

  lemma NoEvent(log: Log)
    ensures log + [] == log
  {
  }
}
