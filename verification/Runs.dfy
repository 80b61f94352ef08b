/** Runs of the server: requests arrive, their statements interleave in any order, clients may vanish. */
module Runs {
  import opened Basics
  import opened Tables
  import opened Requests

  datatype Sys = Sys(db: Db, pool: map<nat, Task>, log: Log)

  datatype Move =
    | Arrive(pid: nat, task: Task)
    | Run(pid: nat, input: Input)
    | Vanish(pid: nat)

  function Logged(e: Option<Event>): Log {
    if e.Some? then [e.value] else []
  }

  function Replaced(pool: map<nat, Task>, pid: nat, next: Option<Task>): map<nat, Task> {
    if next.Some? then pool[pid := next.value] else pool - {pid}
  }

  function After(s: Sys, pid: nat, o: Outcome): Sys {
    Sys(o.db, Replaced(s.pool, pid, o.next), s.log + Logged(o.event))
  }

  /** Moves that are not possible change nothing. */
  function Moved(cfg: Config, s: Sys, m: Move): Sys {
    match m
    case Arrive(pid, task) => if IsRequest(task) && pid !in s.pool then s.(pool := s.pool[pid := task]) else s
    case Run(pid, input) => if pid in s.pool then After(s, pid, Step(cfg, s.db, s.pool[pid], input)) else s
    case Vanish(pid) => s.(pool := s.pool - {pid})
  }

  const START: Sys := Sys(EMPTY, map[], [])

  /** The server after `moves`, from empty tables. */
  function Execute(cfg: Config, moves: seq<Move>): Sys {
    if moves == [] then START
    else Moved(cfg, Execute(cfg, moves[..|moves| - 1]), moves[|moves| - 1])
  }

  lemma ExecuteOneMore(cfg: Config, moves: seq<Move>, m: Move)
    ensures Execute(cfg, moves + [m]) == Moved(cfg, Execute(cfg, moves), m)
  {
    assert (moves + [m])[..|moves|] == moves;
  }
}
