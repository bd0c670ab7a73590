// The vocabulary shared by the two halves of the supervisor: what a program is,
// which states it passes through, and what a wait condition says.
module Lifecycle {

  datatype Option<+T> = None | Some(value: T)

  // ONESHOT programs do something and exit, SIMPLE programs keep running.
  datatype Kind = ONESHOT | SIMPLE

  // BACKOFF is declared by the program but never entered.
  datatype State = BLOCKED | READY | RUNNING | DONE | CRASHED | BACKOFF

  datatype FdType = STDOUT | STDERR

  // Wait until the program with this id is in exactly this state.
  datatype Condition = Condition(id: nat, awaited: State)

  // The state that counts as "started" for a program of this kind.
  function StartedState(kind: Kind): State {
    if kind == ONESHOT then DONE else RUNNING
  }

  // The state a program enters when it exits with this wait status.
  function ExitState(rc: int): State {
    if rc == 0 then DONE else CRASHED
  }

  // Position in the lifecycle; a program only ever moves up.
  function Rank(state: State): nat {
    match state
    case BLOCKED => 0
    case READY => 1
    case RUNNING => 2
    case DONE => 3
    case CRASHED => 3
    case BACKOFF => 0
  }

  // A program is started once it has been forked.
  predicate Started(state: State) {
    Rank(state) >= 2
  }

  predicate Terminated(state: State) {
    state == DONE || state == CRASHED
  }
}
