/**
 One Replica of the Worker Agent: its nine-state machine, its user counters,
 its compiled-module lease and its channels, and what each locked helper does
 to it. A call of transitionLocked that would panic leads to `Panicked`.
 */
module AgentReplica {
  import opened ServingAuth

  datatype RState =
    | Assigned | Fetching | Validating | Compiling | Ready | Draining | Stopped | Failed | Lost
    | Panicked

  predicate Terminal(s: RState) {
    s.Stopped? || s.Failed? || s.Lost?
  }

  predicate ValidTransition(previous: RState, next: RState) {
    match previous
    case Assigned => next.Fetching? || next.Draining? || next.Lost?
    case Fetching => next.Validating? || next.Draining? || next.Failed? || next.Lost?
    case Validating => next.Compiling? || next.Draining? || next.Failed? || next.Lost?
    case Compiling => next.Ready? || next.Draining? || next.Failed? || next.Lost?
    case Ready => next.Draining? || next.Lost?
    case Draining => next.Stopped? || next.Lost?
    case _ => false
  }

  datatype Request = Request(connection: Connection, fence: Fence, moduleSpec: string)

  datatype Replica = Replica(
    request: Request,
    state: RState,
    lease: bool,          // holds its compiled-module lease
    preparing: bool,
    preparedDone: bool,   // channel `prepared` is closed
    doneClosed: bool,     // channel `done` is closed
    stopClosed: bool,     // channel `stop` is closed
    users: int,
    active: int,
    releasing: bool)

  function IdOf(x: Replica): string {
    x.request.fence.assignment.assignmentId
  }

  /** transitionLocked. */
  function Transit(x: Replica, next: RState): Replica {
    if x.state == next then x
    else x.(state := if ValidTransition(x.state, next) then next else Panicked)
  }

  /** The replica Prepare inserts. */
  function NewReplica(request: Request): Replica {
    Transit(Replica(request, Assigned, false, true, false, false, false, 0, 0, false), Fetching)
  }

  /** finishTerminalLocked: closes `done` once nothing is outstanding. */
  function FinishTerminal(x: Replica): Replica {
    if !Terminal(x.state) || x.preparing || x.users != 0 || x.lease || x.releasing then x
    else x.(doneClosed := true)
  }

  /** finalizeIdleLocked; the second component tells whether a release action is handed out. */
  function FinalizeIdle(x: Replica): (Replica, bool) {
    if x.users != 0 || x.preparing then (x, false)
    else
      var y := if x.state.Draining? then Transit(x, Stopped) else x;
      if !Terminal(y.state) then (y, false)
      else if y.lease && !y.releasing then (y.(lease := false, releasing := true), true)
      else (FinishTerminal(y), false)
  }

  /** The common part of drainReplicaLocked and loseReplicaLocked. */
  function StopWith(x: Replica, next: RState): (Replica, bool) {
    if Terminal(x.state) then (x, false)
    else
      var y := Transit(x, next);
      FinalizeIdle(y.(stopClosed := true, preparedDone := y.preparedDone || !y.preparing))
  }

  /** drainReplicaLocked. */
  function Drain(x: Replica): (Replica, bool) {
    StopWith(x, Draining)
  }

  /** loseReplicaLocked. */
  function Lose(x: Replica): (Replica, bool) {
    StopWith(x, Lost)
  }

  /** finishPrepare after the cache returned an error: finishFailedPreparationLocked. */
  function PrepareFailed(x: Replica): Replica {
    var y := x.(preparing := false);
    var z := if y.state.Draining? then Transit(y, Stopped)
             else if y.state.Lost? then y
             else Transit(y, Failed);
    FinishTerminal(z.(stopClosed := true, preparedDone := true))
  }

  /** finishPrepare after the cache returned a lease: kept by a Ready replica, or handed to a release action. */
  function PrepareDone(x: Replica, closing: bool, stillAssigned: bool, resultMatches: bool): (Replica, bool) {
    var y := x.(preparing := false);
    if y.state.Draining? || y.state.Lost? || closing then
      var z := if y.state.Draining? then Transit(y, Stopped) else y;
      (z.(preparedDone := true, releasing := true), true)
    else if !stillAssigned then
      (Transit(y, Lost).(stopClosed := true, preparedDone := true, releasing := true), true)
    else if !resultMatches then
      (Transit(y, Failed).(stopClosed := true, preparedDone := true, releasing := true), true)
    else
      (Transit(Transit(Transit(y.(lease := true), Validating), Compiling), Ready).(preparedDone := true), false)
  }

  /** finishInvocation. */
  function Leave(x: Replica, accepted: bool): (Replica, bool) {
    FinalizeIdle(x.(users := x.users - 1, active := if accepted then x.active - 1 else x.active))
  }

  /** The critical section of release(), after the lease went back to the cache. */
  function ReleaseEnd(x: Replica): Replica {
    FinishTerminal(x.(releasing := false))
  }

  // ---------- what holds of a replica between any two critical sections ----------

  predicate Shape(x: Replica) {
    && 0 <= x.active <= x.users
    && (x.state.Fetching? || x.state.Ready? || x.state.Draining? || Terminal(x.state))
    && (x.preparing <==> !x.preparedDone)
    && (x.stopClosed <==> x.state.Draining? || Terminal(x.state))
    && (x.state.Fetching? ==> x.preparing)
    && (x.preparing ==> x.users == 0 && !x.lease && !x.releasing && !x.state.Ready? && !x.state.Stopped? && !x.state.Failed?)
    && (x.state.Ready? ==> x.lease)
    && (x.state.Draining? ==> x.users > 0 || x.preparing)
    && (x.users > 0 ==> x.lease)
    && (x.lease ==> !x.releasing && (x.state.Ready? || x.users > 0))
    && (x.releasing ==> Terminal(x.state))
    && (x.doneClosed <==> Terminal(x.state) && x.users == 0 && !x.preparing && !x.lease && !x.releasing)
  }

  /**
   How a helper may change a replica: the request stays, and an action is handed out exactly when releasing
   begins.
   */
  predicate Handled(x: Replica, y: Replica, action: bool) {
    && Shape(y) && y.request == x.request && y.users == x.users && y.active == x.active
    && (action ==> y.releasing && !x.releasing) && (!action ==> y.releasing == x.releasing)
  }

  lemma StopShape(x: Replica, next: RState)
    requires Shape(x) && (next.Draining? || next.Lost?)
    ensures var (y, action) := StopWith(x, next);
            && Handled(x, y, action) && y.preparing == x.preparing && x.lease == (y.lease || action)
            && (y.state.Draining? || Terminal(y.state)) && (next.Lost? ==> Terminal(y.state))
            && (Terminal(x.state) ==> y == x && !action)
  {
  }

  lemma PrepareFailedShape(x: Replica)
    requires Shape(x) && x.preparing
    ensures var y := PrepareFailed(x); Handled(x, y, false) && !y.preparing && !y.lease && Terminal(y.state)
  {
  }

  /** A preparing replica is drained or lost by the time the agent is closing. */
  lemma PrepareDoneShape(x: Replica, closing: bool, stillAssigned: bool, resultMatches: bool)
    requires Shape(x) && x.preparing && (closing ==> !x.state.Fetching?)
    ensures var (y, action) := PrepareDone(x, closing, stillAssigned, resultMatches);
            && Handled(x, y, action) && !y.preparing && y.lease == !action
            && (y.state.Ready? <==> x.state.Fetching? && !closing && stillAssigned && resultMatches)
            && (y.state.Ready? || Terminal(y.state))
  {
  }

  lemma LeaveShape(x: Replica, accepted: bool)
    requires Shape(x) && x.users > 0 && (if accepted then x.active > 0 else x.active < x.users)
    ensures var (y, action) := Leave(x, accepted);
            && Shape(y) && y.request == x.request && y.preparing == x.preparing
            && y.users == x.users - 1 && y.active == (if accepted then x.active - 1 else x.active)
            && (action ==> y.releasing && !x.releasing) && (!action ==> y.releasing == x.releasing)
            && x.lease == (y.lease || action)
            && (y.state == x.state || (x.state.Draining? && y.state.Stopped?))
  {
  }

  lemma ReleaseEndShape(x: Replica)
    requires Shape(x) && x.releasing
    ensures var y := ReleaseEnd(x);
            && Shape(y) && y.request == x.request && !y.releasing && y.doneClosed && y.state == x.state
            && y.users == x.users && y.active == x.active && y.preparing == x.preparing && y.lease == x.lease
  {
  }
}
