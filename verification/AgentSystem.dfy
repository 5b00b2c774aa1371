/**
 Every interleaving of the Worker Agent's critical sections. The Gate is only
 touched under the Agent's lock, so Agent and Gate form one state. Between
 sections a goroutine holds a preparation, a release action, an invocation or
 a Close call. Each preparation obtains at most one lease, so leases are
 accounted per replica.
 */
module AgentSystem {
  import opened ServingAuth
  import opened AgentReplica
  import opened GateHistories

  datatype AgentConfig = AgentConfig(gate: GateConfig, maxAssignments: nat)

  datatype Preparation = NoPrep | Acquiring | Holding

  /** A replica with the goroutines that work on it and the history of its lease. */
  datatype Rep = Rep(
    cell: Replica,
    prep: Preparation,
    actions: nat,      // release actions whose lease is not yet back
    finishing: nat,    // release actions whose lease is back
    acquired: nat,     // leases obtained from the cache
    returned: nat)     // calls of Lease.Release

  datatype Invocation = Invocation(rep: nat, fence: Fence, accepted: bool)

  datatype Closer = Awaiting(waits: set<nat>) | ClosingCache

  datatype Sys = Sys(
    gate: GateState,
    reps: map<nat, Rep>,
    replicas: map<string, nat>,
    closing: bool,
    closed: bool,
    cacheClosing: bool,
    invs: map<nat, Invocation>,
    closers: map<nat, Closer>,
    nextRep: nat, nextInv: nat, nextCloser: nat)

  function Init(elapsed: int): Sys {
    Sys(NewGate(elapsed), map[], map[], false, false, false, map[], map[], 0, 0, 0)
  }

  datatype Step =
    | AcceptConnection(connection: Connection)
    | Disconnect(connection: Connection)
    | Prepare(request: Request, valid: bool)
    | LeaseObtained(rep: nat)
    | PrepareOk(rep: nat, resultMatches: bool)
    | PrepareErr(rep: nat)
    | InstallAuth(connection: Connection, authorization: Authorization, now: int)
    | Enter(fence: Fence)
    | Check(inv: nat, aliveBefore: bool, now: int, aliveAfter: bool)
    | LeaveStep(inv: nat)
    | Cancel(connection: Connection, fence: Fence)
    | Acknowledge(connection: Connection, id: string)
    | ReturnLease(rep: nat)
    | EndRelease(rep: nat)
    | BeginClose
    | CloseCache(closer: nat)
    | CacheClosed(closer: nat, ok: bool)

  // ---------- stopping replicas ----------

  function StopRep(x: Rep, next: RState): Rep {
    var (cell, action) := StopWith(x.cell, next);
    x.(cell := cell, actions := if action then x.actions + 1 else x.actions)
  }

  /** What stopping the replicas in `who` revokes at the gate. */
  ghost function RevokedIds(reps: map<nat, Rep>, who: set<nat>): (ids: set<string>)
  {
    set r | r in who && r in reps && !Terminal(reps[r].cell.state) :: IdOf(reps[r].cell)
  }

  ghost function RevokeAll(g: GateState, ids: set<string>): GateState {
    g.(assignments := g.assignments - ids, authorizations := g.authorizations - ids)
  }

  /** Stops the replicas in `who` one after another, in any order. */
  ghost function StopAll(s: Sys, who: set<nat>, next: RState): Sys {
    s.(reps := map r | r in s.reps :: if r in who then StopRep(s.reps[r], next) else s.reps[r],
       gate := RevokeAll(s.gate, RevokedIds(s.reps, who)))
  }

  // ---------- which replicas each control event stops ----------

  ghost function Outdated(cfg: AgentConfig, s: Sys, g: GateState): set<nat> {
    set r | r in s.replicas.Values && r in s.reps &&
      (OldSession(s.gate, g, s.reps[r].cell) || LostControl(cfg, g, s.reps[r].cell))
  }

  predicate OldSession(before: GateState, after: GateState, x: Replica) {
    after.session > before.session && x.request.fence.assignment.worker.epoch != after.session
  }

  predicate LostControl(cfg: AgentConfig, g: GateState, x: Replica) {
    x.preparing && CheckAssignment(cfg.gate, g, x.request.connection, x.request.fence) != Ok
  }

  ghost function PreparingOn(s: Sys, c: Connection): set<nat> {
    set r | r in s.replicas.Values && r in s.reps && s.reps[r].cell.preparing && s.reps[r].cell.request.connection == c
  }

  // ---------- the critical sections ----------

  ghost function AcceptNext(cfg: AgentConfig, s: Sys, c: Connection): Sys {
    if s.closing then s
    else
      var g := AcceptControl(s.gate, c).0;
      StopAll(s.(gate := g), Outdated(cfg, s, g), Lost)
  }

  ghost function DisconnectNext(s: Sys, c: Connection): Sys {
    var g := DisconnectControl(s.gate, c);
    StopAll(s.(gate := g), if s.gate.control.connected && !g.control.connected then PreparingOn(s, c) else {}, Lost)
  }

  function PrepareNext(cfg: AgentConfig, s: Sys, request: Request, valid: bool): Sys {
    var id := request.fence.assignment.assignmentId;
    if !valid || s.closing || CheckAssignment(cfg.gate, s.gate, request.connection, request.fence) != Ok
       || id in s.replicas || |s.replicas| >= cfg.maxAssignments
    then s
    else s.(reps := s.reps[s.nextRep := Rep(NewReplica(request), Acquiring, 0, 0, 0, 0)],
            replicas := s.replicas[id := s.nextRep], nextRep := s.nextRep + 1)
  }

  function LeaseObtainedNext(s: Sys, r: nat): Sys
    requires r in s.reps
  {
    s.(reps := s.reps[r := s.reps[r].(prep := Holding, acquired := s.reps[r].acquired + 1)])
  }

  function PrepareOkNext(cfg: AgentConfig, s: Sys, r: nat, resultMatches: bool): Sys
    requires r in s.reps
  {
    var x := s.reps[r];
    var stillAssigned := CheckAssignment(cfg.gate, s.gate, x.cell.request.connection, x.cell.request.fence) == Ok;
    var (cell, action) := PrepareDone(x.cell, s.closing, stillAssigned, resultMatches);
    s.(reps := s.reps[r := x.(cell := cell, prep := NoPrep, actions := if action then x.actions + 1 else x.actions)])
  }

  function PrepareErrNext(s: Sys, r: nat): Sys
    requires r in s.reps
  {
    s.(reps := s.reps[r := s.reps[r].(cell := PrepareFailed(s.reps[r].cell), prep := NoPrep)])
  }

  /** The replica under this id, if it is Ready with exactly this identity. */
  predicate ReadyAs(s: Sys, identity: Identity) {
    var id := identity.assignmentId;
    && id in s.replicas && s.replicas[id] in s.reps
    && s.reps[s.replicas[id]].cell.state.Ready? && s.reps[s.replicas[id]].cell.request.fence.assignment == identity
  }

  function InstallNext(cfg: AgentConfig, s: Sys, c: Connection, a: Authorization, now: int): Sys {
    if s.closing || !ReadyAs(s, a.fence.assignment) then s
    else s.(gate := Install(cfg.gate, s.gate, c, a, now).0)
  }

  /**
   The two sections of Invoke before the replica's queue. The first only
   looks; a replica's request never changes, so what counts is the second.
   */
  function EnterNext(s: Sys, f: Fence): Sys {
    if s.closing || !ReadyAs(s, f.assignment) then s
    else
      var r := s.replicas[f.assignment.assignmentId];
      var x := s.reps[r];
      s.(reps := s.reps[r := x.(cell := x.cell.(users := x.cell.users + 1))],
         invs := s.invs[s.nextInv := Invocation(r, f, false)], nextInv := s.nextInv + 1)
  }

  /** The replica an invocation entered is still the Ready one under its id. */
  predicate StillReady(s: Sys, v: Invocation) {
    && v.rep in s.reps && s.reps[v.rep].cell.state.Ready?
    && v.fence.assignment.assignmentId in s.replicas && s.replicas[v.fence.assignment.assignmentId] == v.rep
  }

  /** Invocation i is accepted. */
  predicate Accepts(s: Sys, i: nat, aliveBefore: bool, now: int, aliveAfter: bool)
    requires i in s.invs
  {
    && aliveBefore && !s.closing && StillReady(s, s.invs[i])
    && AuthorizeSync(s.gate, s.invs[i].fence, now).1 == Ok && aliveAfter
  }

  function CheckNext(s: Sys, i: nat, aliveBefore: bool, now: int, aliveAfter: bool): Sys
    requires i in s.invs && s.invs[i].rep in s.reps
  {
    if !aliveBefore || s.closing || !StillReady(s, s.invs[i]) then s
    else
      var (g, verdict) := AuthorizeSync(s.gate, s.invs[i].fence, now);
      var x := s.reps[s.invs[i].rep];
      if verdict != Ok || !aliveAfter then s.(gate := g)
      else s.(gate := g, invs := s.invs[i := s.invs[i].(accepted := true)],
              reps := s.reps[s.invs[i].rep := x.(cell := x.cell.(active := x.cell.active + 1))])
  }

  function LeaveNext(s: Sys, i: nat): Sys
    requires i in s.invs && s.invs[i].rep in s.reps
  {
    var r := s.invs[i].rep;
    var x := s.reps[r];
    var (cell, action) := Leave(x.cell, s.invs[i].accepted);
    s.(reps := s.reps[r := x.(cell := cell, actions := if action then x.actions + 1 else x.actions)],
       invs := s.invs - {i})
  }

  ghost function CancelNext(cfg: AgentConfig, s: Sys, c: Connection, f: Fence): Sys {
    var id := f.assignment.assignmentId;
    if s.closing || CheckAssignment(cfg.gate, s.gate, c, f) != Ok then s
    else if id !in s.replicas || s.replicas[id] !in s.reps then s
    else if s.reps[s.replicas[id]].cell.request.fence.assignment != f.assignment then s
    else StopAll(s, {s.replicas[id]}, Draining)
  }

  function AcknowledgeNext(s: Sys, c: Connection, id: string): Sys {
    if s.closing || CheckControl(s.gate, c) != Ok || id !in s.replicas || s.replicas[id] !in s.reps then s
    else
      var x := s.reps[s.replicas[id]].cell;
      if !Terminal(x.state) || !x.doneClosed then s else s.(replicas := s.replicas - {id})
  }

  function ReturnLeaseNext(s: Sys, r: nat): Sys
    requires r in s.reps && s.reps[r].actions > 0
  {
    var x := s.reps[r];
    s.(reps := s.reps[r := x.(actions := x.actions - 1, finishing := x.finishing + 1, returned := x.returned + 1)])
  }

  function EndReleaseNext(s: Sys, r: nat): Sys
    requires r in s.reps && s.reps[r].finishing > 0
  {
    var x := s.reps[r];
    s.(reps := s.reps[r := x.(cell := ReleaseEnd(x.cell), finishing := x.finishing - 1)])
  }

  ghost function Listed(s: Sys): set<nat> {
    set r | r in s.replicas.Values
  }

  ghost function BeginCloseNext(s: Sys): Sys {
    StopAll(s, Listed(s), Draining).(closing := true,
      closers := s.closers[s.nextCloser := Awaiting(Listed(s))], nextCloser := s.nextCloser + 1)
  }

  /** A Close call got past all its waits and reaches closeCache. */
  function CloseCacheNext(s: Sys, k: nat): Sys {
    if s.closed then s.(closers := s.closers - {k})
    else if s.cacheClosing then s
    else s.(cacheClosing := true, closers := s.closers[k := ClosingCache])
  }

  function CacheClosedNext(s: Sys, k: nat, ok: bool): Sys {
    s.(cacheClosing := false, closed := s.closed || ok, closers := s.closers - {k})
  }

  predicate Enabled(s: Sys, step: Step) {
    match step
    case LeaseObtained(r) => r in s.reps && s.reps[r].prep.Acquiring?
    case PrepareOk(r, _) => r in s.reps && s.reps[r].prep.Holding?
    case PrepareErr(r) => r in s.reps && s.reps[r].prep.Acquiring?
    case Check(i, _, _, _) => i in s.invs && !s.invs[i].accepted && s.invs[i].rep in s.reps
    case LeaveStep(i) => i in s.invs && s.invs[i].rep in s.reps
    case ReturnLease(r) => r in s.reps && s.reps[r].actions > 0
    case EndRelease(r) => r in s.reps && s.reps[r].finishing > 0
    case CloseCache(k) => k in s.closers && s.closers[k].Awaiting?
                          && forall r :: r in s.closers[k].waits ==> r in s.reps && s.reps[r].cell.doneClosed
    case CacheClosed(k, _) => k in s.closers && s.closers[k].ClosingCache?
    case _ => true
  }

  ghost function Next(cfg: AgentConfig, s: Sys, step: Step): Sys
    requires Enabled(s, step)
  {
    match step
    case AcceptConnection(c) => AcceptNext(cfg, s, c)
    case Disconnect(c) => DisconnectNext(s, c)
    case Prepare(request, valid) => PrepareNext(cfg, s, request, valid)
    case LeaseObtained(r) => LeaseObtainedNext(s, r)
    case PrepareOk(r, resultMatches) => PrepareOkNext(cfg, s, r, resultMatches)
    case PrepareErr(r) => PrepareErrNext(s, r)
    case InstallAuth(c, a, now) => InstallNext(cfg, s, c, a, now)
    case Enter(f) => EnterNext(s, f)
    case Check(i, before, now, after) => CheckNext(s, i, before, now, after)
    case LeaveStep(i) => LeaveNext(s, i)
    case Cancel(c, f) => CancelNext(cfg, s, c, f)
    case Acknowledge(c, id) => AcknowledgeNext(s, c, id)
    case ReturnLease(r) => ReturnLeaseNext(s, r)
    case EndRelease(r) => EndReleaseNext(s, r)
    case BeginClose => BeginCloseNext(s)
    case CloseCache(k) => CloseCacheNext(s, k)
    case CacheClosed(k, ok) => CacheClosedNext(s, k, ok)
  }

  // ---------- the invariant ----------

  ghost function InvsOf(invs: map<nat, Invocation>, r: nat): set<nat> {
    set i | i in invs && invs[i].rep == r
  }

  ghost function AcceptedOf(invs: map<nat, Invocation>, r: nat): set<nat> {
    set i | i in invs && invs[i].rep == r && invs[i].accepted
  }

  /** The lease of a replica is in one place, and returned at most once. */
  predicate LeaseOk(x: Rep) {
    && x.acquired <= 1
    && x.acquired == (if x.prep.Holding? then 1 else 0) + (if x.cell.lease then 1 else 0) + x.actions + x.returned
    && x.actions + x.finishing == (if x.cell.releasing then 1 else 0)
    && (x.prep.NoPrep? <==> !x.cell.preparing)
    && (x.prep.Acquiring? ==> x.acquired == 0)
  }

  ghost predicate RepOk(cfg: AgentConfig, s: Sys, r: nat)
    requires r in s.reps
  {
    var x := s.reps[r];
    && r < s.nextRep && Shape(x.cell) && LeaseOk(x)
    && ValidFence(x.cell.request.fence)
    && (!x.cell.doneClosed ==> IdOf(x.cell) in s.replicas && s.replicas[IdOf(x.cell)] == r)
    && (s.closing ==> x.cell.state.Draining? || Terminal(x.cell.state))
    && (!Terminal(x.cell.state) ==> x.cell.request.fence.assignment.worker == CurrentWorker(cfg.gate, s.gate))
  }

  ghost predicate UsersOk(reps: map<nat, Rep>, invs: map<nat, Invocation>, r: nat)
    requires r in reps
  {
    && reps[r].cell.users == |InvsOf(invs, r)|
    && reps[r].cell.active == |AcceptedOf(invs, r)|
  }

  predicate ListedOk(s: Sys, id: string)
    requires id in s.replicas
  {
    s.replicas[id] in s.reps && IdOf(s.reps[s.replicas[id]].cell) == id
  }

  predicate InvOk(s: Sys, i: nat)
    requires i in s.invs
  {
    i < s.nextInv && s.invs[i].rep in s.reps
    && s.reps[s.invs[i].rep].cell.request.fence.assignment == s.invs[i].fence.assignment
  }

  /** Every replica that is not done is one this Close call waits for. */
  ghost predicate CloserOk(s: Sys, k: nat)
    requires k in s.closers
  {
    k < s.nextCloser && s.closing
    && (s.closers[k].Awaiting? ==> forall r :: r in s.reps && !s.reps[r].cell.doneClosed ==> r in s.closers[k].waits)
  }

  ghost predicate RepsOk(cfg: AgentConfig, s: Sys) {
    && (forall r :: r in s.reps ==> RepOk(cfg, s, r))
    && (forall id :: id in s.replicas ==> ListedOk(s, id))
  }

  ghost predicate InvsOk(s: Sys) {
    && (forall i :: i in s.invs ==> InvOk(s, i))
    && (forall r :: r in s.reps ==> UsersOk(s.reps, s.invs, r))
  }

  /** Permissions at the gate belong to Ready replicas with exactly that identity. */
  ghost predicate PermissionsOk(cfg: AgentConfig, s: Sys) {
    && GateOk(cfg.gate, s.gate)
    && (forall id :: id in s.gate.assignments ==> ReadyAs(s, s.gate.assignments[id]))
  }

  ghost predicate AllDone(s: Sys) {
    forall r :: r in s.reps ==> s.reps[r].cell.doneClosed
  }

  ghost predicate ClosersOk(s: Sys) {
    && (forall k :: k in s.closers ==> CloserOk(s, k))
    && (s.cacheClosing || s.closed || (exists k :: k in s.closers && s.closers[k].ClosingCache?) ==> s.closing && AllDone(s))
    && (forall k, l :: k in s.closers && l in s.closers && s.closers[k].ClosingCache? && s.closers[l].ClosingCache? ==> k == l)
    && (s.cacheClosing <==> exists k :: k in s.closers && s.closers[k].ClosingCache?)
  }

  ghost function Good(cfg: AgentConfig): iset<Sys> {
    iset s: Sys | RepsOk(cfg, s) && InvsOk(s) && PermissionsOk(cfg, s) && ClosersOk(s)
  }

  ghost predicate Inv(cfg: AgentConfig, s: Sys) {
    s in Good(cfg)
  }
}
