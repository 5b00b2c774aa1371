/** Whole-run guarantees of the Worker Agent together with its Gate. */
module AgentTheorems {
  import opened ServingAuth
  import opened AgentReplica
  import GH = GateHistories
  import opened AgentSystem
  import opened AgentProofs
  import R = Runs

  ghost function Moves(cfg: AgentConfig): iset<R.Move<Sys, Step>> {
    iset m: R.Move<Sys, Step> | Enabled(m.pre, m.step) && m.post == Next(cfg, m.pre, m.step)
  }

  ghost predicate Reachable(cfg: AgentConfig, elapsed: int, s: Sys) {
    R.Reachable(Init(elapsed), Moves(cfg), s)
  }

  lemma GoodIsKept(cfg: AgentConfig)
    ensures R.Keeps(Moves(cfg), Good(cfg))
  {
    forall m | m in Moves(cfg) && m.pre in Good(cfg) ensures m.post in Good(cfg) {
      StepInv(cfg, m.pre, m.step);
    }
  }

  lemma ReachableIsGood(cfg: AgentConfig, elapsed: int, s: Sys)
    requires Reachable(cfg, elapsed, s)
    ensures Inv(cfg, s)
  {
    InitInv(cfg, elapsed);
    GoodIsKept(cfg);
    R.ReachableIsIn(Init(elapsed), Moves(cfg), Good(cfg), s);
  }

  // ---------- joint safety of Agent and Gate ----------

  /** Every stored authorization belongs to a Ready replica with exactly that identity, in the current session. */
  lemma AuthorizationsAreForReadyReplicas(cfg: AgentConfig, elapsed: int, s: Sys, id: string)
    requires Reachable(cfg, elapsed, s) && id in s.gate.authorizations
    ensures var f := s.gate.authorizations[id].authorization.fence;
            && f.assignment.assignmentId == id && ReadyAs(s, f.assignment)
            && f.assignment.worker == CurrentWorker(cfg.gate, s.gate) && f.discoveryEpoch == s.gate.discovery
  {
    ReachableIsGood(cfg, elapsed, s);
    assert GH.RecordOk(cfg.gate, s.gate, id) && GH.IdentityOk(cfg.gate, s.gate, id);
  }

  /** Every replica that is not terminal is bound to the Gate's current Worker session, and listed under its id. */
  lemma LiveReplicasAreCurrent(cfg: AgentConfig, elapsed: int, s: Sys, r: nat)
    requires Reachable(cfg, elapsed, s) && r in s.reps && !Terminal(s.reps[r].cell.state)
    ensures s.reps[r].cell.request.fence.assignment.worker == CurrentWorker(cfg.gate, s.gate)
    ensures IdOf(s.reps[r].cell) in s.replicas && s.replicas[IdOf(s.reps[r].cell)] == r
  {
    ReachableIsGood(cfg, elapsed, s);
    assert RepOk(cfg, s, r);
  }

  /**
   At the instant it is accepted, an invocation's own replica is Ready and
   listed, its fence is the one authorized, of the highest discovery epoch and
   the current session, within its lifetime, and the agent is not closing.
   */
  lemma AcceptedInvocationIsFenced(
      cfg: AgentConfig, elapsed: int, s: Sys, i: nat, aliveBefore: bool, now: int, aliveAfter: bool)
    requires Reachable(cfg, elapsed, s) && i in s.invs && Accepts(s, i, aliveBefore, now, aliveAfter)
    ensures !s.closing && s.invs[i].rep in s.reps
    ensures var v, x := s.invs[i], s.reps[s.invs[i].rep].cell;
            && x.state.Ready? && x.lease && x.request.fence.assignment == v.fence.assignment
            && ReadyAs(s, v.fence.assignment) && s.replicas[v.fence.assignment.assignmentId] == v.rep
            && v.fence.assignment.worker == CurrentWorker(cfg.gate, s.gate)
            && v.fence.discoveryEpoch == s.gate.discovery
            && v.fence.assignment.assignmentId in s.gate.authorizations
            && var record := s.gate.authorizations[v.fence.assignment.assignmentId];
               record.authorization.fence == v.fence && Live(s.gate, record, now)
  {
    ReachableIsGood(cfg, elapsed, s);
    assert InvOk(s, i) && RepOk(cfg, s, s.invs[i].rep);
  }

  // ---------- leases ----------

  /** However preparation, use, cancellation and loss interleave, a lease is in one place and goes back at most once. */
  lemma LeaseReturnedAtMostOnce(cfg: AgentConfig, elapsed: int, s: Sys, r: nat)
    requires Reachable(cfg, elapsed, s) && r in s.reps
    ensures var x := s.reps[r];
            && x.returned <= x.acquired <= 1 && x.actions <= 1
            && x.acquired - x.returned == (if x.prep.Holding? then 1 else 0) + (if x.cell.lease then 1 else 0) + x.actions
            && (x.cell.doneClosed ==> x.returned == x.acquired)
  {
    ReachableIsGood(cfg, elapsed, s);
    assert RepOk(cfg, s, r);
  }

  /** A lease that is being returned, or was, has no invocation on its replica. */
  lemma NoUserOfReturnedLease(cfg: AgentConfig, elapsed: int, s: Sys, i: nat)
    requires Reachable(cfg, elapsed, s) && i in s.invs
    ensures s.invs[i].rep in s.reps
    ensures var x := s.reps[s.invs[i].rep]; x.cell.lease && x.actions == 0 && x.returned == 0
  {
    ReachableIsGood(cfg, elapsed, s);
    LeaveStepCounts(cfg, s, i);
  }

  lemma LeaveStepCounts(cfg: AgentConfig, s: Sys, i: nat)
    requires RepsOk(cfg, s) && InvsOk(s) && i in s.invs
    ensures s.invs[i].rep in s.reps
    ensures var x := s.reps[s.invs[i].rep]; x.cell.lease && x.actions == 0 && x.returned == 0
  {
    assert InvOk(s, i) && RepOk(cfg, s, s.invs[i].rep);
    LeaverIsCounted(s, i);
  }

  /** `users` and `active` count exactly the entered and the accepted invocations. */
  lemma CountersAreExact(cfg: AgentConfig, elapsed: int, s: Sys, r: nat)
    requires Reachable(cfg, elapsed, s) && r in s.reps
    ensures s.reps[r].cell.users == |InvsOf(s.invs, r)| && s.reps[r].cell.active == |AcceptedOf(s.invs, r)|
  {
    ReachableIsGood(cfg, elapsed, s);
    assert UsersOk(s.reps, s.invs, r);
  }

  // ---------- the replica state machine ----------

  /** transitionLocked never panics, and no section leaves a replica in a passing state. */
  lemma NoInvalidTransition(cfg: AgentConfig, elapsed: int, s: Sys, r: nat)
    requires Reachable(cfg, elapsed, s) && r in s.reps
    ensures var state := s.reps[r].cell.state;
            state.Fetching? || state.Ready? || state.Draining? || Terminal(state)
  {
    ReachableIsGood(cfg, elapsed, s);
    assert RepOk(cfg, s, r);
  }

  /** A Draining replica, or a terminal one that is not done, has somebody left who will move it on. */
  lemma NoReplicaIsStuck(cfg: AgentConfig, elapsed: int, s: Sys, r: nat)
    requires Reachable(cfg, elapsed, s) && r in s.reps
    ensures var x := s.reps[r];
            && (x.cell.state.Draining? ==> !x.prep.NoPrep? || InvsOf(s.invs, r) != {})
            && (Terminal(x.cell.state) && !x.cell.doneClosed ==>
                  !x.prep.NoPrep? || InvsOf(s.invs, r) != {} || x.actions + x.finishing > 0)
            && (x.cell.preparedDone <==> x.prep.NoPrep?)
  {
    ReachableIsGood(cfg, elapsed, s);
    assert RepOk(cfg, s, r) && UsersOk(s.reps, s.invs, r);
  }

  /** The cache is closed only when every lease ever obtained is back and nothing is prepared or invoked. */
  lemma CacheClosedAfterAllLeases(cfg: AgentConfig, elapsed: int, s: Sys)
    requires Reachable(cfg, elapsed, s) && (s.cacheClosing || s.closed)
    ensures s.closing && s.invs == map[]
    ensures forall r :: r in s.reps ==> s.reps[r].returned == s.reps[r].acquired && s.reps[r].prep.NoPrep?
  {
    ReachableIsGood(cfg, elapsed, s);
    AllDoneIsQuiet(cfg, s);
  }

  lemma AllDoneIsQuiet(cfg: AgentConfig, s: Sys)
    requires RepsOk(cfg, s) && InvsOk(s) && AllDone(s)
    ensures s.invs == map[]
    ensures forall r :: r in s.reps ==> s.reps[r].returned == s.reps[r].acquired && s.reps[r].prep.NoPrep?
  {
    forall r | r in s.reps ensures s.reps[r].returned == s.reps[r].acquired && s.reps[r].prep.NoPrep? {
      assert RepOk(cfg, s, r);
    }
    UsersAreNotDone(cfg, s);
  }

  lemma UsersAreNotDone(cfg: AgentConfig, s: Sys)
    requires RepsOk(cfg, s) && InvsOk(s)
    ensures forall i :: i in s.invs ==> s.invs[i].rep in s.reps && !s.reps[s.invs[i].rep].cell.doneClosed
  {
    forall i | i in s.invs ensures s.invs[i].rep in s.reps && !s.reps[s.invs[i].rep].cell.doneClosed {
      LeaveStepCounts(cfg, s, i);
      assert RepOk(cfg, s, s.invs[i].rep);
    }
  }

  // ---------- every acceptance goes back to an installation ----------

  ghost predicate IsRun(cfg: AgentConfig, elapsed: int, states: seq<Sys>, steps: seq<Step>) {
    R.IsRun(Init(elapsed), Moves(cfg), states, steps)
  }

  /** Step j installs this record for a Ready replica. */
  ghost predicate InstallsAt(cfg: AgentConfig, states: seq<Sys>, steps: seq<Step>, j: nat, r: Record)
    requires j < |steps| <= |states|
  {
    && steps[j] == InstallAuth(r.connection, r.authorization, r.receivedAt)
    && !states[j].closing && ReadyAs(states[j], r.authorization.fence.assignment)
    && Install(cfg.gate, states[j].gate, r.connection, r.authorization, r.receivedAt).1 == Ok
  }

  lemma OnlyInstallAuthStores(cfg: AgentConfig, s: Sys, step: Step, id: string, r: Record)
    requires Enabled(s, step) && GH.Stores(Next(cfg, s, step).gate, id, r) && !GH.Stores(s.gate, id, r)
    ensures step == InstallAuth(r.connection, r.authorization, r.receivedAt)
    ensures !s.closing && ReadyAs(s, r.authorization.fence.assignment)
    ensures Install(cfg.gate, s.gate, r.connection, r.authorization, r.receivedAt).1 == Ok
  {
    match step
    case AcceptConnection(c) => GateOnly(cfg, s.gate, GH.Accepting(c), id, r);
    case InstallAuth(c, a, now) => GH.OnlyInstallStores(cfg.gate, s.gate, GH.Installing(c, a, now), id, r);
    case Check(i, before, now, after) => GateOnly(cfg, s.gate, GH.Authorizing(s.invs[i].fence, now), id, r);
    case _ =>
  }

  lemma GateOnly(cfg: AgentConfig, g: GateState, e: GH.Event, id: string, r: Record)
    requires !e.Installing? && !GH.Stores(g, id, r)
    ensures !GH.Stores(GH.After(cfg.gate, g, e), id, r)
  {
  }

  lemma {:induction false} FindInstallStep(
      cfg: AgentConfig, elapsed: int, states: seq<Sys>, steps: seq<Step>, k: nat, id: string, r: Record) returns (j: nat)
    requires IsRun(cfg, elapsed, states, steps) && k < |states| && GH.Stores(states[k].gate, id, r)
    ensures j < k && InstallsAt(cfg, states, steps, j, r)
    ensures forall m :: j < m <= k ==> GH.Stores(states[m].gate, id, r)
  {
    assert k > 0;
    assert R.Move(states[k - 1], steps[k - 1], states[k]) in Moves(cfg);
    if GH.Stores(states[k - 1].gate, id, r) {
      j := FindInstallStep(cfg, elapsed, states, steps, k - 1, id, r);
    } else {
      OnlyInstallAuthStores(cfg, states[k - 1], steps[k - 1], id, r);
      j := k - 1;
    }
  }

  // ---------- and nothing withdrew it since ----------

  /** The gate keeps r for id: same Leader, same session, and for a live-only r the same connection, still up. */
  predicate InForce(g: GateState, id: string, r: Record) {
    && GH.Stores(g, id, r) && g.discovery == r.authorization.fence.discoveryEpoch
    && g.session == r.authorization.fence.assignment.worker.epoch
    && (r.authorization.lifetime == LiveOnly ==> g.control == Control(r.connection, true))
  }

  ghost function DeadAgents(c: Connection): iset<Sys> {
    iset s: Sys | GH.Dead(s.gate, c)
  }

  lemma DeadStaysDead(cfg: AgentConfig, s: Sys, step: Step, c: Connection)
    requires Enabled(s, step) && GH.Dead(s.gate, c)
    ensures GH.Dead(Next(cfg, s, step).gate, c)
  {
    match step
    case AcceptConnection(a) => DeadAfter(cfg, s.gate, GH.Accepting(a), c);
    case Disconnect(d) => DeadAfter(cfg, s.gate, GH.Disconnecting(d), c);
    case InstallAuth(i, a, now) => DeadAfter(cfg, s.gate, GH.Installing(i, a, now), c);
    case Check(i, before, now, after) => DeadAfter(cfg, s.gate, GH.Authorizing(s.invs[i].fence, now), c);
    case _ => SameControl(cfg, s, step);
  }

  lemma SameControl(cfg: AgentConfig, s: Sys, step: Step)
    requires Enabled(s, step) && !step.AcceptConnection? && !step.Disconnect? && !step.InstallAuth? && !step.Check?
    ensures Next(cfg, s, step).gate.control == s.gate.control && Next(cfg, s, step).gate.session == s.gate.session
  {
  }

  lemma DeadAfter(cfg: AgentConfig, g: GateState, e: GH.Event, c: Connection)
    requires GH.Dead(g, c)
    ensures GH.Dead(GH.After(cfg.gate, g, e), c)
  {
  }

  /** A connection that is up at both ends of a stretch of a run was up throughout. */
  lemma StayedConnected(
      cfg: AgentConfig, elapsed: int, states: seq<Sys>, steps: seq<Step>, c: Connection, m: nat, k: nat)
    requires IsRun(cfg, elapsed, states, steps) && m <= k < |states|
    requires c.sessionEpoch <= states[m].gate.session && states[k].gate.control == Control(c, true)
    ensures states[m].gate.control == Control(c, true)
  {
    forall x | x in Moves(cfg) && x.pre in DeadAgents(c) ensures x.post in DeadAgents(c) {
      DeadStaysDead(cfg, x.pre, x.step, c);
    }
    if GH.Dead(states[m].gate, c) {
      R.StaysFrom(Init(elapsed), Moves(cfg), DeadAgents(c), states, steps, m, k);
    }
  }

  lemma StaysInForce(
      cfg: AgentConfig, elapsed: int, states: seq<Sys>, steps: seq<Step>, id: string, r: Record, m: nat, k: nat)
    requires IsRun(cfg, elapsed, states, steps) && m <= k < |states| && GH.Stores(states[m].gate, id, r)
    requires r.authorization.lifetime == LiveOnly ==> states[k].gate.control == Control(r.connection, true)
    ensures InForce(states[m].gate, id, r)
  {
    assert states[m] in states;
    ReachableIsGood(cfg, elapsed, states[m]);
    assert GH.RecordOk(cfg.gate, states[m].gate, id) && GH.IdentityOk(cfg.gate, states[m].gate, id);
    if r.authorization.lifetime == LiveOnly {
      StayedConnected(cfg, elapsed, states, steps, r.connection, m, k);
    }
  }

  /**
   Every accepted invocation was authorized by an earlier InstallAuthorization for the same fence. At every
   moment in between its Assignment had a Ready replica with that exact identity and the authorization was in
   force: not withdrawn, no newer Leader or session, and, when live-only, over a connection that never
   dropped. By the Worker's own clock it is within its lifetime.
   */
  lemma AcceptedWasInstalled(
      cfg: AgentConfig, elapsed: int, states: seq<Sys>, steps: seq<Step>, k: nat) returns (j: nat, r: Record)
    requires IsRun(cfg, elapsed, states, steps) && k < |steps| && steps[k].Check?
    requires steps[k].inv in states[k].invs
    requires Accepts(states[k], steps[k].inv, steps[k].aliveBefore, steps[k].now, steps[k].aliveAfter)
    ensures j < k && InstallsAt(cfg, states, steps, j, r)
    ensures r.authorization.fence == states[k].invs[steps[k].inv].fence
    ensures forall m :: j < m <= k ==> ReadyAs(states[m], r.authorization.fence.assignment)
    ensures forall m :: j < m <= k ==> InForce(states[m].gate, r.authorization.fence.assignment.assignmentId, r)
    ensures states[k].gate.healthy && r.receivedAt <= steps[k].now
    ensures r.authorization.lifetime == Ttl ==>
      steps[k].now < r.receivedAt + r.authorization.ttl <= r.receivedAt + cfg.gate.maxTtl
  {
    var f := states[k].invs[steps[k].inv].fence;
    var id := f.assignment.assignmentId;
    r := states[k].gate.authorizations[id];
    j := FindInstallStep(cfg, elapsed, states, steps, k, id, r);
    forall m | j < m <= k
      ensures ReadyAs(states[m], r.authorization.fence.assignment) && InForce(states[m].gate, id, r)
    {
      assert states[m] in states;
      AuthorizationsAreForReadyReplicas(cfg, elapsed, states[m], id);
      StaysInForce(cfg, elapsed, states, steps, id, r, m, k);
    }
    assert states[k] in states;
    ReachableIsGood(cfg, elapsed, states[k]);
    assert GH.RecordOk(cfg.gate, states[k].gate, id);
  }
}
