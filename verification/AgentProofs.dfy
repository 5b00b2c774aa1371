/** Every critical section of the Worker Agent keeps the joint invariant of Agent and Gate. */
module AgentProofs {
  import opened ServingAuth
  import opened AgentReplica
  import opened GateHistories
  import opened AgentSystem

  // ---------- frames ----------

  /** At most replica r changes; table, epochs and flags stay. */
  ghost predicate OnlyRep(s: Sys, s': Sys, r: nat) {
    && r in s.reps && s'.reps.Keys == s.reps.Keys && (forall q :: q in s.reps && q != r ==> s'.reps[q] == s.reps[q])
    && s'.replicas == s.replicas && s'.closing == s.closing && s'.nextRep == s.nextRep
    && s'.gate.session == s.gate.session
    && s'.reps[r].cell.request == s.reps[r].cell.request
  }

  lemma OneRep(cfg: AgentConfig, s: Sys, s': Sys, r: nat)
    requires RepsOk(cfg, s) && OnlyRep(s, s', r)
    requires RepOk(cfg, s', r)
    ensures RepsOk(cfg, s')
  {
    forall q | q in s'.reps ensures RepOk(cfg, s', q) { assert RepOk(cfg, s, q); }
    forall id | id in s'.replicas ensures ListedOk(s', id) { assert ListedOk(s, id); }
  }

  predicate SameLoad(x: Replica, y: Replica) {
    y.request == x.request && y.users == x.users && y.active == x.active
  }

  /** No replica changes its users; the invocations stay. */
  lemma SameUsers(s: Sys, s': Sys)
    requires InvsOk(s) && s'.invs == s.invs && s'.nextInv == s.nextInv && s'.reps.Keys == s.reps.Keys
    requires forall r :: r in s.reps ==> SameLoad(s.reps[r].cell, s'.reps[r].cell)
    ensures InvsOk(s')
  {
    forall i | i in s'.invs ensures InvOk(s', i) { assert InvOk(s, i); }
    forall r | r in s'.reps ensures UsersOk(s'.reps, s'.invs, r) { assert UsersOk(s.reps, s.invs, r); }
  }

  /** Done replicas stay done, and no replica appears while closing. */
  lemma ClosersStay(s: Sys, s': Sys)
    requires ClosersOk(s) && s'.closers == s.closers && s'.nextCloser == s.nextCloser
    requires s'.cacheClosing == s.cacheClosing && s'.closed == s.closed && s'.closing == s.closing
    requires s.closing ==>
      forall r :: r in s'.reps ==> r in s.reps && (s.reps[r].cell.doneClosed ==> s'.reps[r].cell.doneClosed)
    ensures ClosersOk(s')
  {
    forall k | k in s'.closers ensures CloserOk(s', k) { assert CloserOk(s, k); }
  }

  // ---------- stopping replicas ----------

  lemma StopRepOk(x: Rep, next: RState)
    requires Shape(x.cell) && LeaseOk(x) && (next.Draining? || next.Lost?)
    ensures var y := StopRep(x, next);
            && Shape(y.cell) && LeaseOk(y) && y.cell.request == x.cell.request
            && y.cell.users == x.cell.users && y.cell.active == x.cell.active
            && (y.cell.state.Draining? || Terminal(y.cell.state)) && (next.Lost? ==> Terminal(y.cell.state))
            && (Terminal(x.cell.state) ==> y == x)
  {
    StopShape(x.cell, next);
  }

  /** Stopping `who` leaves no live replica outside session `worker`, and when closing none that is not stopped. */
  ghost predicate Covers(s: Sys, who: set<nat>, next: RState, worker: Session, closing: bool) {
    && (forall r :: r in s.reps && !Terminal(s.reps[r].cell.state) && !(r in who && next.Lost?) ==>
          s.reps[r].cell.request.fence.assignment.worker == worker)
    && (closing ==> s.closing || forall r :: r in s.reps && !Terminal(s.reps[r].cell.state) ==> r in who)
  }

  lemma StopOne(cfg: AgentConfig, s: Sys, s': Sys, who: set<nat>, next: RState, r: nat)
    requires r in s.reps && RepOk(cfg, s, r) && (next.Draining? || next.Lost?)
    requires s'.reps == StopAll(s, who, next).reps && s'.replicas == s.replicas && s'.nextRep == s.nextRep
    requires Covers(s, who, next, CurrentWorker(cfg.gate, s'.gate), s'.closing)
    ensures RepOk(cfg, s', r) && SameLoad(s.reps[r].cell, s'.reps[r].cell)
    ensures s.reps[r].cell.doneClosed ==> s'.reps[r].cell.doneClosed
  {
    StopRepOk(s.reps[r], next);
  }

  lemma StopReps(cfg: AgentConfig, s: Sys, s': Sys, who: set<nat>, next: RState)
    requires RepsOk(cfg, s) && (next.Draining? || next.Lost?)
    requires s'.reps == StopAll(s, who, next).reps && s'.replicas == s.replicas && s'.nextRep == s.nextRep
    requires Covers(s, who, next, CurrentWorker(cfg.gate, s'.gate), s'.closing)
    ensures RepsOk(cfg, s')
  {
    forall r | r in s'.reps ensures RepOk(cfg, s', r) && SameLoad(s.reps[r].cell, s'.reps[r].cell) {
      assert RepOk(cfg, s, r);
      StopOne(cfg, s, s', who, next, r);
    }
    forall id | id in s'.replicas ensures ListedOk(s', id) { assert ListedOk(s, id); }
  }

  lemma StopUsers(cfg: AgentConfig, s: Sys, s': Sys, who: set<nat>, next: RState)
    requires RepsOk(cfg, s) && InvsOk(s) && (next.Draining? || next.Lost?)
    requires s'.reps == StopAll(s, who, next).reps && s'.invs == s.invs && s'.nextInv == s.nextInv
    ensures InvsOk(s')
  {
    forall r | r in s.reps
      ensures SameLoad(s.reps[r].cell, s'.reps[r].cell)
    {
      assert RepOk(cfg, s, r);
      StopRepOk(s.reps[r], next);
    }
    SameUsers(s, s');
  }

  lemma StopDone(cfg: AgentConfig, s: Sys, who: set<nat>, next: RState, r: nat)
    requires RepsOk(cfg, s) && (next.Draining? || next.Lost?) && r in s.reps && s.reps[r].cell.doneClosed
    ensures StopAll(s, who, next).reps[r].cell.doneClosed
  {
    assert RepOk(cfg, s, r);
    StopRepOk(s.reps[r], next);
  }

  lemma RevokeAllOk(cfg: GateConfig, g: GateState, ids: set<string>)
    requires GateOk(cfg, g)
    ensures GateOk(cfg, RevokeAll(g, ids))
  {
    assert forall x :: x in g.authorizations ==> RecordOk(cfg, g, x);
    ShrunkOk(cfg, g, RevokeAll(g, ids));
  }

  /** `g` holds no permission the gate of s does not hold; stopping `who` revokes theirs. */
  lemma StopPermissions(cfg: AgentConfig, s: Sys, s': Sys, g: GateState, who: set<nat>, next: RState)
    requires RepsOk(cfg, s) && PermissionsOk(cfg, s) && GateOk(cfg.gate, g)
    requires forall id :: id in g.assignments ==>
      id in s.gate.assignments && g.assignments[id] == s.gate.assignments[id]
    requires s'.reps == StopAll(s, who, next).reps && s'.replicas == s.replicas
    requires s'.gate == RevokeAll(g, RevokedIds(s.reps, who))
    ensures PermissionsOk(cfg, s')
  {
    RevokeAllOk(cfg.gate, g, RevokedIds(s.reps, who));
    forall id | id in s'.gate.assignments ensures ReadyAs(s', s'.gate.assignments[id]) {
      assert ReadyAs(s, s.gate.assignments[id]) && IdentityOk(cfg.gate, s.gate, id);
      assert ListedOk(s, id);
      var r := s.replicas[id];
      assert IdOf(s.reps[r].cell) == id;
      assert r in who ==> id in RevokedIds(s.reps, who);
    }
  }

  lemma StopInv(cfg: AgentConfig, s: Sys, s': Sys, g: GateState, who: set<nat>, next: RState)
    requires Inv(cfg, s) && (next.Draining? || next.Lost?) && GateOk(cfg.gate, g)
    requires forall id :: id in g.assignments ==>
      id in s.gate.assignments && g.assignments[id] == s.gate.assignments[id]
    requires Covers(s, who, next, CurrentWorker(cfg.gate, g), s.closing)
    requires s' == StopAll(s.(gate := g), who, next)
    ensures Inv(cfg, s')
  {
    assert s'.reps == StopAll(s, who, next).reps;
    StopReps(cfg, s, s', who, next);
    StopUsers(cfg, s, s', who, next);
    StopPermissions(cfg, s, s', g, who, next);
    forall r | r in s.reps && s.reps[r].cell.doneClosed ensures s'.reps[r].cell.doneClosed {
      StopDone(cfg, s, who, next, r);
    }
    ClosersStay(s, s');
  }

  // ---------- control events ----------

  lemma AcceptShrinks(g: GateState, c: Connection)
    ensures var h := AcceptControl(g, c).0;
            && (forall id :: id in h.assignments ==> id in g.assignments && h.assignments[id] == g.assignments[id])
            && (h.session == g.session || h.session > g.session)
  {
  }

  lemma AcceptInv(cfg: AgentConfig, s: Sys, c: Connection)
    requires Inv(cfg, s)
    ensures Inv(cfg, AcceptNext(cfg, s, c))
  {
    if !s.closing {
      var g := AcceptControl(s.gate, c).0;
      var who := Outdated(cfg, s, g);
      AcceptOk(cfg.gate, s.gate, c);
      AcceptShrinks(s.gate, c);
      forall r | r in s.reps && !Terminal(s.reps[r].cell.state) && r !in who
        ensures s.reps[r].cell.request.fence.assignment.worker == CurrentWorker(cfg.gate, g)
      {
        assert RepOk(cfg, s, r);
        assert IdOf(s.reps[r].cell) in s.replicas;
      }
      StopInv(cfg, s, AcceptNext(cfg, s, c), g, who, Lost);
    }
  }

  lemma DisconnectInv(cfg: AgentConfig, s: Sys, c: Connection)
    requires Inv(cfg, s)
    ensures Inv(cfg, DisconnectNext(s, c))
  {
    var g := DisconnectControl(s.gate, c);
    DisconnectOk(cfg.gate, s.gate, c);
    assert forall r :: r in s.reps ==> RepOk(cfg, s, r);
    var who := if s.gate.control.connected && !g.control.connected then PreparingOn(s, c) else {};
    StopInv(cfg, s, DisconnectNext(s, c), g, who, Lost);
  }

  lemma CancelInv(cfg: AgentConfig, s: Sys, c: Connection, f: Fence)
    requires Inv(cfg, s)
    ensures Inv(cfg, CancelNext(cfg, s, c, f))
  {
    var s' := CancelNext(cfg, s, c, f);
    if s' != s {
      assert forall r :: r in s.reps ==> RepOk(cfg, s, r);
      assert s.(gate := s.gate) == s;
      StopInv(cfg, s, s', s.gate, {s.replicas[f.assignment.assignmentId]}, Draining);
    }
  }

  lemma AllAreListed(cfg: AgentConfig, s: Sys)
    requires RepsOk(cfg, s)
    ensures forall r :: r in s.reps && !s.reps[r].cell.doneClosed ==> r in Listed(s)
    ensures Covers(s, Listed(s), Draining, CurrentWorker(cfg.gate, s.gate), true)
  {
    forall r | r in s.reps ensures !s.reps[r].cell.doneClosed ==> r in Listed(s) {
      assert RepOk(cfg, s, r);
    }
  }

  lemma BeginCloseInv(cfg: AgentConfig, s: Sys)
    requires Inv(cfg, s)
    ensures Inv(cfg, BeginCloseNext(s))
  {
    var s', all := BeginCloseNext(s), Listed(s);
    AllAreListed(cfg, s);
    StopReps(cfg, s, s', all, Draining);
    StopUsers(cfg, s, s', all, Draining);
    StopPermissions(cfg, s, s', s.gate, all, Draining);
    forall r | r in s.reps && s.reps[r].cell.doneClosed ensures s'.reps[r].cell.doneClosed {
      StopDone(cfg, s, all, Draining, r);
    }
    BeginCloseClosers(s, s', all);
  }

  lemma BeginCloseClosers(s: Sys, s': Sys, all: set<nat>)
    requires ClosersOk(s) && s'.closing && s'.cacheClosing == s.cacheClosing && s'.closed == s.closed
    requires s'.closers == s.closers[s.nextCloser := Awaiting(all)] && s'.nextCloser == s.nextCloser + 1
    requires s'.reps.Keys == s.reps.Keys
    requires forall r :: r in s.reps && s.reps[r].cell.doneClosed ==> s'.reps[r].cell.doneClosed
    requires forall r :: r in s.reps && !s.reps[r].cell.doneClosed ==> r in all
    ensures ClosersOk(s')
  {
    assert s.nextCloser in s.closers ==> CloserOk(s, s.nextCloser);
    forall k | k in s'.closers ensures CloserOk(s', k) {
      assert k in s.closers ==> CloserOk(s, k);
    }
    assert forall k :: k in s.closers ==> s'.closers[k] == s.closers[k];
  }

  // ---------- preparation and release ----------

  /** A replica that was Ready, if it is the one that changes, still is. */
  lemma KeepPermissions(cfg: AgentConfig, s: Sys, s': Sys, r: nat)
    requires PermissionsOk(cfg, s) && OnlyRep(s, s', r) && GateOk(cfg.gate, s'.gate)
    requires s'.gate.assignments == s.gate.assignments
    requires s.reps[r].cell.state.Ready? ==> s'.reps[r].cell.state.Ready?
    ensures PermissionsOk(cfg, s')
  {
    forall id | id in s'.gate.assignments ensures ReadyAs(s', s'.gate.assignments[id]) {
      assert ReadyAs(s, s.gate.assignments[id]);
    }
  }

  lemma KeepClosers(s: Sys, s': Sys, r: nat)
    requires ClosersOk(s) && OnlyRep(s, s', r) && SameClosers(s, s')
    requires s.reps[r].cell.doneClosed ==> s'.reps[r].cell.doneClosed
    ensures ClosersOk(s')
  {
    ClosersStay(s, s');
  }

  predicate SameClosers(s: Sys, s': Sys) {
    s'.closers == s.closers && s'.nextCloser == s.nextCloser && s'.cacheClosing == s.cacheClosing && s'.closed == s.closed
  }

  lemma KeepUsers(s: Sys, s': Sys, r: nat)
    requires InvsOk(s) && OnlyRep(s, s', r) && s'.invs == s.invs && s'.nextInv == s.nextInv
    requires SameLoad(s.reps[r].cell, s'.reps[r].cell)
    ensures InvsOk(s')
  {
    SameUsers(s, s');
  }

  /** A new value in order for one replica, as far as that replica alone can tell. */
  predicate Replaces(x: Replica, y: Replica, closing: bool) {
    && SameLoad(x, y) && (x.doneClosed ==> y.doneClosed)
    && (closing ==> y.state.Draining? || Terminal(y.state))
    && (!Terminal(y.state) ==> !Terminal(x.state))
    && (x.state.Ready? ==> y.state.Ready?)
  }

  lemma PutRepOk(cfg: AgentConfig, s: Sys, s': Sys, r: nat)
    requires RepsOk(cfg, s) && OnlyRep(s, s', r)
    requires Shape(s'.reps[r].cell) && LeaseOk(s'.reps[r]) && Replaces(s.reps[r].cell, s'.reps[r].cell, s.closing)
    ensures RepsOk(cfg, s')
  {
    assert RepOk(cfg, s, r);
    OneRep(cfg, s, s', r);
  }

  /** One replica gets a new value in order; its users and everything outside it stay. */
  lemma PutInv(cfg: AgentConfig, s: Sys, s': Sys, r: nat)
    requires Inv(cfg, s) && r in s.reps && s' == s.(reps := s'.reps) && OnlyRep(s, s', r)
    requires Shape(s'.reps[r].cell) && LeaseOk(s'.reps[r]) && Replaces(s.reps[r].cell, s'.reps[r].cell, s.closing)
    ensures Inv(cfg, s')
  {
    PutRepOk(cfg, s, s', r);
    KeepUsers(s, s', r);
    KeepPermissions(cfg, s, s', r);
    KeepClosers(s, s', r);
  }

  lemma LeaseObtainedInv(cfg: AgentConfig, s: Sys, r: nat)
    requires Inv(cfg, s) && r in s.reps && s.reps[r].prep.Acquiring?
    ensures Inv(cfg, LeaseObtainedNext(s, r))
  {
    assert RepOk(cfg, s, r);
    PutInv(cfg, s, LeaseObtainedNext(s, r), r);
  }

  lemma PrepareOkRep(cfg: AgentConfig, s: Sys, r: nat, resultMatches: bool)
    requires r in s.reps && s.reps[r].prep.Holding? && RepOk(cfg, s, r)
    ensures var y := PrepareOkNext(cfg, s, r, resultMatches).reps[r];
            Shape(y.cell) && LeaseOk(y) && Replaces(s.reps[r].cell, y.cell, s.closing)
  {
    var x := s.reps[r];
    var stillAssigned := CheckAssignment(cfg.gate, s.gate, x.cell.request.connection, x.cell.request.fence) == Ok;
    PrepareDoneShape(x.cell, s.closing, stillAssigned, resultMatches);
  }

  lemma PrepareOkInv(cfg: AgentConfig, s: Sys, r: nat, resultMatches: bool)
    requires Inv(cfg, s) && r in s.reps && s.reps[r].prep.Holding?
    ensures Inv(cfg, PrepareOkNext(cfg, s, r, resultMatches))
  {
    assert RepOk(cfg, s, r);
    PrepareOkRep(cfg, s, r, resultMatches);
    PutInv(cfg, s, PrepareOkNext(cfg, s, r, resultMatches), r);
  }

  lemma PrepareErrInv(cfg: AgentConfig, s: Sys, r: nat)
    requires Inv(cfg, s) && r in s.reps && s.reps[r].prep.Acquiring?
    ensures Inv(cfg, PrepareErrNext(s, r))
  {
    assert RepOk(cfg, s, r);
    PrepareFailedShape(s.reps[r].cell);
    PutInv(cfg, s, PrepareErrNext(s, r), r);
  }

  lemma ReturnLeaseInv(cfg: AgentConfig, s: Sys, r: nat)
    requires Inv(cfg, s) && r in s.reps && s.reps[r].actions > 0
    ensures Inv(cfg, ReturnLeaseNext(s, r))
  {
    assert RepOk(cfg, s, r);
    PutInv(cfg, s, ReturnLeaseNext(s, r), r);
  }

  lemma EndReleaseInv(cfg: AgentConfig, s: Sys, r: nat)
    requires Inv(cfg, s) && r in s.reps && s.reps[r].finishing > 0
    ensures Inv(cfg, EndReleaseNext(s, r))
  {
    assert RepOk(cfg, s, r);
    ReleaseEndShape(s.reps[r].cell);
    PutInv(cfg, s, EndReleaseNext(s, r), r);
  }

  /** A fresh replica under an unused id. */
  ghost predicate Adds(s: Sys, s': Sys, y: Rep) {
    && s.nextRep !in s.reps && IdOf(y.cell) !in s.replicas && !s.closing
    && s'.reps == s.reps[s.nextRep := y] && s'.replicas == s.replicas[IdOf(y.cell) := s.nextRep]
    && s'.nextRep == s.nextRep + 1 && s'.gate == s.gate && s'.closing == s.closing
    && s'.invs == s.invs && s'.nextInv == s.nextInv && SameClosers(s, s')
  }

  lemma AddReps(cfg: AgentConfig, s: Sys, s': Sys, y: Rep)
    requires RepsOk(cfg, s) && Adds(s, s', y)
    requires Shape(y.cell) && LeaseOk(y) && ValidFence(y.cell.request.fence)
    requires y.cell.request.fence.assignment.worker == CurrentWorker(cfg.gate, s.gate)
    ensures RepsOk(cfg, s')
  {
    forall r | r in s'.reps ensures RepOk(cfg, s', r) { assert r in s.reps ==> RepOk(cfg, s, r); }
    forall id | id in s'.replicas ensures ListedOk(s', id) { assert id in s.replicas ==> ListedOk(s, id); }
  }

  lemma AddUsers(s: Sys, s': Sys, y: Rep)
    requires InvsOk(s) && Adds(s, s', y) && y.cell.users == y.cell.active == 0
    ensures InvsOk(s')
  {
    forall i | i in s'.invs ensures InvOk(s', i) { assert InvOk(s, i); }
    assert InvsOf(s.invs, s.nextRep) == {} && AcceptedOf(s.invs, s.nextRep) == {};
    forall r | r in s'.reps ensures UsersOk(s'.reps, s'.invs, r) {
      assert r in s.reps ==> UsersOk(s.reps, s.invs, r);
    }
  }

  lemma AddPermissions(cfg: AgentConfig, s: Sys, s': Sys, y: Rep)
    requires PermissionsOk(cfg, s) && Adds(s, s', y)
    ensures PermissionsOk(cfg, s')
  {
    forall id | id in s'.gate.assignments ensures ReadyAs(s', s'.gate.assignments[id]) {
      assert ReadyAs(s, s.gate.assignments[id]);
    }
  }

  lemma PrepareAdds(cfg: AgentConfig, s: Sys, request: Request, valid: bool)
    requires RepsOk(cfg, s) && PrepareNext(cfg, s, request, valid) != s
    ensures var y := Rep(NewReplica(request), Acquiring, 0, 0, 0, 0);
            && Adds(s, PrepareNext(cfg, s, request, valid), y)
            && Shape(y.cell) && LeaseOk(y) && ValidFence(y.cell.request.fence)
            && y.cell.request.fence.assignment.worker == CurrentWorker(cfg.gate, s.gate)
  {
    assert s.nextRep in s.reps ==> RepOk(cfg, s, s.nextRep);
  }

  lemma AddInv(cfg: AgentConfig, s: Sys, s': Sys, y: Rep)
    requires Inv(cfg, s) && Adds(s, s', y) && y.cell.users == y.cell.active == 0
    requires Shape(y.cell) && LeaseOk(y) && ValidFence(y.cell.request.fence)
    requires y.cell.request.fence.assignment.worker == CurrentWorker(cfg.gate, s.gate)
    ensures Inv(cfg, s')
  {
    AddReps(cfg, s, s', y);
    AddUsers(s, s', y);
    AddPermissions(cfg, s, s', y);
    ClosersStay(s, s');
  }

  lemma PrepareInv(cfg: AgentConfig, s: Sys, request: Request, valid: bool)
    requires Inv(cfg, s)
    ensures Inv(cfg, PrepareNext(cfg, s, request, valid))
  {
    if PrepareNext(cfg, s, request, valid) != s {
      PrepareAdds(cfg, s, request, valid);
      AddInv(cfg, s, PrepareNext(cfg, s, request, valid), Rep(NewReplica(request), Acquiring, 0, 0, 0, 0));
    }
  }

  // ---------- authorizations and invocations ----------

  lemma InstallKeeps(cfg: GateConfig, g: GateState, c: Connection, a: Authorization, now: int)
    ensures var h := Install(cfg, g, c, a, now).0;
            && h.session == g.session
            && forall id :: id in h.assignments ==>
                 (id in g.assignments && h.assignments[id] == g.assignments[id]) || h.assignments[id] == a.fence.assignment
  {
  }

  lemma InstallInv(cfg: AgentConfig, s: Sys, c: Connection, a: Authorization, now: int)
    requires Inv(cfg, s)
    ensures Inv(cfg, InstallNext(cfg, s, c, a, now))
  {
    if !s.closing && ReadyAs(s, a.fence.assignment) {
      InstallOk(cfg.gate, s.gate, c, a, now);
      InstallKeeps(cfg.gate, s.gate, c, a, now);
      GateInv(cfg, s, InstallNext(cfg, s, c, a, now));
    }
  }

  /** Only the gate changes, within its session, and every permission names a Ready replica. */
  lemma GateInv(cfg: AgentConfig, s: Sys, s': Sys)
    requires Inv(cfg, s) && s' == s.(gate := s'.gate) && s'.gate.session == s.gate.session && GateOk(cfg.gate, s'.gate)
    requires forall id :: id in s'.gate.assignments ==>
      (id in s.gate.assignments && s'.gate.assignments[id] == s.gate.assignments[id]) || ReadyAs(s, s'.gate.assignments[id])
    ensures Inv(cfg, s')
  {
    forall r | r in s'.reps ensures RepOk(cfg, s', r) { assert RepOk(cfg, s, r); }
    forall id | id in s'.replicas ensures ListedOk(s', id) { assert ListedOk(s, id); }
    SameUsers(s, s');
    forall id | id in s'.gate.assignments ensures ReadyAs(s', s'.gate.assignments[id]) {
      assert id in s.gate.assignments ==> ReadyAs(s, s.gate.assignments[id]);
    }
    ClosersStay(s, s');
  }

  lemma AddInvocation(invs: map<nat, Invocation>, i: nat, v: Invocation, r: nat)
    requires i !in invs && !v.accepted
    ensures |InvsOf(invs[i := v], r)| == |InvsOf(invs, r)| + (if v.rep == r then 1 else 0)
    ensures |AcceptedOf(invs[i := v], r)| == |AcceptedOf(invs, r)|
  {
    assert InvsOf(invs[i := v], r) == InvsOf(invs, r) + (if v.rep == r then {i} else {});
    assert AcceptedOf(invs[i := v], r) == AcceptedOf(invs, r);
  }

  lemma AcceptInvocation(invs: map<nat, Invocation>, i: nat, r: nat)
    requires i in invs && !invs[i].accepted
    ensures var invs' := invs[i := invs[i].(accepted := true)];
            && |InvsOf(invs', r)| == |InvsOf(invs, r)|
            && |AcceptedOf(invs', r)| == |AcceptedOf(invs, r)| + (if invs[i].rep == r then 1 else 0)
  {
    var invs' := invs[i := invs[i].(accepted := true)];
    assert InvsOf(invs', r) == InvsOf(invs, r);
    assert AcceptedOf(invs', r) == AcceptedOf(invs, r) + (if invs[i].rep == r then {i} else {});
  }

  lemma RemoveInvocation(invs: map<nat, Invocation>, i: nat, r: nat)
    requires i in invs
    ensures |InvsOf(invs - {i}, r)| == |InvsOf(invs, r)| - (if invs[i].rep == r then 1 else 0)
    ensures |AcceptedOf(invs - {i}, r)| == |AcceptedOf(invs, r)| - (if invs[i].rep == r && invs[i].accepted then 1 else 0)
  {
    assert InvsOf(invs - {i}, r) == InvsOf(invs, r) - (if invs[i].rep == r then {i} else {});
    assert AcceptedOf(invs - {i}, r) == AcceptedOf(invs, r) - (if invs[i].rep == r && invs[i].accepted then {i} else {});
  }

  lemma AcceptedAreUsers(invs: map<nat, Invocation>, r: nat)
    ensures |AcceptedOf(invs, r)| <= |InvsOf(invs, r)|
    ensures (exists i :: i in invs && invs[i].rep == r && !invs[i].accepted) ==> |AcceptedOf(invs, r)| < |InvsOf(invs, r)|
  {
    SubsetSize(AcceptedOf(invs, r), InvsOf(invs, r));
    if i :| i in invs && invs[i].rep == r && !invs[i].accepted {
      SubsetSize(AcceptedOf(invs, r) + {i}, InvsOf(invs, r));
    }
  }

  lemma {:induction false} SubsetSize(a: set<nat>, b: set<nat>)
    requires a <= b
    ensures |a| <= |b|
  {
    if a != {} {
      var x :| x in a;
      SubsetSize(a - {x}, b - {x});
    }
  }

  ghost predicate SameCount(invs: map<nat, Invocation>, invs': map<nat, Invocation>, q: nat) {
    |InvsOf(invs', q)| == |InvsOf(invs, q)| && |AcceptedOf(invs', q)| == |AcceptedOf(invs, q)|
  }

  /** Invocation i of s' runs on the same replica as in s, or is a new one on r. */
  predicate InvFrom(s: Sys, s': Sys, r: nat, i: nat)
    requires i in s'.invs && r in s.reps
  {
    && i < s'.nextInv
    && if i in s.invs then s'.invs[i].rep == s.invs[i].rep && s'.invs[i].fence == s.invs[i].fence
       else s'.invs[i].rep == r && s'.invs[i].fence.assignment == s.reps[r].cell.request.fence.assignment
  }

  /** Users of replica r and the invocations change together; r keeps its request. */
  ghost predicate Recounted(s: Sys, s': Sys, r: nat)
    requires OnlyRep(s, s', r)
  {
    && (forall q :: q in s.reps && q != r ==> SameCount(s.invs, s'.invs, q))
    && UsersOk(s'.reps, s'.invs, r)
    && (forall i :: i in s'.invs ==> InvFrom(s, s', r, i))
  }

  lemma RecountInvs(s: Sys, s': Sys, r: nat)
    requires InvsOk(s) && OnlyRep(s, s', r) && Recounted(s, s', r)
    ensures InvsOk(s')
  {
    forall i | i in s'.invs ensures InvOk(s', i) { assert InvFrom(s, s', r, i) && (i in s.invs ==> InvOk(s, i)); }
    forall q | q in s'.reps ensures UsersOk(s'.reps, s'.invs, q) {
      assert UsersOk(s.reps, s.invs, q) && (q != r ==> SameCount(s.invs, s'.invs, q));
    }
  }

  /** A counter change: the state stays, except that the last user of a Draining replica stops it. */
  ghost predicate CountsStep(x: Rep, y: Rep) {
    && Shape(y.cell) && LeaseOk(y)
    && (y.cell.state == x.cell.state || (x.cell.state.Draining? && y.cell.state.Stopped?))
    && (x.cell.doneClosed ==> y.cell.doneClosed)
  }

  lemma RecountReps(cfg: AgentConfig, s: Sys, s': Sys, r: nat)
    requires RepsOk(cfg, s) && OnlyRep(s, s', r) && CountsStep(s.reps[r], s'.reps[r])
    ensures RepsOk(cfg, s')
  {
    assert RepOk(cfg, s, r);
    OneRep(cfg, s, s', r);
  }

  lemma RecountInv(cfg: AgentConfig, s: Sys, s': Sys, r: nat)
    requires Inv(cfg, s) && OnlyRep(s, s', r) && Recounted(s, s', r) && CountsStep(s.reps[r], s'.reps[r])
    requires GateOk(cfg.gate, s'.gate) && s'.gate.assignments == s.gate.assignments && SameClosers(s, s')
    ensures Inv(cfg, s')
  {
    RecountReps(cfg, s, s', r);
    RecountInvs(s, s', r);
    KeepPermissions(cfg, s, s', r);
    KeepClosers(s, s', r);
  }

  lemma EnterCounts(s: Sys, s': Sys, r: nat, f: Fence)
    requires InvsOk(s) && OnlyRep(s, s', r) && s.reps[r].cell.request.fence.assignment == f.assignment
    requires s'.invs == s.invs[s.nextInv := Invocation(r, f, false)] && s'.nextInv == s.nextInv + 1
    requires s'.reps[r].cell.users == s.reps[r].cell.users + 1 && s'.reps[r].cell.active == s.reps[r].cell.active
    ensures Recounted(s, s', r)
  {
    assert s.nextInv in s.invs ==> InvOk(s, s.nextInv);
    forall q | q in s.reps && q != r ensures SameCount(s.invs, s'.invs, q) {
      AddInvocation(s.invs, s.nextInv, Invocation(r, f, false), q);
    }
    assert UsersOk(s'.reps, s'.invs, r) by {
      assert UsersOk(s.reps, s.invs, r);
      AddInvocation(s.invs, s.nextInv, Invocation(r, f, false), r);
    }
    forall i | i in s'.invs ensures InvFrom(s, s', r, i) { assert i in s.invs ==> InvOk(s, i); }
  }

  lemma EnterRep(s: Sys, r: nat, f: Fence)
    requires !s.closing && ReadyAs(s, f.assignment) && r == s.replicas[f.assignment.assignmentId]
    requires Shape(s.reps[r].cell) && LeaseOk(s.reps[r])
    ensures OnlyRep(s, EnterNext(s, f), r) && CountsStep(s.reps[r], EnterNext(s, f).reps[r])
  {
  }

  lemma EnterInv(cfg: AgentConfig, s: Sys, f: Fence)
    requires Inv(cfg, s)
    ensures Inv(cfg, EnterNext(s, f))
  {
    if !s.closing && ReadyAs(s, f.assignment) {
      var r := s.replicas[f.assignment.assignmentId];
      assert Shape(s.reps[r].cell) && LeaseOk(s.reps[r]) by { assert RepOk(cfg, s, r); }
      EnterRep(s, r, f);
      EnterCounts(s, EnterNext(s, f), r, f);
      RecountInv(cfg, s, EnterNext(s, f), r);
    }
  }

  lemma AcceptCounts(s: Sys, s': Sys, r: nat, i: nat)
    requires InvsOk(s) && i in s.invs && !s.invs[i].accepted && s.invs[i].rep == r && OnlyRep(s, s', r)
    requires s'.invs == s.invs[i := s.invs[i].(accepted := true)] && s'.nextInv == s.nextInv
    requires s'.reps[r].cell.users == s.reps[r].cell.users && s'.reps[r].cell.active == s.reps[r].cell.active + 1
    ensures Recounted(s, s', r)
  {
    forall q | q in s.reps && q != r ensures SameCount(s.invs, s'.invs, q) { AcceptInvocation(s.invs, i, q); }
    assert UsersOk(s'.reps, s'.invs, r) by {
      assert UsersOk(s.reps, s.invs, r);
      AcceptInvocation(s.invs, i, r);
    }
    forall j | j in s'.invs ensures InvFrom(s, s', r, j) { assert InvOk(s, j); }
  }

  lemma AcceptRep(s: Sys, r: nat, i: nat, now: int)
    requires i in s.invs && s.invs[i].rep == r && r in s.reps && Accepts(s, i, true, now, true)
    requires Shape(s.reps[r].cell) && LeaseOk(s.reps[r]) && s.reps[r].cell.active < s.reps[r].cell.users
    ensures var s' := CheckNext(s, i, true, now, true); OnlyRep(s, s', r) && CountsStep(s.reps[r], s'.reps[r])
  {
    AuthorizeKeeps(s.gate, s.invs[i].fence, now);
  }

  lemma AcceptsInv(cfg: AgentConfig, s: Sys, i: nat, now: int)
    requires Inv(cfg, s) && i in s.invs && !s.invs[i].accepted && s.invs[i].rep in s.reps
    requires Accepts(s, i, true, now, true)
    ensures Inv(cfg, CheckNext(s, i, true, now, true))
  {
    var r := s.invs[i].rep;
    AuthorizeOk(cfg.gate, s.gate, s.invs[i].fence, now);
    AuthorizeKeeps(s.gate, s.invs[i].fence, now);
    assert Shape(s.reps[r].cell) && LeaseOk(s.reps[r]) by { assert RepOk(cfg, s, r); }
    LeaverIsCounted(s, i);
    AcceptRep(s, r, i, now);
    AcceptCounts(s, CheckNext(s, i, true, now, true), r, i);
    RecountInv(cfg, s, CheckNext(s, i, true, now, true), r);
  }

  lemma AuthorizeKeeps(g: GateState, f: Fence, now: int)
    ensures var h := AuthorizeSync(g, f, now).0; h.session == g.session && h.assignments == g.assignments
  {
  }

  lemma CheckInv(cfg: AgentConfig, s: Sys, i: nat, aliveBefore: bool, now: int, aliveAfter: bool)
    requires Inv(cfg, s) && i in s.invs && !s.invs[i].accepted && s.invs[i].rep in s.reps
    ensures Inv(cfg, CheckNext(s, i, aliveBefore, now, aliveAfter))
  {
    if Accepts(s, i, aliveBefore, now, aliveAfter) {
      AcceptsInv(cfg, s, i, now);
    } else {
      AuthorizeOk(cfg.gate, s.gate, s.invs[i].fence, now);
      AuthorizeKeeps(s.gate, s.invs[i].fence, now);
      var s' := CheckNext(s, i, aliveBefore, now, aliveAfter);
      if s' != s { GateInv(cfg, s, s'); }
    }
  }

  lemma LeaveCounts(s: Sys, s': Sys, r: nat, i: nat)
    requires InvsOk(s) && i in s.invs && s.invs[i].rep == r && OnlyRep(s, s', r)
    requires s'.invs == s.invs - {i} && s'.nextInv == s.nextInv
    requires s'.reps[r].cell.users == s.reps[r].cell.users - 1
    requires s'.reps[r].cell.active == s.reps[r].cell.active - (if s.invs[i].accepted then 1 else 0)
    ensures Recounted(s, s', r)
  {
    forall q | q in s.reps && q != r ensures SameCount(s.invs, s'.invs, q) { RemoveInvocation(s.invs, i, q); }
    assert UsersOk(s'.reps, s'.invs, r) by {
      assert UsersOk(s.reps, s.invs, r);
      RemoveInvocation(s.invs, i, r);
    }
    forall j | j in s'.invs ensures InvFrom(s, s', r, j) { assert InvOk(s, j); }
  }

  lemma LeaverIsCounted(s: Sys, i: nat)
    requires InvsOk(s) && i in s.invs && s.invs[i].rep in s.reps
    ensures var x := s.reps[s.invs[i].rep].cell;
            x.users > 0 && if s.invs[i].accepted then x.active > 0 else x.active < x.users
  {
    var r := s.invs[i].rep;
    assert UsersOk(s.reps, s.invs, r);
    AcceptedAreUsers(s.invs, r);
    assert i in InvsOf(s.invs, r) && (s.invs[i].accepted ==> i in AcceptedOf(s.invs, r));
  }

  lemma LeaveRep(s: Sys, r: nat, i: nat)
    requires i in s.invs && s.invs[i].rep == r && r in s.reps && Shape(s.reps[r].cell) && LeaseOk(s.reps[r])
    requires var x := s.reps[r].cell; x.users > 0 && if s.invs[i].accepted then x.active > 0 else x.active < x.users
    ensures OnlyRep(s, LeaveNext(s, i), r)
    ensures var y := LeaveNext(s, i).reps[r];
            && CountsStep(s.reps[r], y) && y.cell.users == s.reps[r].cell.users - 1
            && y.cell.active == s.reps[r].cell.active - (if s.invs[i].accepted then 1 else 0)
  {
    LeaveShape(s.reps[r].cell, s.invs[i].accepted);
  }

  lemma LeaveInv(cfg: AgentConfig, s: Sys, i: nat)
    requires Inv(cfg, s) && i in s.invs && s.invs[i].rep in s.reps
    ensures Inv(cfg, LeaveNext(s, i))
  {
    var r := s.invs[i].rep;
    assert Shape(s.reps[r].cell) && LeaseOk(s.reps[r]) by { assert RepOk(cfg, s, r); }
    LeaverIsCounted(s, i);
    LeaveRep(s, r, i);
    LeaveCounts(s, LeaveNext(s, i), r, i);
    RecountInv(cfg, s, LeaveNext(s, i), r);
  }

  // ---------- acknowledgement and closing the cache ----------

  /** A done replica leaves the table. */
  ghost predicate Forgets(s: Sys, s': Sys, id: string) {
    && id in s.replicas && s.replicas[id] in s.reps && s.reps[s.replicas[id]].cell.doneClosed
    && s' == s.(replicas := s.replicas - {id})
  }

  lemma ForgetReps(cfg: AgentConfig, s: Sys, s': Sys, id: string)
    requires RepsOk(cfg, s) && Forgets(s, s', id)
    ensures RepsOk(cfg, s')
  {
    assert ListedOk(s, id);
    forall r | r in s'.reps ensures RepOk(cfg, s', r) { assert RepOk(cfg, s, r); }
    forall x | x in s'.replicas ensures ListedOk(s', x) { assert ListedOk(s, x); }
  }

  lemma ForgetPermissions(cfg: AgentConfig, s: Sys, s': Sys, id: string)
    requires RepsOk(cfg, s) && PermissionsOk(cfg, s) && Forgets(s, s', id)
    ensures PermissionsOk(cfg, s')
  {
    assert RepOk(cfg, s, s.replicas[id]);
    forall x | x in s'.gate.assignments ensures ReadyAs(s', s'.gate.assignments[x]) {
      assert ReadyAs(s, s.gate.assignments[x]);
    }
  }

  lemma ForgetInv(cfg: AgentConfig, s: Sys, s': Sys, id: string)
    requires Inv(cfg, s) && Forgets(s, s', id)
    ensures Inv(cfg, s')
  {
    ForgetReps(cfg, s, s', id);
    SameUsers(s, s');
    ForgetPermissions(cfg, s, s', id);
    ClosersStay(s, s');
  }

  lemma AcknowledgeInv(cfg: AgentConfig, s: Sys, c: Connection, id: string)
    requires Inv(cfg, s)
    ensures Inv(cfg, AcknowledgeNext(s, c, id))
  {
    if AcknowledgeNext(s, c, id) != s {
      ForgetInv(cfg, s, AcknowledgeNext(s, c, id), id);
    }
  }

  lemma CloseCacheInv(cfg: AgentConfig, s: Sys, k: nat)
    requires Inv(cfg, s) && Enabled(s, CloseCache(k))
    ensures Inv(cfg, CloseCacheNext(s, k))
  {
    var s' := CloseCacheNext(s, k);
    assert CloserOk(s, k);
    SameReps(cfg, s, s');
    forall l | l in s'.closers ensures CloserOk(s', l) { assert CloserOk(s, l); }
    assert AllDone(s);
    assert s'.cacheClosing && !s.cacheClosing ==> s'.closers[k].ClosingCache?;
    assert forall l :: l in s'.closers && l != k ==> s'.closers[l] == s.closers[l];
  }

  lemma CacheClosedInv(cfg: AgentConfig, s: Sys, k: nat, ok: bool)
    requires Inv(cfg, s) && k in s.closers && s.closers[k].ClosingCache?
    ensures Inv(cfg, CacheClosedNext(s, k, ok))
  {
    var s' := CacheClosedNext(s, k, ok);
    assert CloserOk(s, k);
    SameReps(cfg, s, s');
    forall l | l in s'.closers ensures CloserOk(s', l) { assert CloserOk(s, l); }
    assert AllDone(s);
  }

  lemma SameReps(cfg: AgentConfig, s: Sys, s': Sys)
    requires RepsOk(cfg, s) && InvsOk(s) && PermissionsOk(cfg, s)
    requires s'.reps == s.reps && s'.replicas == s.replicas && s'.gate == s.gate && s'.closing == s.closing
    requires s'.nextRep == s.nextRep && s'.invs == s.invs && s'.nextInv == s.nextInv
    ensures RepsOk(cfg, s') && InvsOk(s') && PermissionsOk(cfg, s')
  {
    forall r | r in s'.reps ensures RepOk(cfg, s', r) { assert RepOk(cfg, s, r); }
    forall id | id in s'.replicas ensures ListedOk(s', id) { assert ListedOk(s, id); }
    SameUsers(s, s');
  }

  lemma InitInv(cfg: AgentConfig, elapsed: int)
    ensures Inv(cfg, Init(elapsed))
  {
  }

  lemma StepInv(cfg: AgentConfig, s: Sys, step: Step)
    requires Inv(cfg, s) && Enabled(s, step)
    ensures Inv(cfg, Next(cfg, s, step))
  {
    match step
    case AcceptConnection(c) => AcceptInv(cfg, s, c);
    case Disconnect(c) => DisconnectInv(cfg, s, c);
    case Prepare(request, valid) => PrepareInv(cfg, s, request, valid);
    case LeaseObtained(r) => LeaseObtainedInv(cfg, s, r);
    case PrepareOk(r, resultMatches) => PrepareOkInv(cfg, s, r, resultMatches);
    case PrepareErr(r) => PrepareErrInv(cfg, s, r);
    case InstallAuth(c, a, now) => InstallInv(cfg, s, c, a, now);
    case Enter(f) => EnterInv(cfg, s, f);
    case Check(i, before, now, after) => CheckInv(cfg, s, i, before, now, after);
    case LeaveStep(i) => LeaveInv(cfg, s, i);
    case Cancel(c, f) => CancelInv(cfg, s, c, f);
    case Acknowledge(c, id) => AcknowledgeInv(cfg, s, c, id);
    case ReturnLease(r) => ReturnLeaseInv(cfg, s, r);
    case EndRelease(r) => EndReleaseInv(cfg, s, r);
    case BeginClose => BeginCloseInv(cfg, s);
    case CloseCache(k) => CloseCacheInv(cfg, s, k);
    case CacheClosed(k, ok) => CacheClosedInv(cfg, s, k, ok);
  }
}
