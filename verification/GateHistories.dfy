/** What the authorization gate guarantees over every history of calls. */
module GateHistories {
  import opened ServingAuth
  import R = Runs

  datatype Event =
    | Accepting(connection: Connection)
    | Disconnecting(connection: Connection)
    | Installing(connection: Connection, authorization: Authorization, now: int)
    | Authorizing(fence: Fence, now: int)
    | Revoking(id: string)

  function After(cfg: GateConfig, g: GateState, e: Event): GateState {
    match e
    case Accepting(c) => AcceptControl(g, c).0
    case Disconnecting(c) => DisconnectControl(g, c)
    case Installing(c, a, now) => Install(cfg, g, c, a, now).0
    case Authorizing(f, now) => AuthorizeSync(g, f, now).0
    case Revoking(id) => Revoke(g, id)
  }

  ghost function Moves(cfg: GateConfig): iset<R.Move<GateState, Event>> {
    iset m: R.Move<GateState, Event> | m.post == After(cfg, m.pre, m.step)
  }

  ghost predicate IsHistory(cfg: GateConfig, elapsed: int, states: seq<GateState>, events: seq<Event>) {
    R.IsRun(NewGate(elapsed), Moves(cfg), states, events)
  }

  /** The i-th event is an invocation check that lets the invocation run. */
  predicate Accepted(states: seq<GateState>, events: seq<Event>, i: nat)
    requires i < |events| <= |states|
  {
    events[i].Authorizing? && AuthorizeSync(states[i], events[i].fence, events[i].now).1 == Ok
  }

  /** The j-th event stores exactly this record. */
  predicate InstalledAt(cfg: GateConfig, states: seq<GateState>, events: seq<Event>, j: nat, r: Record)
    requires j < |events| <= |states|
  {
    && events[j] == Installing(r.connection, r.authorization, r.receivedAt)
    && Install(cfg, states[j], r.connection, r.authorization, r.receivedAt).1 == Ok
  }

  predicate Stores(g: GateState, id: string, r: Record) {
    id in g.authorizations && g.authorizations[id] == r
  }

  // ---------- invariants of single states ----------

  predicate RecordOk(cfg: GateConfig, g: GateState, id: string)
    requires id in g.authorizations
  {
    var r := g.authorizations[id];
    && ValidAuthorization(r.authorization, cfg.maxTtl)
    && id in g.assignments && g.assignments[id] == r.authorization.fence.assignment
    && r.authorization.fence.discoveryEpoch == g.discovery
    && r.connection.sessionEpoch == g.session && r.connection.discoveryEpoch == g.discovery
    && r.receivedAt <= g.lastElapsed
  }

  predicate IdentityOk(cfg: GateConfig, g: GateState, id: string)
    requires id in g.assignments
  {
    g.assignments[id].assignmentId == id && g.assignments[id].worker == CurrentWorker(cfg, g)
  }

  ghost predicate GateOk(cfg: GateConfig, g: GateState) {
    && g.control.connection.sessionEpoch <= g.session
    && (g.control.connected ==> g.control.connection.sessionEpoch == g.session
                                && g.control.connection.discoveryEpoch == g.discovery)
    && (forall id :: id in g.assignments ==> IdentityOk(cfg, g, id))
    && (forall id :: id in g.authorizations ==> RecordOk(cfg, g, id))
  }

  ghost function GoodGates(cfg: GateConfig): iset<GateState> {
    iset g: GateState | GateOk(cfg, g)
  }

  /** The permissions a step leaves in place stay in order while neither epoch moves. */
  lemma ShrunkOk(cfg: GateConfig, g: GateState, g': GateState)
    requires GateOk(cfg, g) && g'.discovery == g.discovery && g'.session == g.session
    requires g'.control == g.control || g'.control == g.control.(connected := false)
    requires g'.lastElapsed >= g.lastElapsed
    requires forall id :: id in g'.assignments ==> id in g.assignments && g'.assignments[id] == g.assignments[id]
    requires forall id :: id in g'.authorizations ==>
      id in g.authorizations && g'.authorizations[id] == g.authorizations[id] && id in g'.assignments
    ensures GateOk(cfg, g')
  {
    forall id | id in g'.assignments ensures IdentityOk(cfg, g', id) { assert IdentityOk(cfg, g, id); }
    forall id | id in g'.authorizations ensures RecordOk(cfg, g', id) { assert RecordOk(cfg, g, id); }
  }

  lemma InstallOk(cfg: GateConfig, g: GateState, c: Connection, a: Authorization, now: int)
    requires GateOk(cfg, g)
    ensures GateOk(cfg, Install(cfg, g, c, a, now).0)
  {
    var g' := Install(cfg, g, c, a, now).0;
    forall id | id in g'.assignments ensures IdentityOk(cfg, g', id) {
      assert id in g.assignments ==> IdentityOk(cfg, g, id);
    }
    forall id | id in g'.authorizations ensures RecordOk(cfg, g', id) {
      assert id in g.authorizations ==> RecordOk(cfg, g, id);
    }
  }

  lemma AcceptOk(cfg: GateConfig, g: GateState, c: Connection)
    requires GateOk(cfg, g)
    ensures GateOk(cfg, AcceptControl(g, c).0)
  {
    var g' := AcceptControl(g, c).0;
    forall id | id in g'.assignments ensures IdentityOk(cfg, g', id) { assert IdentityOk(cfg, g, id); }
    forall id | id in g'.authorizations ensures RecordOk(cfg, g', id) { assert RecordOk(cfg, g, id); }
  }

  lemma AuthorizeOk(cfg: GateConfig, g: GateState, f: Fence, now: int)
    requires GateOk(cfg, g)
    ensures GateOk(cfg, AuthorizeSync(g, f, now).0)
  {
    assert forall id :: id in g.authorizations ==> RecordOk(cfg, g, id);
    ShrunkOk(cfg, g, AuthorizeSync(g, f, now).0);
  }

  lemma RevokeOk(cfg: GateConfig, g: GateState, id: string)
    requires GateOk(cfg, g)
    ensures GateOk(cfg, Revoke(g, id))
  {
    assert forall x :: x in g.authorizations ==> RecordOk(cfg, g, x);
    ShrunkOk(cfg, g, Revoke(g, id));
  }

  lemma DisconnectOk(cfg: GateConfig, g: GateState, c: Connection)
    requires GateOk(cfg, g)
    ensures GateOk(cfg, DisconnectControl(g, c))
  {
    assert forall x :: x in g.authorizations ==> RecordOk(cfg, g, x);
    ShrunkOk(cfg, g, DisconnectControl(g, c));
  }

  lemma AfterOk(cfg: GateConfig, g: GateState, e: Event)
    requires GateOk(cfg, g)
    ensures GateOk(cfg, After(cfg, g, e))
  {
    match e
    case Accepting(c) => AcceptOk(cfg, g, c);
    case Disconnecting(c) => DisconnectOk(cfg, g, c);
    case Installing(c, a, now) => InstallOk(cfg, g, c, a, now);
    case Authorizing(f, now) => AuthorizeOk(cfg, g, f, now);
    case Revoking(id) => RevokeOk(cfg, g, id);
  }

  lemma HistoryOk(cfg: GateConfig, elapsed: int, states: seq<GateState>, events: seq<Event>, i: nat)
    requires IsHistory(cfg, elapsed, states, events) && i < |states|
    ensures GateOk(cfg, states[i])
  {
    forall m | m in Moves(cfg) && m.pre in GoodGates(cfg) ensures m.post in GoodGates(cfg) {
      AfterOk(cfg, m.pre, m.step);
    }
    R.StaysFrom(NewGate(elapsed), Moves(cfg), GoodGates(cfg), states, events, 0, i);
  }

  lemma OneStep(cfg: GateConfig, elapsed: int, states: seq<GateState>, events: seq<Event>, i: nat)
    requires IsHistory(cfg, elapsed, states, events) && i < |events|
    ensures states[i + 1] == After(cfg, states[i], events[i])
  {
    assert R.Move(states[i], events[i], states[i + 1]) in Moves(cfg);
  }

  // ---------- high-water marks and latches ----------

  /** States at or above both marks of g, with the clock latch of g still on. */
  ghost function AtLeast(g: GateState): iset<GateState> {
    iset h: GateState | h.discovery >= g.discovery && h.session >= g.session && (!g.healthy ==> !h.healthy)
  }

  /** Both epochs only rise, and an unhealthy clock stays unhealthy. */
  lemma MarksNeverFall(cfg: GateConfig, elapsed: int, states: seq<GateState>, events: seq<Event>, i: nat, j: nat)
    requires IsHistory(cfg, elapsed, states, events) && i <= j < |states|
    ensures states[i].discovery <= states[j].discovery && states[i].session <= states[j].session
    ensures !states[i].healthy ==> !states[j].healthy
  {
    R.StaysFrom(NewGate(elapsed), Moves(cfg), AtLeast(states[i]), states, events, i, j);
  }

  /** After one clock reading below an earlier one, nothing is installed or accepted again. */
  lemma RegressionStopsEverything(
      cfg: GateConfig, elapsed: int, states: seq<GateState>, events: seq<Event>, i: nat, j: nat)
    requires IsHistory(cfg, elapsed, states, events) && i < j < |events|
    requires states[i].healthy && !states[i + 1].healthy
    ensures (events[i].Installing? || events[i].Authorizing?) && events[i].now < states[i].lastElapsed
    ensures !Accepted(states, events, j)
    ensures events[j].Installing? ==>
      Install(cfg, states[j], events[j].connection, events[j].authorization, events[j].now).1 != Ok
  {
    OneStep(cfg, elapsed, states, events, i);
    MarksNeverFall(cfg, elapsed, states, events, i + 1, j);
  }

  // ---------- dead connections ----------

  /** c is down and its session was seen, so it cannot be accepted any more. */
  predicate Dead(g: GateState, c: Connection) {
    g.control != Control(c, true) && c.sessionEpoch <= g.session
  }

  ghost function DeadStates(c: Connection): iset<GateState> {
    iset g: GateState | Dead(g, c)
  }

  lemma DeadStaysDead(
      cfg: GateConfig, elapsed: int, states: seq<GateState>, events: seq<Event>, c: Connection, i: nat, j: nat)
    requires IsHistory(cfg, elapsed, states, events) && i <= j < |states| && Dead(states[i], c)
    ensures Dead(states[j], c)
  {
    R.StaysFrom(NewGate(elapsed), Moves(cfg), DeadStates(c), states, events, i, j);
  }

  /**
   After an accepted connection is disconnected, nothing is installed over it and nothing live-only from it is
   accepted.
   */
  lemma DisconnectedForGood(cfg: GateConfig, elapsed: int, states: seq<GateState>, events: seq<Event>, i: nat, j: nat)
    requires IsHistory(cfg, elapsed, states, events) && i < j < |events|
    requires events[i].Disconnecting? && events[i].connection.sessionEpoch <= states[i].session
    ensures events[j].Installing? && events[j].connection == events[i].connection ==>
      Install(cfg, states[j], events[j].connection, events[j].authorization, events[j].now).1 != Ok
    ensures Accepted(states, events, j) ==>
      var r := states[j].authorizations[events[j].fence.assignment.assignmentId];
      r.authorization.lifetime == LiveOnly ==> r.connection != events[i].connection
  {
    OneStep(cfg, elapsed, states, events, i);
    DeadStaysDead(cfg, elapsed, states, events, events[i].connection, i + 1, j);
  }

  // ---------- every acceptance is justified ----------

  /** A stored record was put there by one earlier install and has stayed there since. */
  lemma {:induction false} FindInstall(
      cfg: GateConfig, elapsed: int, states: seq<GateState>, events: seq<Event>, i: nat, id: string, r: Record) returns (j: nat)
    requires IsHistory(cfg, elapsed, states, events) && i < |states| && Stores(states[i], id, r)
    ensures j < i && InstalledAt(cfg, states, events, j, r)
    ensures forall k :: j < k <= i ==> Stores(states[k], id, r)
  {
    assert i > 0;
    OneStep(cfg, elapsed, states, events, i - 1);
    if Stores(states[i - 1], id, r) {
      j := FindInstall(cfg, elapsed, states, events, i - 1, id, r);
    } else {
      OnlyInstallStores(cfg, states[i - 1], events[i - 1], id, r);
      j := i - 1;
    }
  }

  lemma OnlyInstallStores(cfg: GateConfig, g: GateState, e: Event, id: string, r: Record)
    requires Stores(After(cfg, g, e), id, r) && !Stores(g, id, r)
    ensures e == Installing(r.connection, r.authorization, r.receivedAt)
         && Install(cfg, g, r.connection, r.authorization, r.receivedAt).1 == Ok
  {
  }

  /** The connection is up with c throughout, if it is up with c at both ends. */
  lemma StayedConnected(
      cfg: GateConfig, elapsed: int, states: seq<GateState>, events: seq<Event>, c: Connection, j: nat, k: nat, i: nat)
    requires IsHistory(cfg, elapsed, states, events) && j <= k <= i < |states|
    requires states[j].control == Control(c, true) && states[i].control == Control(c, true)
    ensures states[k].control == Control(c, true)
  {
    HistoryOk(cfg, elapsed, states, events, j);
    MarksNeverFall(cfg, elapsed, states, events, j, k);
    if Dead(states[k], c) {
      DeadStaysDead(cfg, elapsed, states, events, c, k, i);
    }
  }

  /** Nothing between install j and check i withdrew the permission r for id. */
  predicate Undisturbed(states: seq<GateState>, events: seq<Event>, id: string, r: Record, k: nat)
    requires k < |events| < |states|
  {
    && events[k] != Revoking(id)
    && states[k].discovery == r.authorization.fence.discoveryEpoch
    && states[k].session == r.authorization.fence.assignment.worker.epoch
    && (r.authorization.lifetime == LiveOnly ==> states[k].control == Control(r.connection, true))
  }

  /**
   Every accepted invocation carries the fence of one earlier install, still in
   force: not revoked, no newer Leader or session since, within its lifetime by
   the Worker's own clock, and, when live-only, over a connection that never dropped.
   */
  lemma AcceptedIsJustified(cfg: GateConfig, elapsed: int, states: seq<GateState>, events: seq<Event>, i: nat)
      returns (j: nat, r: Record)
    requires IsHistory(cfg, elapsed, states, events) && i < |events| && Accepted(states, events, i)
    ensures j < i && InstalledAt(cfg, states, events, j, r)
    ensures r.authorization.fence == events[i].fence && events[i].fence.assignment.mode == Normal
    ensures events[i].fence.assignment.worker == CurrentWorker(cfg, states[i])
    ensures events[i].fence.discoveryEpoch == states[i].discovery
    ensures r.receivedAt <= events[i].now && states[i].healthy
    ensures r.authorization.lifetime == Ttl ==>
      events[i].now < r.receivedAt + r.authorization.ttl <= r.receivedAt + cfg.maxTtl
    ensures r.authorization.lifetime == LiveOnly ==> states[i].control == Control(r.connection, true)
    ensures forall k :: j < k < i ==> Undisturbed(states, events, events[i].fence.assignment.assignmentId, r, k)
  {
    var id := events[i].fence.assignment.assignmentId;
    r := states[i].authorizations[id];
    j := FindInstall(cfg, elapsed, states, events, i, id, r);
    HistoryOk(cfg, elapsed, states, events, i);
    assert RecordOk(cfg, states[i], id) && IdentityOk(cfg, states[i], id);
    forall k | j < k < i ensures Undisturbed(states, events, id, r, k) {
      StaysUndisturbed(cfg, elapsed, states, events, id, r, j, k, i);
    }
  }

  lemma StaysUndisturbed(
      cfg: GateConfig, elapsed: int, states: seq<GateState>, events: seq<Event>, id: string, r: Record, j: nat, k: nat, i: nat)
    requires IsHistory(cfg, elapsed, states, events) && j < k < i < |states| && InstalledAt(cfg, states, events, j, r)
    requires id != "" && Stores(states[k], id, r) && Stores(states[k + 1], id, r)
    requires r.authorization.lifetime == LiveOnly ==> states[i].control == Control(r.connection, true)
    ensures Undisturbed(states, events, id, r, k)
  {
    HistoryOk(cfg, elapsed, states, events, k);
    assert RecordOk(cfg, states[k], id) && IdentityOk(cfg, states[k], id);
    OneStep(cfg, elapsed, states, events, k);
    if r.authorization.lifetime == LiveOnly {
      StayedConnected(cfg, elapsed, states, events, r.connection, j, k, i);
    }
  }
}
