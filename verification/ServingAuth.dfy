/**
 The Worker's authorization gate: which Assignment may accept invocations, under
 which Leader (discovery epoch), Worker session and control connection, and for
 how long. The monotonic clock is an input that may run backwards.
 */
module ServingAuth {

  datatype Mode = Normal | DrainOnly | OtherMode

  datatype Lifetime = Ttl | LiveOnly | OtherLifetime

  datatype Session = Session(workerId: string, bootId: string, epoch: nat)

  datatype Identity = Identity(
    worker: Session, assignmentId: string, versionId: string,
    admissionEpoch: nat, generation: nat, policyDigest: string, mode: Mode)

  datatype Fence = Fence(assignment: Identity, discoveryEpoch: nat)

  datatype Authorization = Authorization(fence: Fence, lifetime: Lifetime, ttl: int)

  datatype Connection = Connection(id: string, sessionEpoch: nat, discoveryEpoch: nat)

  datatype Verdict = Ok | Invalid | StaleGeneration | StaleAssignment | Overloaded

  // ---------- validation ----------

  predicate IdChar(c: char) {
    'A' <= c <= 'Z' || 'a' <= c <= 'z' || '0' <= c <= '9' || c in "._:-"
  }

  predicate ValidId(s: string) {
    1 <= |s| <= 128 && forall i :: 0 <= i < |s| ==> IdChar(s[i])
  }

  predicate ValidDigest(s: string) {
    |s| == 71 && s[..7] == "sha256:" && forall i :: 7 <= i < |s| ==> '0' <= s[i] <= '9' || 'a' <= s[i] <= 'f'
  }

  predicate ValidSession(s: Session) {
    ValidId(s.workerId) && ValidId(s.bootId) && s.epoch != 0
  }

  predicate ValidIdentity(a: Identity) {
    && ValidSession(a.worker) && ValidId(a.assignmentId) && ValidId(a.versionId)
    && a.admissionEpoch != 0 && a.generation != 0 && ValidDigest(a.policyDigest) && !a.mode.OtherMode?
  }

  predicate ValidFence(f: Fence) {
    ValidIdentity(f.assignment) && f.discoveryEpoch != 0
  }

  predicate ValidAuthorization(a: Authorization, maxTtl: int) {
    ValidFence(a.fence)
    && match a.lifetime
       case Ttl => 0 < a.ttl <= maxTtl
       case LiveOnly => a.ttl == 0
       case OtherLifetime => false
  }

  predicate ValidConnection(c: Connection) {
    ValidId(c.id) && c.sessionEpoch != 0 && c.discoveryEpoch != 0
  }

  // ---------- state ----------

  datatype Control = Control(connection: Connection, connected: bool)

  datatype Record = Record(authorization: Authorization, connection: Connection, receivedAt: int)

  /** Fixed at construction: the Worker process and the two bounds. */
  datatype GateConfig = GateConfig(workerId: string, bootId: string, maxTtl: int, maxAuthorizations: int)

  datatype GateState = GateState(
    discovery: nat,                       // highest discovery epoch seen
    session: nat,                         // current session epoch
    control: Control,
    assignments: map<string, Identity>,
    authorizations: map<string, Record>,
    lastElapsed: int,
    healthy: bool)

  function NewGate(elapsed: int): GateState {
    GateState(0, 0, Control(Connection("", 0, 0), false), map[], map[], elapsed, true)
  }

  function CurrentWorker(cfg: GateConfig, g: GateState): Session {
    Session(cfg.workerId, cfg.bootId, g.session)
  }

  predicate CurrentControl(g: GateState, c: Connection) {
    g.control == Control(c, true) && c.discoveryEpoch == g.discovery
  }

  // ---------- operations ----------

  /** AcceptAuthoritativeControl. A newer discovery epoch takes effect even when the session is refused. */
  function AcceptControl(g: GateState, c: Connection): (r: (GateState, Verdict))
    ensures r.1 == Ok ==> CurrentControl(r.0, c) && r.0.session == c.sessionEpoch
    ensures r.1 != Ok ==> r.0.assignments == g.assignments && r.0.session == g.session
    ensures r.1 != Ok && r.0 != g ==> r.0.authorizations == map[] && !r.0.control.connected
  {
    if !ValidConnection(c) then (g, Invalid)
    else if c.discoveryEpoch < g.discovery then (g, StaleGeneration)
    else
      var raised := if c.discoveryEpoch > g.discovery
        then g.(discovery := c.discoveryEpoch, authorizations := map[], control := g.control.(connected := false))
        else g;
      if c.sessionEpoch < g.session then (raised, StaleAssignment)
      else if c.sessionEpoch == g.session then
        (raised, if raised.control == Control(c, true) then Ok else StaleAssignment)
      else
        (raised.(session := c.sessionEpoch, assignments := map[], authorizations := map[], control := Control(c, true)), Ok)
  }

  function CheckAssignment(cfg: GateConfig, g: GateState, c: Connection, f: Fence): Verdict {
    if !ValidConnection(c) || !ValidFence(f) then Invalid
    else if !CurrentControl(g, c) || f.discoveryEpoch != c.discoveryEpoch then StaleAssignment
    else if f.assignment.worker != CurrentWorker(cfg, g) then StaleAssignment
    else Ok
  }

  function CheckControl(g: GateState, c: Connection): Verdict {
    if !ValidConnection(c) then Invalid else if CurrentControl(g, c) then Ok else StaleAssignment
  }

  function DisconnectControl(g: GateState, c: Connection): GateState {
    if g.control.connection == c then g.(control := Control(c, false)) else g
  }

  /** elapsedLocked: one regression makes the clock unhealthy for good. */
  function ReadClock(g: GateState, now: int): GateState {
    if g.healthy && now >= g.lastElapsed then g.(lastElapsed := now) else g.(healthy := false)
  }

  function CompatibleRefresh(previous: Identity, next: Identity): Verdict {
    if previous.assignmentId != next.assignmentId then StaleAssignment
    else if previous.versionId != next.versionId || previous.admissionEpoch != next.admissionEpoch
         || previous.generation != next.generation || previous.policyDigest != next.policyDigest then StaleGeneration
    else if previous != next then StaleAssignment
    else Ok
  }

  function Install(cfg: GateConfig, g: GateState, c: Connection, a: Authorization, now: int): (r: (GateState, Verdict))
  {
    var id := a.fence.assignment.assignmentId;
    if !ValidAuthorization(a, cfg.maxTtl) || !ValidConnection(c) then (g, Invalid)
    else if !CurrentControl(g, c) || a.fence.discoveryEpoch != c.discoveryEpoch then (g, StaleAssignment)
    else if a.fence.assignment.worker != CurrentWorker(cfg, g) then (g, StaleAssignment)
    else
      var read := ReadClock(g, now);
      if !read.healthy then (read, StaleAssignment)
      else if id in g.assignments && CompatibleRefresh(g.assignments[id], a.fence.assignment) != Ok then
        (read, CompatibleRefresh(g.assignments[id], a.fence.assignment))
      else if id !in g.assignments && |g.assignments| >= cfg.maxAuthorizations then (read, Overloaded)
      else
        (read.(assignments := g.assignments[id := a.fence.assignment],
               authorizations := g.authorizations[id := Record(a, c, now)]), Ok)
  }

  /** validLocked. */
  predicate Live(g: GateState, r: Record, now: int) {
    && r.authorization.fence.discoveryEpoch == g.discovery && now >= r.receivedAt
    && if r.authorization.lifetime == LiveOnly then CurrentControl(g, r.connection)
       else now - r.receivedAt < r.authorization.ttl
  }

  function AuthorizeSync(g: GateState, f: Fence, now: int): (r: (GateState, Verdict)) {
    var id := f.assignment.assignmentId;
    if !ValidFence(f) then (g, Invalid)
    else if f.discoveryEpoch < g.discovery then (g, StaleAssignment)
    else if f.assignment.mode != Normal then (g, StaleAssignment)
    else if id !in g.authorizations || g.authorizations[id].authorization.fence != f then (g, StaleAssignment)
    else
      var read := ReadClock(g, now);
      if !read.healthy then (read, StaleAssignment)
      else if !Live(g, g.authorizations[id], now) then
        (read.(authorizations := g.authorizations - {id}), StaleAssignment)
      else (read, Ok)
  }

  function Revoke(g: GateState, id: string): GateState {
    if id == "" then g else g.(assignments := g.assignments - {id}, authorizations := g.authorizations - {id})
  }

  // ---------- the object ----------

  class Gate {
    const cfg: GateConfig
    var discovery: nat
    var session: nat
    var control: Control
    var assignments: map<string, Identity>
    var authorizations: map<string, Record>
    var lastElapsed: int
    var healthy: bool

    function View(): GateState
      reads this
    {
      GateState(discovery, session, control, assignments, authorizations, lastElapsed, healthy)
    }

    constructor (cfg: GateConfig, elapsed: int)
      ensures this.cfg == cfg && View() == NewGate(elapsed)
    {
      this.cfg := cfg;
      discovery, session, control := 0, 0, Control(Connection("", 0, 0), false);
      assignments, authorizations, lastElapsed, healthy := map[], map[], elapsed, true;
    }

    method AcceptAuthoritativeControl(c: Connection) returns (v: Verdict)
      modifies this
      ensures (View(), v) == AcceptControl(old(View()), c)
    {
      if !ValidConnection(c) {
        return Invalid;
      }
      if c.discoveryEpoch < discovery {
        return StaleGeneration;
      }
      if c.discoveryEpoch > discovery {
        discovery := c.discoveryEpoch;
        authorizations := map[];
        control := control.(connected := false);
      }
      if c.sessionEpoch < session {
        return StaleAssignment;
      }
      if c.sessionEpoch == session {
        return if control.connected && control.connection == c then Ok else StaleAssignment;
      }
      session := c.sessionEpoch;
      assignments := map[];
      authorizations := map[];
      control := Control(c, true);
      return Ok;
    }

    method Disconnect(c: Connection)
      modifies this`control
      ensures View() == DisconnectControl(old(View()), c)
    {
      if control.connection == c {
        control := control.(connected := false);
      }
    }

    method ElapsedLocked(now: int) returns (ok: bool)
      modifies this`lastElapsed, this`healthy
      ensures View() == ReadClock(old(View()), now) && ok == healthy
    {
      if !healthy || now < lastElapsed {
        healthy := false;
        return false;
      }
      lastElapsed := now;
      return true;
    }

    method InstallAuthorization(c: Connection, a: Authorization, now: int) returns (v: Verdict)
      modifies this
      ensures (View(), v) == Install(cfg, old(View()), c, a, now)
    {
      if !ValidAuthorization(a, cfg.maxTtl) || !ValidConnection(c) {
        return Invalid;
      }
      if !CurrentControl(View(), c) || a.fence.discoveryEpoch != c.discoveryEpoch {
        return StaleAssignment;
      }
      if a.fence.assignment.worker != CurrentWorker(cfg, View()) {
        return StaleAssignment;
      }
      var ok := ElapsedLocked(now);
      if !ok {
        return StaleAssignment;
      }
      var id := a.fence.assignment.assignmentId;
      if id in assignments {
        var compatible := CompatibleRefresh(assignments[id], a.fence.assignment);
        if compatible != Ok {
          return compatible;
        }
      } else if |assignments| >= cfg.maxAuthorizations {
        return Overloaded;
      }
      assignments := assignments[id := a.fence.assignment];
      authorizations := authorizations[id := Record(a, c, now)];
      return Ok;
    }

    method Authorize(f: Fence, now: int) returns (v: Verdict)
      modifies this
      ensures (View(), v) == AuthorizeSync(old(View()), f, now)
    {
      if !ValidFence(f) {
        return Invalid;
      }
      if f.discoveryEpoch < discovery || f.assignment.mode != Normal {
        return StaleAssignment;
      }
      var id := f.assignment.assignmentId;
      if id !in authorizations || authorizations[id].authorization.fence != f {
        return StaleAssignment;
      }
      var ok := ElapsedLocked(now);
      if !ok {
        return StaleAssignment;
      }
      if !Live(View(), authorizations[id], now) {
        authorizations := authorizations - {id};
        return StaleAssignment;
      }
      return Ok;
    }

    method RevokeAssignment(id: string)
      modifies this`assignments, this`authorizations
      ensures View() == Revoke(old(View()), id)
    {
      if id == "" {
        return;
      }
      assignments := assignments - {id};
      authorizations := authorizations - {id};
    }
  }
}
