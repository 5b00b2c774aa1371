/**
 The Gateway's serving view: it applies Full Sync and incremental Watch events
 at global (epoch, sequence) positions, keeps local endpoint suppressions, and
 answers lookups within a staleness bound. The fingerprint of an event is
 modelled as its normalized content, which the digests stand for.
 */
module ServingView {
  import opened Common
  import Auth = ServingAuth

  /** A revision together with every other field of the projection. */
  datatype FunctionInfo = FunctionInfo(revision: nat, rest: string)
  datatype TriggerInfo = TriggerInfo(revision: nat, rest: string)
  datatype RouteInfo = RouteInfo(present: bool, resourceRevision: nat, routeRevision: nat, rest: string)

  datatype Endpoint = Endpoint(assignment: Auth.Identity, address: string)

  datatype Snapshot = Snapshot(
    functionId: string, epoch: nat, sequence: nat,
    fn: FunctionInfo, trigger: TriggerInfo, route: RouteInfo, endpoints: seq<Endpoint>,
    valid: bool)      // the part of Snapshot.Validate that is not about endpoint ids

  datatype Event = Event(full: bool, epoch: nat, sequence: nat, snapshots: seq<Snapshot>)

  /** An accepted event: its snapshots by function. */
  datatype Content = Content(full: bool, epoch: nat, sequence: nat, snapshots: map<string, Snapshot>)

  datatype FunctionRecord = FunctionRecord(snapshot: Snapshot, receivedAt: int, suppressed: map<string, Auth.Identity>)

  datatype Position = Position(epoch: nat, sequence: nat, content: Option<Content>)

  datatype StoreConfig = StoreConfig(maxStale: int, maxFunctions: int)

  datatype StoreState = StoreState(
    functions: map<string, FunctionRecord>,
    position: Position,
    fullSynced: bool,
    needsFullSync: bool,
    watchConnected: bool,
    lastElapsed: int,
    healthy: bool)

  datatype Verdict = Ok | Invalid | StaleGeneration | ControlPlaneStale | Overloaded | NotFound | StaleAssignment

  function NewStore(elapsed: int): StoreState {
    StoreState(map[], Position(0, 0, None), false, true, false, elapsed, true)
  }

  // ---------- events ----------

  predicate DistinctAssignments(endpoints: seq<Endpoint>) {
    forall i, j :: 0 <= i < j < |endpoints| ==> endpoints[i].assignment.assignmentId != endpoints[j].assignment.assignmentId
  }

  predicate WellPlaced(e: Event, x: Snapshot) {
    x.epoch == e.epoch && x.sequence == e.sequence && x.valid && DistinctAssignments(x.endpoints)
  }

  predicate DistinctIds(snapshots: seq<Snapshot>) {
    forall i, j :: 0 <= i < j < |snapshots| ==> snapshots[i].functionId != snapshots[j].functionId
  }

  function ByFunction(snapshots: seq<Snapshot>): (m: map<string, Snapshot>)
  {
    if snapshots == [] then map[]
    else
      var last := snapshots[|snapshots| - 1];
      ByFunction(snapshots[..|snapshots| - 1])[last.functionId := last]
  }

  /** Every function maps to one of its snapshots. */
  lemma {:induction false} ByFunctionAt(snapshots: seq<Snapshot>, f: string) returns (i: nat)
    requires f in ByFunction(snapshots)
    ensures i < |snapshots| && snapshots[i] == ByFunction(snapshots)[f] && snapshots[i].functionId == f
  {
    var n := |snapshots| - 1;
    if snapshots[n].functionId == f {
      i := n;
    } else {
      i := ByFunctionAt(snapshots[..n], f);
    }
  }

  lemma {:induction false} ByFunctionCovers(snapshots: seq<Snapshot>, i: nat)
    requires i < |snapshots|
    ensures snapshots[i].functionId in ByFunction(snapshots)
  {
    if i < |snapshots| - 1 {
      ByFunctionCovers(snapshots[..|snapshots| - 1], i);
    }
  }

  /** normalizeEvent. */
  function Normalize(cfg: StoreConfig, e: Event): (r: Option<Content>)
    ensures r.Some? ==> r.value == Content(e.full, e.epoch, e.sequence, ByFunction(e.snapshots))
  {
    if e.epoch == 0 || e.sequence == 0 || |e.snapshots| > cfg.maxFunctions || (!e.full && |e.snapshots| != 1) then None
    else if (exists i :: 0 <= i < |e.snapshots| && !WellPlaced(e, e.snapshots[i])) || !DistinctIds(e.snapshots) then
      None
    else Some(Content(e.full, e.epoch, e.sequence, ByFunction(e.snapshots)))
  }

  // ---------- applying an event ----------

  predicate SameRevisions(a: RouteInfo, b: RouteInfo) {
    a.resourceRevision == b.resourceRevision && a.routeRevision == b.routeRevision
  }

  /** revisionsDoNotRegress. */
  predicate NoRegress(current: Snapshot, next: Snapshot) {
    && next.fn.revision >= current.fn.revision && next.trigger.revision >= current.trigger.revision
    && (next.fn.revision == current.fn.revision ==> next.fn == current.fn)
    && (next.trigger.revision == current.trigger.revision ==> next.trigger == current.trigger)
    && (current.route.present ==>
          && next.route.present
          && next.route.resourceRevision >= current.route.resourceRevision
          && next.route.routeRevision >= current.route.routeRevision
          && (SameRevisions(next.route, current.route) ==> next.route == current.route))
  }

  predicate AdmitsAll(functions: map<string, FunctionRecord>, snapshots: map<string, Snapshot>) {
    forall f :: f in snapshots && f in functions ==> NoRegress(functions[f].snapshot, snapshots[f])
  }

  predicate Offers(endpoints: seq<Endpoint>, a: Auth.Identity) {
    exists i :: 0 <= i < |endpoints| && endpoints[i].assignment == a
  }

  /** retainedSuppressions: those whose exact identity the new snapshot still offers. */
  function Retained(previous: map<string, Auth.Identity>, endpoints: seq<Endpoint>): map<string, Auth.Identity> {
    map id | id in previous && previous[id].assignmentId == id && Offers(endpoints, previous[id]) :: previous[id]
  }

  function SuppressedIn(functions: map<string, FunctionRecord>, f: string): map<string, Auth.Identity> {
    if f in functions then functions[f].suppressed else map[]
  }

  function Installed(functions: map<string, FunctionRecord>, x: Snapshot, now: int): FunctionRecord {
    FunctionRecord(x, now, Retained(SuppressedIn(functions, x.functionId), x.endpoints))
  }

  function InstalledAll(
      functions: map<string, FunctionRecord>, snapshots: map<string, Snapshot>, now: int): map<string, FunctionRecord> {
    map f | f in snapshots :: FunctionRecord(snapshots[f], now, Retained(SuppressedIn(functions, f), snapshots[f].endpoints))
  }

  /** elapsedLocked: a regression also forces a Full Sync, which an unhealthy store refuses. */
  function ReadClock(s: StoreState, now: int): StoreState {
    if s.healthy && now >= s.lastElapsed then s.(lastElapsed := now) else s.(healthy := false, needsFullSync := true)
  }

  function ApplyFull(s: StoreState, c: Content, now: int): (StoreState, Verdict) {
    if c.epoch == s.position.epoch && c.sequence < s.position.sequence then (s, StaleGeneration)
    else if !AdmitsAll(s.functions, c.snapshots) then (s, StaleGeneration)
    else
      var read := ReadClock(s, now);
      if !read.healthy then (read, ControlPlaneStale)
      else
        (StoreState(InstalledAll(s.functions, c.snapshots, now), Position(c.epoch, c.sequence, Some(c)),
                    true, false, true, now, true), Ok)
  }

  function ApplyIncremental(cfg: StoreConfig, s: StoreState, c: Content, x: Snapshot, now: int): (StoreState, Verdict) {
    if !s.fullSynced || s.needsFullSync then (s, ControlPlaneStale)
    else if c.epoch > s.position.epoch then (s.(needsFullSync := true), ControlPlaneStale)
    else if c.sequence <= s.position.sequence then (s, StaleGeneration)
    else if s.position.sequence == TWO64 - 1 || c.sequence != s.position.sequence + 1 then
      (s.(needsFullSync := true), ControlPlaneStale)
    else if x.functionId in s.functions && !NoRegress(s.functions[x.functionId].snapshot, x) then (s, StaleGeneration)
    else if x.functionId !in s.functions && |s.functions| >= cfg.maxFunctions then (s, Overloaded)
    else
      var read := ReadClock(s, now);
      if !read.healthy then (read, ControlPlaneStale)
      else
        (read.(functions := s.functions[x.functionId := Installed(s.functions, x, now)],
               position := Position(c.epoch, c.sequence, Some(c)), watchConnected := true), Ok)
  }

  function Apply(cfg: StoreConfig, s: StoreState, e: Event, now: int): (StoreState, Verdict) {
    var normalized := Normalize(cfg, e);
    if normalized.None? then (s, Invalid)
    else
      var c := normalized.value;
      if !s.healthy then (s, ControlPlaneStale)
      else if c.epoch < s.position.epoch then (s, StaleGeneration)
      else if c.epoch == s.position.epoch && c.sequence == s.position.sequence then
        (s, if s.position.content == Some(c) then Ok else StaleGeneration)
      else if c.full then ApplyFull(s, c, now)
      else ApplyIncremental(cfg, s, c, e.snapshots[0], now)
  }

  // ---------- local health and lookups ----------

  /** The first endpoint with this assignment id. */
  function FirstWith(endpoints: seq<Endpoint>, id: string): (r: Option<Endpoint>)
    ensures r.Some? ==> r.value in endpoints && r.value.assignment.assignmentId == id
    ensures r.None? ==> forall e :: e in endpoints ==> e.assignment.assignmentId != id
  {
    if endpoints == [] then None
    else if endpoints[0].assignment.assignmentId == id then Some(endpoints[0])
    else FirstWith(endpoints[1..], id)
  }

  /** SuppressEndpoint. */
  function Suppress(s: StoreState, f: string, a: Auth.Identity): (StoreState, Verdict) {
    if !Auth.ValidId(f) || !Auth.ValidIdentity(a) then (s, Invalid)
    else if f !in s.functions then (s, NotFound)
    else
      var found := FirstWith(s.functions[f].snapshot.endpoints, a.assignmentId);
      if found.None? || found.value.assignment != a then (s, StaleAssignment)
      else
        (s.(functions := s.functions[f := s.functions[f].(suppressed := s.functions[f].suppressed[a.assignmentId := a])]), Ok)
  }

  predicate Hidden(r: FunctionRecord, a: Auth.Identity) {
    a.assignmentId in r.suppressed && r.suppressed[a.assignmentId] == a
  }

  /** visibleSnapshot: the authoritative endpoints, in order, without the suppressed identities. */
  function Visible(r: FunctionRecord, endpoints: seq<Endpoint>): (v: seq<Endpoint>)
    ensures forall e :: e in v <==> e in endpoints && !Hidden(r, e.assignment)
  {
    if endpoints == [] then []
    else if Hidden(r, endpoints[0].assignment) then Visible(r, endpoints[1..])
    else [endpoints[0]] + Visible(r, endpoints[1..])
  }

  predicate Usable(cfg: StoreConfig, s: StoreState, r: FunctionRecord, now: int) {
    if cfg.maxStale == 0 then s.watchConnected else now >= r.receivedAt && now - r.receivedAt < cfg.maxStale
  }

  datatype LookupResult = Found(snapshot: Snapshot, endpoints: seq<Endpoint>) | LookupFailed(why: Verdict)

  function Lookup(cfg: StoreConfig, s: StoreState, f: string, now: int): (StoreState, LookupResult) {
    if !Auth.ValidId(f) then (s, LookupFailed(Invalid))
    else
      var read := ReadClock(s, now);
      if !read.healthy || !read.fullSynced || read.needsFullSync then (read, LookupFailed(ControlPlaneStale))
      else if f !in s.functions then (read, LookupFailed(NotFound))
      else if !Usable(cfg, read, s.functions[f], now) then (read, LookupFailed(ControlPlaneStale))
      else (read, Found(s.functions[f].snapshot, Visible(s.functions[f], s.functions[f].snapshot.endpoints)))
  }

  /** LookupAll: every function or nothing. */
  predicate AllUsable(cfg: StoreConfig, s: StoreState, now: int) {
    forall f :: f in s.functions ==> Usable(cfg, s, s.functions[f], now)
  }
}
