/** The Gateway's serving store as a mutable object, with the loops of its helpers. */
module GatewayStore {
  import opened Common
  import opened ServingView
  import Auth = ServingAuth

  predicate AllPlaced(e: Event, n: nat)
    requires n <= |e.snapshots|
  {
    forall j :: 0 <= j < n ==> WellPlaced(e, e.snapshots[j])
  }

  /** The loop of normalizeEvent. */
  method NormalizeEvent(cfg: StoreConfig, e: Event) returns (r: Option<Content>)
    ensures r == Normalize(cfg, e)
  {
    if e.epoch == 0 || e.sequence == 0 || |e.snapshots| > cfg.maxFunctions || (!e.full && |e.snapshots| != 1) {
      return None;
    }
    var normalized: map<string, Snapshot> := map[];
    for i := 0 to |e.snapshots|
      invariant normalized == ByFunction(e.snapshots[..i]) && DistinctIds(e.snapshots[..i])
      invariant AllPlaced(e, i)
    {
      var x := e.snapshots[i];
      if !WellPlaced(e, x) {
        return None;
      }
      if x.functionId in normalized {
        DuplicateFound(e.snapshots, i);
        return None;
      }
      NewId(e.snapshots, i);
      normalized := normalized[x.functionId := x];
    }
    assert e.snapshots[..|e.snapshots|] == e.snapshots;
    return Some(Content(e.full, e.epoch, e.sequence, normalized));
  }

  lemma NewId(snapshots: seq<Snapshot>, i: nat)
    requires i < |snapshots| && DistinctIds(snapshots[..i]) && snapshots[i].functionId !in ByFunction(snapshots[..i])
    ensures DistinctIds(snapshots[..i + 1])
    ensures ByFunction(snapshots[..i + 1]) == ByFunction(snapshots[..i])[snapshots[i].functionId := snapshots[i]]
  {
    var longer := snapshots[..i + 1];
    assert longer[..i] == snapshots[..i];
    forall j, k | 0 <= j < k < |longer| ensures longer[j].functionId != longer[k].functionId {
      if k == i { ByFunctionCovers(snapshots[..i], j); }
    }
  }

  lemma DuplicateFound(snapshots: seq<Snapshot>, i: nat)
    requires i < |snapshots| && snapshots[i].functionId in ByFunction(snapshots[..i])
    ensures !DistinctIds(snapshots)
  {
    var j := ByFunctionAt(snapshots[..i], snapshots[i].functionId);
    assert snapshots[j].functionId == snapshots[i].functionId;
  }

  /** retainedSuppressions. */
  method RetainedSuppressions(previous: map<string, Auth.Identity>, endpoints: seq<Endpoint>)
      returns (retained: map<string, Auth.Identity>)
    ensures retained == Retained(previous, endpoints)
  {
    retained := map[];
    for i := 0 to |endpoints|
      invariant retained == Retained(previous, endpoints[..i])
    {
      RetainedStep(previous, endpoints, i);
      retained := KeepOne(previous, retained, endpoints[i].assignment);
    }
    assert endpoints[..|endpoints|] == endpoints;
  }

  lemma OffersStep(endpoints: seq<Endpoint>, i: nat, a: Auth.Identity)
    requires i < |endpoints|
    ensures Offers(endpoints[..i + 1], a) <==> Offers(endpoints[..i], a) || endpoints[i].assignment == a
  {
    var longer := endpoints[..i + 1];
    if Offers(longer, a) {
      var j :| 0 <= j < |longer| && longer[j].assignment == a;
      assert j < i ==> endpoints[..i][j].assignment == a;
    }
    if Offers(endpoints[..i], a) {
      var j :| 0 <= j < i && endpoints[..i][j].assignment == a;
      assert longer[j].assignment == a;
    }
    assert longer[i].assignment == endpoints[i].assignment;
  }

  /** One round of retainedSuppressions. */
  function KeepOne(
      previous: map<string, Auth.Identity>, retained: map<string, Auth.Identity>, a: Auth.Identity): map<string, Auth.Identity>
  {
    if a.assignmentId in previous && previous[a.assignmentId] == a then retained[a.assignmentId := a] else retained
  }

  lemma RetainedStep(previous: map<string, Auth.Identity>, endpoints: seq<Endpoint>, i: nat)
    requires i < |endpoints|
    ensures Retained(previous, endpoints[..i + 1]) == KeepOne(previous, Retained(previous, endpoints[..i]), endpoints[i].assignment)
  {
    forall id | id in previous
      ensures Offers(endpoints[..i + 1], previous[id])
        <==> Offers(endpoints[..i], previous[id]) || endpoints[i].assignment == previous[id]
    {
      OffersStep(endpoints, i, previous[id]);
    }
  }

  /** The filter loop of visibleSnapshot. */
  method VisibleEndpoints(r: FunctionRecord) returns (visible: seq<Endpoint>)
    ensures visible == Visible(r, r.snapshot.endpoints)
  {
    var endpoints := r.snapshot.endpoints;
    visible := [];
    for i := 0 to |endpoints|
      invariant visible + Visible(r, endpoints[i..]) == Visible(r, endpoints)
    {
      assert endpoints[i..][1..] == endpoints[i + 1..];
      if !Hidden(r, endpoints[i].assignment) {
        visible := visible + [endpoints[i]];
      }
    }
  }

  /** The search loop of SuppressEndpoint. */
  method FindEndpoint(endpoints: seq<Endpoint>, id: string) returns (r: Option<Endpoint>)
    ensures r == FirstWith(endpoints, id)
  {
    for i := 0 to |endpoints|
      invariant FirstWith(endpoints, id) == FirstWith(endpoints[i..], id)
    {
      assert endpoints[i..][1..] == endpoints[i + 1..];
      if endpoints[i].assignment.assignmentId == id {
        return Some(endpoints[i]);
      }
    }
    return None;
  }

  /** The two loops of applyFullLocked: the revision check, and the new map. `order` is the sorted snapshot list. */
  method CheckAll(
      functions: map<string, FunctionRecord>, snapshots: map<string, Snapshot>, order: seq<string>) returns (ok: bool)
    requires ToSet(order) == snapshots.Keys
    ensures ok == AdmitsAll(functions, snapshots)
  {
    for i := 0 to |order|
      invariant forall j :: 0 <= j < i && order[j] in functions ==>
        NoRegress(functions[order[j]].snapshot, snapshots[order[j]])
    {
      assert order[i] in ToSet(order);
      if order[i] in functions && !NoRegress(functions[order[i]].snapshot, snapshots[order[i]]) {
        return false;
      }
    }
    forall f | f in snapshots && f in functions ensures NoRegress(functions[f].snapshot, snapshots[f]) {
      assert f in ToSet(order);
    }
    return true;
  }

  method InstallAll(
      functions: map<string, FunctionRecord>, snapshots: map<string, Snapshot>, order: seq<string>, now: int)
      returns (next: map<string, FunctionRecord>)
    requires ToSet(order) == snapshots.Keys
    ensures next == InstalledAll(functions, snapshots, now)
  {
    next := map[];
    for i := 0 to |order|
      invariant next.Keys == ToSet(order[..i])
      invariant next.Keys <= snapshots.Keys
      invariant forall f :: f in next ==> next[f] == InstalledAll(functions, snapshots, now)[f]
    {
      var f := order[i];
      assert f in ToSet(order) && ToSet(order[..i + 1]) == ToSet(order[..i]) + {f};
      var kept := RetainedSuppressions(SuppressedIn(functions, f), snapshots[f].endpoints);
      next := next[f := FunctionRecord(snapshots[f], now, kept)];
    }
    assert order[..|order|] == order;
  }

  function AllVisible(s: StoreState): map<string, seq<Endpoint>> {
    map f | f in s.functions :: Visible(s.functions[f], s.functions[f].snapshot.endpoints)
  }

  /** The loop of LookupAll: one stale function fails the whole read. */
  method ViewAll(
      cfg: StoreConfig, s: StoreState, order: seq<string>, now: int) returns (r: Option<map<string, seq<Endpoint>>>)
    requires ToSet(order) == s.functions.Keys
    ensures r == if AllUsable(cfg, s, now) then Some(AllVisible(s)) else None
  {
    var result: map<string, seq<Endpoint>> := map[];
    for i := 0 to |order|
      invariant result.Keys == ToSet(order[..i]) <= s.functions.Keys
      invariant forall f :: f in result ==> Usable(cfg, s, s.functions[f], now) && result[f] == AllVisible(s)[f]
    {
      var f := order[i];
      assert f in ToSet(order) && ToSet(order[..i + 1]) == ToSet(order[..i]) + {f};
      if !Usable(cfg, s, s.functions[f], now) {
        return None;
      }
      var visible := VisibleEndpoints(s.functions[f]);
      result := result[f := visible];
    }
    assert order[..|order|] == order;
    assert result == AllVisible(s);
    return Some(result);
  }

  class Store {
    const cfg: StoreConfig
    var functions: map<string, FunctionRecord>
    var position: Position
    var fullSynced: bool
    var needsFullSync: bool
    var watchConnected: bool
    var lastElapsed: int
    var healthy: bool

    function View(): StoreState
      reads this
    {
      StoreState(functions, position, fullSynced, needsFullSync, watchConnected, lastElapsed, healthy)
    }

    constructor (cfg: StoreConfig, elapsed: int)
      ensures this.cfg == cfg && View() == NewStore(elapsed)
    {
      this.cfg := cfg;
      functions, position := map[], Position(0, 0, None);
      fullSynced, needsFullSync, watchConnected := false, true, false;
      lastElapsed, healthy := elapsed, true;
    }

    method ElapsedLocked(now: int) returns (ok: bool)
      modifies this`lastElapsed, this`healthy, this`needsFullSync
      ensures View() == ReadClock(old(View()), now) && ok == healthy
    {
      if !healthy || now < lastElapsed {
        healthy := false;
        needsFullSync := true;
        return false;
      }
      lastElapsed := now;
      return true;
    }

    method ApplyFullLocked(c: Content, order: seq<string>, now: int) returns (v: Verdict)
      requires ToSet(order) == c.snapshots.Keys
      modifies this
      ensures (View(), v) == ApplyFull(old(View()), c, now)
    {
      if c.epoch == position.epoch && c.sequence < position.sequence {
        return StaleGeneration;
      }
      var admitted := CheckAll(functions, c.snapshots, order);
      if !admitted {
        return StaleGeneration;
      }
      var ok := ElapsedLocked(now);
      if !ok {
        return ControlPlaneStale;
      }
      functions := InstallAll(functions, c.snapshots, order, now);
      position := Position(c.epoch, c.sequence, Some(c));
      fullSynced, needsFullSync, watchConnected := true, false, true;
      return Ok;
    }

    method ApplyIncrementalLocked(c: Content, x: Snapshot, now: int) returns (v: Verdict)
      modifies this
      ensures (View(), v) == ApplyIncremental(cfg, old(View()), c, x, now)
    {
      if !fullSynced || needsFullSync {
        return ControlPlaneStale;
      }
      if c.epoch > position.epoch {
        needsFullSync := true;
        return ControlPlaneStale;
      }
      if c.sequence <= position.sequence {
        return StaleGeneration;
      }
      if position.sequence == TWO64 - 1 || c.sequence != position.sequence + 1 {
        needsFullSync := true;
        return ControlPlaneStale;
      }
      if x.functionId in functions {
        if !NoRegress(functions[x.functionId].snapshot, x) {
          return StaleGeneration;
        }
      } else if |functions| >= cfg.maxFunctions {
        return Overloaded;
      }
      var ok := ElapsedLocked(now);
      if !ok {
        return ControlPlaneStale;
      }
      var kept := RetainedSuppressions(SuppressedIn(functions, x.functionId), x.endpoints);
      functions := functions[x.functionId := FunctionRecord(x, now, kept)];
      position := Position(c.epoch, c.sequence, Some(c));
      watchConnected := true;
      return Ok;
    }

    /** `order` is the order in which the normalized event lists its functions. */
    method ApplyEvent(e: Event, order: seq<string>, now: int) returns (v: Verdict)
      requires ToSet(order) == ByFunction(e.snapshots).Keys
      modifies this
      ensures (View(), v) == Apply(cfg, old(View()), e, now)
    {
      var normalized := NormalizeEvent(cfg, e);
      if normalized.None? {
        return Invalid;
      }
      var c := normalized.value;
      if !healthy {
        return ControlPlaneStale;
      }
      if c.epoch < position.epoch {
        return StaleGeneration;
      }
      if c.epoch == position.epoch && c.sequence == position.sequence {
        return if position.content == Some(c) then Ok else StaleGeneration;
      }
      if c.full {
        v := ApplyFullLocked(c, order, now);
      } else {
        v := ApplyIncrementalLocked(c, e.snapshots[0], now);
      }
    }

    method SuppressEndpoint(f: string, a: Auth.Identity) returns (v: Verdict)
      modifies this`functions
      ensures (View(), v) == Suppress(old(View()), f, a)
    {
      if !Auth.ValidId(f) || !Auth.ValidIdentity(a) {
        return Invalid;
      }
      if f !in functions {
        return NotFound;
      }
      var record := functions[f];
      var found := FindEndpoint(record.snapshot.endpoints, a.assignmentId);
      if found.None? || found.value.assignment != a {
        return StaleAssignment;
      }
      functions := functions[f := record.(suppressed := record.suppressed[a.assignmentId := a])];
      return Ok;
    }

    method LookupFunction(f: string, now: int) returns (r: LookupResult)
      modifies this
      ensures (View(), r) == Lookup(cfg, old(View()), f, now)
    {
      if !Auth.ValidId(f) {
        return LookupFailed(Invalid);
      }
      var ok := ElapsedLocked(now);
      if !ok || !fullSynced || needsFullSync {
        return LookupFailed(ControlPlaneStale);
      }
      if f !in functions {
        return LookupFailed(NotFound);
      }
      if !Usable(cfg, View(), functions[f], now) {
        return LookupFailed(ControlPlaneStale);
      }
      var visible := VisibleEndpoints(functions[f]);
      return Found(functions[f].snapshot, visible);
    }

    /** LookupAll: `order` is the order of the range; one stale function fails the whole read. */
    method LookupAll(order: seq<string>, now: int) returns (r: Option<map<string, seq<Endpoint>>>)
      requires ToSet(order) == functions.Keys
      modifies this
      ensures View() == ReadClock(old(View()), now)
      ensures r == if healthy && fullSynced && !needsFullSync && AllUsable(cfg, View(), now) then Some(AllVisible(View())) else None
    {
      var ok := ElapsedLocked(now);
      if !ok || !fullSynced || needsFullSync {
        return None;
      }
      r := ViewAll(cfg, View(), order, now);
    }

    method SetWatchConnected(connected: bool)
      modifies this`watchConnected
      ensures View() == old(View()).(watchConnected := connected)
    {
      watchConnected := connected;
    }
  }
}
