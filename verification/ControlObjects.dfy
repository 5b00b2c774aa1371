/** The four control-plane stores as mutable objects that share the catalog and the release store. */
module ControlObjects {
  import opened Common
  import opened Ledger
  import opened ControlStores
  import opened Ordering
  import T = ControlTheorems

  class CatalogStore {
    var functions: map<string, Function>
    var idByName: map<string, string>
    var triggers: map<string, Trigger>
    var triggerByFunc: map<string, string>

    function View(): Catalog
      reads this
    {
      Catalog(functions, idByName, triggers, triggerByFunc)
    }

    /** Indexes and tables agree; functions and triggers are one to one. */
    ghost predicate Valid()
      reads this
    {
      T.CatalogOk(View())
    }

    constructor ()
      ensures Valid() && View() == NewStores().catalog
    {
      functions, idByName, triggers, triggerByFunc := map[], map[], map[], map[];
    }

    method Create(cmd: CreateFunctionCmd) returns (err: Option<Code>)
      requires Valid()
      modifies this
      ensures Valid() && (View(), err) == CreateFunction(old(View()), cmd)
      ensures err.Some? ==> View() == old(View())
      ensures err.None? ==> Finds(cmd.fn.name, cmd.fn, cmd.trigger) && cmd.fn.name !in old(idByName)
    {
      T.CreateFunctionOk(View(), cmd);
      if !ValidCreate(cmd) {
        return Some(Invalid);
      }
      var f, t := cmd.fn, cmd.trigger;
      if f.id in functions || f.name in idByName || t.id in triggers || f.id in triggerByFunc {
        return Some(Conflict);
      }
      if |functions| >= MAX_FUNCTIONS {
        return Some(Overloaded);
      }
      functions := functions[f.id := f];
      idByName := idByName[f.name := f.id];
      triggers := triggers[t.id := t];
      triggerByFunc := triggerByFunc[f.id := t.id];
      return None;
    }

    /** Going by name leads to this function and its trigger. */
    predicate Finds(name: string, f: Function, t: Trigger)
      reads this
    {
      && name in idByName && idByName[name] in functions && functions[idByName[name]] == f
      && f.id in triggerByFunc && triggerByFunc[f.id] in triggers && triggers[triggerByFunc[f.id]] == t
    }

    method SetFunctionLifecycle(cmd: LifecycleCmd) returns (err: Option<Code>)
      requires Valid()
      modifies this`functions
      ensures Valid() && (View(), err) == SetLifecycle(old(View()), cmd)
      ensures functions.Keys == old(functions).Keys && (err.Some? ==> functions == old(functions))
      ensures err.None? ==>
        cmd.functionId in functions && functions == old(functions)[cmd.functionId := functions[cmd.functionId]]
      ensures err.None? ==> var f, g := old(functions)[cmd.functionId], functions[cmd.functionId];
                            f.revision == cmd.expected && g.lifecycle == cmd.lifecycle
                            && g.revision == f.revision + if f.lifecycle == cmd.lifecycle then 0 else 1
    {
      T.SetLifecycleOk(View(), cmd);
      if !ValidLifecycleCmd(cmd) {
        return Some(Invalid);
      }
      if cmd.functionId !in functions {
        return Some(NotFound);
      }
      var f := functions[cmd.functionId];
      if f.revision != cmd.expected {
        return Some(RevisionConflict);
      }
      if f.lifecycle != Active && f.lifecycle != Disabled {
        return Some(Conflict);
      }
      if f.lifecycle == cmd.lifecycle {
        return None;
      }
      f := f.(lifecycle := cmd.lifecycle, updatedAt := cmd.at, revision := Succ64(f.revision));
      if !ValidFunction(f) {
        return Some(Invalid);
      }
      functions := functions[cmd.functionId := f];
      return None;
    }

    method RotateInvocationToken(cmd: RotateCmd) returns (err: Option<Code>)
      requires Valid()
      modifies this`triggers
      ensures Valid() && (View(), err) == RotateToken(old(View()), cmd) && err != Some(Internal)
      ensures err.Some? ==> triggers == old(triggers)
      ensures err.None? ==> cmd.functionId in functions && triggerByFunc[cmd.functionId] in old(triggers)
      ensures err.None? ==> var id := triggerByFunc[cmd.functionId];
                            triggers == old(triggers)[id := triggers[id]] && triggers[id].policy == Token(cmd.verifier)
                            && old(triggers)[id].revision == cmd.expected && triggers[id].revision == cmd.expected + 1
    {
      T.RotateOk(View(), cmd);
      if !(0 < cmd.expected < TWO64) || cmd.index == 0 {
        return Some(Invalid);
      }
      if cmd.functionId !in triggerByFunc {
        return Some(NotFound);
      }
      var id := triggerByFunc[cmd.functionId];
      if id !in triggers {
        return Some(Internal);
      }
      var t := triggers[id];
      if t.revision != cmd.expected {
        return Some(RevisionConflict);
      }
      if t.policy.Public? || t.policy.verifier == cmd.verifier {
        return Some(Conflict);
      }
      t := t.(policy := Token(cmd.verifier), updatedAt := cmd.at, revision := Succ64(t.revision));
      if !ValidTrigger(t) {
        return Some(Invalid);
      }
      triggers := triggers[id := t];
      return None;
    }
  }

  class ReleaseStore {
    const catalog: CatalogStore
    var versions: map<string, Version>
    var counts: map<string, nat>
    var validations: map<string, string>
    var deployments: map<string, Deployment>

    function View(): Releases
      reads this
    {
      Releases(versions, counts, validations, deployments)
    }

    /** Ready is having a deployment, Validating is having a fence, and the counts are exact. */
    ghost predicate Valid()
      reads this
    {
      T.ReleasesOk(View())
    }

    constructor (catalog: CatalogStore)
      ensures Valid() && this.catalog == catalog && View() == NewStores().releases
    {
      this.catalog := catalog;
      versions, counts, validations, deployments := map[], map[], map[], map[];
      new;
      T.NewOk();
    }

    method Create(cmd: CreateVersionCmd) returns (err: Option<Code>)
      requires Valid()
      modifies this`versions, this`counts
      ensures Valid() && (View(), err) == CreateVersion(catalog.View(), old(View()), cmd)
      ensures err.Some? ==> View() == old(View())
      ensures err.None? ==> cmd.version.id !in old(versions) && versions == old(versions)[cmd.version.id := cmd.version]
      ensures err.None? ==>
        CountOf(View(), cmd.version.functionId) == CountOf(old(View()), cmd.version.functionId) + 1 <= MAX_VERSIONS
    {
      T.CreateVersionOk(catalog.View(), View(), cmd);
      var v := cmd.version;
      if !ValidCreateVersion(cmd) {
        return Some(Invalid);
      }
      var missing := GetFunction(catalog.View(), v.functionId);
      if missing.Some? {
        return missing;
      }
      if catalog.functions[v.functionId].lifecycle == Deleting || catalog.functions[v.functionId].lifecycle == Gone {
        return Some(Conflict);
      }
      if v.id in versions {
        return Some(Conflict);
      }
      if CountOf(View(), v.functionId) >= MAX_VERSIONS {
        return Some(Overloaded);
      }
      counts := counts[v.functionId := CountOf(View(), v.functionId) + 1];
      versions := versions[v.id := v];
      return None;
    }

    method Start(cmd: StartCmd) returns (err: Option<Code>)
      requires Valid()
      modifies this`versions, this`validations
      ensures Valid() && (View(), err) == StartValidation(old(View()), cmd)
      ensures err.Some? ==> View() == old(View())
      ensures err.None? ==> cmd.versionId in old(versions) && old(versions)[cmd.versionId].state == Uploaded
      ensures err.None? ==> cmd.versionId in versions && versions[cmd.versionId].state == Validating
                            && validations == old(validations)[cmd.versionId := cmd.validationId]
    {
      T.StartOk(View(), cmd);
      if !(0 < cmd.expected < TWO64) || cmd.index == 0 {
        return Some(Invalid);
      }
      if cmd.versionId !in versions {
        return Some(NotFound);
      }
      var v := versions[cmd.versionId];
      if v.revision != cmd.expected {
        return Some(RevisionConflict);
      }
      if v.state != Uploaded {
        return Some(Conflict);
      }
      v := v.(state := Validating, updatedAt := cmd.at, revision := Succ64(v.revision));
      if !ValidVersion(v) {
        return Some(Invalid);
      }
      versions := versions[cmd.versionId := v];
      validations := validations[cmd.versionId := cmd.validationId];
      return None;
    }

    method Complete(cmd: CompleteCmd) returns (err: Option<Code>)
      requires Valid()
      modifies this`versions, this`validations, this`deployments
      ensures Valid() && (View(), err) == CompleteValidation(old(View()), cmd)
      ensures err.Some? ==> View() == old(View())
      ensures err.None? ==> cmd.versionId in old(validations) && old(validations)[cmd.versionId] == cmd.validationId
      ensures err.None? ==> cmd.versionId !in validations && cmd.versionId in versions
      ensures err.None? ==>
        (versions[cmd.versionId].state == Ready <==> cmd.valid) && (cmd.versionId in deployments <==> cmd.valid)
    {
      T.CompleteOk(View(), cmd);
      if !(0 < cmd.expected < TWO64) || cmd.index == 0 || cmd.valid != cmd.deployment.Some? {
        return Some(Invalid);
      }
      if cmd.versionId !in versions {
        return Some(NotFound);
      }
      var v := versions[cmd.versionId];
      if v.revision != cmd.expected {
        return Some(RevisionConflict);
      }
      if v.state != Validating || cmd.versionId !in validations || validations[cmd.versionId] != cmd.validationId {
        return Some(StaleGeneration);
      }
      if !cmd.matches || cmd.at < v.updatedAt {
        return Some(Invalid);
      }
      var w := v.(updatedAt := cmd.at, revision := Succ64(v.revision), state := if cmd.valid then Ready else VersionState.Failed);
      if !ValidVersion(w) || (if cmd.valid then !FitsVersion(cmd.deployment.value, v, cmd.index) else !cmd.safe) {
        return Some(Invalid);
      }
      versions := versions[cmd.versionId := w];
      validations := validations - {cmd.versionId};
      if cmd.valid {
        deployments := deployments[cmd.versionId := cmd.deployment.value];
      }
      return None;
    }
  }

  class RouteStore {
    const catalog: CatalogStore
    const releases: ReleaseStore
    var routes: map<string, Route>
    var routeIds: set<string>

    function View(): Routes
      reads this
    {
      Routes(routes, routeIds)
    }

    /** The three stores this one locks, beside no assignments. */
    function Locked(): Stores
      reads this, catalog, releases
    {
      Stores(catalog.View(), releases.View(), View(), NewStores().assignments)
    }

    /** Each stored route is its function's active one, and an enabled route's target is ready. */
    ghost predicate Valid()
      reads this, catalog, releases
    {
      Locked() in RoutedStores()
    }

    constructor (catalog: CatalogStore, releases: ReleaseStore)
      ensures this.catalog == catalog && this.releases == releases && View() == NewStores().routes
      ensures catalog.View() == NewStores().catalog && releases.View() == NewStores().releases ==> Valid()
    {
      this.catalog := catalog;
      this.releases := releases;
      routes, routeIds := map[], {};
    }

    /** Why Publish would refuse; None when it goes ahead. */
    method CheckPublication(cmd: PublishCmd) returns (err: Option<Code>)
      ensures err == Publish(catalog.View(), releases.View(), View(), cmd).2
    {
      if !ValidPublish(cmd) {
        return Some(Invalid);
      }
      if cmd.functionId !in catalog.functions {
        return Some(NotFound);
      }
      var f := catalog.functions[cmd.functionId];
      if cmd.expectedActive != f.activeRoute {
        return Some(RevisionConflict);
      }
      if f.activeRoute == TWO64 - 1 || f.revision == TWO64 - 1 {
        return Some(Conflict);
      }
      if cmd.route.routeRevision != f.activeRoute + 1 || cmd.at < f.updatedAt {
        return Some(Invalid);
      }
      if cmd.route.id in routeIds {
        return Some(Conflict);
      }
      if cmd.route.enabled && (f.lifecycle != Active || !ReadyTarget(releases.View(), cmd.route, cmd.functionId)) {
        return Some(Conflict);
      }
      if !ValidFunction(PointedAt(f, cmd)) {
        return Some(Invalid);
      }
      return None;
    }

    /** Publish changes the route and the function's pointer together. */
    method PublishRoute(cmd: PublishCmd) returns (err: Option<Code>)
      requires Valid()
      modifies this, catalog`functions
      ensures Valid()
      ensures (catalog.View(), View(), err) == Publish(old(catalog.View()), releases.View(), old(View()), cmd)
      ensures err.Some? ==> catalog.View() == old(catalog.View()) && View() == old(View())
      ensures err.None? ==> PublishedAs(old(catalog.View()), catalog.View(), View(), cmd)
    {
      PublishKeepsRoutes(Locked(), cmd);
      PublishIs(catalog.View(), releases.View(), View(), cmd);
      err := CheckPublication(cmd);
      if err.None? {
        StorePublication(cmd);
      }
    }

    method StorePublication(cmd: PublishCmd)
      requires cmd.functionId in catalog.functions
      modifies this, catalog`functions
      ensures var g := PointedAt(old(catalog.functions)[cmd.functionId], cmd);
              catalog.View() == old(catalog.View()).(functions := old(catalog.functions)[cmd.functionId := g])
      ensures View() == Routes(old(routes)[cmd.functionId := cmd.route], old(routeIds) + {cmd.route.id})
      ensures Locked() == old(Locked()).(catalog := catalog.View(), routes := View())
    {
      routes := routes[cmd.functionId := cmd.route];
      routeIds := routeIds + {cmd.route.id};
      catalog.functions := catalog.functions[cmd.functionId := PointedAt(catalog.functions[cmd.functionId], cmd)];
    }

    /**
     ServingStates: one state per function, sorted, or an invariant error. The error
     does not occur in any state that commands can reach.
     */
    method ServingStates(order: seq<string>) returns (r: Option<seq<ServingState>>)
      requires ToSet(order) == catalog.functions.Keys
      ensures r == SortedServing(catalog.View(), releases.View(), View(), order)
      ensures forall a :: T.Reachable(Stores(catalog.View(), releases.View(), View(), a)) ==> r.Some?
    {
      NeverStops(catalog.View(), releases.View(), View(), order);
      var states: seq<ServingState> := [];
      for i := 0 to |order|
        invariant Some(states) == AllServing(catalog.View(), releases.View(), View(), order[..i])
      {
        assert order[..i + 1][..i] == order[..i] && order[i] in ToSet(order);
        var state := ServingStateOf(catalog.View(), releases.View(), View(), catalog.functions[order[i]]);
        if state.None? {
          StopsAtFirst(catalog.View(), releases.View(), View(), order, i + 1);
          return None;
        }
        states := states + [state.value];
      }
      assert order[..|order|] == order;
      return Some(Sort(states, CompareStates));
    }
  }

  ghost function RoutedStores(): iset<Stores> {
    iset s: Stores | T.CatalogOk(s.catalog) && T.RoutesOk(s)
  }

  lemma PublishKeepsRoutes(s: Stores, cmd: PublishCmd)
    requires s in RoutedStores()
    ensures var (catalog, routes, err) := Publish(s.catalog, s.releases, s.routes, cmd);
            s.(catalog := catalog, routes := routes) in RoutedStores()
  {
    T.PublishOk(s, cmd);
  }

  /** The function after a publication. */
  function PointedAt(f: Function, cmd: PublishCmd): Function {
    f.(activeRoute := cmd.route.routeRevision, updatedAt := cmd.at, revision := f.revision + 1)
  }

  /**
   The route is stored and the function points at it: one step ahead of what the caller expected, one revision
   later.
   */
  predicate PublishedAs(before: Catalog, after: Catalog, routes: Routes, cmd: PublishCmd) {
    && cmd.functionId in before.functions && cmd.functionId in after.functions && cmd.functionId in routes.routes
    && routes.routes[cmd.functionId] == cmd.route
    && before.functions[cmd.functionId].activeRoute == cmd.expectedActive
    && after.functions[cmd.functionId].activeRoute == cmd.route.routeRevision == cmd.expectedActive + 1
    && after.functions[cmd.functionId].revision == before.functions[cmd.functionId].revision + 1
  }

  lemma PublishIs(c: Catalog, r: Releases, s: Routes, cmd: PublishCmd)
    ensures var (c', s', err) := Publish(c, r, s, cmd);
      if err.Some? then c' == c && s' == s
      else
        && cmd.functionId in c.functions && PublishedAs(c, c', s', cmd)
        && c' == c.(functions := c.functions[cmd.functionId := PointedAt(c.functions[cmd.functionId], cmd)])
        && s' == Routes(s.routes[cmd.functionId := cmd.route], s.routeIds + {cmd.route.id})
  {
  }

  /** compareFunction, on serving states. */
  function CompareStates(x: ServingState, y: ServingState): int {
    Lex(CompareInt(x.fn.createdIndex, y.fn.createdIndex), CompareString(x.fn.id, y.fn.id))
  }

  function SortedServing(c: Catalog, r: Releases, s: Routes, order: seq<string>): Option<seq<ServingState>> {
    var all := AllServing(c, r, s, order);
    if all.None? then None else Some(Sort(all.value, CompareStates))
  }

  /** The serving states in the given order; None as soon as one function has an invariant error. */
  function AllServing(c: Catalog, r: Releases, s: Routes, order: seq<string>): (all: Option<seq<ServingState>>)
    ensures all.Some? ==> |all.value| == |order|
  {
    if order == [] then Some([])
    else
      var n := |order| - 1;
      var rest := AllServing(c, r, s, order[..n]);
      if rest.None? || order[n] !in c.functions then None
      else
        var state := ServingStateOf(c, r, s, c.functions[order[n]]);
        if state.None? then None else Some(rest.value + [state.value])
  }

  /** The read succeeds exactly when every function has a state, and lists one state per function. */
  lemma {:induction false} AllServingIs(c: Catalog, r: Releases, s: Routes, order: seq<string>)
    requires forall i :: 0 <= i < |order| ==> order[i] in c.functions
    ensures var all := AllServing(c, r, s, order);
      && (all.Some? <==> forall i :: 0 <= i < |order| ==> ServingStateOf(c, r, s, c.functions[order[i]]).Some?)
      && (all.Some? ==> forall i :: 0 <= i < |order| ==> Some(all.value[i]) == ServingStateOf(c, r, s, c.functions[order[i]]))
  {
    if order != [] {
      AllServingIs(c, r, s, order[..|order| - 1]);
    }
  }

  lemma StateOrder()
    ensures TotalOrder(CompareStates)
  {
    forall x: ServingState, y: ServingState, z: ServingState
      ensures Consistent(CompareStates(x, y), CompareStates(y, z), CompareStates(x, z))
      ensures CompareStates(y, x) == -CompareStates(x, y)
    {
      StringOrder(x.fn.id, y.fn.id, z.fn.id);
    }
  }

  lemma StatesDoNotTie(c: Catalog, r: Releases, s: Routes, order: seq<string>)
    requires T.CatalogOk(c) && Distinct(order) && (forall i :: 0 <= i < |order| ==> order[i] in c.functions)
    requires AllServing(c, r, s, order).Some?
    ensures NoTies(AllServing(c, r, s, order).value, CompareStates)
  {
    AllServingIs(c, r, s, order);
    var all := AllServing(c, r, s, order).value;
    forall i, j | 0 <= i < j < |all| ensures CompareStates(all[i], all[j]) != 0 {
      assert T.FunctionOk(c, order[i]) && T.FunctionOk(c, order[j]);
      StringOrder(all[i].fn.id, all[j].fn.id, all[j].fn.id);
    }
  }

  lemma SameStates(c: Catalog, r: Releases, s: Routes, order: seq<string>, other: seq<string>)
    requires forall i :: 0 <= i < |order| ==> order[i] in c.functions && order[i] in other
    requires forall i :: 0 <= i < |other| ==> other[i] in c.functions
    requires AllServing(c, r, s, other).Some?
    ensures AllServing(c, r, s, order).Some?
    ensures forall x :: x in AllServing(c, r, s, order).value ==> x in AllServing(c, r, s, other).value
  {
    AllServingIs(c, r, s, order);
    AllServingIs(c, r, s, other);
    var all := AllServing(c, r, s, other).value;
    forall i | 0 <= i < |order|
      ensures ServingStateOf(c, r, s, c.functions[order[i]]).Some?
      ensures ServingStateOf(c, r, s, c.functions[order[i]]).value in all
    {
      var j :| 0 <= j < |other| && other[j] == order[i];
      assert Some(all[j]) == ServingStateOf(c, r, s, c.functions[other[j]]);
    }
  }

  /** The read does not depend on the order in which the map yields the functions. */
  lemma ServingIgnoresOrder(c: Catalog, r: Releases, s: Routes, order: seq<string>, other: seq<string>)
    requires T.CatalogOk(c) && Distinct(order) && Distinct(other)
    requires ToSet(order) == c.functions.Keys && ToSet(other) == c.functions.Keys
    ensures SortedServing(c, r, s, order) == SortedServing(c, r, s, other)
  {
    assert forall x :: x in order <==> x in other;
    if AllServing(c, r, s, order).Some? || AllServing(c, r, s, other).Some? {
      if AllServing(c, r, s, order).Some? {
        SameStates(c, r, s, other, order);
      }
      SameStates(c, r, s, order, other);
      SameStates(c, r, s, other, order);
      StatesDoNotTie(c, r, s, order);
      StatesDoNotTie(c, r, s, other);
      StateOrder();
      SortIgnoresOrder(AllServing(c, r, s, order).value, AllServing(c, r, s, other).value, CompareStates);
    }
  }

  lemma {:induction false} StopsAtFirst(c: Catalog, r: Releases, s: Routes, order: seq<string>, n: nat)
    requires n <= |order| && AllServing(c, r, s, order[..n]).None?
    ensures AllServing(c, r, s, order).None?
    decreases |order| - n
  {
    if n < |order| {
      assert order[..n + 1][..n] == order[..n];
      StopsAtFirst(c, r, s, order, n + 1);
    } else {
      assert order[..n] == order;
    }
  }

  /** In a reachable state the aggregate read succeeds. */
  lemma {:induction false} ReachableServes(s: Stores, order: seq<string>)
    requires T.Reachable(s) && forall i :: 0 <= i < |order| ==> order[i] in s.catalog.functions
    ensures AllServing(s.catalog, s.releases, s.routes, order).Some?
  {
    if order != [] {
      var n := |order| - 1;
      ReachableServes(s, order[..n]);
      T.ServingStatesNeverFails(s, order[n]);
    }
  }

  lemma NeverStops(c: Catalog, r: Releases, s: Routes, order: seq<string>)
    requires forall i :: 0 <= i < |order| ==> order[i] in c.functions
    ensures forall a :: T.Reachable(Stores(c, r, s, a)) ==> AllServing(c, r, s, order).Some?
  {
    forall a | T.Reachable(Stores(c, r, s, a)) ensures AllServing(c, r, s, order).Some? {
      ReachableServes(Stores(c, r, s, a), order);
    }
  }

  class AssignmentStore {
    const routes: RouteStore
    var records: map<string, Assignment>
    var activeCounts: map<Target, nat>

    function View(): Assignments
      reads this
    {
      Assignments(records, activeCounts)
    }

    /** All four stores, under the locks Install takes. */
    function Everything(): Stores
      reads this, routes, routes.catalog, routes.releases
    {
      Stores(routes.catalog.View(), routes.releases.View(), routes.View(), View())
    }

    /** Every count is the number of live assignments of its target, within the desired replicas. */
    ghost predicate Valid()
      reads this, routes, routes.catalog, routes.releases
    {
      T.AssignmentsOk(Everything())
    }

    constructor (routes: RouteStore)
      ensures Valid() && this.routes == routes && View() == NewStores().assignments
    {
      this.routes := routes;
      records, activeCounts := map[], map[];
      new;
      forall t ensures ActiveCount(View(), t) == |T.AssignedTo(View(), t)| { assert T.AssignedTo(View(), t) == {}; }
    }

    method Install(cmd: InstallCmd) returns (err: Option<Code>)
      requires Valid()
      modifies this
      ensures Valid() && (View(), err) == InstallAssignment(old(Everything()), cmd)
      ensures err.Some? ==> View() == old(View())
      ensures err.None? ==> cmd.placement.assignmentId !in old(records) && cmd.placement.assignmentId in records
                            && records == old(records)[cmd.placement.assignmentId := records[cmd.placement.assignmentId]]
                            && records[cmd.placement.assignmentId].placement == cmd.placement
                            && records[cmd.placement.assignmentId].live
    {
      T.InstallOk(Everything(), cmd);
      if !cmd.ifNoneMatch || cmd.expectedScaling == 0 || !cmd.placement.fit || cmd.index == 0 {
        return Some(Invalid);
      }
      var id := cmd.placement.assignmentId;
      if id in records {
        return Some(Conflict);
      }
      if |records| >= MAX_ASSIGNMENTS {
        return Some(Overloaded);
      }
      var misplaced := CheckPlacement(Everything(), cmd);
      if misplaced.Some? {
        return misplaced;
      }
      var d := routes.releases.deployments[cmd.placement.versionId];
      if cmd.expectedScaling != d.scalingRevision {
        return Some(RevisionConflict);
      }
      var record := Assignment(cmd.functionId, cmd.placement, true, cmd.at, cmd.index, 1);
      var count := ActiveCount(View(), TargetOf(record));
      if count >= d.desiredReplicas {
        return Some(Conflict);
      }
      records := records[id := record];
      activeCounts := activeCounts[TargetOf(record) := count + 1];
      return None;
    }

    method Cancel(cmd: CancelCmd) returns (err: Option<Code>)
      requires Valid()
      modifies this
      ensures Valid() && (View(), err) == CancelAssignment(old(View()), cmd) && err != Some(Internal)
      ensures err.Some? ==> View() == old(View())
      ensures err.None? ==> cmd.assignmentId in old(records) && old(records)[cmd.assignmentId].live && cmd.assignmentId in records
                            && records == old(records)[cmd.assignmentId := records[cmd.assignmentId]]
                            && records[cmd.assignmentId].placement == old(records)[cmd.assignmentId].placement
                            && !records[cmd.assignmentId].live
    {
      T.CancelOk(Everything(), cmd);
      if cmd.expected == 0 || cmd.index == 0 {
        return Some(Invalid);
      }
      if cmd.assignmentId !in records {
        return Some(NotFound);
      }
      var r := records[cmd.assignmentId];
      if r.revision != cmd.expected {
        return Some(RevisionConflict);
      }
      if !r.live {
        return Some(Conflict);
      }
      if cmd.at < r.updatedAt || cmd.index <= r.lastIndex {
        return Some(Invalid);
      }
      if r.revision == TWO64 - 1 {
        return Some(Conflict);
      }
      var count := ActiveCount(View(), TargetOf(r));
      if count == 0 {
        return Some(Internal);
      }
      records := records[cmd.assignmentId := r.(live := false, updatedAt := cmd.at, lastIndex := cmd.index, revision := r.revision + 1)];
      activeCounts := activeCounts[TargetOf(r) := count - 1];
      return None;
    }
  }
}
