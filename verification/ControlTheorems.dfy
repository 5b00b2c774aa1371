/** What holds across the four control-plane stores after any sequence of commands. */
module ControlTheorems {
  import opened Common
  import opened Ledger
  import opened ControlStores
  import R = Runs

  // ---------- the invariant ----------

  /** A function is indexed by its name and has exactly one trigger, its own. */
  predicate FunctionOk(c: Catalog, id: string)
    requires id in c.functions
  {
    var f := c.functions[id];
    && f.id == id && ValidFunction(f) && f.revision < TWO64 && (f.lifecycle == Active || f.lifecycle == Disabled)
    && f.name in c.idByName && c.idByName[f.name] == id
    && id in c.triggerByFunc && c.triggerByFunc[id] in c.triggers && c.triggers[c.triggerByFunc[id]].functionId == id
  }

  predicate NameOk(c: Catalog, name: string)
    requires name in c.idByName
  {
    c.idByName[name] in c.functions && c.functions[c.idByName[name]].name == name
  }

  predicate TriggerOk(c: Catalog, id: string)
    requires id in c.triggers
  {
    var t := c.triggers[id];
    t.id == id && ValidTrigger(t) && t.revision < TWO64 && t.functionId in c.functions
    && t.functionId in c.triggerByFunc && c.triggerByFunc[t.functionId] == id
  }

  ghost predicate CatalogOk(c: Catalog) {
    && (forall id :: id in c.functions ==> FunctionOk(c, id))
    && (forall name :: name in c.idByName ==> NameOk(c, name))
    && (forall id :: id in c.triggers ==> TriggerOk(c, id))
    && c.triggerByFunc.Keys == c.functions.Keys
  }

  /** Ready is having a deployment, Validating is having a validation fence. */
  predicate VersionOk(r: Releases, id: string)
    requires id in r.versions
  {
    var v := r.versions[id];
    && v.id == id && ValidVersion(v) && v.revision < TWO64
    && (v.state == Ready <==> id in r.deployments)
    && (v.state == Validating <==> id in r.validations)
    && (id in r.deployments ==> r.deployments[id].versionId == id && r.deployments[id].phase == Running)
  }

  ghost function VersionsOf(r: Releases, f: string): set<string> {
    set v | v in r.versions && r.versions[v].functionId == f
  }

  ghost predicate ReleasesOk(r: Releases) {
    && (forall id :: id in r.versions ==> VersionOk(r, id))
    && r.deployments.Keys <= r.versions.Keys && r.validations.Keys <= r.versions.Keys
    && (forall f :: CountOf(r, f) == |VersionsOf(r, f)| <= MAX_VERSIONS)
  }

  /** The stored route is the function's active one, and an enabled route's target is ready with its policy. */
  predicate RouteOk(s: Stores, f: string)
    requires f in s.routes.routes
  {
    var route := s.routes.routes[f];
    && f in s.catalog.functions && route.functionId == f && ValidRoute(route) && route.id in s.routes.routeIds
    && route.routeRevision == s.catalog.functions[f].activeRoute
    && (route.enabled ==> ReadyTarget(s.releases, route, f))
  }

  ghost predicate RoutesOk(s: Stores) {
    && (forall f :: f in s.routes.routes ==> RouteOk(s, f))
    && (forall f :: f in s.catalog.functions && f !in s.routes.routes ==> s.catalog.functions[f].activeRoute == 0)
    && (forall v :: v in s.releases.versions ==> s.releases.versions[v].functionId in s.catalog.functions)
  }

  ghost function AssignedTo(a: Assignments, t: Target): set<string> {
    set id | id in a.records && a.records[id].live && TargetOf(a.records[id]) == t
  }

  predicate AssignmentOk(a: Assignments, id: string)
    requires id in a.records
  {
    a.records[id].placement.assignmentId == id && a.records[id].revision == if a.records[id].live then 1 else 2
  }

  /** Each count is the number of live assignments, and stays within the deployment's desired replicas. */
  predicate CountOk(s: Stores, t: Target)
  {
    ActiveCount(s.assignments, t) <=
      if t.versionId in s.releases.deployments then s.releases.deployments[t.versionId].desiredReplicas else 0
  }

  ghost predicate AssignmentsOk(s: Stores) {
    && (forall id :: id in s.assignments.records ==> AssignmentOk(s.assignments, id))
    && (forall t :: ActiveCount(s.assignments, t) == |AssignedTo(s.assignments, t)|)
    && (forall t :: CountOk(s, t))
  }

  ghost function Good(): iset<Stores> {
    iset s: Stores | CatalogOk(s.catalog) && ReleasesOk(s.releases) && RoutesOk(s) && AssignmentsOk(s)
  }

  // ---------- catalog commands ----------

  /** A new function with a new trigger, under unused id, name and trigger id. */
  lemma AddFunction(c: Catalog, d: Catalog, f: Function, u: Trigger)
    requires CatalogOk(c) && f.id !in c.functions && f.name !in c.idByName && u.id !in c.triggers
    requires d.functions == c.functions[f.id := f] && d.idByName == c.idByName[f.name := f.id]
    requires d.triggers == c.triggers[u.id := u] && d.triggerByFunc == c.triggerByFunc[f.id := u.id]
    requires ValidFunction(f) && f.revision == 1 && f.lifecycle == Active && ValidTrigger(u) && u.revision == 1
    requires u.functionId == f.id
    ensures CatalogOk(d)
  {
    forall id | id in d.functions ensures FunctionOk(d, id) { AddedFunction(c, d, f, u, id); }
    forall name | name in d.idByName ensures NameOk(d, name) { AddedName(c, d, f, name); }
    forall id | id in d.triggers ensures TriggerOk(d, id) { AddedTrigger(c, d, f, u, id); }
  }

  lemma AddedName(c: Catalog, d: Catalog, f: Function, name: string)
    requires CatalogOk(c) && f.id !in c.functions && name in d.idByName
    requires d.functions == c.functions[f.id := f] && d.idByName == c.idByName[f.name := f.id]
    ensures NameOk(d, name)
  {
    if name != f.name { assert NameOk(c, name); }
  }

  lemma AddedTrigger(c: Catalog, d: Catalog, f: Function, u: Trigger, id: string)
    requires CatalogOk(c) && f.id !in c.functions && f.name !in c.idByName && u.id !in c.triggers
    requires d.functions == c.functions[f.id := f] && d.idByName == c.idByName[f.name := f.id]
    requires d.triggers == c.triggers[u.id := u] && d.triggerByFunc == c.triggerByFunc[f.id := u.id]
    requires ValidFunction(f) && f.revision == 1 && f.lifecycle == Active && ValidTrigger(u) && u.revision == 1
    requires u.functionId == f.id
    requires id in d.triggers
    ensures TriggerOk(d, id)
  {
    if id != u.id { assert TriggerOk(c, id); }
  }

  lemma AddedFunction(c: Catalog, d: Catalog, f: Function, u: Trigger, id: string)
    requires CatalogOk(c) && f.id !in c.functions && f.name !in c.idByName && u.id !in c.triggers
    requires d.functions == c.functions[f.id := f] && d.idByName == c.idByName[f.name := f.id]
    requires d.triggers == c.triggers[u.id := u] && d.triggerByFunc == c.triggerByFunc[f.id := u.id]
    requires ValidFunction(f) && f.revision == 1 && f.lifecycle == Active && ValidTrigger(u) && u.revision == 1
    requires u.functionId == f.id
    requires id in d.functions
    ensures FunctionOk(d, id)
  {
    if id != f.id {
      assert FunctionOk(c, id);
      assert c.functions[id].name != f.name && c.triggerByFunc[id] != u.id;
    }
  }

  lemma CreateFunctionOk(c: Catalog, cmd: CreateFunctionCmd)
    requires CatalogOk(c)
    ensures CatalogOk(CreateFunction(c, cmd).0)
  {
    if CreateFunction(c, cmd).1.None? {
      AddFunction(c, CreateFunction(c, cmd).0, cmd.fn, cmd.trigger);
    }
  }

  /** One function changes, but not its identity, name or trigger. */
  lemma PutFunction(c: Catalog, d: Catalog, g: Function)
    requires CatalogOk(c) && g.id in c.functions && d == c.(functions := c.functions[g.id := g])
    requires g.name == c.functions[g.id].name && ValidFunction(g) && g.revision < TWO64
    requires g.lifecycle == Active || g.lifecycle == Disabled
    ensures CatalogOk(d)
  {
    assert FunctionOk(c, g.id);
    forall id | id in d.functions ensures FunctionOk(d, id) { assert FunctionOk(c, id); }
    forall name | name in d.idByName ensures NameOk(d, name) { assert NameOk(c, name); }
    forall id | id in d.triggers ensures TriggerOk(d, id) { assert TriggerOk(c, id); }
  }

  lemma SetLifecycleOk(c: Catalog, cmd: LifecycleCmd)
    requires CatalogOk(c)
    ensures CatalogOk(SetLifecycle(c, cmd).0)
  {
    var d := SetLifecycle(c, cmd).0;
    if d != c {
      assert FunctionOk(c, cmd.functionId);
      PutFunction(c, d, d.functions[cmd.functionId]);
    }
  }

  lemma RotateOk(c: Catalog, cmd: RotateCmd)
    requires CatalogOk(c)
    ensures CatalogOk(RotateToken(c, cmd).0) && RotateToken(c, cmd).0.functions == c.functions
    ensures RotateToken(c, cmd).1 != Some(Internal)
  {
    var d := RotateToken(c, cmd).0;
    assert cmd.functionId in c.triggerByFunc ==> FunctionOk(c, cmd.functionId);
    if d != c {
      forall id | id in d.functions ensures FunctionOk(d, id) { assert FunctionOk(c, id); }
      forall name | name in d.idByName ensures NameOk(d, name) { assert NameOk(c, name); }
      forall id | id in d.triggers ensures TriggerOk(d, id) { assert TriggerOk(c, id); }
    }
  }

  // ---------- release commands ----------

  lemma AddVersion(r: Releases, q: Releases, v: Version)
    requires ReleasesOk(r) && v.id !in r.versions && CountOf(r, v.functionId) < MAX_VERSIONS
    requires q.versions == r.versions[v.id := v] && q.counts == r.counts[v.functionId := CountOf(r, v.functionId) + 1]
    requires q.validations == r.validations && q.deployments == r.deployments
    requires ValidVersion(v) && v.revision == 1 && v.state == Uploaded
    ensures ReleasesOk(q)
  {
    forall id | id in q.versions ensures VersionOk(q, id) { assert id in r.versions ==> VersionOk(r, id); }
    forall f ensures CountOf(q, f) == |VersionsOf(q, f)| <= MAX_VERSIONS {
      assert CountOf(r, f) == |VersionsOf(r, f)| <= MAX_VERSIONS;
      AddToVersions(r, q, v, f);
    }
  }

  lemma AddToVersions(r: Releases, q: Releases, v: Version, f: string)
    requires v.id !in r.versions && q.versions == r.versions[v.id := v]
    ensures |VersionsOf(q, f)| == |VersionsOf(r, f)| + if f == v.functionId then 1 else 0
  {
    assert VersionsOf(q, f) == VersionsOf(r, f) + (if f == v.functionId then {v.id} else {});
  }

  lemma CreateVersionOk(c: Catalog, r: Releases, cmd: CreateVersionCmd)
    requires ReleasesOk(r)
    ensures ReleasesOk(CreateVersion(c, r, cmd).0)
  {
    if CreateVersion(c, r, cmd).1.None? {
      AddVersion(r, CreateVersion(c, r, cmd).0, cmd.version);
    }
  }

  /** One version changes within its function; fences and deployments change for it alone. */
  lemma PutVersion(r: Releases, q: Releases, w: Version)
    requires ReleasesOk(r) && w.id in r.versions && q.versions == r.versions[w.id := w] && q.counts == r.counts
    requires w.functionId == r.versions[w.id].functionId
    requires q.deployments.Keys <= q.versions.Keys && q.validations.Keys <= q.versions.Keys
    requires forall id :: id != w.id ==>
      (id in q.deployments <==> id in r.deployments) && (id in q.validations <==> id in r.validations)
    requires forall id :: id in r.deployments && id != w.id ==> q.deployments[id] == r.deployments[id]
    requires VersionOk(q, w.id)
    ensures ReleasesOk(q)
  {
    forall id | id in q.versions ensures VersionOk(q, id) { assert VersionOk(r, id); }
    forall f ensures CountOf(q, f) == |VersionsOf(q, f)| <= MAX_VERSIONS {
      assert CountOf(r, f) == |VersionsOf(r, f)| <= MAX_VERSIONS;
      assert VersionsOf(q, f) == VersionsOf(r, f);
    }
  }

  lemma StartOk(r: Releases, cmd: StartCmd)
    requires ReleasesOk(r)
    ensures ReleasesOk(StartValidation(r, cmd).0)
  {
    var q := StartValidation(r, cmd).0;
    if StartValidation(r, cmd).1.None? {
      assert VersionOk(r, cmd.versionId);
      PutVersion(r, q, q.versions[cmd.versionId]);
    }
  }

  lemma CompleteOk(r: Releases, cmd: CompleteCmd)
    requires ReleasesOk(r)
    ensures ReleasesOk(CompleteValidation(r, cmd).0)
  {
    var q := CompleteValidation(r, cmd).0;
    if CompleteValidation(r, cmd).1.None? {
      assert VersionOk(r, cmd.versionId);
      PutVersion(r, q, q.versions[cmd.versionId]);
    }
  }

  /** Versions that are ready stay ready, with the same deployment; no version changes function or epoch. */
  ghost predicate Grows(r: Releases, q: Releases) {
    && (forall v :: v in r.versions ==> v in q.versions && SameVersion(r.versions[v], q.versions[v]))
    && (forall v :: v in r.deployments ==> v in q.deployments && q.deployments[v] == r.deployments[v])
  }

  predicate SameVersion(v: Version, w: Version) {
    w.functionId == v.functionId && w.admissionEpoch == v.admissionEpoch && (v.state == Ready ==> w == v)
  }

  lemma CreateVersionGrows(c: Catalog, r: Releases, cmd: CreateVersionCmd)
    ensures Grows(r, CreateVersion(c, r, cmd).0)
  {
  }

  lemma StartGrows(r: Releases, cmd: StartCmd)
    ensures Grows(r, StartValidation(r, cmd).0)
  {
  }

  lemma CompleteGrows(r: Releases, cmd: CompleteCmd)
    requires ReleasesOk(r)
    ensures Grows(r, CompleteValidation(r, cmd).0)
  {
    assert cmd.versionId in r.versions ==> VersionOk(r, cmd.versionId);
  }

  // ---------- routes ----------

  /** Routes stay in order while functions keep their active revision and releases only grow. */
  lemma RoutesStay(s: Stores, s': Stores)
    requires RoutesOk(s) && s'.routes == s.routes && Grows(s.releases, s'.releases)
    requires SameActive(s.catalog, s'.catalog)
    requires forall v :: v in s'.releases.versions && v !in s.releases.versions ==>
      s'.releases.versions[v].functionId in s'.catalog.functions
    ensures RoutesOk(s')
  {
    forall f | f in s'.routes.routes ensures RouteOk(s', f) {
      assert RouteOk(s, f);
      if s.routes.routes[f].enabled {
        var v := s.routes.routes[f].targets[0].versionId;
        assert SameVersion(s.releases.versions[v], s'.releases.versions[v]);
      }
    }
    forall v | v in s'.releases.versions ensures s'.releases.versions[v].functionId in s'.catalog.functions {
      assert v in s.releases.versions ==> SameVersion(s.releases.versions[v], s'.releases.versions[v]);
    }
  }

  lemma GrowsRefl(r: Releases)
    ensures Grows(r, r)
  {
  }

  /** The route of one function is replaced together with the function's active revision. */
  lemma PutRoute(s: Stores, s': Stores, route: Route, g: Function)
    requires RoutesOk(s) && s'.releases == s.releases && g.id in s.catalog.functions
    requires g.activeRoute == route.routeRevision
    requires s'.catalog.functions == s.catalog.functions[g.id := g]
    requires s'.routes == Routes(s.routes.routes[g.id := route], s.routes.routeIds + {route.id})
    requires route.functionId == g.id && ValidRoute(route) && (route.enabled ==> ReadyTarget(s.releases, route, g.id))
    ensures RoutesOk(s')
  {
    forall f | f in s'.routes.routes ensures RouteOk(s', f) {
      assert f in s.routes.routes ==> RouteOk(s, f);
    }
  }

  lemma PublishOk(s: Stores, cmd: PublishCmd)
    requires CatalogOk(s.catalog) && RoutesOk(s)
    ensures var (catalog, routes, err) := Publish(s.catalog, s.releases, s.routes, cmd);
            CatalogOk(catalog) && RoutesOk(s.(catalog := catalog, routes := routes))
  {
    var (catalog, routes, err) := Publish(s.catalog, s.releases, s.routes, cmd);
    var s' := s.(catalog := catalog, routes := routes);
    if err.None? {
      assert FunctionOk(s.catalog, cmd.functionId);
      PutFunction(s.catalog, catalog, catalog.functions[cmd.functionId]);
      PutRoute(s, s', cmd.route, catalog.functions[cmd.functionId]);
    } else {
      assert s' == s;
    }
  }

  // ---------- assignments ----------

  lemma AddToAssigned(a: Assignments, a': Assignments, id: string, t: Target)
    requires id !in a.records && id in a'.records && a'.records == a.records[id := a'.records[id]]
    requires a'.records[id].live
    ensures |AssignedTo(a', t)| == |AssignedTo(a, t)| + if t == TargetOf(a'.records[id]) then 1 else 0
  {
    if t == TargetOf(a'.records[id]) {
      assert AssignedTo(a', t) == AssignedTo(a, t) + {id};
    } else {
      assert AssignedTo(a', t) == AssignedTo(a, t);
    }
  }

  /** A new live assignment within the desired replicas of its deployment. */
  lemma AddAssignment(s: Stores, s': Stores, x: Assignment)
    requires AssignmentsOk(s) && s'.releases == s.releases && x.live && x.revision == 1
    requires x.placement.assignmentId !in s.assignments.records
    requires s'.assignments.records == s.assignments.records[x.placement.assignmentId := x]
    requires s'.assignments.activeCounts == s.assignments.activeCounts[TargetOf(x) := ActiveCount(s.assignments, TargetOf(x)) + 1]
    requires x.placement.versionId in s.releases.deployments
    requires ActiveCount(s.assignments, TargetOf(x)) < s.releases.deployments[x.placement.versionId].desiredReplicas
    ensures AssignmentsOk(s')
  {
    var a, a' := s.assignments, s'.assignments;
    forall i | i in a'.records ensures AssignmentOk(a', i) { assert i in a.records ==> AssignmentOk(a, i); }
    forall t ensures ActiveCount(a', t) == |AssignedTo(a', t)| {
      assert ActiveCount(a, t) == |AssignedTo(a, t)|;
      AddToAssigned(a, a', x.placement.assignmentId, t);
    }
    forall t ensures CountOk(s', t) { assert CountOk(s, t); }
  }

  lemma InstallOk(s: Stores, cmd: InstallCmd)
    requires AssignmentsOk(s)
    ensures AssignmentsOk(s.(assignments := InstallAssignment(s, cmd).0))
  {
    var s' := s.(assignments := InstallAssignment(s, cmd).0);
    if InstallAssignment(s, cmd).1.None? {
      AddAssignment(s, s', s'.assignments.records[cmd.placement.assignmentId]);
    } else {
      assert s' == s;
    }
  }

  lemma DropFromAssigned(a: Assignments, a': Assignments, id: string, t: Target)
    requires id in a.records && a.records[id].live && id in a'.records && a'.records == a.records[id := a'.records[id]]
    requires !a'.records[id].live
    ensures |AssignedTo(a', t)| == |AssignedTo(a, t)| - if t == TargetOf(a.records[id]) then 1 else 0
  {
    assert AssignedTo(a', t) == AssignedTo(a, t) - (if t == TargetOf(a.records[id]) then {id} else {});
  }

  /** A live record is counted. */
  lemma LiveIsCounted(a: Assignments, id: string)
    requires id in a.records && a.records[id].live
    requires ActiveCount(a, TargetOf(a.records[id])) == |AssignedTo(a, TargetOf(a.records[id]))|
    ensures ActiveCount(a, TargetOf(a.records[id])) >= 1
  {
    assert id in AssignedTo(a, TargetOf(a.records[id]));
  }

  lemma DropAssignment(s: Stores, s': Stores, id: string, y: Assignment)
    requires AssignmentsOk(s) && s'.releases == s.releases && id in s.assignments.records
    requires s.assignments.records[id].live
    requires !y.live && y.revision == 2 && y.placement == s.assignments.records[id].placement
    requires s'.assignments.records == s.assignments.records[id := y]
    requires var u := TargetOf(s.assignments.records[id]);
      && ActiveCount(s.assignments, u) >= 1
      && s'.assignments.activeCounts == s.assignments.activeCounts[u := ActiveCount(s.assignments, u) - 1]
    ensures AssignmentsOk(s')
  {
    var a, a' := s.assignments, s'.assignments;
    forall i | i in a'.records ensures AssignmentOk(a', i) { assert AssignmentOk(a, i); }
    forall t ensures ActiveCount(a', t) == |AssignedTo(a', t)| {
      assert ActiveCount(a, t) == |AssignedTo(a, t)|;
      DropFromAssigned(a, a', id, t);
    }
    forall t ensures CountOk(s', t) { assert CountOk(s, t); }
  }

  /** Cancelling keeps the counts exact, and never meets a missing count. */
  lemma CancelOk(s: Stores, cmd: CancelCmd)
    requires AssignmentsOk(s)
    ensures AssignmentsOk(s.(assignments := CancelAssignment(s.assignments, cmd).0))
    ensures CancelAssignment(s.assignments, cmd).1 != Some(Internal)
  {
    var s' := s.(assignments := CancelAssignment(s.assignments, cmd).0);
    var id := cmd.assignmentId;
    if id in s.assignments.records && s.assignments.records[id].live {
      assert AssignmentOk(s.assignments, id);
      LiveIsCounted(s.assignments, id);
      if CancelAssignment(s.assignments, cmd).1.None? {
        DropAssignment(s, s', id, s'.assignments.records[id]);
      } else {
        assert s' == s;
      }
    } else {
      assert s' == s;
    }
  }

  lemma AssignmentsStay(s: Stores, s': Stores)
    requires AssignmentsOk(s) && s'.assignments == s.assignments && Grows(s.releases, s'.releases)
    ensures AssignmentsOk(s')
  {
    forall t ensures CountOk(s', t) { assert CountOk(s, t); }
  }

  // ---------- every command keeps everything ----------

  lemma CatalogStep(s: Stores, s': Stores)
    requires s in Good() && s'.releases == s.releases && s'.routes == s.routes && s'.assignments == s.assignments
    requires CatalogOk(s'.catalog) && SameActive(s.catalog, s'.catalog)
    ensures s' in Good()
  {
    GrowsRefl(s.releases);
    RoutesStay(s, s');
    AssignmentsStay(s, s');
  }

  lemma ReleaseStep(s: Stores, s': Stores)
    requires s in Good() && s'.catalog == s.catalog && s'.routes == s.routes && s'.assignments == s.assignments
    requires ReleasesOk(s'.releases) && Grows(s.releases, s'.releases)
    requires forall v :: v in s'.releases.versions && v !in s.releases.versions ==>
      s'.releases.versions[v].functionId in s.catalog.functions
    ensures s' in Good()
  {
    RoutesStay(s, s');
    AssignmentsStay(s, s');
  }

  /** Functions stay with their active route revision; new ones have none. */
  ghost predicate SameActive(c: Catalog, d: Catalog) {
    && (forall f :: f in c.functions ==> f in d.functions && d.functions[f].activeRoute == c.functions[f].activeRoute)
    && (forall f :: f in d.functions && f !in c.functions ==> d.functions[f].activeRoute == 0)
  }

  lemma CreateFunctionSameActive(c: Catalog, cmd: CreateFunctionCmd)
    ensures SameActive(c, CreateFunction(c, cmd).0)
  {
  }

  lemma LifecycleSameActive(c: Catalog, cmd: LifecycleCmd)
    ensures SameActive(c, SetLifecycle(c, cmd).0)
  {
  }

  lemma CreateFunctionStep(s: Stores, c: CreateFunctionCmd)
    requires s in Good()
    ensures s.(catalog := CreateFunction(s.catalog, c).0) in Good()
  {
    CreateFunctionOk(s.catalog, c);
    CreateFunctionSameActive(s.catalog, c);
    CatalogStep(s, s.(catalog := CreateFunction(s.catalog, c).0));
  }

  lemma LifecycleStep(s: Stores, c: LifecycleCmd)
    requires s in Good()
    ensures s.(catalog := SetLifecycle(s.catalog, c).0) in Good()
  {
    SetLifecycleOk(s.catalog, c);
    LifecycleSameActive(s.catalog, c);
    CatalogStep(s, s.(catalog := SetLifecycle(s.catalog, c).0));
  }

  lemma RotateStep(s: Stores, c: RotateCmd)
    requires s in Good()
    ensures s.(catalog := RotateToken(s.catalog, c).0) in Good()
  {
    RotateOk(s.catalog, c);
    CatalogStep(s, s.(catalog := RotateToken(s.catalog, c).0));
  }

  lemma CreateVersionStep(s: Stores, c: CreateVersionCmd)
    requires s in Good()
    ensures s.(releases := CreateVersion(s.catalog, s.releases, c).0) in Good()
  {
    CreateVersionOk(s.catalog, s.releases, c);
    CreateVersionGrows(s.catalog, s.releases, c);
    ReleaseStep(s, s.(releases := CreateVersion(s.catalog, s.releases, c).0));
  }

  lemma StartStep(s: Stores, c: StartCmd)
    requires s in Good()
    ensures s.(releases := StartValidation(s.releases, c).0) in Good()
  {
    StartOk(s.releases, c);
    StartGrows(s.releases, c);
    ReleaseStep(s, s.(releases := StartValidation(s.releases, c).0));
  }

  lemma CompleteStep(s: Stores, c: CompleteCmd)
    requires s in Good()
    ensures s.(releases := CompleteValidation(s.releases, c).0) in Good()
  {
    CompleteOk(s.releases, c);
    CompleteGrows(s.releases, c);
    ReleaseStep(s, s.(releases := CompleteValidation(s.releases, c).0));
  }

  lemma PublishStep(s: Stores, c: PublishCmd)
    requires s in Good()
    ensures Execute(s, DoPublish(c)).0 in Good()
  {
    PublishOk(s, c);
    GrowsRefl(s.releases);
    AssignmentsStay(s, Execute(s, DoPublish(c)).0);
  }

  lemma InstallStep(s: Stores, c: InstallCmd)
    requires s in Good()
    ensures s.(assignments := InstallAssignment(s, c).0) in Good()
  {
    InstallOk(s, c);
    SameRoutes(s, s.(assignments := InstallAssignment(s, c).0));
  }

  lemma CancelStep(s: Stores, c: CancelCmd)
    requires s in Good()
    ensures s.(assignments := CancelAssignment(s.assignments, c).0) in Good()
  {
    CancelOk(s, c);
    SameRoutes(s, s.(assignments := CancelAssignment(s.assignments, c).0));
  }

  lemma ExecuteOk(s: Stores, cmd: Command)
    requires s in Good()
    ensures Execute(s, cmd).0 in Good()
  {
    match cmd
    case DoCreateFunction(c) => CreateFunctionStep(s, c);
    case DoSetLifecycle(c) => LifecycleStep(s, c);
    case DoRotate(c) => RotateStep(s, c);
    case DoCreateVersion(c) => CreateVersionStep(s, c);
    case DoStart(c) => StartStep(s, c);
    case DoComplete(c) => CompleteStep(s, c);
    case DoPublish(c) => PublishStep(s, c);
    case DoInstall(c) => InstallStep(s, c);
    case DoCancel(c) => CancelStep(s, c);
  }

  lemma SameRoutes(s: Stores, s': Stores)
    requires RoutesOk(s) && s'.catalog == s.catalog && s'.releases == s.releases && s'.routes == s.routes
    ensures RoutesOk(s')
  {
    forall f | f in s'.routes.routes ensures RouteOk(s', f) { assert RouteOk(s, f); }
  }

  ghost function Moves(): iset<R.Move<Stores, Command>> {
    iset m: R.Move<Stores, Command> | m.post == Execute(m.pre, m.step).0
  }

  ghost predicate Reachable(s: Stores) {
    R.Reachable(NewStores(), Moves(), s)
  }

  lemma NewOk()
    ensures NewStores() in Good()
  {
    var s := NewStores();
    forall f ensures CountOf(s.releases, f) == |VersionsOf(s.releases, f)| <= MAX_VERSIONS { assert VersionsOf(s.releases, f) == {}; }
    forall t ensures ActiveCount(s.assignments, t) == |AssignedTo(s.assignments, t)| { assert AssignedTo(s.assignments, t) == {}; }
  }

  lemma ReachableIsGood(s: Stores)
    requires Reachable(s)
    ensures s in Good()
  {
    NewOk();
    forall m | m in Moves() && m.pre in Good() ensures m.post in Good() { ExecuteOk(m.pre, m.step); }
    R.ReachableIsIn(NewStores(), Moves(), Good(), s);
  }

  /** No invariant error of the aggregate read can occur: every function yields a serving state. */
  lemma ServingStatesNeverFails(s: Stores, f: string)
    requires Reachable(s) && f in s.catalog.functions
    ensures ServingStateOf(s.catalog, s.releases, s.routes, s.catalog.functions[f]).Some?
    ensures s.catalog.functions[f].id == f
  {
    ReachableIsGood(s);
    assert FunctionOk(s.catalog, f);
    assert f in s.routes.routes ==> RouteOk(s, f);
  }

  /** The function and name indexes are inverse, and so are functions and their triggers. */
  lemma IndexesAreInverse(s: Stores)
    requires Reachable(s)
    ensures forall id, name :: (id in s.catalog.functions && s.catalog.functions[id].name == name)
                          <==> (name in s.catalog.idByName && s.catalog.idByName[name] == id)
    ensures forall f, u :: (f in s.catalog.triggerByFunc && s.catalog.triggerByFunc[f] == u)
                      <==> (u in s.catalog.triggers && s.catalog.triggers[u].functionId == f)
    ensures s.catalog.triggerByFunc.Keys == s.catalog.functions.Keys
  {
    ReachableIsGood(s);
    var c := s.catalog;
    forall id, name | id in c.functions && c.functions[id].name == name
      ensures name in c.idByName && c.idByName[name] == id
    {
      assert FunctionOk(c, id);
    }
    forall id, name | name in c.idByName && c.idByName[name] == id
      ensures id in c.functions && c.functions[id].name == name
    {
      assert NameOk(c, name);
    }
    forall f, u | f in c.triggerByFunc && c.triggerByFunc[f] == u
      ensures u in c.triggers && c.triggers[u].functionId == f
    {
      assert FunctionOk(c, f);
    }
    forall f, u | u in c.triggers && c.triggers[u].functionId == f
      ensures f in c.triggerByFunc && c.triggerByFunc[f] == u
    {
      assert TriggerOk(c, u);
    }
  }

  /** A version is Ready exactly when it has a deployment and Validating exactly when it has a fence. */
  lemma StatesMatchTables(s: Stores, v: string)
    requires Reachable(s)
    ensures v in s.releases.deployments <==> v in s.releases.versions && s.releases.versions[v].state == Ready
    ensures v in s.releases.validations <==> v in s.releases.versions && s.releases.versions[v].state == Validating
  {
    ReachableIsGood(s);
    assert v in s.releases.versions ==> VersionOk(s.releases, v);
  }

  /** The active counts are exact and within the desired replicas; a cancel never meets a missing count. */
  lemma ActiveCountsAreExact(s: Stores, t: Target, cmd: CancelCmd)
    requires Reachable(s)
    ensures ActiveCount(s.assignments, t) == |AssignedTo(s.assignments, t)|
    ensures ActiveCount(s.assignments, t) > 0 ==>
      t.versionId in s.releases.deployments && ActiveCount(s.assignments, t) <= s.releases.deployments[t.versionId].desiredReplicas
    ensures CancelAssignment(s.assignments, cmd).1 != Some(Internal)
  {
    ReachableIsGood(s);
    assert CountOk(s, t);
    CancelOk(s, cmd);
  }

  // ---------- assignment identities over runs ----------

  /** The placement stays; a record goes from live at revision 1 to cancelled at revision 2, once. */
  predicate Follows(x: Assignment, y: Assignment) {
    y.functionId == x.functionId && y.placement == x.placement && (y == x || (x.live && !y.live && x.revision == 1 && y.revision == 2))
  }

  lemma InstallFollows(s: Stores, cmd: InstallCmd, id: string)
    requires id in s.assignments.records
    ensures id in InstallAssignment(s, cmd).0.records
    ensures Follows(s.assignments.records[id], InstallAssignment(s, cmd).0.records[id])
  {
  }

  lemma CancelFollows(a: Assignments, cmd: CancelCmd, id: string)
    requires id in a.records && AssignmentOk(a, id)
    ensures id in CancelAssignment(a, cmd).0.records && Follows(a.records[id], CancelAssignment(a, cmd).0.records[id])
  {
  }

  lemma ExecuteFollows(s: Stores, cmd: Command, id: string)
    requires id in s.assignments.records && AssignmentOk(s.assignments, id)
    ensures id in Execute(s, cmd).0.assignments.records
    ensures Follows(s.assignments.records[id], Execute(s, cmd).0.assignments.records[id])
  {
    match cmd
    case DoInstall(c) => InstallFollows(s, c, id);
    case DoCancel(c) => CancelFollows(s.assignments, c, id);
    case _ =>
  }

  lemma FollowsTransitive(x: Assignment, y: Assignment, z: Assignment)
    requires Follows(x, y) && Follows(y, z)
    ensures Follows(x, z)
  {
  }

  /** The good states in which `id` names a follower of x. */
  ghost function FollowersOf(id: string, x: Assignment): iset<Stores> {
    iset s: Stores | s in Good() && id in s.assignments.records && Follows(x, s.assignments.records[id])
  }

  lemma FollowersAreKept(id: string, x: Assignment)
    ensures R.Keeps(Moves(), FollowersOf(id, x))
  {
    forall m | m in Moves() && m.pre in FollowersOf(id, x) ensures m.post in FollowersOf(id, x) {
      ExecuteOk(m.pre, m.step);
      assert AssignmentOk(m.pre.assignments, id);
      ExecuteFollows(m.pre, m.step, id);
      FollowsTransitive(x, m.pre.assignments.records[id], m.post.assignments.records[id]);
    }
  }

  /** An assignment id once used keeps its placement for good and is cancelled at most once. */
  lemma AssignmentsAreForever(states: seq<Stores>, cmds: seq<Command>, i: nat, j: nat, id: string)
    requires R.IsRun(NewStores(), Moves(), states, cmds) && i <= j < |states| && id in states[i].assignments.records
    ensures id in states[j].assignments.records
    ensures Follows(states[i].assignments.records[id], states[j].assignments.records[id])
  {
    var x := states[i].assignments.records[id];
    assert states[i] in states;
    ReachableIsGood(states[i]);
    FollowersAreKept(id, x);
    R.StaysFrom(NewStores(), Moves(), FollowersOf(id, x), states, cmds, i, j);
  }
}
