/**
 The four stores of the control plane (functions and triggers, versions and
 deployments, routes, assignments) and their commands. Revisions are 64-bit
 and their increments wrap. `fit` on a value stands for the field checks of
 its validator that no command can change.
 */
module ControlStores {
  import opened Common
  import opened Ledger

  datatype Lifecycle = Active | Disabled | Deleting | Gone

  datatype Function = Function(
    id: string, name: string, createdAt: int, updatedAt: int, createdIndex: nat,
    revision: nat, lifecycle: Lifecycle, activeRoute: nat, fit: bool)

  datatype Policy = Token(verifier: string) | Public

  datatype Trigger = Trigger(
    id: string, functionId: string, enabled: bool, createdAt: int, updatedAt: int, createdIndex: nat,
    revision: nat, policy: Policy, fit: bool)

  datatype VersionState = Uploaded | Validating | Ready | Failed

  datatype Version = Version(
    id: string, functionId: string, admissionEpoch: nat, createdAt: int, updatedAt: int, createdIndex: nat,
    revision: nat, state: VersionState, runtime: string, fit: bool)

  datatype Phase = Running | NotRunning

  datatype Deployment = Deployment(
    versionId: string, generation: nat, scalingRevision: nat, desiredReplicas: nat, phase: Phase,
    policyDigest: string, memory: nat, createdIndex: nat, fit: bool)

  datatype RouteTarget = RouteTarget(versionId: string, admissionEpoch: nat, generation: nat, policyDigest: string)

  datatype Route = Route(
    id: string, functionId: string, routeRevision: nat, enabled: bool, targets: seq<RouteTarget>,
    createdAt: int, updatedAt: int, createdIndex: nat, revision: nat, fit: bool)

  datatype Placement = Placement(
    assignmentId: string, versionId: string, admissionEpoch: nat, generation: nat, policyDigest: string,
    runtime: string, memory: nat, fit: bool)

  datatype Target = Target(functionId: string, versionId: string, admissionEpoch: nat, generation: nat)

  datatype Assignment = Assignment(
    functionId: string, placement: Placement, live: bool, updatedAt: int, lastIndex: nat, revision: nat)

  datatype Catalog = Catalog(
    functions: map<string, Function>, idByName: map<string, string>,
    triggers: map<string, Trigger>, triggerByFunc: map<string, string>)

  datatype Releases = Releases(
    versions: map<string, Version>, counts: map<string, nat>,
    validations: map<string, string>, deployments: map<string, Deployment>)

  datatype Routes = Routes(routes: map<string, Route>, routeIds: set<string>)

  datatype Assignments = Assignments(records: map<string, Assignment>, activeCounts: map<Target, nat>)

  datatype Stores = Stores(catalog: Catalog, releases: Releases, routes: Routes, assignments: Assignments)

  const MAX_FUNCTIONS := 1_000
  const MAX_VERSIONS := 100
  const MAX_ASSIGNMENTS := 100_000

  function NewStores(): Stores {
    Stores(Catalog(map[], map[], map[], map[]), Releases(map[], map[], map[], map[]), Routes(map[], {}), Assignments(map[], map[]))
  }

  // ---------- validators ----------

  predicate ValidFunction(f: Function) {
    f.fit && f.createdIndex != 0 && f.revision != 0 && f.createdAt <= f.updatedAt
  }

  predicate ValidTrigger(t: Trigger) {
    t.fit && t.createdIndex != 0 && t.revision != 0 && t.createdAt <= t.updatedAt
  }

  predicate ValidVersion(v: Version) {
    v.fit && v.createdIndex != 0 && v.revision != 0 && v.createdAt <= v.updatedAt && v.admissionEpoch != 0
  }

  /** ValidateCore: an enabled route has exactly one target, a disabled one none. */
  predicate ValidRoute(r: Route) {
    && r.fit && r.createdIndex != 0 && r.revision != 0 && r.createdAt <= r.updatedAt && r.routeRevision != 0
    && |r.targets| == if r.enabled then 1 else 0
  }

  // ---------- catalog ----------

  datatype CreateFunctionCmd = CreateFunctionCmd(ifNoneMatch: bool, index: nat, fn: Function, trigger: Trigger)

  predicate ValidCreate(cmd: CreateFunctionCmd) {
    var f, t := cmd.fn, cmd.trigger;
    && cmd.ifNoneMatch && cmd.index != 0
    && ValidFunction(f) && f.lifecycle == Active && f.activeRoute == 0 && f.createdIndex == cmd.index && f.revision == 1
    && ValidTrigger(t) && t.functionId == f.id && t.enabled && t.createdIndex == cmd.index && t.revision == 1
    && t.createdAt == f.createdAt && t.updatedAt == f.updatedAt
  }

  function CreateFunction(c: Catalog, cmd: CreateFunctionCmd): (Catalog, Option<Code>) {
    var f, t := cmd.fn, cmd.trigger;
    if !ValidCreate(cmd) then (c, Some(Invalid))
    else if f.id in c.functions || f.name in c.idByName || t.id in c.triggers || f.id in c.triggerByFunc then
      (c, Some(Conflict))
    else if |c.functions| >= MAX_FUNCTIONS then (c, Some(Overloaded))
    else
      (Catalog(c.functions[f.id := f], c.idByName[f.name := f.id], c.triggers[t.id := t], c.triggerByFunc[f.id := t.id]), None)
  }

  datatype LifecycleCmd = LifecycleCmd(functionId: string, expected: nat, lifecycle: Lifecycle, at: int, index: nat)

  predicate ValidLifecycleCmd(cmd: LifecycleCmd) {
    0 < cmd.expected < TWO64 && (cmd.lifecycle == Active || cmd.lifecycle == Disabled) && cmd.index != 0
  }

  /** SetFunctionLifecycle: an exact CAS; an unchanged lifecycle is accepted and changes nothing. */
  function SetLifecycle(c: Catalog, cmd: LifecycleCmd): (Catalog, Option<Code>) {
    if !ValidLifecycleCmd(cmd) then (c, Some(Invalid))
    else if cmd.functionId !in c.functions then (c, Some(NotFound))
    else
      var f := c.functions[cmd.functionId];
      if f.revision != cmd.expected then (c, Some(RevisionConflict))
      else if f.lifecycle != Active && f.lifecycle != Disabled then (c, Some(Conflict))
      else if f.lifecycle == cmd.lifecycle then (c, None)
      else
        var g := f.(lifecycle := cmd.lifecycle, updatedAt := cmd.at, revision := Succ64(f.revision));
        if !ValidFunction(g) then (c, Some(Invalid)) else (c.(functions := c.functions[cmd.functionId := g]), None)
  }

  datatype RotateCmd = RotateCmd(functionId: string, expected: nat, verifier: string, at: int, index: nat)

  function RotateToken(c: Catalog, cmd: RotateCmd): (Catalog, Option<Code>) {
    if !(0 < cmd.expected < TWO64) || cmd.index == 0 then (c, Some(Invalid))
    else if cmd.functionId !in c.triggerByFunc then (c, Some(NotFound))
    else if c.triggerByFunc[cmd.functionId] !in c.triggers then (c, Some(Internal))
    else
      var t := c.triggers[c.triggerByFunc[cmd.functionId]];
      if t.revision != cmd.expected then (c, Some(RevisionConflict))
      else if t.policy.Public? then (c, Some(Conflict))
      else if t.policy.verifier == cmd.verifier then (c, Some(Conflict))
      else
        var u := t.(policy := Token(cmd.verifier), updatedAt := cmd.at, revision := Succ64(t.revision));
        if !ValidTrigger(u) then (c, Some(Invalid))
        else (c.(triggers := c.triggers[c.triggerByFunc[cmd.functionId] := u]), None)
  }

  // ---------- releases ----------

  datatype CreateVersionCmd = CreateVersionCmd(ifNoneMatch: bool, index: nat, version: Version)

  predicate ValidCreateVersion(cmd: CreateVersionCmd) {
    var v := cmd.version;
    cmd.ifNoneMatch && cmd.index != 0 && ValidVersion(v) && v.state == Uploaded && v.admissionEpoch == 1
    && v.createdIndex == cmd.index && v.revision == 1
  }

  function CountOf(r: Releases, f: string): nat {
    if f in r.counts then r.counts[f] else 0
  }

  /** GetFunction: Internal is its invariant error for a function without a trigger. */
  function GetFunction(c: Catalog, f: string): Option<Code> {
    if f !in c.functions then Some(NotFound)
    else if f !in c.triggerByFunc || c.triggerByFunc[f] !in c.triggers then Some(Internal)
    else None
  }

  function CreateVersion(c: Catalog, r: Releases, cmd: CreateVersionCmd): (Releases, Option<Code>) {
    var v := cmd.version;
    if !ValidCreateVersion(cmd) then (r, Some(Invalid))
    else if GetFunction(c, v.functionId).Some? then (r, GetFunction(c, v.functionId))
    else if c.functions[v.functionId].lifecycle == Deleting || c.functions[v.functionId].lifecycle == Gone then
      (r, Some(Conflict))
    else if v.id in r.versions then (r, Some(Conflict))
    else if CountOf(r, v.functionId) >= MAX_VERSIONS then (r, Some(Overloaded))
    else (r.(versions := r.versions[v.id := v], counts := r.counts[v.functionId := CountOf(r, v.functionId) + 1]), None)
  }

  datatype StartCmd = StartCmd(versionId: string, expected: nat, validationId: string, at: int, index: nat)

  function StartValidation(r: Releases, cmd: StartCmd): (Releases, Option<Code>) {
    if !(0 < cmd.expected < TWO64) || cmd.index == 0 then (r, Some(Invalid))
    else if cmd.versionId !in r.versions then (r, Some(NotFound))
    else
      var v := r.versions[cmd.versionId];
      if v.revision != cmd.expected then (r, Some(RevisionConflict))
      else if v.state != Uploaded then (r, Some(Conflict))
      else
        var w := v.(state := Validating, updatedAt := cmd.at, revision := Succ64(v.revision));
        if !ValidVersion(w) then (r, Some(Invalid))
        else (r.(versions := r.versions[cmd.versionId := w], validations := r.validations[cmd.versionId := cmd.validationId]), None)
  }

  /** `matches` is the report check, `safe` the check of a failure's code and message. */
  datatype CompleteCmd = CompleteCmd(
    versionId: string, expected: nat, validationId: string, valid: bool, matches: bool, safe: bool,
    deployment: Option<Deployment>, at: int, index: nat)

  /** validateInitialDeployment. */
  predicate FitsVersion(d: Deployment, v: Version, index: nat) {
    d.fit && d.versionId == v.id && d.generation == 1 && d.scalingRevision == 1 && d.desiredReplicas == 1
    && d.phase == Running && d.createdIndex == index
  }

  function CompleteValidation(r: Releases, cmd: CompleteCmd): (Releases, Option<Code>) {
    if !(0 < cmd.expected < TWO64) || cmd.index == 0 || cmd.valid != cmd.deployment.Some? then (r, Some(Invalid))
    else if cmd.versionId !in r.versions then (r, Some(NotFound))
    else
      var v := r.versions[cmd.versionId];
      if v.revision != cmd.expected then (r, Some(RevisionConflict))
      else if v.state != Validating then (r, Some(StaleGeneration))
      else if cmd.versionId !in r.validations || r.validations[cmd.versionId] != cmd.validationId then
        (r, Some(StaleGeneration))
      else if !cmd.matches || cmd.at < v.updatedAt then (r, Some(Invalid))
      else
        var w := v.(updatedAt := cmd.at, revision := Succ64(v.revision), state := if cmd.valid then Ready else VersionState.Failed);
        if !ValidVersion(w) || (!cmd.valid && !cmd.safe) then (r, Some(Invalid))
        else if cmd.valid && !FitsVersion(cmd.deployment.value, v, cmd.index) then (r, Some(Invalid))
        else
          (r.(versions := r.versions[cmd.versionId := w], validations := r.validations - {cmd.versionId},
              deployments := if cmd.valid then r.deployments[cmd.versionId := cmd.deployment.value] else r.deployments), None)
  }

  // ---------- routes ----------

  /** validateReadyTargetLocked. */
  predicate ReadyTarget(r: Releases, route: Route, f: string)
    requires |route.targets| > 0
  {
    var t := route.targets[0];
    && t.versionId in r.versions && r.versions[t.versionId].functionId == f && r.versions[t.versionId].state == Ready
    && r.versions[t.versionId].admissionEpoch == t.admissionEpoch
    && t.versionId in r.deployments && r.deployments[t.versionId].generation == t.generation
    && r.deployments[t.versionId].phase == Running && r.deployments[t.versionId].policyDigest == t.policyDigest
  }

  datatype PublishCmd = PublishCmd(functionId: string, expectedActive: nat, route: Route, at: int, index: nat)

  predicate ValidPublish(cmd: PublishCmd) {
    && cmd.route.functionId == cmd.functionId && cmd.index != 0 && ValidRoute(cmd.route)
    && cmd.route.createdIndex == cmd.index && cmd.route.revision == 1
    && cmd.route.createdAt == cmd.at && cmd.route.updatedAt == cmd.at
  }

  /** Publish: one transaction over catalog, releases and routes. */
  function Publish(c: Catalog, r: Releases, s: Routes, cmd: PublishCmd): (Catalog, Routes, Option<Code>) {
    if !ValidPublish(cmd) then (c, s, Some(Invalid))
    else if cmd.functionId !in c.functions then (c, s, Some(NotFound))
    else
      var f := c.functions[cmd.functionId];
      if cmd.expectedActive != f.activeRoute then (c, s, Some(RevisionConflict))
      else if f.activeRoute == TWO64 - 1 || f.revision == TWO64 - 1 then (c, s, Some(Conflict))
      else if cmd.route.routeRevision != f.activeRoute + 1 || cmd.at < f.updatedAt then (c, s, Some(Invalid))
      else if cmd.route.id in s.routeIds then (c, s, Some(Conflict))
      else if cmd.route.enabled && (f.lifecycle != Active || !ReadyTarget(r, cmd.route, cmd.functionId)) then
        (c, s, Some(Conflict))
      else
        var g := f.(activeRoute := cmd.route.routeRevision, updatedAt := cmd.at, revision := f.revision + 1);
        if !ValidFunction(g) then (c, s, Some(Invalid))
        else
          (c.(functions := c.functions[cmd.functionId := g]),
           Routes(s.routes[cmd.functionId := cmd.route], s.routeIds + {cmd.route.id}), None)
  }

  // ---------- assignments ----------

  datatype InstallCmd = InstallCmd(
    functionId: string, placement: Placement, ifNoneMatch: bool, expectedScaling: nat, index: nat, at: int)

  function TargetOf(a: Assignment): Target {
    Target(a.functionId, a.placement.versionId, a.placement.admissionEpoch, a.placement.generation)
  }

  function ActiveCount(a: Assignments, t: Target): nat {
    if t in a.activeCounts then a.activeCounts[t] else 0
  }

  /** validatePlacementLocked, for a function with an enabled current route. */
  function CheckPlacement(s: Stores, cmd: InstallCmd): Option<Code> {
    var p := cmd.placement;
    if cmd.functionId !in s.catalog.functions then Some(NotFound)
    else
      var f := s.catalog.functions[cmd.functionId];
      if f.lifecycle != Active then Some(Conflict)
      else if cmd.functionId !in s.routes.routes then Some(Conflict)
      else
        var route := s.routes.routes[cmd.functionId];
        if !route.enabled || route.routeRevision != f.activeRoute || |route.targets| == 0 then Some(Conflict)
        else if !ReadyTarget(s.releases, route, cmd.functionId) then Some(Conflict)
        else if cmd.at < route.updatedAt || cmd.index <= route.createdIndex then Some(Invalid)
        else
          var t := route.targets[0];
          if p.versionId != t.versionId || p.admissionEpoch != t.admissionEpoch || p.generation != t.generation
             || p.policyDigest != t.policyDigest then Some(StaleGeneration)
          else if p.runtime != s.releases.versions[t.versionId].runtime
               || p.memory != s.releases.deployments[t.versionId].memory then Some(Conflict)
          else None
  }

  function InstallAssignment(s: Stores, cmd: InstallCmd): (Assignments, Option<Code>) {
    var a := s.assignments;
    var id := cmd.placement.assignmentId;
    var record := Assignment(cmd.functionId, cmd.placement, true, cmd.at, cmd.index, 1);
    if !cmd.ifNoneMatch || cmd.expectedScaling == 0 || !cmd.placement.fit || cmd.index == 0 then (a, Some(Invalid))
    else if id in a.records then (a, Some(Conflict))
    else if |a.records| >= MAX_ASSIGNMENTS then (a, Some(Overloaded))
    else if CheckPlacement(s, cmd).Some? then (a, CheckPlacement(s, cmd))
    else
      var d := s.releases.deployments[cmd.placement.versionId];
      if cmd.expectedScaling != d.scalingRevision then (a, Some(RevisionConflict))
      else if ActiveCount(a, TargetOf(record)) >= d.desiredReplicas then (a, Some(Conflict))
      else
        (Assignments(a.records[id := record], a.activeCounts[TargetOf(record) := ActiveCount(a, TargetOf(record)) + 1]), None)
  }

  datatype CancelCmd = CancelCmd(assignmentId: string, expected: nat, index: nat, at: int)

  function CancelAssignment(a: Assignments, cmd: CancelCmd): (Assignments, Option<Code>) {
    if cmd.expected == 0 || cmd.index == 0 then (a, Some(Invalid))
    else if cmd.assignmentId !in a.records then (a, Some(NotFound))
    else
      var r := a.records[cmd.assignmentId];
      if r.revision != cmd.expected then (a, Some(RevisionConflict))
      else if !r.live then (a, Some(Conflict))
      else if cmd.at < r.updatedAt || cmd.index <= r.lastIndex then (a, Some(Invalid))
      else if r.revision == TWO64 - 1 then (a, Some(Conflict))
      else if ActiveCount(a, TargetOf(r)) == 0 then (a, Some(Internal))
      else
        var q := r.(live := false, updatedAt := cmd.at, lastIndex := cmd.index, revision := r.revision + 1);
        (Assignments(a.records[cmd.assignmentId := q],
                     a.activeCounts[TargetOf(r) := ActiveCount(a, TargetOf(r)) - 1]), None)
  }

  // ---------- the aggregate read ----------

  datatype ServingState = ServingState(
    fn: Function, trigger: Trigger, route: Option<Route>, version: Option<Version>, deployment: Option<Deployment>)

  /** One round of ServingStates; None is any of its invariant errors. */
  function ServingStateOf(c: Catalog, r: Releases, s: Routes, f: Function): Option<ServingState> {
    if f.id !in c.triggerByFunc || c.triggerByFunc[f.id] !in c.triggers then None
    else
      var t := c.triggers[c.triggerByFunc[f.id]];
      if f.id !in s.routes then
        if f.activeRoute != 0 then None else Some(ServingState(f, t, None, None, None))
      else
        var route := s.routes[f.id];
        if route.routeRevision != f.activeRoute || !ValidRoute(route) then None
        else if !route.enabled then Some(ServingState(f, t, Some(route), None, None))
        else if !ReadyTarget(r, route, f.id) then None
        else
          var v := route.targets[0].versionId;
          Some(ServingState(f, t, Some(route), Some(r.versions[v]), Some(r.deployments[v])))
  }

  // ---------- commands ----------

  datatype Command =
    | DoCreateFunction(createFunction: CreateFunctionCmd)
    | DoSetLifecycle(lifecycle: LifecycleCmd)
    | DoRotate(rotate: RotateCmd)
    | DoCreateVersion(createVersion: CreateVersionCmd)
    | DoStart(start: StartCmd)
    | DoComplete(complete: CompleteCmd)
    | DoPublish(publish: PublishCmd)
    | DoInstall(install: InstallCmd)
    | DoCancel(cancel: CancelCmd)

  function Execute(s: Stores, cmd: Command): (Stores, Option<Code>) {
    match cmd
    case DoCreateFunction(c) => var (catalog, err) := CreateFunction(s.catalog, c); (s.(catalog := catalog), err)
    case DoSetLifecycle(c) => var (catalog, err) := SetLifecycle(s.catalog, c); (s.(catalog := catalog), err)
    case DoRotate(c) => var (catalog, err) := RotateToken(s.catalog, c); (s.(catalog := catalog), err)
    case DoCreateVersion(c) =>
      var (releases, err) := CreateVersion(s.catalog, s.releases, c); (s.(releases := releases), err)
    case DoStart(c) => var (releases, err) := StartValidation(s.releases, c); (s.(releases := releases), err)
    case DoComplete(c) => var (releases, err) := CompleteValidation(s.releases, c); (s.(releases := releases), err)
    case DoPublish(c) =>
      var (catalog, routes, err) := Publish(s.catalog, s.releases, s.routes, c);
      (s.(catalog := catalog, routes := routes), err)
    case DoInstall(c) => var (assignments, err) := InstallAssignment(s, c); (s.(assignments := assignments), err)
    case DoCancel(c) =>
      var (assignments, err) := CancelAssignment(s.assignments, c); (s.(assignments := assignments), err)
  }
}
