/**
 The controller's idempotent operations: each predicts the revisions it will
 produce, then applies the mutation and records the prediction, under a lock
 that publishing a route directly, creating versions, validation, placement
 and ledger GC do not take. Generated ids, times and indexes are inputs.
 */
module Controller {
  import opened Common
  import opened Ledger
  import opened ControlStores
  import T = ControlTheorems

  datatype Meta = Meta(at: int, index: nat)

  datatype Op =
    | CreateFunctionOp(name: string, fit: bool, policy: Policy, functionId: string, triggerId: string, issued: bool, meta: Meta)
    | LifecycleOp(functionId: string, expected: U64, lifecycle: Lifecycle, meta: Meta)
    | RotateOp(functionId: string, expected: U64, verifier: string, meta: Meta)
    | CreateVersionOp(version: Version, meta: Meta)
    | PublishOp(functionId: string, versionId: string, expectedActive: U64, routeId: string, meta: Meta)

  datatype Prepared = Prepared(command: Command, outcome: Outcome, meta: Meta)

  // ---------- prepare ----------

  function Affects(kind: string, id: string, revision: nat): map<ResourceKey, Revisions> {
    map[ResourceKey(kind, id) := Revisions(Some(revision), None)]
  }

  function Success(affected: map<ResourceKey, Revisions>, credential: bool): Outcome {
    Outcome(Succeeded, affected, credential)
  }

  function NewFunction(op: Op): CreateFunctionCmd
    requires op.CreateFunctionOp?
  {
    var m := op.meta;
    CreateFunctionCmd(true, m.index,
      Function(op.functionId, op.name, m.at, m.at, m.index, 1, Active, 0, op.fit),
      Trigger(op.triggerId, op.functionId, true, m.at, m.at, m.index, 1, op.policy, op.fit))
  }

  /** nextLifecycleRevision. */
  function PredictedRevision(f: Function, expected: U64, lifecycle: Lifecycle): nat {
    if f.lifecycle == lifecycle then f.revision else Succ64(expected)
  }

  /** The route preparePublishRoute builds for a ready version. */
  function NewRoute(op: Op, v: Version, d: Deployment): Route
    requires op.PublishOp?
  {
    Route(op.routeId, op.functionId, op.expectedActive + 1, true,
          [RouteTarget(op.versionId, v.admissionEpoch, d.generation, d.policyDigest)],
          op.meta.at, op.meta.at, op.meta.index, 1, true)
  }

  predicate Publishable(s: Stores, op: Op)
    requires op.PublishOp?
  {
    && op.expectedActive < TWO64 - 1 && op.versionId in s.releases.versions && op.versionId in s.releases.deployments
    && s.releases.versions[op.versionId].functionId == op.functionId && s.releases.versions[op.versionId].state == Ready
    && s.releases.deployments[op.versionId].phase == Running
    && GetFunction(s.catalog, op.functionId).None? && s.catalog.functions[op.functionId].revision < TWO64
  }

  /** The predicted outcome and the command to apply; None when preparing fails, which records nothing. */
  function Prepare(s: Stores, op: Op): Option<Prepared> {
    match op
    case CreateFunctionOp(_, _, _, functionId, triggerId, issued, meta) =>
      Some(Prepared(DoCreateFunction(NewFunction(op)),
                    Success(Affects("function", functionId, 1) + Affects("http_trigger", triggerId, 1), issued), meta))
    case LifecycleOp(f, expected, lifecycle, meta) =>
      if GetFunction(s.catalog, f).Some? then None
      else
        Some(Prepared(DoSetLifecycle(LifecycleCmd(f, expected, lifecycle, meta.at, meta.index)),
                      Success(Affects("function", f, PredictedRevision(s.catalog.functions[f], expected, lifecycle)), false), meta))
    case RotateOp(f, expected, verifier, meta) =>
      if GetFunction(s.catalog, f).Some? then None
      else
        Some(Prepared(DoRotate(RotateCmd(f, expected, verifier, meta.at, meta.index)),
                      Success(Affects("http_trigger", s.catalog.triggers[s.catalog.triggerByFunc[f]].id, Succ64(expected)), true), meta))
    case CreateVersionOp(v, meta) =>
      var w := v.(createdAt := meta.at, updatedAt := meta.at, createdIndex := meta.index,
                  revision := 1, admissionEpoch := 1, state := Uploaded);
      Some(Prepared(DoCreateVersion(CreateVersionCmd(true, meta.index, w)), Success(Affects("version", v.id, 1), false), meta))
    case PublishOp(f, v, expectedActive, routeId, meta) =>
      if !Publishable(s, op) then None
      else
        var route := NewRoute(op, s.releases.versions[v], s.releases.deployments[v]);
        Some(Prepared(DoPublish(PublishCmd(f, expectedActive, route, meta.at, meta.index)),
                      Success(map[ResourceKey("route", routeId) := Revisions(None, Some(route.routeRevision))]
                              + Affects("function", f, Succ64(s.catalog.functions[f].revision)), false), meta))
  }

  // ---------- apply and record ----------

  /** terminalOperationFailure. */
  predicate Terminal(code: Code) {
    code == Invalid || code == NotFound || code == Conflict || code == RevisionConflict || code == StaleGeneration
  }

  function CompletionOf(key: Key, digest: string, p: Prepared): Completion {
    Completion(key, true, Some(digest), p.outcome, p.meta.at, p.meta.index)
  }

  /** recordOperationFailure. */
  function RecordFailure(cfg: Retention, l: LedgerState, c: Completion, code: Code): LedgerState {
    if Terminal(code) then Complete(cfg, l, c.(outcome := Outcome(Status.Failed(code), map[], false)), None).0 else l
  }

  /** applyOperation after prepare: the stores and the ledger afterwards. */
  function Apply(
      cfg: Retention, s: Stores, l: LedgerState, key: Key, digest: string, p: Prepared): (Stores, LedgerState) {
    var c := CompletionOf(key, digest, p);
    if !Mutates(cfg, l, c) then
      var refusal := Complete(cfg, l, c, None).1;
      (s, if refusal.Refused? then RecordFailure(cfg, l, c, refusal.code) else l)
    else
      var (s', err) := Execute(s, p.command);
      if err.Some? then (s', RecordFailure(cfg, l, c, err.value))
      else (s', Complete(cfg, l, c, None).0)
  }

  // ---------- what a record says, against what the stores hold ----------

  /** The recorded revisions of one resource are those it now has. */
  ghost predicate Accurate(s: Stores, k: ResourceKey, r: Revisions) {
    if k.kind == "function" then
      k.id in s.catalog.functions && r == Revisions(Some(s.catalog.functions[k.id].revision), None)
    else if k.kind == "http_trigger" then
      k.id in s.catalog.triggers && r == Revisions(Some(s.catalog.triggers[k.id].revision), None)
    else if k.kind == "version" then
      k.id in s.releases.versions && r == Revisions(Some(s.releases.versions[k.id].revision), None)
    else exists f :: f in s.routes.routes && s.routes.routes[f].id == k.id && r == Revisions(None, Some(s.routes.routes[f].routeRevision))
  }

  ghost predicate AllAccurate(s: Stores, affected: map<ResourceKey, Revisions>) {
    forall k :: k in affected ==> Accurate(s, k, affected[k])
  }

  /** What the caller assumed about the function held when the operation was prepared. */
  predicate UpToDate(s: Stores, op: Op) {
    match op
    case LifecycleOp(f, expected, lifecycle, _) =>
      f in s.catalog.functions && (s.catalog.functions[f].lifecycle != lifecycle || s.catalog.functions[f].revision == expected)
    case PublishOp(f, _, expectedActive, _, _) =>
      f in s.catalog.functions && s.catalog.functions[f].activeRoute == expectedActive
    case _ => true
  }

  /** Between prepare and apply only publications can touch a function, one revision each. */
  ghost predicate Since(s: Stores, s': Stores) {
    && s'.catalog.functions.Keys == s.catalog.functions.Keys
    && s'.catalog.triggers == s.catalog.triggers && s'.catalog.triggerByFunc == s.catalog.triggerByFunc
    && forall f :: f in s.catalog.functions ==> Advanced(s.catalog.functions[f], s'.catalog.functions[f])
  }

  predicate Advanced(f: Function, g: Function) {
    && g.id == f.id && g.lifecycle == f.lifecycle && g.activeRoute >= f.activeRoute
    && g.revision - f.revision == g.activeRoute - f.activeRoute
  }

  /** Commands that do not take the operation lock. */
  predicate Free(cmd: Command) {
    !cmd.DoCreateFunction? && !cmd.DoSetLifecycle? && !cmd.DoRotate?
  }

  lemma FreeKeepsSince(s0: Stores, s: Stores, cmd: Command)
    requires Since(s0, s) && Free(cmd)
    ensures Since(s0, Execute(s, cmd).0)
  {
    match cmd
    case DoPublish(c) => PublishKeepsSince(s0, s, c);
    case _ =>
  }

  lemma PublishKeepsSince(s0: Stores, s: Stores, c: PublishCmd)
    requires Since(s0, s)
    ensures Since(s0, Execute(s, DoPublish(c)).0)
  {
    var s' := Execute(s, DoPublish(c)).0;
    forall f | f in s0.catalog.functions
      ensures f in s'.catalog.functions && Advanced(s0.catalog.functions[f], s'.catalog.functions[f])
    {
      assert Advanced(s0.catalog.functions[f], s.catalog.functions[f]);
    }
  }

  lemma ErrorChangesNothing(s: Stores, cmd: Command)
    ensures Execute(s, cmd).1.Some? ==> Execute(s, cmd).0 == s
  {
  }

  // ---------- prediction against effect ----------

  lemma CreateFunctionExact(s: Stores, op: Op)
    requires op.CreateFunctionOp? && Execute(s, DoCreateFunction(NewFunction(op))).1.None?
    ensures AllAccurate(Execute(s, DoCreateFunction(NewFunction(op))).0, Prepare(s, op).value.outcome.affected)
  {
  }

  lemma CreateVersionExact(s0: Stores, s: Stores, op: Op)
    requires op.CreateVersionOp? && Execute(s, Prepare(s0, op).value.command).1.None?
    ensures AllAccurate(Execute(s, Prepare(s0, op).value.command).0, Prepare(s0, op).value.outcome.affected)
  {
  }

  lemma OneAffected(s: Stores, kind: string, id: string, revision: nat)
    ensures AllAccurate(s, Affects(kind, id, revision))
      <==> Accurate(s, ResourceKey(kind, id), Revisions(Some(revision), None))
  {
    var m := Affects(kind, id, revision);
    assert ResourceKey(kind, id) in m && m[ResourceKey(kind, id)] == Revisions(Some(revision), None);
  }

  /** Rotations are serialized by the lock, so the predicted trigger revision is always right. */
  lemma RotateExact(s0: Stores, s: Stores, op: Op)
    requires op.RotateOp? && Prepare(s0, op).Some? && Since(s0, s)
    requires op.functionId in s0.catalog.triggerByFunc && s0.catalog.triggerByFunc[op.functionId] in s0.catalog.triggers
    requires T.TriggerOk(s0.catalog, s0.catalog.triggerByFunc[op.functionId])
    requires Execute(s, Prepare(s0, op).value.command).1.None?
    ensures AllAccurate(Execute(s, Prepare(s0, op).value.command).0, Prepare(s0, op).value.outcome.affected)
  {
    var id := s0.catalog.triggerByFunc[op.functionId];
    OneAffected(Execute(s, Prepare(s0, op).value.command).0, "http_trigger", id, Succ64(op.expected));
  }

  /** A lifecycle record is right exactly when the caller's view was current, or the lifecycle really changes. */
  lemma LifecycleExactlyWhenUpToDate(s0: Stores, s: Stores, op: Op)
    requires op.LifecycleOp? && Prepare(s0, op).Some? && Since(s0, s)
    requires Execute(s, Prepare(s0, op).value.command).1.None?
    ensures AllAccurate(Execute(s, Prepare(s0, op).value.command).0, Prepare(s0, op).value.outcome.affected)
      <==> UpToDate(s0, op)
  {
    var p := Prepare(s0, op).value;
    var f := s0.catalog.functions[op.functionId];
    assert Advanced(f, s.catalog.functions[op.functionId]);
    OneAffected(Execute(s, p.command).0, "function", op.functionId, PredictedRevision(f, op.expected, op.lifecycle));
  }

  /** A publication's record names two resources. */
  lemma TwoAffected(s: Stores, routeId: string, routeRevision: nat, f: string, revision: nat)
    requires f in s.routes.routes && s.routes.routes[f].id == routeId
    requires s.routes.routes[f].routeRevision == routeRevision
    requires f in s.catalog.functions
    ensures AllAccurate(s, map[ResourceKey("route", routeId) := Revisions(None, Some(routeRevision))] + Affects("function", f, revision))
       <==> s.catalog.functions[f].revision == revision
  {
    var m := map[ResourceKey("route", routeId) := Revisions(None, Some(routeRevision))] + Affects("function", f, revision);
    var k := ResourceKey("function", f);
    assert k in m && m[k] == Revisions(Some(revision), None);
  }

  /** A publication record is right exactly when the caller's active revision was current at prepare. */
  lemma PublishExactlyWhenUpToDate(s0: Stores, s: Stores, op: Op)
    requires op.PublishOp? && Prepare(s0, op).Some? && Since(s0, s)
    requires op.functionId in s.catalog.functions ==> s.catalog.functions[op.functionId].revision < TWO64
    requires Execute(s, Prepare(s0, op).value.command).1.None?
    ensures AllAccurate(Execute(s, Prepare(s0, op).value.command).0, Prepare(s0, op).value.outcome.affected)
      <==> UpToDate(s0, op)
  {
    var f, g := s0.catalog.functions[op.functionId], s.catalog.functions[op.functionId];
    assert Advanced(f, g);
    PublishEffect(s, Prepare(s0, op).value.command.publish);
    TwoAffected(Execute(s, Prepare(s0, op).value.command).0, op.routeId, op.expectedActive + 1, op.functionId, Succ64(f.revision));
  }

  lemma PublishEffect(s: Stores, c: PublishCmd)
    requires Execute(s, DoPublish(c)).1.None?
    ensures var s' := Execute(s, DoPublish(c)).0;
      && c.functionId in s.catalog.functions && s.catalog.functions[c.functionId].activeRoute == c.expectedActive
      && s.catalog.functions[c.functionId].revision != TWO64 - 1
      && c.functionId in s'.routes.routes && s'.routes.routes[c.functionId] == c.route
      && c.functionId in s'.catalog.functions
      && s'.catalog.functions[c.functionId].revision == s.catalog.functions[c.functionId].revision + 1
  {
  }

  /** Recorded outcome equals effect, for every operation, exactly when its view was up to date. */
  lemma OutcomeExactlyWhenUpToDate(s0: Stores, s: Stores, op: Op)
    requires Prepare(s0, op).Some? && Since(s0, s) && s0 in T.Good() && s in T.Good()
    requires Execute(s, Prepare(s0, op).value.command).1.None?
    ensures AllAccurate(Execute(s, Prepare(s0, op).value.command).0, Prepare(s0, op).value.outcome.affected)
      <==> UpToDate(s0, op)
  {
    match op
    case CreateFunctionOp(_, _, _, _, _, _, _) => CreateFunctionExact(s, op);
    case LifecycleOp(_, _, _, _) => LifecycleExactlyWhenUpToDate(s0, s, op);
    case RotateOp(f, _, _, _) =>
      assert T.TriggerOk(s0.catalog, s0.catalog.triggerByFunc[f]);
      RotateExact(s0, s, op);
    case CreateVersionOp(_, _) => CreateVersionExact(s0, s, op);
    case PublishOp(f, _, _, _, _) =>
      assert f in s.catalog.functions ==> T.FunctionOk(s.catalog, f);
      PublishExactlyWhenUpToDate(s0, s, op);
  }
}
