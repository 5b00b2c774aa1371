/** Two runs of the controller in which a concurrent direct publication makes a ledger record wrong. */
module ControllerExamples {
  import opened Common
  import opened Ledger
  import opened ControlStores
  import opened Controller
  import opened ControllerRuns
  import R = Runs

  // ---------- building a run ----------

  /** The run ends with these stores, an empty ledger and nothing pending. */
  ghost predicate EndsWith(cfg: Retention, states: seq<Ctrl>, steps: seq<Step>, s: Stores) {
    R.IsRun(Init(), Moves(cfg), states, steps) && states[|steps|] == Ctrl(s, NewLedger(), None)
  }

  lemma DirectStep(cfg: Retention, states: seq<Ctrl>, steps: seq<Step>, s: Stores, cmd: Command)
    requires EndsWith(cfg, states, steps, s)
    ensures EndsWith(cfg, states + [Ctrl(Execute(s, cmd).0, NewLedger(), None)], steps + [Direct(cmd)], Execute(s, cmd).0)
  {
    R.Extend(Init(), Moves(cfg), states, steps, Direct(cmd), Ctrl(Execute(s, cmd).0, NewLedger(), None));
  }

  lemma BeginStep(cfg: Retention, states: seq<Ctrl>, steps: seq<Step>, s: Stores, q: Pending)
    requires EndsWith(cfg, states, steps, s) && Prepare(s, q.op) == Some(q.prepared) && q.before == s
    ensures R.IsRun(Init(), Moves(cfg), states + [Ctrl(s, NewLedger(), Some(q))], steps + [Begin(q.key, q.digest, q.op)])
  {
    R.Extend(Init(), Moves(cfg), states, steps, Begin(q.key, q.digest, q.op), Ctrl(s, NewLedger(), Some(q)));
  }

  lemma DirectBetween(cfg: Retention, states: seq<Ctrl>, steps: seq<Step>, x: Ctrl, cmd: Command)
    requires R.IsRun(Init(), Moves(cfg), states, steps) && states[|steps|] == x && Free(cmd)
    ensures R.IsRun(Init(), Moves(cfg), states + [x.(stores := Execute(x.stores, cmd).0)], steps + [Direct(cmd)])
  {
    R.Extend(Init(), Moves(cfg), states, steps, Direct(cmd), x.(stores := Execute(x.stores, cmd).0));
  }

  lemma FinishStep(cfg: Retention, states: seq<Ctrl>, steps: seq<Step>, x: Ctrl)
    requires R.IsRun(Init(), Moves(cfg), states, steps) && states[|steps|] == x && x.pending.Some?
    ensures R.IsRun(Init(), Moves(cfg), states + [FinishNext(cfg, x)], steps + [Finish])
  {
    R.Extend(Init(), Moves(cfg), states, steps, Finish, FinishNext(cfg, x));
  }

  /** An operation begins, one unlocked command comes in between, the operation finishes. */
  lemma Across(cfg: Retention, states0: seq<Ctrl>, steps0: seq<Step>, s: Stores, q: Pending, cmd: Command, s': Stores)
      returns (states: seq<Ctrl>, steps: seq<Step>)
    requires EndsWith(cfg, states0, steps0, s) && Prepare(s, q.op) == Some(q.prepared) && q.before == s
    requires Free(cmd) && Execute(s, cmd).0 == s'
    ensures R.IsRun(Init(), Moves(cfg), states, steps)
    ensures |states| == |states0| + 3 && steps == steps0 + [Begin(q.key, q.digest, q.op), Direct(cmd), Finish]
    ensures states[|steps0| + 2] == Ctrl(s', NewLedger(), Some(q))
    ensures states[|steps|] == FinishNext(cfg, Ctrl(s', NewLedger(), Some(q)))
  {
    var x, y := Ctrl(s, NewLedger(), Some(q)), Ctrl(s', NewLedger(), Some(q));
    BeginStep(cfg, states0, steps0, s, q);
    states, steps := states0 + [x], steps0 + [Begin(q.key, q.digest, q.op)];
    DirectBetween(cfg, states, steps, x, cmd);
    states, steps := states + [y], steps + [Direct(cmd)];
    FinishStep(cfg, states, steps, y);
    states, steps := states + [FinishNext(cfg, y)], steps + [Finish];
  }

  // ---------- the example ----------

  /** One function "f" at revision 1 without a route, and its ready version "v". */
  function Example(): Stores {
    Stores(
      Catalog(map["f" := Function("f", "fn", 0, 0, 1, 1, Active, 0, true)], map["fn" := "f"],
              map["t" := Trigger("t", "f", true, 0, 0, 1, 1, Public, true)], map["f" := "t"]),
      Releases(map["v" := Version("v", "f", 1, 0, 0, 2, 3, Ready, "rt", true)], map["f" := 1], map[],
               map["v" := Deployment("v", 1, 1, 1, Running, "p", 64, 3, true)]),
      Routes(map[], {}), Assignments(map[], map[]))
  }

  function ExampleCommands(): seq<Command> {
    [DoCreateFunction(CreateFunctionCmd(true, 1,
       Function("f", "fn", 0, 0, 1, 1, Active, 0, true), Trigger("t", "f", true, 0, 0, 1, 1, Public, true))),
     DoCreateVersion(CreateVersionCmd(true, 2, Version("v", "f", 1, 0, 0, 2, 1, Uploaded, "rt", true))),
     DoStart(StartCmd("v", 1, "attempt", 0, 3)),
     DoComplete(CompleteCmd("v", 2, "attempt", true, true, true,
       Some(Deployment("v", 1, 1, 1, Running, "p", 64, 3, true)), 0, 3))]
  }

  /** The stores after each of the commands. */
  function ExampleAfter(i: nat): Stores
    requires i <= 4
  {
    var done := Example();
    var v := Version("v", "f", 1, 0, 0, 2, 1, Uploaded, "rt", true);
    if i == 0 then NewStores()
    else if i == 1 then done.(releases := NewStores().releases)
    else if i == 2 then done.(releases := Releases(map["v" := v], map["f" := 1], map[], map[]))
    else if i == 3 then
      done.(releases := Releases(map["v" := v.(state := Validating, revision := 2)], map["f" := 1], map["v" := "attempt"], map[]))
    else done
  }

  lemma Creates()
    ensures Execute(ExampleAfter(0), ExampleCommands()[0]).0 == ExampleAfter(1)
  {
  }

  lemma Uploads()
    ensures Execute(ExampleAfter(1), ExampleCommands()[1]).0 == ExampleAfter(2)
  {
    var r := CreateVersion(ExampleAfter(1).catalog, ExampleAfter(1).releases, ExampleCommands()[1].createVersion);
    assert r.1.None? && r.0.versions == ExampleAfter(2).releases.versions && r.0.counts == map["f" := 1];
  }

  lemma Starts()
    ensures Execute(ExampleAfter(2), ExampleCommands()[2]).0 == ExampleAfter(3)
  {
  }

  lemma Completes()
    ensures Execute(ExampleAfter(3), ExampleCommands()[3]).0 == ExampleAfter(4)
  {
    var r := CompleteValidation(ExampleAfter(3).releases, ExampleCommands()[3].complete);
    assert r.1.None? && r.0.versions == Example().releases.versions && r.0.validations == map[];
  }

  /** The example is where a run of four direct commands ends. */
  lemma ExampleIsReachable(cfg: Retention) returns (states: seq<Ctrl>, steps: seq<Step>)
    ensures EndsWith(cfg, states, steps, Example()) && |steps| == 4
  {
    Creates();
    Uploads();
    Starts();
    Completes();
    states, steps := [Init()], [];
    for i := 0 to 4
      invariant EndsWith(cfg, states, steps, ExampleAfter(i)) && |steps| == i
    {
      DirectStep(cfg, states, steps, ExampleAfter(i), ExampleCommands()[i]);
      assert Execute(ExampleAfter(i), ExampleCommands()[i]).0 == ExampleAfter(i + 1);
      states, steps := states + [Ctrl(ExampleAfter(i + 1), NewLedger(), None)], steps + [Direct(ExampleCommands()[i])];
    }
  }

  function Publication(): PublishCmd {
    PublishCmd("f", 0, Route("r", "f", 1, true, [RouteTarget("v", 1, 1, "p")], 5, 5, 10, 1, true), 5, 10)
  }

  /** The example after the direct publication: function revision 2, active route 1. */
  function Published(): Stores {
    var c := Example().catalog;
    Example().(catalog := c.(functions := c.functions["f" := Function("f", "fn", 0, 5, 1, 2, Active, 1, true)]),
               routes := Routes(map["f" := Publication().route], {"r"}))
  }

  lemma Publishes()
    ensures Execute(Example(), DoPublish(Publication())).0 == Published()
  {
    var (c, s, err) := Publish(Example().catalog, Example().releases, Example().routes, Publication());
    assert err.None?;
  }

  // ---------- the two records ----------

  /** The ledger holds a success record of q that names one revision of the function while the stores hold another. */
  ghost predicate NamesWrongRevision(q: Pending, y: Ctrl, named: nat, held: nat) {
    && Recorded(q, y) && !AllAccurate(y.stores, y.ledger.records[q.key].outcome.affected)
    && ResourceKey("function", "f") in y.ledger.records[q.key].outcome.affected
    && y.ledger.records[q.key].outcome.affected[ResourceKey("function", "f")] == Revisions(Some(named), None)
    && "f" in y.stores.catalog.functions && y.stores.catalog.functions["f"].revision == held
  }

  /** What finishing q on the stores s records and leaves, when the command succeeds. */
  lemma FinishRecords(cfg: Retention, q: Pending, s: Stores, named: nat, held: nat)
    requires cfg.maxOperations > 0 && named != held && q.prepared.meta.index != 0
    requires Execute(s, q.prepared.command).1.None? && q.prepared.outcome.status == Succeeded
    requires ValidOutcome(q.prepared.outcome)
    requires "f" in Execute(s, q.prepared.command).0.catalog.functions
    requires Execute(s, q.prepared.command).0.catalog.functions["f"].revision == held
    requires ResourceKey("function", "f") in q.prepared.outcome.affected
    requires q.prepared.outcome.affected[ResourceKey("function", "f")] == Revisions(Some(named), None)
    ensures NamesWrongRevision(q, FinishNext(cfg, Ctrl(s, NewLedger(), Some(q))), named, held)
  {
    var y := FinishNext(cfg, Ctrl(s, NewLedger(), Some(q)));
    assert y.stores == Execute(s, q.prepared.command).0 && y.ledger.records[q.key].outcome == q.prepared.outcome;
    assert !Accurate(y.stores, ResourceKey("function", "f"), Revisions(Some(named), None));
  }

  lemma LifecycleAcross()
    ensures var p := Prepare(Example(), LifecycleOp("f", 2, Active, Meta(6, 11)));
      && p.Some? && p.value.outcome == Success(Affects("function", "f", 1), false) && p.value.meta.index == 11
      && Execute(Published(), p.value.command) == (Published(), None)
      && "f" in Published().catalog.functions && Published().catalog.functions["f"].revision == 2
  {
  }

  /** The publication an operation prepares on the example, on top of a revision that is not there yet. */
  function Second(): PublishCmd {
    PublishCmd("f", 1, Route("r2", "f", 2, true, [RouteTarget("v", 1, 1, "p")], 6, 6, 11, 1, true), 6, 11)
  }

  lemma SecondIsPrepared()
    ensures Prepare(Example(), PublishOp("f", "v", 1, "r2", Meta(6, 11))) == Some(Prepared(DoPublish(Second()),
      Success(map[ResourceKey("route", "r2") := Revisions(None, Some(2))] + Affects("function", "f", 2), false), Meta(6, 11)))
  {
  }

  lemma SecondPublishes()
    ensures var (s, err) := Execute(Published(), DoPublish(Second()));
            err.None? && "f" in s.catalog.functions && s.catalog.functions["f"].revision == 3
  {
    var (c, s, err) := Publish(Published().catalog, Published().releases, Published().routes, Second());
    assert err.None?;
  }

  /**
   Enabling an enabled function at its next revision, across one direct publication, records revision 1 for
   revision 2.
   */
  lemma StaleLifecycleRecord(cfg: Retention, key: Key, digest: string) returns (states: seq<Ctrl>, steps: seq<Step>)
    requires cfg.maxOperations > 0
    ensures R.IsRun(Init(), Moves(cfg), states, steps) && |steps| == 7 && states[6].pending.Some?
    ensures steps[4..] == [Begin(key, digest, LifecycleOp("f", 2, Active, Meta(6, 11))), Direct(DoPublish(Publication())), Finish]
    ensures NamesWrongRevision(states[6].pending.value, states[7], 1, 2)
  {
    var op := LifecycleOp("f", 2, Active, Meta(6, 11));
    LifecycleAcross();
    Publishes();
    var q := Pending(key, digest, op, Prepare(Example(), op).value, Example());
    states, steps := ExampleIsReachable(cfg);
    states, steps := Across(cfg, states, steps, Example(), q, DoPublish(Publication()), Published());
    FinishRecords(cfg, q, Published(), 1, 2);
  }

  /** Publishing on top of a revision that a direct publication creates meanwhile records function revision 2 for 3. */
  lemma StalePublicationRecord(cfg: Retention, key: Key, digest: string) returns (states: seq<Ctrl>, steps: seq<Step>)
    requires cfg.maxOperations > 0
    ensures R.IsRun(Init(), Moves(cfg), states, steps) && |steps| == 7 && states[6].pending.Some?
    ensures steps[4..] == [Begin(key, digest, PublishOp("f", "v", 1, "r2", Meta(6, 11))), Direct(DoPublish(Publication())), Finish]
    ensures NamesWrongRevision(states[6].pending.value, states[7], 2, 3)
  {
    var op := PublishOp("f", "v", 1, "r2", Meta(6, 11));
    SecondIsPrepared();
    SecondPublishes();
    Publishes();
    var q := Pending(key, digest, op, Prepare(Example(), op).value, Example());
    states, steps := ExampleIsReachable(cfg);
    states, steps := Across(cfg, states, steps, Example(), q, DoPublish(Publication()), Published());
    FinishRecords(cfg, q, Published(), 2, 3);
  }
}
