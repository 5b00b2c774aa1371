/**
 The Worker Agent as a mutable object that holds the Gate's state. Each method is
 one critical section, and simulates the step of AgentSystem it implements:
 called in a state that projects to the object, it leaves the projection of
 the next state, and returns one release action per action the step hands out.
 */
module WorkerAgent {
  import opened Common
  import opened ServingAuth
  import opened AgentReplica
  import opened AgentSystem
  import P = AgentProofs

  /** The part of a system state the Agent object stores. */
  datatype Stored = Stored(
    gate: GateState, cells: map<nat, Replica>, replicas: map<string, nat>,
    closing: bool, closed: bool, cacheClosing: bool, nextRep: nat)

  ghost function CellsOf(reps: map<nat, Rep>): map<nat, Replica> {
    map r | r in reps :: reps[r].cell
  }

  ghost function Project(s: Sys): Stored {
    Stored(s.gate, CellsOf(s.reps), s.replicas, s.closing, s.closed, s.cacheClosing, s.nextRep)
  }

  /** `actions` lists exactly the release actions handed out between s and s'. */
  ghost predicate HandsOut(s: Sys, s': Sys, actions: seq<nat>) {
    forall r :: r in s.reps && r in s'.reps ==> s'.reps[r].actions == s.reps[r].actions + multiset(actions)[r]
  }

  // ---------- a range over the replicas map that stops some of them ----------

  datatype Outcome = Outcome(cells: map<nat, Replica>, gate: GateState, actions: seq<nat>)

  /** drainReplicaLocked or loseReplicaLocked on one replica, inside a loop that collects actions. */
  function StopOne(o: Outcome, r: nat, stop: Replica -> (Replica, bool)): Outcome
    requires r in o.cells
  {
    var (cell, action) := stop(o.cells[r]);
    Outcome(o.cells[r := cell], if Terminal(o.cells[r].state) then o.gate else Revoke(o.gate, IdOf(o.cells[r])),
            if action then o.actions + [r] else o.actions)
  }

  /** The table lists each replica under its own id. */
  ghost predicate Keyed(cells: map<nat, Replica>, replicas: map<string, nat>) {
    forall id :: id in replicas ==> replicas[id] in cells && IdOf(cells[replicas[id]]) == id && id != ""
  }

  /** Replica r is listed under one of `ids` and satisfies `stale`. */
  predicate Hit(cells: map<nat, Replica>, replicas: map<string, nat>, ids: set<string>, stale: Replica -> bool, r: nat)
    requires r in cells
  {
    var id := IdOf(cells[r]);
    id in ids && id in replicas && replicas[id] == r && stale(cells[r])
  }

  /** What the loop has made of replica r after visiting `ids`. */
  ghost predicate CellSwept(cells: map<nat, Replica>, replicas: map<string, nat>, ids: set<string>, stale: Replica -> bool,
                            stop: Replica -> (Replica, bool), o: Outcome, r: nat)
    requires r in cells
  {
    && r in o.cells
    && var hit := Hit(cells, replicas, ids, stale, r);
       && o.cells[r] == (if hit then stop(cells[r]).0 else cells[r])
       && multiset(o.actions)[r] == (if hit && stop(cells[r]).1 then 1 else 0)
  }

  /** Which permissions the loop has revoked after visiting `ids`. */
  ghost function Gone(
      cells: map<nat, Replica>, replicas: map<string, nat>, ids: set<string>, stale: Replica -> bool): set<string>
    requires Keyed(cells, replicas)
  {
    set id | id in ids && id in replicas && stale(cells[replicas[id]]) && !Terminal(cells[replicas[id]].state)
  }

  /** What the loop can have computed after visiting `ids`. */
  ghost function Sweeps(cells: map<nat, Replica>, g: GateState, replicas: map<string, nat>, ids: set<string>,
                        stale: Replica -> bool, stop: Replica -> (Replica, bool)): iset<Outcome>
    requires Keyed(cells, replicas)
  {
    iset o: Outcome |
      && o.cells.Keys == cells.Keys && o.gate == RevokeAll(g, Gone(cells, replicas, ids, stale))
      && forall r :: r in cells ==> CellSwept(cells, replicas, ids, stale, stop, o, r)
  }

  /** One round of the loop. */
  function Visit(o: Outcome, r: nat, stale: Replica -> bool, stop: Replica -> (Replica, bool)): Outcome
    requires r in o.cells
  {
    if stale(o.cells[r]) then StopOne(o, r, stop) else o
  }

  lemma SweepStart(cells: map<nat, Replica>, g: GateState, replicas: map<string, nat>,
                   stale: Replica -> bool, stop: Replica -> (Replica, bool))
    requires Keyed(cells, replicas)
    ensures Outcome(cells, g, []) in Sweeps(cells, g, replicas, {}, stale, stop)
  {
    assert RevokeAll(g, {}) == g;
    assert Gone(cells, replicas, {}, stale) == {};
  }

  lemma SweepOne(cells: map<nat, Replica>, g: GateState, replicas: map<string, nat>, ids: set<string>,
                 stale: Replica -> bool, stop: Replica -> (Replica, bool), o: Outcome, id: string)
    requires Keyed(cells, replicas) && o in Sweeps(cells, g, replicas, ids, stale, stop) && id in replicas && id !in ids
    ensures replicas[id] in o.cells
    ensures Visit(o, replicas[id], stale, stop) in Sweeps(cells, g, replicas, ids + {id}, stale, stop)
  {
    var o' := Visit(o, replicas[id], stale, stop);
    forall r | r in cells ensures CellSwept(cells, replicas, ids + {id}, stale, stop, o', r) {
      assert CellSwept(cells, replicas, ids, stale, stop, o, r);
      assert CellSwept(cells, replicas, ids, stale, stop, o, replicas[id]);
      SweepCell(cells, replicas, ids, stale, stop, o, id, r);
    }
    GoneStep(cells, replicas, ids, stale, id);
    RevokeTwice(g, Gone(cells, replicas, ids, stale), NewlyGone(cells[replicas[id]], stale));
  }

  lemma SweepCell(cells: map<nat, Replica>, replicas: map<string, nat>, ids: set<string>,
                  stale: Replica -> bool, stop: Replica -> (Replica, bool), o: Outcome, id: string, r: nat)
    requires id in replicas && id !in ids && r in cells && replicas[id] in cells && IdOf(cells[replicas[id]]) == id
    requires CellSwept(cells, replicas, ids, stale, stop, o, r)
    requires CellSwept(cells, replicas, ids, stale, stop, o, replicas[id])
    ensures CellSwept(cells, replicas, ids + {id}, stale, stop, Visit(o, replicas[id], stale, stop), r)
  {
    assert r != replicas[id] ==> Hit(cells, replicas, ids + {id}, stale, r) == Hit(cells, replicas, ids, stale, r);
  }

  /** The permission that stopping x revokes, if `stale` picks it. */
  function NewlyGone(x: Replica, stale: Replica -> bool): set<string> {
    if stale(x) && !Terminal(x.state) then {IdOf(x)} else {}
  }

  lemma GoneStep(
      cells: map<nat, Replica>, replicas: map<string, nat>, ids: set<string>, stale: Replica -> bool, id: string)
    requires Keyed(cells, replicas) && id in replicas
    ensures Gone(cells, replicas, ids + {id}, stale) == Gone(cells, replicas, ids, stale) + NewlyGone(cells[replicas[id]], stale)
  {
  }

  lemma RevokeTwice(g: GateState, a: set<string>, b: set<string>)
    ensures RevokeAll(RevokeAll(g, a), b) == RevokeAll(g, a + b)
  {
  }

  /** `order` visits every key once, as a range over the map does. */
  ghost predicate Ranges(replicas: map<string, nat>, order: seq<string>) {
    Distinct(order) && ToSet(order) == replicas.Keys
  }

  lemma RangeStep(replicas: map<string, nat>, order: seq<string>, i: nat)
    requires Ranges(replicas, order) && i < |order|
    ensures order[i] in replicas && order[i] !in ToSet(order[..i])
    ensures ToSet(order[..i + 1]) == ToSet(order[..i]) + {order[i]}
  {
    assert order[i] in ToSet(order);
  }

  /** A range over the replicas map that stops those satisfying `stale`. */
  method StopWhere(cells: map<nat, Replica>, g: GateState, replicas: map<string, nat>, order: seq<string>,
                   stale: Replica -> bool, stop: Replica -> (Replica, bool)) returns (o: Outcome)
    requires Keyed(cells, replicas) && Ranges(replicas, order)
    ensures o in Sweeps(cells, g, replicas, replicas.Keys, stale, stop)
  {
    o := Outcome(cells, g, []);
    SweepStart(cells, g, replicas, stale, stop);
    assert ToSet(order[..0]) == {};
    for i := 0 to |order|
      invariant o in Sweeps(cells, g, replicas, ToSet(order[..i]), stale, stop)
    {
      RangeStep(replicas, order, i);
      SweepOne(cells, g, replicas, ToSet(order[..i]), stale, stop, o, order[i]);
      o := Visit(o, replicas[order[i]], stale, stop);
    }
    assert order[..|order|] == order;
  }

  // ---------- sweeps are the model's bulk steps ----------

  lemma CellsPut(s: Sys, r: nat, y: Rep)
    ensures CellsOf(s.reps[r := y]) == CellsOf(s.reps)[r := y.cell]
  {
  }

  lemma TableIsKeyed(cfg: AgentConfig, s: Sys)
    requires Inv(cfg, s)
    ensures Keyed(CellsOf(s.reps), s.replicas)
  {
    forall id | id in s.replicas
      ensures s.replicas[id] in s.reps && IdOf(s.reps[s.replicas[id]].cell) == id && id != ""
    {
      assert ListedOk(s, id) && RepOk(cfg, s, s.replicas[id]);
    }
  }

  /** The replicas a sweep over the whole table stops. */
  ghost function Chosen(s: Sys, stale: Replica -> bool): set<nat> {
    set r | r in s.replicas.Values && r in s.reps && stale(s.reps[r].cell)
  }

  lemma HitIsChosen(s: Sys, stale: Replica -> bool, r: nat)
    requires Keyed(CellsOf(s.reps), s.replicas) && r in s.reps
    ensures Hit(CellsOf(s.reps), s.replicas, s.replicas.Keys, stale, r) <==> r in Chosen(s, stale)
  {
    if r in Chosen(s, stale) {
      var id :| id in s.replicas && s.replicas[id] == r;
      assert IdOf(CellsOf(s.reps)[s.replicas[id]]) == id;
    }
  }

  lemma GoneIsRevoked(s: Sys, stale: Replica -> bool)
    requires Keyed(CellsOf(s.reps), s.replicas)
    ensures Gone(CellsOf(s.reps), s.replicas, s.replicas.Keys, stale) == RevokedIds(s.reps, Chosen(s, stale))
  {
    var cells := CellsOf(s.reps);
    forall id | id in Gone(cells, s.replicas, s.replicas.Keys, stale)
      ensures id in RevokedIds(s.reps, Chosen(s, stale))
    {
      var r := s.replicas[id];
      assert r in s.replicas.Values && cells[r] == s.reps[r].cell && IdOf(cells[r]) == id;
    }
    forall id | id in RevokedIds(s.reps, Chosen(s, stale))
      ensures id in Gone(cells, s.replicas, s.replicas.Keys, stale)
    {
      var r :| r in Chosen(s, stale) && r in s.reps && !Terminal(s.reps[r].cell.state) && IdOf(s.reps[r].cell) == id;
      HitIsChosen(s, stale, r);
    }
  }

  /** A sweep over the whole table is the model's StopAll on the chosen replicas. */
  lemma SweepIsStopAll(
      s: Sys, g: GateState, stale: Replica -> bool, stop: Replica -> (Replica, bool), next: RState, o: Outcome)
    requires Keyed(CellsOf(s.reps), s.replicas) && forall x :: stop(x) == StopWith(x, next)
    requires o in Sweeps(CellsOf(s.reps), g, s.replicas, s.replicas.Keys, stale, stop)
    ensures var s' := StopAll(s.(gate := g), Chosen(s, stale), next);
            o.cells == CellsOf(s'.reps) && o.gate == s'.gate && HandsOut(s, s', o.actions)
  {
    var cells := CellsOf(s.reps);
    var s' := StopAll(s.(gate := g), Chosen(s, stale), next);
    GoneIsRevoked(s, stale);
    forall r | r in s.reps
      ensures o.cells[r] == s'.reps[r].cell && s'.reps[r].actions == s.reps[r].actions + multiset(o.actions)[r]
    {
      assert CellSwept(cells, s.replicas, s.replicas.Keys, stale, stop, o, r);
      HitIsChosen(s, stale, r);
    }
  }

  lemma StopAllNobody(s: Sys, next: RState)
    ensures StopAll(s, {}, next) == s
  {
    assert RevokedIds(s.reps, {}) == {} && RevokeAll(s.gate, {}) == s.gate;
    assert StopAll(s, {}, next).reps == s.reps;
  }

  ghost predicate AllShaped(s: Sys) {
    forall r :: r in s.reps ==> Shape(s.reps[r].cell) && LeaseOk(s.reps[r])
  }

  /** Losing twice is losing once. */
  lemma LoseTwice(x: Rep)
    requires Shape(x.cell) && LeaseOk(x)
    ensures StopRep(StopRep(x, Lost), Lost) == StopRep(x, Lost) && Terminal(StopRep(x, Lost).cell.state)
  {
    P.StopRepOk(x, Lost);
  }

  lemma LoseAllTwice(s: Sys, a: set<nat>, b: set<nat>)
    requires AllShaped(s)
    ensures StopAll(StopAll(s, a, Lost), b, Lost) == StopAll(s, a + b, Lost)
  {
    var s' := StopAll(s, a, Lost);
    var once, twice := StopAll(s, a + b, Lost), StopAll(s', b, Lost);
    forall r | r in s.reps ensures twice.reps[r] == once.reps[r] && (r in a ==> Terminal(s'.reps[r].cell.state)) {
      LoseTwice(s.reps[r]);
    }
    assert twice.reps == once.reps;
    LoseTwiceIds(s, s', a, b);
    RevokeTwice(s.gate, RevokedIds(s.reps, a), RevokedIds(s'.reps, b));
  }

  lemma LoseTwiceIds(s: Sys, s': Sys, a: set<nat>, b: set<nat>)
    requires s'.reps.Keys == s.reps.Keys && forall r :: r in s.reps ==>
      if r in a then Terminal(s'.reps[r].cell.state) else s'.reps[r] == s.reps[r]
    ensures RevokedIds(s.reps, a) + RevokedIds(s'.reps, b) == RevokedIds(s.reps, a + b)
  {
    var all := RevokedIds(s.reps, a + b);
    forall id | id in all ensures id in RevokedIds(s.reps, a) + RevokedIds(s'.reps, b) {
      var r :| r in a + b && r in s.reps && !Terminal(s.reps[r].cell.state) && IdOf(s.reps[r].cell) == id;
      assert r !in a ==> s'.reps[r] == s.reps[r];
    }
    forall id | id in RevokedIds(s'.reps, b) ensures id in all {
      var r :| r in b && r in s'.reps && !Terminal(s'.reps[r].cell.state) && IdOf(s'.reps[r].cell) == id;
      assert r !in a && s'.reps[r] == s.reps[r];
    }
  }

  /** A property of a replica that stopping does not change picks the same replicas afterwards. */
  lemma SameChosen(s: Sys, s': Sys, who: set<nat>, stale: Replica -> bool)
    requires AllShaped(s) && s'.reps == StopAll(s, who, Lost).reps && s'.replicas == s.replicas
    requires forall x: Replica, y: Replica :: x.request == y.request && x.preparing == y.preparing ==>
      stale(x) == stale(y)
    ensures Chosen(s', stale) == Chosen(s, stale)
  {
    forall r | r in s.reps ensures stale(s'.reps[r].cell) == stale(s.reps[r].cell) {
      StopShape(s.reps[r].cell, Lost);
    }
  }

  lemma KeyedStays(s: Sys, s': Sys, who: set<nat>)
    requires AllShaped(s) && Keyed(CellsOf(s.reps), s.replicas)
    requires s'.reps == StopAll(s, who, Lost).reps && s'.replicas == s.replicas
    ensures Keyed(CellsOf(s'.reps), s'.replicas)
  {
    forall id | id in s'.replicas
      ensures s'.replicas[id] in s'.reps && IdOf(s'.reps[s'.replicas[id]].cell) == id && id != ""
    {
      var r := s.replicas[id];
      assert IdOf(CellsOf(s.reps)[r]) == id;
      StopShape(s.reps[r].cell, Lost);
    }
  }

  // ---------- what finishing a preparation, an invocation or a release means ----------

  /** finishPrepare with a lease, on the replica. */
  method FinishPreparation(x: Replica, closing: bool, backed: bool, matches: bool) returns (y: Replica, action: bool)
    ensures (y, action) == PrepareDone(x, closing, backed, matches)
  {
    y, action := x.(preparing := false), true;
    if y.state.Draining? || y.state.Lost? || closing {
      if y.state.Draining? {
        y := Transit(y, Stopped);
      }
      y := y.(preparedDone := true, releasing := true);
    } else if !backed {
      y := Transit(y, Lost);
      y := y.(stopClosed := true, preparedDone := true, releasing := true);
    } else if !matches {
      y := Transit(y, Failed);
      y := y.(stopClosed := true, preparedDone := true, releasing := true);
    } else {
      y, action := y.(lease := true), false;
      y := Transit(y, Validating);
      y := Transit(y, Compiling);
      y := Transit(y, Ready);
      y := y.(preparedDone := true);
    }
  }

  /** finishTerminalLocked: closes `done` unless something is outstanding. */
  method FinishReplica(x: Replica) returns (y: Replica)
    ensures y == FinishTerminal(x)
  {
    y := x;
    if Terminal(y.state) && !y.preparing && y.users == 0 && !y.lease && !y.releasing && !y.doneClosed {
      y := y.(doneClosed := true);
    }
  }

  /** finishFailedPreparationLocked. */
  method FailPreparation(x: Replica) returns (y: Replica)
    ensures y == PrepareFailed(x)
  {
    y := x.(preparing := false);
    if y.state.Draining? {
      y := Transit(y, Stopped);
    } else if !y.state.Lost? {
      y := Transit(y, Failed);
    }
    y := y.(stopClosed := true);
    y := y.(preparedDone := true);
    y := FinishReplica(y);
  }

  /** finishInvocation with finalizeIdleLocked, on the replica. */
  method LeaveReplica(x: Replica, accepted: bool) returns (y: Replica, action: bool)
    ensures (y, action) == Leave(x, accepted)
  {
    y, action := x, false;
    if accepted {
      y := y.(active := y.active - 1);
    }
    y := y.(users := y.users - 1);
    if y.users != 0 || y.preparing {
      return;
    }
    if y.state.Draining? {
      y := Transit(y, Stopped);
    }
    if !Terminal(y.state) {
      return;
    }
    if y.lease && !y.releasing {
      y, action := y.(lease := false, releasing := true), true;
      return;
    }
    y := FinishReplica(y);
  }

  /** Only replica r may differ. */
  ghost predicate OnlyAt(before: map<nat, Replica>, after: map<nat, Replica>, r: nat) {
    r in before && r in after && after == before[r := after[r]]
  }

  /** Replica r becomes x, with one more action if `action`; nothing else of the system changes for the object. */
  lemma PutOne(s: Sys, s': Sys, r: nat, x: Rep, action: bool)
    requires r in s.reps && s'.reps == s.reps[r := x] && x.actions == s.reps[r].actions + if action then 1 else 0
    requires s'.gate == s.gate && s'.replicas == s.replicas && s'.closing == s.closing && s'.closed == s.closed
    requires s'.cacheClosing == s.cacheClosing && s'.nextRep == s.nextRep
    ensures Project(s') == Project(s).(cells := CellsOf(s.reps)[r := x.cell])
    ensures HandsOut(s, s', if action then [r] else [])
  {
    CellsPut(s, r, x);
  }

  lemma PrepareOkFacts(cfg: AgentConfig, s: Sys, r: nat, matches: bool)
    requires Inv(cfg, s) && Enabled(s, PrepareOk(r, matches))
    ensures var x, y := s.reps[r].cell, PrepareOkNext(cfg, s, r, matches).reps[r].cell;
            var backed := CheckAssignment(cfg.gate, s.gate, x.request.connection, x.request.fence) == Ok;
      && Project(PrepareOkNext(cfg, s, r, matches)) == Project(s).(cells := CellsOf(s.reps)[r := y])
      && HandsOut(s, PrepareOkNext(cfg, s, r, matches), if y.releasing then [r] else [])
      && PrepareDone(x, s.closing, backed, matches) == (y, y.releasing)
      && y.lease == !y.releasing && (y.state.Ready? || Terminal(y.state)) && !x.releasing
      && (y.state.Ready? <==> x.state.Fetching? && !s.closing && matches && backed)
  {
    assert RepOk(cfg, s, r);
    var x := s.reps[r].cell;
    var backed := CheckAssignment(cfg.gate, s.gate, x.request.connection, x.request.fence) == Ok;
    PrepareDoneShape(x, s.closing, backed, matches);
    var s' := PrepareOkNext(cfg, s, r, matches);
    PutOne(s, s', r, s'.reps[r], PrepareDone(x, s.closing, backed, matches).1);
  }

  lemma PrepareErrFacts(cfg: AgentConfig, s: Sys, r: nat)
    requires Inv(cfg, s) && Enabled(s, PrepareErr(r))
    ensures var y := PrepareErrNext(s, r).reps[r].cell; Terminal(y.state) && !y.lease && y.doneClosed
  {
    assert RepOk(cfg, s, r);
    PrepareFailedShape(s.reps[r].cell);
  }

  lemma LeaveFacts(cfg: AgentConfig, s: Sys, i: nat)
    requires Inv(cfg, s) && Enabled(s, LeaveStep(i))
    ensures var x := s.reps[s.invs[i].rep].cell;
            var (y, action) := Leave(x, s.invs[i].accepted);
      && Project(LeaveNext(s, i)) == Project(s).(cells := CellsOf(s.reps)[s.invs[i].rep := y])
      && HandsOut(s, LeaveNext(s, i), if action then [s.invs[i].rep] else [])
      && x.lease && y.lease == !action && (action <==> x.users == 1 && !x.state.Ready?)
  {
    assert RepOk(cfg, s, s.invs[i].rep);
    P.LeaverIsCounted(s, i);
    var r, s' := s.invs[i].rep, LeaveNext(s, i);
    LeaveShape(s.reps[r].cell, s.invs[i].accepted);
    PutOne(s, s', r, s'.reps[r], Leave(s.reps[r].cell, s.invs[i].accepted).1);
  }

  lemma EndReleaseFacts(cfg: AgentConfig, s: Sys, r: nat)
    requires Inv(cfg, s) && Enabled(s, EndRelease(r))
    ensures var y := EndReleaseNext(s, r).reps[r].cell; y.doneClosed && Terminal(y.state) && !y.releasing && !y.lease
  {
    assert RepOk(cfg, s, r);
    ReleaseEndShape(s.reps[r].cell);
  }

  class Agent {
    const cfg: AgentConfig
    var gate: GateState
    var cells: map<nat, Replica>
    var replicas: map<string, nat>
    var closing: bool
    var closed: bool
    var cacheClosing: bool
    var nextRep: nat

    ghost function View(): Stored
      reads this
    {
      Stored(gate, cells, replicas, closing, closed, cacheClosing, nextRep)
    }

    constructor (cfg: AgentConfig, elapsed: int)
      ensures this.cfg == cfg && View() == Project(Init(elapsed))
    {
      this.cfg := cfg;
      gate, cells, replicas, nextRep := NewGate(elapsed), map[], map[], 0;
      closing, closed, cacheClosing := false, false, false;
    }

    /** One loop over the replicas: stops those satisfying `stale`. */
    method StopListed(ghost s: Sys, ghost g: GateState, order: seq<string>, stale: Replica -> bool,
                      stop: Replica -> (Replica, bool), ghost next: RState) returns (actions: seq<nat>)
      requires Keyed(CellsOf(s.reps), s.replicas) && cells == CellsOf(s.reps) && replicas == s.replicas && gate == g
      requires Ranges(replicas, order) && forall x :: stop(x) == StopWith(x, next)
      modifies this`cells, this`gate
      ensures var s' := StopAll(s.(gate := g), Chosen(s, stale), next);
              cells == CellsOf(s'.reps) && gate == s'.gate && HandsOut(s, s', actions)
    {
      var o := StopWhere(cells, gate, replicas, order, stale, stop);
      SweepIsStopAll(s, g, stale, stop, next, o);
      cells, gate, actions := o.cells, o.gate, o.actions;
    }

    /** The first loop of AcceptControl: replicas of an older session are lost. */
    method LoseOldSessions(
        order: seq<string>, before: GateState, after: GateState, ghost s: Sys) returns (actions: seq<nat>)
      requires Keyed(CellsOf(s.reps), s.replicas) && cells == CellsOf(s.reps) && replicas == s.replicas && gate == after
      requires Ranges(replicas, order)
      modifies this`cells, this`gate
      ensures var s' := StopAll(s.(gate := after), Chosen(s, Outdating(before, after)), Lost);
              cells == CellsOf(s'.reps) && gate == s'.gate && HandsOut(s, s', actions)
    {
      if after.session > before.session {
        actions := StopListed(s, after, order, Outdating(before, after), Lose, Lost);
      } else {
        actions := [];
        assert Chosen(s, Outdating(before, after)) == {};
        StopAllNobody(s.(gate := after), Lost);
      }
    }

    /** AcceptControl: replicas of older sessions are lost, then preparations the new control no longer backs. */
    method AcceptConnection(
        c: Connection, order: seq<string>, again: seq<string>, ghost s: Sys) returns (actions: seq<nat>)
      requires Inv(cfg, s) && View() == Project(s) && Ranges(replicas, order) && Ranges(replicas, again)
      modifies this
      ensures View() == Project(AcceptNext(cfg, s, c)) && HandsOut(s, AcceptNext(cfg, s, c), actions)
    {
      if closing {
        return [];
      }
      TableIsKeyed(cfg, s);
      var before, after := gate, AcceptControl(gate, c).0;
      ghost var s2 := AfterFirstLoop(s, after);
      TwoLoops(cfg, s, c);
      gate := after;
      actions := LoseOldSessions(order, before, after, s);
      var more := StopListed(s2, s2.gate, again, Unbacking(cfg, after), Lose, Lost);
      actions := actions + more;
    }

    /** DisconnectControl: preparations over this exact connection are lost. */
    method DisconnectConnection(c: Connection, order: seq<string>, ghost s: Sys) returns (actions: seq<nat>)
      requires View() == Project(s) && Keyed(cells, replicas) && Ranges(replicas, order)
      modifies this
      ensures View() == Project(DisconnectNext(s, c)) && HandsOut(s, DisconnectNext(s, c), actions)
    {
      var before, after := gate, DisconnectControl(gate, c);
      DisconnectParts(s, c);
      gate := after;
      if before.control.connected && !after.control.connected {
        actions := StopListed(s, after, order, PreparingOver(c), Lose, Lost);
      } else {
        actions := [];
      }
    }

    /** The critical section of Prepare that may insert a replica. */
    method Prepare(request: Request, valid: bool, ghost s: Sys) returns (r: Option<nat>)
      requires View() == Project(s)
      modifies this
      ensures View() == Project(PrepareNext(cfg, s, request, valid))
      ensures r == if PrepareNext(cfg, s, request, valid).nextRep > s.nextRep then Some(s.nextRep) else None
    {
      var id := request.fence.assignment.assignmentId;
      if !valid || closing || CheckAssignment(cfg.gate, gate, request.connection, request.fence) != Ok {
        return None;
      }
      if id in replicas || |replicas| >= cfg.maxAssignments {
        return None;
      }
      r := Some(nextRep);
      CellsPut(s, s.nextRep, Rep(NewReplica(request), Acquiring, 0, 0, 0, 0));
      cells, replicas, nextRep := cells[nextRep := NewReplica(request)], replicas[id := nextRep], nextRep + 1;
    }

    /** finishPrepare with a lease; tells whether the lease goes to a release action. */
    method FinishPrepare(r: nat, resultMatches: bool, ghost s: Sys) returns (action: bool)
      requires Inv(cfg, s) && View() == Project(s) && Enabled(s, PrepareOk(r, resultMatches))
      modifies this`cells
      ensures var s' := PrepareOkNext(cfg, s, r, resultMatches);
              View() == Project(s') && HandsOut(s, s', if action then [r] else [])
      ensures OnlyAt(old(cells), cells, r) && cells[r].lease == !action
      ensures (cells[r].state.Ready? || Terminal(cells[r].state))
      ensures cells[r].state.Ready?
        <==> resultMatches && !closing && old(cells)[r].state.Fetching? && StillAssigned(old(cells)[r])
    {
      PrepareOkFacts(cfg, s, r, resultMatches);
      var x: Replica;
      x, action := FinishPreparation(cells[r], closing, StillAssigned(cells[r]), resultMatches);
      cells := cells[r := x];
    }

    /** The gate still backs this replica's preparation. */
    predicate StillAssigned(x: Replica)
      reads this
    {
      CheckAssignment(cfg.gate, gate, x.request.connection, x.request.fence) == Ok
    }

    /** finishPrepare after a failed acquire. */
    method FinishFailedPrepare(r: nat, ghost s: Sys)
      requires Inv(cfg, s) && View() == Project(s) && Enabled(s, PrepareErr(r))
      modifies this`cells
      ensures View() == Project(PrepareErrNext(s, r))
      ensures OnlyAt(old(cells), cells, r) && Terminal(cells[r].state) && !cells[r].lease && cells[r].doneClosed
    {
      PrepareErrFacts(cfg, s, r);
      CellsPut(s, r, PrepareErrNext(s, r).reps[r]);
      var x := FailPreparation(cells[r]);
      cells := cells[r := x];
    }

    /** The replica under this id, if it is Ready with exactly this identity. */
    predicate Ready(identity: Identity)
      reads this
    {
      var id := identity.assignmentId;
      id in replicas && replicas[id] in cells && cells[replicas[id]].state.Ready?
      && cells[replicas[id]].request.fence.assignment == identity
    }

    /** Installs for a Ready replica of exactly this identity, or leaves every authorization alone. */
    method InstallAuthorization(c: Connection, a: Authorization, now: int, ghost s: Sys) returns (installed: bool)
      requires View() == Project(s)
      modifies this`gate
      ensures View() == Project(InstallNext(cfg, s, c, a, now))
      ensures installed ==> !closing && Ready(a.fence.assignment) && CurrentControl(gate, c)
      ensures var id := a.fence.assignment.assignmentId;
              gate.authorizations == if installed then old(gate.authorizations)[id := Record(a, c, now)] else old(gate.authorizations)
    {
      if closing {
        return false;
      }
      var id := a.fence.assignment.assignmentId;
      if id !in replicas || replicas[id] !in cells || !cells[replicas[id]].state.Ready? {
        return false;
      }
      if cells[replicas[id]].request.fence.assignment != a.fence.assignment {
        return false;
      }
      var (g, verdict) := Install(cfg.gate, gate, c, a, now);
      gate := g;
      return verdict == Ok;
    }

    /** Invoke up to the replica's queue: the caller becomes a user of the replica. */
    method EnterInvocation(f: Fence, ghost s: Sys) returns (r: Option<nat>)
      requires View() == Project(s)
      modifies this
      ensures View() == Project(EnterNext(s, f))
      ensures r == if EnterNext(s, f).nextInv > s.nextInv then Some(EnterNext(s, f).invs[s.nextInv].rep) else None
    {
      if closing || !Ready(f.assignment) {
        return None;
      }
      var id := replicas[f.assignment.assignmentId];
      CellsPut(s, id, EnterNext(s, f).reps[id]);
      cells := cells[id := cells[id].(users := cells[id].users + 1)];
      return Some(id);
    }

    /** Decides whether invocation i is accepted, which entered replica r. */
    method CheckInvocation(
        i: nat, f: Fence, r: nat, aliveBefore: bool, now: int, aliveAfter: bool, ghost s: Sys) returns (accepted: bool)
      requires View() == Project(s) && Enabled(s, Check(i, aliveBefore, now, aliveAfter))
      requires s.invs[i] == Invocation(r, f, false)
      modifies this
      ensures View() == Project(CheckNext(s, i, aliveBefore, now, aliveAfter))
      ensures accepted == Accepts(s, i, aliveBefore, now, aliveAfter)
    {
      var id := f.assignment.assignmentId;
      if !aliveBefore || closing || !cells[r].state.Ready? || id !in replicas || replicas[id] != r {
        return false;
      }
      var (g, verdict) := AuthorizeSync(gate, f, now);
      gate := g;
      if verdict != Ok || !aliveAfter {
        return false;
      }
      CellsPut(s, r, CheckNext(s, i, aliveBefore, now, aliveAfter).reps[r]);
      cells := cells[r := cells[r].(active := cells[r].active + 1)];
      return true;
    }

    method FinishInvocation(i: nat, r: nat, accepted: bool, ghost s: Sys) returns (action: bool)
      requires Inv(cfg, s) && View() == Project(s)
      requires Enabled(s, LeaveStep(i)) && s.invs[i].rep == r && s.invs[i].accepted == accepted
      modifies this`cells
      ensures View() == Project(LeaveNext(s, i))
      ensures HandsOut(s, LeaveNext(s, i), if action then [r] else [])
      ensures OnlyAt(old(cells), cells, r) && old(cells)[r].lease && cells[r].lease == !action
      ensures action <==> old(cells)[r].users == 1 && !old(cells)[r].state.Ready?
    {
      LeaveFacts(cfg, s, i);
      var x: Replica;
      x, action := LeaveReplica(cells[r], accepted);
      cells := cells[r := x];
    }

    method CancelAssignment(c: Connection, f: Fence, ghost s: Sys) returns (actions: seq<nat>)
      requires View() == Project(s) && Keyed(cells, replicas)
      modifies this
      ensures View() == Project(CancelNext(cfg, s, c, f)) && HandsOut(s, CancelNext(cfg, s, c, f), actions)
    {
      actions := [];
      if closing || CheckAssignment(cfg.gate, gate, c, f) != Ok || f.assignment.assignmentId !in replicas {
        return;
      }
      var r := replicas[f.assignment.assignmentId];
      if cells[r].request.fence.assignment != f.assignment {
        return;
      }
      StopSingle(s, r, Drain, Draining);
      var o := StopOne(Outcome(cells, gate, []), r, Drain);
      cells, gate, actions := o.cells, o.gate, o.actions;
    }

    method AcknowledgeTerminal(c: Connection, id: string, ghost s: Sys)
      requires View() == Project(s) && Keyed(cells, replicas)
      modifies this
      ensures View() == Project(AcknowledgeNext(s, c, id))
    {
      if closing || CheckControl(gate, c) != Ok || id !in replicas {
        return;
      }
      if !Terminal(cells[replicas[id]].state) || !cells[replicas[id]].doneClosed {
        return;
      }
      replicas := replicas - {id};
    }

    /** The critical section of release() after one lease went back. */
    method FinishRelease(r: nat, ghost s: Sys)
      requires Inv(cfg, s) && View() == Project(s) && Enabled(s, EndRelease(r))
      modifies this`cells
      ensures View() == Project(EndReleaseNext(s, r))
      ensures OnlyAt(old(cells), cells, r) && cells[r].doneClosed && Terminal(cells[r].state) && !cells[r].releasing
      ensures !cells[r].lease
    {
      EndReleaseFacts(cfg, s, r);
      CellsPut(s, r, EndReleaseNext(s, r).reps[r]);
      var x := FinishReplica(cells[r].(releasing := false));
      cells := cells[r := x];
    }

    /** beginClose: drains every listed replica. */
    method BeginClosing(order: seq<string>, ghost s: Sys) returns (actions: seq<nat>)
      requires View() == Project(s) && Keyed(cells, replicas) && Ranges(replicas, order)
      modifies this
      ensures View() == Project(BeginCloseNext(s)) && HandsOut(s, BeginCloseNext(s), actions)
    {
      BeginCloseParts(s);
      closing := true;
      actions := StopListed(s, gate, order, Always(), Drain, Draining);
    }

    /** The two sections of closeCache around the call of the cache's Close. */
    method BeginCacheClose(k: nat, ghost s: Sys) returns (closes: bool)
      requires View() == Project(s) && Enabled(s, CloseCache(k))
      modifies this
      ensures View() == Project(CloseCacheNext(s, k))
      ensures closes <==> k in CloseCacheNext(s, k).closers && CloseCacheNext(s, k).closers[k].ClosingCache?
    {
      if closed || cacheClosing {
        return false;
      }
      cacheClosing := true;
      return true;
    }

    method EndCacheClose(k: nat, ok: bool, ghost s: Sys)
      requires View() == Project(s) && Enabled(s, CacheClosed(k, ok))
      modifies this
      ensures View() == Project(CacheClosedNext(s, k, ok))
    {
      cacheClosing := false;
      if ok {
        closed := true;
      }
    }
  }

  function PreparingOver(c: Connection): Replica -> bool {
    (x: Replica) => x.preparing && x.request.connection == c
  }

  function Always(): Replica -> bool {
    (x: Replica) => true
  }

  lemma SamePreparing(s: Sys, c: Connection)
    ensures PreparingOn(s, c) == Chosen(s, PreparingOver(c))
  {
  }

  lemma DisconnectParts(s: Sys, c: Connection)
    ensures var s', g := DisconnectNext(s, c), DisconnectControl(s.gate, c);
      && Project(s') == Project(s).(cells := CellsOf(s'.reps), gate := s'.gate)
      && (s.gate.control.connected && !g.control.connected ==> s' == StopAll(s.(gate := g), Chosen(s, PreparingOver(c)), Lost))
      && (!(s.gate.control.connected && !g.control.connected) ==> s' == s.(gate := g) && HandsOut(s, s', []))
  {
    SamePreparing(s, c);
    StopAllNobody(s.(gate := DisconnectControl(s.gate, c)), Lost);
  }

  lemma AllChosen(s: Sys)
    requires Keyed(CellsOf(s.reps), s.replicas)
    ensures Listed(s) == Chosen(s, Always())
  {
    forall r | r in Listed(s) ensures r in s.reps {
      var id :| id in s.replicas && s.replicas[id] == r;
      assert s.replicas[id] in CellsOf(s.reps);
    }
  }

  lemma BeginCloseParts(s: Sys)
    requires Keyed(CellsOf(s.reps), s.replicas)
    ensures s.(gate := s.gate) == s
    ensures BeginCloseNext(s).reps == StopAll(s, Chosen(s, Always()), Draining).reps
    ensures BeginCloseNext(s).gate == StopAll(s, Chosen(s, Always()), Draining).gate
  {
    AllChosen(s);
  }

  lemma StopRepIs(x: Rep, stop: Replica -> (Replica, bool), next: RState)
    requires forall c :: stop(c) == StopWith(c, next)
    ensures StopRep(x, next) == x.(cell := stop(x.cell).0, actions := if stop(x.cell).1 then x.actions + 1 else x.actions)
  {
  }

  /** Stopping one listed replica is the model's StopAll on it alone. */
  lemma StopSingle(s: Sys, r: nat, stop: Replica -> (Replica, bool), next: RState)
    requires r in s.reps && IdOf(s.reps[r].cell) != "" && forall x :: stop(x) == StopWith(x, next)
    ensures var o := StopOne(Outcome(CellsOf(s.reps), s.gate, []), r, stop);
            var s' := StopAll(s, {r}, next);
            o.cells == CellsOf(s'.reps) && o.gate == s'.gate && HandsOut(s, s', o.actions)
  {
    var o := StopOne(Outcome(CellsOf(s.reps), s.gate, []), r, stop);
    var y := StopRep(s.reps[r], next);
    StopRepIs(s.reps[r], stop, next);
    StopAllOne(s, r, next);
    CellsPut(s, r, y);
    RevokeOne(s.gate, IdOf(s.reps[r].cell));
  }

  lemma StopAllOne(s: Sys, r: nat, next: RState)
    requires r in s.reps
    ensures StopAll(s, {r}, next).reps == s.reps[r := StopRep(s.reps[r], next)]
    ensures RevokedIds(s.reps, {r}) == if Terminal(s.reps[r].cell.state) then {} else {IdOf(s.reps[r].cell)}
  {
  }

  lemma RevokeOne(g: GateState, id: string)
    requires id != ""
    ensures RevokeAll(g, {}) == g && RevokeAll(g, {id}) == Revoke(g, id)
  {
  }

  function Outdating(before: GateState, after: GateState): Replica -> bool {
    x => OldSession(before, after, x)
  }

  function Unbacking(cfg: AgentConfig, g: GateState): Replica -> bool {
    x => LostControl(cfg, g, x)
  }

  ghost function AfterFirstLoop(s: Sys, g: GateState): Sys {
    StopAll(s.(gate := g), Chosen(s, Outdating(s.gate, g)), Lost)
  }

  /** The two loops of AcceptControl together lose exactly the outdated replicas. */
  lemma TwoLoops(cfg: AgentConfig, s: Sys, c: Connection)
    requires Inv(cfg, s) && Keyed(CellsOf(s.reps), s.replicas) && !s.closing
    ensures var g := AcceptControl(s.gate, c).0;
            var s2 := AfterFirstLoop(s, g);
            && Keyed(CellsOf(s2.reps), s2.replicas) && s2.replicas == s.replicas
            && StopAll(s2.(gate := s2.gate), Chosen(s2, Unbacking(cfg, g)), Lost) == AcceptNext(cfg, s, c)
  {
    var g := AcceptControl(s.gate, c).0;
    var s1, s2 := s.(gate := g), AfterFirstLoop(s, g);
    var first, second := Chosen(s, Outdating(s.gate, g)), Chosen(s, Unbacking(cfg, g));
    assert AllShaped(s1) by { assert forall r :: r in s.reps ==> RepOk(cfg, s, r); }
    KeyedStays(s1, s2, first);
    SameChosen(s1, s2, first, Unbacking(cfg, g));
    LoseAllTwice(s1, first, second);
    assert Outdated(cfg, s, g) == first + second;
    assert s2.(gate := s2.gate) == s2;
  }
}
