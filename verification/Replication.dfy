/**
 Publishers and one Gateway store joined by a network that loses, duplicates
 and reorders: a step delivers any event ever sent, at any time. For every run
 the store's functions are exactly what the publisher of its epoch had
 published at its sequence.
 */
module Replication {
  import opened Common
  import opened ServingView
  import P = Publisher
  import Auth = ServingAuth
  import R = Runs

  datatype Net = Net(
    sent: map<nat, seq<Event>>,   // by epoch; the n-th event has sequence n + 1
    store: StoreState)

  datatype Step =
    | SendIncremental(epoch: nat, input: P.Input)
    | SendFull(epoch: nat, inputs: seq<P.Input>)
    | Deliver(epoch: nat, index: nat, now: int)
    | SuppressStep(fid: string, assignment: Auth.Identity)
    | LookupStep(fid: string, now: int)
    | SetWatch(connected: bool)

  function Sent(n: Net, epoch: nat): seq<Event> {
    if epoch in n.sent then n.sent[epoch] else []
  }

  function Record(n: Net, epoch: nat, e: Option<Event>): Net {
    if e.None? then n else n.(sent := n.sent[epoch := Sent(n, epoch) + [e.value]])
  }

  predicate Enabled(n: Net, step: Step) {
    match step
    case SendIncremental(epoch, _) => epoch > 0
    case SendFull(epoch, _) => epoch > 0
    case Deliver(epoch, index, _) => index < |Sent(n, epoch)|
    case _ => true
  }

  function Next(cfg: StoreConfig, n: Net, step: Step): Net
    requires Enabled(n, step)
  {
    match step
    case SendIncremental(epoch, input) => Record(n, epoch, P.NextIncremental(epoch, |Sent(n, epoch)|, input))
    case SendFull(epoch, inputs) => Record(n, epoch, P.NextFull(epoch, |Sent(n, epoch)|, inputs))
    case Deliver(epoch, index, now) => n.(store := Apply(cfg, n.store, Sent(n, epoch)[index], now).0)
    case SuppressStep(f, a) => n.(store := Suppress(n.store, f, a).0)
    case LookupStep(f, now) => n.(store := Lookup(cfg, n.store, f, now).0)
    case SetWatch(connected) => n.(store := n.store.(watchConnected := connected))
  }

  ghost function Moves(cfg: StoreConfig): iset<R.Move<Net, Step>> {
    iset m: R.Move<Net, Step> | Enabled(m.pre, m.step) && m.post == Next(cfg, m.pre, m.step)
  }

  function Init(elapsed: int): Net {
    Net(map[], NewStore(elapsed))
  }

  ghost predicate IsRun(cfg: StoreConfig, elapsed: int, states: seq<Net>, steps: seq<Step>) {
    R.IsRun(Init(elapsed), Moves(cfg), states, steps)
  }

  // ---------- what a publisher has published ----------

  /** The functions published after the first n events of one epoch. */
  function Published(sent: seq<Event>, n: nat): (m: map<string, Snapshot>)
    requires n <= |sent|
  {
    if n == 0 then map[]
    else if sent[n - 1].full then ByFunction(sent[n - 1].snapshots)
    else Published(sent, n - 1) + ByFunction(sent[n - 1].snapshots)
  }

  lemma {:induction false} PublishedIsStable(sent: seq<Event>, e: Event, n: nat)
    requires n <= |sent|
    ensures Published(sent + [e], n) == Published(sent, n)
  {
    if n > 0 {
      PublishedIsStable(sent, e, n - 1);
    }
  }

  predicate SentOk(e: Event, epoch: nat, index: nat) {
    e.epoch == epoch && e.sequence == index + 1 && (!e.full ==> |e.snapshots| == 1)
  }

  ghost predicate AllSentOk(sent: map<nat, seq<Event>>) {
    forall epoch, i :: epoch in sent && 0 <= i < |sent[epoch]| ==> SentOk(sent[epoch][i], epoch, i)
  }

  /** The snapshots the store holds. */
  ghost function Held(s: StoreState): map<string, Snapshot> {
    map f | f in s.functions :: s.functions[f].snapshot
  }

  /** The store's functions are those its publisher had published at its position. */
  ghost predicate InStep(n: Net) {
    var p := n.store.position;
    && 1 <= p.sequence <= |Sent(n, p.epoch)|
    && Held(n.store) == Published(Sent(n, p.epoch), p.sequence)
  }

  ghost predicate StoreOk(n: Net) {
    && (n.store.fullSynced ==> InStep(n))
    && (!n.store.fullSynced ==> n.store.functions == map[] && n.store.position == Position(0, 0, None))
  }

  ghost function Good(): iset<Net> {
    iset n: Net | AllSentOk(n.sent) && StoreOk(n)
  }

  // ---------- every step keeps it ----------

  lemma SendOk(n: Net, epoch: nat, e: Event)
    requires n in Good() && e.epoch == epoch && e.sequence == |Sent(n, epoch)| + 1 && (!e.full ==> |e.snapshots| == 1)
    ensures Record(n, epoch, Some(e)) in Good()
  {
    var n' := Record(n, epoch, Some(e));
    forall x, i | x in n'.sent && 0 <= i < |n'.sent[x]| ensures SentOk(n'.sent[x][i], x, i) {
      assert x in n.sent && i < |n.sent[x]| ==> SentOk(n.sent[x][i], x, i);
    }
    if n.store.fullSynced {
      var p := n.store.position;
      if p.epoch == epoch {
        PublishedIsStable(Sent(n, epoch), e, p.sequence);
      }
    }
  }

  lemma HeldFull(functions: map<string, FunctionRecord>, snapshots: map<string, Snapshot>, now: int, s: StoreState)
    requires s.functions == InstalledAll(functions, snapshots, now)
    ensures Held(s) == snapshots
  {
  }

  lemma HeldIncremental(s: StoreState, s': StoreState, x: Snapshot, now: int)
    requires s'.functions == s.functions[x.functionId := Installed(s.functions, x, now)]
    ensures Held(s') == Held(s) + ByFunction([x])
  {
    assert ByFunction([x]) == map[x.functionId := x] by {
      assert [x][..0] == [];
    }
  }

  lemma FullInStep(n: Net, n': Net, epoch: nat, index: nat, now: int)
    requires n in Good() && index < |Sent(n, epoch)| && n' == n.(store := n'.store)
    requires var e := Sent(n, epoch)[index];
      e.full && n'.store.functions == InstalledAll(n.store.functions, ByFunction(e.snapshots), now)
      && n'.store.position.epoch == e.epoch && n'.store.position.sequence == e.sequence
    ensures InStep(n')
  {
    var e := Sent(n, epoch)[index];
    assert SentOk(e, epoch, index);
    HeldFull(n.store.functions, ByFunction(e.snapshots), now, n'.store);
  }

  lemma IncrementalInStep(n: Net, n': Net, epoch: nat, index: nat, now: int)
    requires n in Good() && index < |Sent(n, epoch)| && n' == n.(store := n'.store) && n.store.fullSynced
    requires var e := Sent(n, epoch)[index];
      && !e.full && e.epoch == n.store.position.epoch && e.sequence == n.store.position.sequence + 1
      && |e.snapshots| == 1
      && n'.store.functions == n.store.functions[e.snapshots[0].functionId := Installed(n.store.functions, e.snapshots[0], now)]
      && n'.store.position.epoch == e.epoch && n'.store.position.sequence == e.sequence
    ensures InStep(n')
  {
    var e := Sent(n, epoch)[index];
    assert SentOk(e, epoch, index);
    HeldIncremental(n.store, n'.store, e.snapshots[0], now);
    assert e.snapshots == [e.snapshots[0]];
  }

  /** What applying an event can do to the functions and the position. */
  lemma ApplyCases(cfg: StoreConfig, s: StoreState, e: Event, now: int)
    ensures var s' := Apply(cfg, s, e, now).0;
      || (s'.functions == s.functions && s'.position == s.position && s'.fullSynced == s.fullSynced)
      || (e.full && s'.functions == InstalledAll(s.functions, ByFunction(e.snapshots), now) && s'.fullSynced
          && s'.position.epoch == e.epoch && s'.position.sequence == e.sequence)
      || (!e.full && s.fullSynced && s'.fullSynced && |e.snapshots| == 1
          && e.epoch == s.position.epoch && e.sequence == s.position.sequence + 1
          && s'.functions == s.functions[e.snapshots[0].functionId := Installed(s.functions, e.snapshots[0], now)]
          && s'.position.epoch == e.epoch && s'.position.sequence == e.sequence)
  {
  }

  lemma DeliverOk(cfg: StoreConfig, n: Net, epoch: nat, index: nat, now: int)
    requires n in Good() && index < |Sent(n, epoch)|
    ensures Next(cfg, n, Deliver(epoch, index, now)) in Good()
  {
    var n' := Next(cfg, n, Deliver(epoch, index, now));
    var e := Sent(n, epoch)[index];
    ApplyCases(cfg, n.store, e, now);
    if n'.store.functions == n.store.functions && n'.store.position == n.store.position
       && n'.store.fullSynced == n.store.fullSynced {
      assert Held(n'.store) == Held(n.store);
    } else if e.full {
      FullInStep(n, n', epoch, index, now);
    } else {
      IncrementalInStep(n, n', epoch, index, now);
    }
  }

  lemma LocalOk(n: Net, s: StoreState)
    requires n in Good() && Held(s) == Held(n.store) && s.position == n.store.position
    requires s.fullSynced == n.store.fullSynced
    requires s.functions.Keys == n.store.functions.Keys
    ensures n.(store := s) in Good()
  {
  }

  lemma SuppressHolds(s: StoreState, f: string, a: Auth.Identity)
    ensures var s' := Suppress(s, f, a).0;
            Held(s') == Held(s) && s'.position == s.position && s'.fullSynced == s.fullSynced && s'.functions.Keys == s.functions.Keys
  {
  }

  lemma LookupHolds(cfg: StoreConfig, s: StoreState, f: string, now: int)
    ensures var s' := Lookup(cfg, s, f, now).0;
            s'.functions == s.functions && s'.position == s.position && s'.fullSynced == s.fullSynced
  {
  }

  lemma StepOk(cfg: StoreConfig, n: Net, step: Step)
    requires n in Good() && Enabled(n, step)
    ensures Next(cfg, n, step) in Good()
  {
    match step
    case SendIncremental(epoch, input) =>
      var e := P.NextIncremental(epoch, |Sent(n, epoch)|, input);
      if e.Some? { SendOk(n, epoch, e.value); }
    case SendFull(epoch, inputs) =>
      var e := P.NextFull(epoch, |Sent(n, epoch)|, inputs);
      if e.Some? { SendOk(n, epoch, e.value); }
    case Deliver(epoch, index, now) => DeliverOk(cfg, n, epoch, index, now);
    case SuppressStep(f, a) =>
      SuppressHolds(n.store, f, a);
      LocalOk(n, Suppress(n.store, f, a).0);
    case LookupStep(f, now) =>
      LookupHolds(cfg, n.store, f, now);
      LocalOk(n, Lookup(cfg, n.store, f, now).0);
    case SetWatch(connected) => LocalOk(n, n.store.(watchConnected := connected));
  }

  lemma RunOk(cfg: StoreConfig, elapsed: int, states: seq<Net>, steps: seq<Step>, i: nat)
    requires IsRun(cfg, elapsed, states, steps) && i < |states|
    ensures states[i] in Good()
  {
    forall m | m in Moves(cfg) && m.pre in Good() ensures m.post in Good() {
      StepOk(cfg, m.pre, m.step);
    }
    R.StaysFrom(Init(elapsed), Moves(cfg), Good(), states, steps, 0, i);
  }

  /**
   However events are lost, repeated or reordered, a store that ever synced
   holds exactly the functions its epoch's publisher had published at the
   store's sequence, even while it waits for the next Full Sync.
   */
  lemma ReplicaMatchesPublisher(cfg: StoreConfig, elapsed: int, states: seq<Net>, steps: seq<Step>, i: nat)
    requires IsRun(cfg, elapsed, states, steps) && i < |states| && states[i].store.fullSynced
    ensures var p := states[i].store.position;
            && 1 <= p.sequence <= |Sent(states[i], p.epoch)|
            && Held(states[i].store) == Published(Sent(states[i], p.epoch), p.sequence)
  {
    RunOk(cfg, elapsed, states, steps, i);
  }

  // ---------- the position ----------

  predicate NotBefore(p: Position, q: Position) {
    p.epoch < q.epoch || (p.epoch == q.epoch && p.sequence <= q.sequence)
  }

  ghost function From(n: Net): iset<Net> {
    iset m: Net | NotBefore(n.store.position, m.store.position) && (n.store.fullSynced ==> m.store.fullSynced)
                  && (!n.store.healthy ==> !m.store.healthy)
  }

  lemma StepMovesUp(cfg: StoreConfig, n: Net, step: Step)
    requires Enabled(n, step)
    ensures Next(cfg, n, step) in From(n)
  {
    match step
    case Deliver(epoch, index, now) => ApplyMovesUp(cfg, n.store, Sent(n, epoch)[index], now);
    case _ =>
  }

  lemma ApplyMovesUp(cfg: StoreConfig, s: StoreState, e: Event, now: int)
    ensures var s' := Apply(cfg, s, e, now).0;
            && NotBefore(s.position, s'.position) && (s.fullSynced ==> s'.fullSynced) && (!s.healthy ==> s' == s)
            && (s'.position == s.position || s'.position.epoch > s.position.epoch || s'.position.sequence > s.position.sequence)
  {
  }

  /** The position only moves up lexicographically; being synced and an unhealthy clock are for good. */
  lemma PositionMovesUp(cfg: StoreConfig, elapsed: int, states: seq<Net>, steps: seq<Step>, i: nat, j: nat)
    requires IsRun(cfg, elapsed, states, steps) && i <= j < |states|
    ensures NotBefore(states[i].store.position, states[j].store.position)
    ensures states[i].store.fullSynced ==> states[j].store.fullSynced
    ensures !states[i].store.healthy ==> !states[j].store.healthy
  {
    forall m | m in Moves(cfg) && m.pre in From(states[i]) ensures m.post in From(states[i]) {
      StepMovesUp(cfg, m.pre, m.step);
    }
    R.StaysFrom(Init(elapsed), Moves(cfg), From(states[i]), states, steps, i, j);
  }

  /** After one clock regression no lookup ever succeeds again and no event is ever applied. */
  lemma RegressionStopsLookups(
      cfg: StoreConfig, elapsed: int, states: seq<Net>, steps: seq<Step>, i: nat, j: nat, f: string, e: Event, now: int)
    requires IsRun(cfg, elapsed, states, steps) && i <= j < |states| && !states[i].store.healthy
    ensures Lookup(cfg, states[j].store, f, now).1.LookupFailed?
    ensures Apply(cfg, states[j].store, e, now).0 == states[j].store && Apply(cfg, states[j].store, e, now).1 != Ok
  {
    PositionMovesUp(cfg, elapsed, states, steps, i, j);
  }

  /** A lookup that succeeds returns what was published at the store's position, minus locally suppressed endpoints. */
  lemma LookupReturnsPublished(
      cfg: StoreConfig, elapsed: int, states: seq<Net>, steps: seq<Step>, i: nat, f: string, now: int)
    requires IsRun(cfg, elapsed, states, steps) && i < |states|
    requires Lookup(cfg, states[i].store, f, now).1.Found?
    ensures var s, found := states[i].store, Lookup(cfg, states[i].store, f, now).1;
            && 1 <= s.position.sequence <= |Sent(states[i], s.position.epoch)|
            && var published := Published(Sent(states[i], s.position.epoch), s.position.sequence);
               && f in published && found.snapshot == published[f] && s.healthy
               && f in s.functions
               && forall e :: e in found.endpoints <==> e in published[f].endpoints && !Hidden(s.functions[f], e.assignment)
  {
    ReplicaMatchesPublisher(cfg, elapsed, states, steps, i);
    var s := states[i].store;
    assert f in Held(s) && Held(s)[f] == s.functions[f].snapshot;
  }

  // ---------- revisions of a function that stays in the view ----------

  ghost predicate Present(states: seq<Net>, f: string, i: nat, j: nat)
    requires i <= j < |states|
  {
    forall k :: i <= k <= j ==> f in states[k].store.functions
  }

  ghost function Successors(x: Snapshot): iset<Snapshot> {
    iset y: Snapshot | NoRegress(x, y)
  }

  lemma NoRegressTransitive(a: Snapshot, b: Snapshot, c: Snapshot)
    requires b in Successors(a) && c in Successors(b)
    ensures c in Successors(a)
  {
  }

  lemma StepNoRegress(cfg: StoreConfig, n: Net, step: Step, f: string)
    requires Enabled(n, step) && f in n.store.functions && f in Next(cfg, n, step).store.functions
    ensures Next(cfg, n, step).store.functions[f].snapshot in Successors(n.store.functions[f].snapshot)
  {
    match step
    case Deliver(epoch, index, now) => ApplyNoRegress(cfg, n.store, Sent(n, epoch)[index], now, f);
    case SuppressStep(g, a) =>
      SuppressHolds(n.store, g, a);
      assert Held(Next(cfg, n, step).store)[f] == Held(n.store)[f];
    case _ =>
  }

  lemma ApplyNoRegress(cfg: StoreConfig, s: StoreState, e: Event, now: int, f: string)
    requires f in s.functions && f in Apply(cfg, s, e, now).0.functions
    ensures Apply(cfg, s, e, now).0.functions[f].snapshot in Successors(s.functions[f].snapshot)
  {
  }

  lemma MoveNoRegress(cfg: StoreConfig, elapsed: int, states: seq<Net>, steps: seq<Step>, f: string, j: nat)
    requires IsRun(cfg, elapsed, states, steps) && j < |steps|
    requires f in states[j].store.functions && f in states[j + 1].store.functions
    ensures states[j + 1].store.functions[f].snapshot in Successors(states[j].store.functions[f].snapshot)
  {
    assert R.Move(states[j], steps[j], states[j + 1]) in Moves(cfg);
    StepNoRegress(cfg, states[j], steps[j], f);
  }

  /** A chain of snapshots, each a successor of the one before. */
  lemma {:induction false} ChainInOrder(chain: seq<Snapshot>)
    requires |chain| > 0 && forall k :: 0 < k < |chain| ==> chain[k] in Successors(chain[k - 1])
    ensures chain[|chain| - 1] in Successors(chain[0])
  {
    if |chain| > 1 {
      var n := |chain| - 1;
      ChainInOrder(chain[..n]);
      NoRegressTransitive(chain[0], chain[n - 1], chain[n]);
    }
  }

  /** The snapshots of f in the states i to j. */
  ghost function ChainOf(states: seq<Net>, f: string, i: nat, j: nat): (chain: seq<Snapshot>)
    requires i <= j < |states| && Present(states, f, i, j)
    ensures |chain| == j - i + 1 && forall k :: 0 <= k < |chain| ==>
      chain[k] == states[i + k].store.functions[f].snapshot
  {
    seq(j - i + 1, k requires 0 <= k <= j - i => states[i + k].store.functions[f].snapshot)
  }

  lemma ChainSteps(
      cfg: StoreConfig, elapsed: int, states: seq<Net>, steps: seq<Step>, f: string, i: nat, j: nat, k: nat)
    requires IsRun(cfg, elapsed, states, steps) && i <= j < |states| && Present(states, f, i, j) && 0 < k <= j - i
    ensures ChainOf(states, f, i, j)[k] in Successors(ChainOf(states, f, i, j)[k - 1])
  {
    MoveNoRegress(cfg, elapsed, states, steps, f, i + k - 1);
  }

  /**
   While a function stays in the view, its function, trigger and route
   revisions never fall, and equal revisions mean equal content, over the
   whole stretch and not just from one event to the next.
   */
  lemma RevisionsNeverRegress(
      cfg: StoreConfig, elapsed: int, states: seq<Net>, steps: seq<Step>, f: string, i: nat, j: nat)
    requires IsRun(cfg, elapsed, states, steps) && i <= j < |states| && Present(states, f, i, j)
    ensures var x, y := states[i].store.functions[f].snapshot, states[j].store.functions[f].snapshot;
      && x.fn.revision <= y.fn.revision && (x.fn.revision == y.fn.revision ==> x.fn == y.fn)
      && x.trigger.revision <= y.trigger.revision
      && (x.trigger.revision == y.trigger.revision ==> x.trigger == y.trigger)
      && (x.route.present ==> y.route.present && (SameRevisions(x.route, y.route) ==> x.route == y.route))
      && (x.route.present ==> x.route.resourceRevision <= y.route.resourceRevision && x.route.routeRevision <= y.route.routeRevision)
  {
    var chain := ChainOf(states, f, i, j);
    forall k | 0 < k < |chain| ensures chain[k] in Successors(chain[k - 1]) {
      ChainSteps(cfg, elapsed, states, steps, f, i, j, k);
    }
    ChainInOrder(chain);
  }

  // ---------- local suppressions ----------

  /** Assignment a of function f is offered by the authoritative snapshot. */
  predicate Offered(s: StoreState, f: string, a: Auth.Identity) {
    f in s.functions && Offers(s.functions[f].snapshot.endpoints, a)
  }

  predicate SuppressedNow(s: StoreState, f: string, a: Auth.Identity) {
    f in s.functions && Hidden(s.functions[f], a)
  }

  /** Endpoint ids are unique, and every suppression is of an endpoint still offered. */
  ghost predicate RecordTidy(r: FunctionRecord) {
    && DistinctAssignments(r.snapshot.endpoints)
    && forall id :: id in r.suppressed ==> r.suppressed[id].assignmentId == id && Offers(r.snapshot.endpoints, r.suppressed[id])
  }

  ghost predicate Tidy(s: StoreState) {
    forall f :: f in s.functions ==> RecordTidy(s.functions[f])
  }

  ghost function TidyNets(): iset<Net> {
    iset n: Net | Tidy(n.store)
  }

  lemma ByFunctionHolds(e: Event, f: string)
    requires f in ByFunction(e.snapshots) && forall i :: 0 <= i < |e.snapshots| ==> WellPlaced(e, e.snapshots[i])
    ensures DistinctAssignments(ByFunction(e.snapshots)[f].endpoints)
  {
    var i := ByFunctionAt(e.snapshots, f);
    assert WellPlaced(e, e.snapshots[i]);
  }

  lemma ApplyTidy(cfg: StoreConfig, s: StoreState, e: Event, now: int)
    requires Tidy(s)
    ensures Tidy(Apply(cfg, s, e, now).0)
  {
    var s' := Apply(cfg, s, e, now).0;
    ApplyCases(cfg, s, e, now);
    if Normalize(cfg, e).Some? {
      forall f | f in s'.functions ensures RecordTidy(s'.functions[f]) {
        assert f in s.functions ==> RecordTidy(s.functions[f]);
        if f in ByFunction(e.snapshots) { ByFunctionHolds(e, f); }
      }
    }
  }

  lemma FirstIsOffered(endpoints: seq<Endpoint>, a: Auth.Identity)
    requires FirstWith(endpoints, a.assignmentId).Some? && FirstWith(endpoints, a.assignmentId).value.assignment == a
    ensures Offers(endpoints, a)
  {
    var e := FirstWith(endpoints, a.assignmentId).value;
    var i :| 0 <= i < |endpoints| && endpoints[i] == e;
  }

  lemma SuppressTidy(s: StoreState, f: string, a: Auth.Identity)
    requires Tidy(s)
    ensures Tidy(Suppress(s, f, a).0)
  {
    if Suppress(s, f, a).1 == Ok {
      FirstIsOffered(s.functions[f].snapshot.endpoints, a);
      assert RecordTidy(s.functions[f]);
    }
  }

  lemma RunTidy(cfg: StoreConfig, elapsed: int, states: seq<Net>, steps: seq<Step>, i: nat)
    requires IsRun(cfg, elapsed, states, steps) && i < |states|
    ensures Tidy(states[i].store)
  {
    forall m | m in Moves(cfg) && m.pre in TidyNets() ensures m.post in TidyNets() {
      StepTidy(cfg, m.pre, m.step);
    }
    R.StaysFrom(Init(elapsed), Moves(cfg), TidyNets(), states, steps, 0, i);
  }

  lemma StepTidy(cfg: StoreConfig, n: Net, step: Step)
    requires Tidy(n.store) && Enabled(n, step)
    ensures Tidy(Next(cfg, n, step).store)
  {
    match step
    case Deliver(epoch, index, now) => ApplyTidy(cfg, n.store, Sent(n, epoch)[index], now);
    case SuppressStep(f, a) => SuppressTidy(n.store, f, a);
    case _ =>
  }

  predicate JustSuppressed(s: StoreState, step: Step, f: string, a: Auth.Identity) {
    step == SuppressStep(f, a) && Suppress(s, f, a).1 == Ok
  }

  /** One step: a is suppressed after it iff it was suppressed before or just now, and is still offered. */
  lemma SuppressionStep(cfg: StoreConfig, n: Net, step: Step, f: string, a: Auth.Identity)
    requires Enabled(n, step) && Tidy(n.store)
    ensures var s, s' := n.store, Next(cfg, n, step).store;
      SuppressedNow(s', f, a) <==> Offered(s', f, a) && (SuppressedNow(s, f, a) || JustSuppressed(s, step, f, a))
  {
    assert f in n.store.functions ==> RecordTidy(n.store.functions[f]);
    match step
    case Deliver(epoch, index, now) => ApplySuppression(cfg, n.store, Sent(n, epoch)[index], now, f, a);
    case SuppressStep(g, b) => SuppressSuppression(n.store, g, b, f, a);
    case LookupStep(g, now) => LookupHolds(cfg, n.store, g, now);
    case _ =>
  }

  lemma ApplySuppression(cfg: StoreConfig, s: StoreState, e: Event, now: int, f: string, a: Auth.Identity)
    requires f in s.functions ==> RecordTidy(s.functions[f])
    ensures var s' := Apply(cfg, s, e, now).0;
            SuppressedNow(s', f, a) <==> Offered(s', f, a) && SuppressedNow(s, f, a)
  {
    ApplyCases(cfg, s, e, now);
  }

  /** Two offered identities with one assignment id are equal. */
  lemma SameIdSameIdentity(endpoints: seq<Endpoint>, a: Auth.Identity, b: Auth.Identity)
    requires DistinctAssignments(endpoints) && Offers(endpoints, a) && Offers(endpoints, b)
    requires a.assignmentId == b.assignmentId
    ensures a == b
  {
    var i :| 0 <= i < |endpoints| && endpoints[i].assignment == a;
    var j :| 0 <= j < |endpoints| && endpoints[j].assignment == b;
  }

  lemma SuppressSuppression(s: StoreState, g: string, b: Auth.Identity, f: string, a: Auth.Identity)
    requires f in s.functions ==> RecordTidy(s.functions[f])
    ensures var s' := Suppress(s, g, b).0;
      SuppressedNow(s', f, a) <==> Offered(s', f, a) && (SuppressedNow(s, f, a) || JustSuppressed(s, SuppressStep(g, b), f, a))
  {
    if Suppress(s, g, b).1 == Ok && g == f {
      FirstIsOffered(s.functions[f].snapshot.endpoints, b);
      if Offered(s, f, a) && a.assignmentId == b.assignmentId {
        SameIdSameIdentity(s.functions[f].snapshot.endpoints, a, b);
      }
    }
  }

  /** Step k suppressed a, and a was offered in every state since. */
  ghost predicate SuppressedSince(states: seq<Net>, steps: seq<Step>, f: string, a: Auth.Identity, k: nat, j: nat)
    requires k < j < |states| && |steps| + 1 == |states|
  {
    JustSuppressed(states[k].store, steps[k], f, a) && forall m :: k < m <= j ==> Offered(states[m].store, f, a)
  }

  /**
   An endpoint is hidden exactly when it was suppressed under its exact
   identity and the authoritative view has offered that identity ever since.
   */
  lemma HiddenExactlySince(
      cfg: StoreConfig, elapsed: int, states: seq<Net>, steps: seq<Step>, f: string, a: Auth.Identity, j: nat)
    requires IsRun(cfg, elapsed, states, steps) && j < |states|
    ensures SuppressedNow(states[j].store, f, a)
      <==> exists k :: 0 <= k < j && SuppressedSince(states, steps, f, a, k, j)
  {
    if SuppressedNow(states[j].store, f, a) {
      var k := FindSuppression(cfg, elapsed, states, steps, f, a, j);
    }
    forall k | 0 <= k < j && SuppressedSince(states, steps, f, a, k, j) ensures SuppressedNow(states[j].store, f, a) {
      SuppressionMove(cfg, elapsed, states, steps, f, a, k);
      StaysSuppressed(cfg, elapsed, states, steps, f, a, k + 1, j);
    }
  }

  lemma SuppressionMove(
      cfg: StoreConfig, elapsed: int, states: seq<Net>, steps: seq<Step>, f: string, a: Auth.Identity, j: nat)
    requires IsRun(cfg, elapsed, states, steps) && j < |steps|
    ensures var s, s' := states[j].store, states[j + 1].store;
      SuppressedNow(s', f, a) <==> Offered(s', f, a) && (SuppressedNow(s, f, a) || JustSuppressed(s, steps[j], f, a))
  {
    RunTidy(cfg, elapsed, states, steps, j);
    assert R.Move(states[j], steps[j], states[j + 1]) in Moves(cfg);
    SuppressionStep(cfg, states[j], steps[j], f, a);
  }

  lemma {:induction false} FindSuppression(
      cfg: StoreConfig, elapsed: int, states: seq<Net>, steps: seq<Step>, f: string, a: Auth.Identity, j: nat) returns (k: nat)
    requires IsRun(cfg, elapsed, states, steps) && j < |states| && SuppressedNow(states[j].store, f, a)
    ensures k < j && SuppressedSince(states, steps, f, a, k, j)
  {
    assert j > 0;
    SuppressionMove(cfg, elapsed, states, steps, f, a, j - 1);
    if SuppressedNow(states[j - 1].store, f, a) {
      k := FindSuppression(cfg, elapsed, states, steps, f, a, j - 1);
    } else {
      k := j - 1;
    }
  }

  lemma {:induction false} StaysSuppressed(
      cfg: StoreConfig, elapsed: int, states: seq<Net>, steps: seq<Step>, f: string, a: Auth.Identity, i: nat, j: nat)
    requires IsRun(cfg, elapsed, states, steps) && i <= j < |states| && SuppressedNow(states[i].store, f, a)
    requires forall m :: i <= m <= j ==> Offered(states[m].store, f, a)
    ensures SuppressedNow(states[j].store, f, a)
    decreases j
  {
    if i < j {
      StaysSuppressed(cfg, elapsed, states, steps, f, a, i, j - 1);
      SuppressionMove(cfg, elapsed, states, steps, f, a, j - 1);
    }
  }
}
