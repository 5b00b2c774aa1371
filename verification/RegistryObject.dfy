/** The registry object: one method per operation, each proved against its function. */
module RegistryObject {
  import opened Common
  import opened WorkerRegistry
  import A = ServingAuth

  /** The loop of elapsedLocked over the workers, in whatever order the map yields them. */
  method FailAll(workers: map<string, Worker>, order: seq<string>) returns (r: map<string, Worker>)
    requires Distinct(order) && ToSet(order) == workers.Keys
    ensures r == map w | w in workers :: FailedClosed(workers[w])
  {
    r := workers;
    for i := 0 to |order|
      invariant r.Keys == workers.Keys
      invariant forall w :: w in workers ==> r[w] == if w in order[..i] then FailedClosed(workers[w]) else workers[w]
    {
      assert order[i] !in order[..i];
      assert order[..i + 1] == order[..i] + [order[i]];
      r := r[order[i] := FailedClosed(r[order[i]])];
    }
    assert order[..|order|] == order;
  }

  ghost function ChangedAmong(cfg: Config, now: int, workers: map<string, Worker>, ids: seq<string>): set<string> {
    set w | w in ids && w in workers && Evaluated(cfg, now, workers[w]) != workers[w]
  }

  lemma OneMoreChanged(cfg: Config, now: int, workers: map<string, Worker>, ids: seq<string>, id: string)
    requires id in workers && id !in ids
    ensures var more := if Evaluated(cfg, now, workers[id]) != workers[id] then 1 else 0;
            |ChangedAmong(cfg, now, workers, ids + [id])| == |ChangedAmong(cfg, now, workers, ids)| + more
  {
    var before, after := ChangedAmong(cfg, now, workers, ids), ChangedAmong(cfg, now, workers, ids + [id]);
    if Evaluated(cfg, now, workers[id]) != workers[id] {
      assert after == before + {id};
    } else {
      assert after == before;
    }
  }

  lemma AllChanged(cfg: Config, now: int, workers: map<string, Worker>, order: seq<string>)
    requires ToSet(order) == workers.Keys
    ensures ChangedAmong(cfg, now, workers, order) == Changed(cfg, now, workers)
  {
  }

  lemma NextInOrder(order: seq<string>, i: nat)
    requires Distinct(order) && i < |order|
    ensures order[i] in ToSet(order) && order[i] !in order[..i] && order[..i + 1] == order[..i] + [order[i]]
  {
  }

  method EvaluateOne(cfg: Config, now: int, w: Worker) returns (r: Worker, changed: bool)
    ensures r == Evaluated(cfg, now, w) && (changed <==> r != w)
  {
    if !w.registered || w.needsNew || !w.hasInventory {
      return w, false;
    }
    var next := Classify(cfg, now - w.lastHeartbeat);
    if next != w.state {
      return w.(state := next), true;
    }
    return w, false;
  }

  /** The loop of Evaluate; `changes` is how often it moves the revision. */
  method EvaluateAll(
      cfg: Config, now: int, workers: map<string, Worker>, order: seq<string>)
      returns (r: map<string, Worker>, changes: nat)
    requires Distinct(order) && ToSet(order) == workers.Keys
    ensures r == map w | w in workers :: Evaluated(cfg, now, workers[w])
    ensures changes == |Changed(cfg, now, workers)|
  {
    r, changes := workers, 0;
    for i := 0 to |order|
      invariant r.Keys == workers.Keys && changes == |ChangedAmong(cfg, now, workers, order[..i])|
      invariant forall w :: w in workers ==>
        r[w] == if w in order[..i] then Evaluated(cfg, now, workers[w]) else workers[w]
    {
      var id := order[i];
      NextInOrder(order, i);
      OneMoreChanged(cfg, now, workers, order[..i], id);
      var w, changed := EvaluateOne(cfg, now, r[id]);
      r := r[id := w];
      if changed {
        changes := changes + 1;
      }
    }
    assert order[..|order|] == order;
    AllChanged(cfg, now, workers, order);
  }

  class RegistryStore {
    const cfg: Config
    var workers: map<string, Worker>
    var revision: nat
    var lastElapsed: int
    var healthy: bool

    function View(): Registry
      reads this
    {
      Registry(workers, revision, lastElapsed, healthy)
    }

    constructor (cfg: Config, elapsed: nat)
      ensures View() == Registry(map[], 0, elapsed, true) && this.cfg == cfg
    {
      this.cfg := cfg;
      workers, revision, lastElapsed, healthy := map[], 0, elapsed, true;
    }

    method ElapsedLocked(now: int, order: seq<string>) returns (ok: bool)
      requires Distinct(order) && ToSet(order) == workers.Keys
      modifies this`workers, this`lastElapsed, this`healthy
      ensures View() == ReadClock(old(View()), now) && ok == healthy
    {
      if !healthy || now < lastElapsed {
        healthy := false;
        workers := FailAll(workers, order);
        return false;
      }
      lastElapsed := now;
      return true;
    }

    /** The record at id becomes w and the revision moves up. */
    method StoreLocked(id: string, w: Worker)
      modifies this`workers, this`revision
      ensures View() == old(View()).(workers := old(workers)[id := w], revision := old(revision) + 1)
    {
      workers := workers[id := w];
      revision := revision + 1;
    }

    method Commit(s: A.Session) returns (v: Verdict)
      modifies this`workers, this`revision
      ensures (View(), v) == CommitSession(cfg, old(View()), s)
    {
      if !A.ValidSession(s) {
        return Invalid;
      }
      var w := Fresh();
      if s.workerId in workers {
        w := workers[s.workerId];
      } else if |workers| >= cfg.maxWorkers {
        return Overloaded;
      } else if s.epoch != 1 {
        return Stale;
      }
      if w.intent.Removed? {
        return Forbidden;
      }
      if s.epoch != (w.maxEpoch + 1) % TWO64 {
        return Stale;
      }
      StoreLocked(s.workerId, Committed(w, s));
      return Ok;
    }

    method RegisterWorker(s: A.Session, now: int, order: seq<string>) returns (v: Verdict)
      requires Distinct(order) && ToSet(order) == workers.Keys
      modifies this
      ensures (View(), v) == Register(old(View()), s, now)
    {
      if !A.ValidSession(s) {
        return Invalid;
      }
      if s.workerId !in workers {
        return Stale;
      }
      var w := workers[s.workerId];
      if w.intent.Removed? {
        return Forbidden;
      }
      if w.maxEpoch != s.epoch || w.bootId != s.bootId || w.needsNew {
        return Stale;
      }
      if w.registered {
        return if w.current == s then Ok else Owned;
      }
      var ok := ElapsedLocked(now, order);
      if !ok {
        return Unhealthy;
      }
      StoreLocked(s.workerId, w.(current := s, registered := true, hasInventory := false, state := Joining, lastHeartbeat := now));
      return Ok;
    }

    method Report(i: Inventory, now: int, order: seq<string>) returns (v: Verdict)
      requires Distinct(order) && ToSet(order) == workers.Keys
      modifies this
      ensures (View(), v) == ReportInventory(old(View()), i, now)
    {
      var id := i.session.workerId;
      if !A.ValidSession(i.session) {
        return Invalid;
      }
      if !IsCurrent(View(), i.session) || workers[id].needsNew {
        return Stale;
      }
      var w := workers[id];
      if w.hasInventory && i.revision < w.inventoryRevision {
        return StaleRevision;
      }
      if !i.fit {
        return Invalid;
      }
      var ok := ElapsedLocked(now, order);
      if !ok {
        return Unhealthy;
      }
      w := w.(content := Some(i.content), hasInventory := true, inventoryRevision := i.revision);
      StoreLocked(id, w.(state := Ready, lastHeartbeat := now));
      return Ok;
    }

    method Beat(s: A.Session, now: int, order: seq<string>) returns (v: Verdict)
      requires Distinct(order) && ToSet(order) == workers.Keys
      modifies this
      ensures (View(), v) == Heartbeat(old(View()), s, now)
    {
      if !A.ValidSession(s) {
        return Invalid;
      }
      if !IsCurrent(View(), s) || workers[s.workerId].needsNew {
        return Stale;
      }
      var ok := ElapsedLocked(now, order);
      if !ok {
        return Unhealthy;
      }
      var w := workers[s.workerId].(lastHeartbeat := now);
      if w.hasInventory && (w.state.Suspect? || w.state.Unavailable?) {
        StoreLocked(s.workerId, w.(state := Ready));
      } else {
        workers := workers[s.workerId := w];
      }
      return Ok;
    }

    method EvaluateLiveness(now: int, order: seq<string>) returns (v: Verdict)
      requires Distinct(order) && ToSet(order) == workers.Keys
      modifies this
      ensures (View(), v) == Evaluate(cfg, old(View()), now)
    {
      var ok := ElapsedLocked(now, order);
      if !ok {
        return Unhealthy;
      }
      var changes: nat;
      workers, changes := EvaluateAll(cfg, now, workers, order);
      revision := revision + changes;
      return Ok;
    }

    method ChangeIntent(id: string, intent: Intent) returns (v: Verdict)
      modifies this`workers, this`revision
      ensures (View(), v) == SetIntent(old(View()), id, intent)
    {
      if !A.ValidId(id) || intent.OtherIntent? || id !in workers {
        return Invalid;
      }
      var w := workers[id];
      if w.intent.Removed? {
        return Forbidden;
      }
      if intent.Removed? {
        if !w.intent.Draining? || !w.drain.Drained? {
          return Conflict;
        }
        StoreLocked(id, w.(intent := Removed, registered := false, state := Unavailable));
        return Ok;
      }
      if w.intent == intent {
        return Ok;
      }
      w := w.(intent := intent);
      if intent.Draining? {
        w := w.(drain := InProgress);
      } else {
        w := w.(drain := NotDraining, needsNew := true, state := Joining);
      }
      StoreLocked(id, w);
      return Ok;
    }

    method ObserveDrain(o: DrainObservation) returns (v: Verdict)
      modifies this`workers, this`revision
      ensures (View(), v) == UpdateDrain(old(View()), o)
    {
      if !A.ValidSession(o.session) {
        return Invalid;
      }
      if !IsCurrent(View(), o.session) {
        return Stale;
      }
      var w := workers[o.session.workerId];
      if !w.intent.Draining? {
        return Conflict;
      }
      var next := InProgress;
      if o.active == 0 && o.assignmentsDrained && (o.acked || o.expired) {
        next := Drained;
      }
      if w.drain != next {
        StoreLocked(o.session.workerId, w.(drain := next));
      }
      return Ok;
    }
  }
}
