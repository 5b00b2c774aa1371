/**
 The worker registry: sessions are committed, registered, reported and kept alive
 by heartbeats; a clock that runs backwards fails every worker closed for good.
 */
module WorkerRegistry {
  import opened Common
  import A = ServingAuth

  datatype Liveness = Joining | Ready | Suspect | Unavailable

  datatype Intent = Schedulable | Draining | Removed | OtherIntent

  datatype Drain = NotDraining | InProgress | Drained

  /** `content` is the runtime, capacity, labels and cache hints; `fit` is the validation of the resulting snapshot. */
  datatype Inventory = Inventory(session: A.Session, revision: nat, content: string, fit: bool)

  datatype DrainObservation = DrainObservation(
    session: A.Session, active: nat, assignmentsDrained: bool, acked: bool, expired: bool)

  datatype Worker = Worker(
    bootId: string, maxEpoch: nat, current: A.Session, registered: bool, needsNew: bool, intent: Intent, drain: Drain,
    state: Liveness, content: Option<string>, hasInventory: bool, inventoryRevision: nat, lastHeartbeat: int)

  datatype Config = Config(suspectAfter: int, unavailableAfter: int, maxWorkers: nat)

  datatype Registry = Registry(workers: map<string, Worker>, revision: nat, lastElapsed: int, healthy: bool)

  /** Owned: another registration holds the committed session. Unhealthy: the clock ran backwards. */
  datatype Verdict = Ok | Invalid | Overloaded | Stale | StaleRevision | Forbidden | Conflict | Owned | Unhealthy

  // ---------- the clock ----------

  function FailedClosed(w: Worker): Worker {
    if w.registered && !w.intent.Removed? then w.(state := Unavailable) else w
  }

  function ReadClock(r: Registry, now: int): Registry {
    if r.healthy && now >= r.lastElapsed then r.(lastElapsed := now)
    else r.(healthy := false, workers := map w | w in r.workers :: FailedClosed(r.workers[w]))
  }

  // ---------- sessions ----------

  function Fresh(): Worker {
    Worker("", 0, A.Session("", "", 0), false, false, Schedulable, NotDraining, Joining, None, false, 0, 0)
  }

  /** The worker's record after its next session is committed. */
  function Committed(w: Worker, s: A.Session): Worker {
    w.(maxEpoch := s.epoch, bootId := s.bootId, current := s, registered := false, needsNew := false,
       hasInventory := false, inventoryRevision := 0, content := None, state := Joining)
  }

  function CommitSession(cfg: Config, r: Registry, s: A.Session): (Registry, Verdict) {
    var id := s.workerId;
    if !A.ValidSession(s) then (r, Invalid)
    else if id !in r.workers && |r.workers| >= cfg.maxWorkers then (r, Overloaded)
    else if id !in r.workers && s.epoch != 1 then (r, Stale)
    else
      var w := if id in r.workers then r.workers[id] else Fresh();
      if w.intent.Removed? then (r, Forbidden)
      else if s.epoch != (w.maxEpoch + 1) % TWO64 then (r, Stale)
      else (r.(workers := r.workers[id := Committed(w, s)], revision := r.revision + 1), Ok)
  }

  function Register(r: Registry, s: A.Session, now: int): (Registry, Verdict) {
    var id := s.workerId;
    if !A.ValidSession(s) then (r, Invalid)
    else if id !in r.workers then (r, Stale)
    else
      var w := r.workers[id];
      if w.intent.Removed? then (r, Forbidden)
      else if w.maxEpoch != s.epoch || w.bootId != s.bootId || w.needsNew then (r, Stale)
      else if w.registered then (r, if w.current == s then Ok else Owned)
      else
        var read := ReadClock(r, now);
        if !read.healthy then (read, Unhealthy)
        else
          var w' := w.(current := s, registered := true, hasInventory := false, state := Joining, lastHeartbeat := now);
          (read.(workers := r.workers[id := w'], revision := r.revision + 1), Ok)
  }

  /** currentLocked: the session is registered and is the worker's current one. */
  predicate IsCurrent(r: Registry, s: A.Session) {
    s.workerId in r.workers && r.workers[s.workerId].registered && r.workers[s.workerId].current == s
  }

  function ReportInventory(r: Registry, i: Inventory, now: int): (Registry, Verdict) {
    var id := i.session.workerId;
    if !A.ValidSession(i.session) then (r, Invalid)
    else if !IsCurrent(r, i.session) || r.workers[id].needsNew then (r, Stale)
    else
      var w := r.workers[id];
      if w.hasInventory && i.revision < w.inventoryRevision then (r, StaleRevision)
      else if !i.fit then (r, Invalid)
      else
        var read := ReadClock(r, now);
        if !read.healthy then (read, Unhealthy)
        else
          var w' := w.(content := Some(i.content), hasInventory := true, inventoryRevision := i.revision,
                       state := Ready, lastHeartbeat := now);
          (read.(workers := r.workers[id := w'], revision := r.revision + 1), Ok)
  }

  function Heartbeat(r: Registry, s: A.Session, now: int): (Registry, Verdict) {
    if !A.ValidSession(s) then (r, Invalid)
    else if !IsCurrent(r, s) || r.workers[s.workerId].needsNew then (r, Stale)
    else
      var read := ReadClock(r, now);
      if !read.healthy then (read, Unhealthy)
      else
        var w := r.workers[s.workerId].(lastHeartbeat := now);
        if w.hasInventory && (w.state.Suspect? || w.state.Unavailable?) then
          (read.(workers := r.workers[s.workerId := w.(state := Ready)], revision := r.revision + 1), Ok)
        else (read.(workers := r.workers[s.workerId := w]), Ok)
  }

  // ---------- liveness ----------

  predicate Watched(w: Worker) {
    w.registered && !w.needsNew && w.hasInventory
  }

  function Classify(cfg: Config, silent: int): Liveness {
    if silent >= cfg.unavailableAfter then Unavailable else if silent >= cfg.suspectAfter then Suspect else Ready
  }

  function Evaluated(cfg: Config, now: int, w: Worker): Worker {
    if Watched(w) then w.(state := Classify(cfg, now - w.lastHeartbeat)) else w
  }

  function Changed(cfg: Config, now: int, workers: map<string, Worker>): set<string> {
    set w | w in workers && Evaluated(cfg, now, workers[w]) != workers[w]
  }

  function Evaluate(cfg: Config, r: Registry, now: int): (Registry, Verdict) {
    var read := ReadClock(r, now);
    if !read.healthy then (read, Unhealthy)
    else
      (read.(workers := map w | w in r.workers :: Evaluated(cfg, now, r.workers[w]),
             revision := r.revision + |Changed(cfg, now, r.workers)|), Ok)
  }

  // ---------- intent and drain ----------

  function WithIntent(w: Worker, intent: Intent): Worker {
    if intent.Removed? then w.(intent := Removed, registered := false, state := Unavailable)
    else if intent.Draining? then w.(intent := Draining, drain := InProgress)
    else w.(intent := intent, drain := NotDraining, needsNew := true, state := Joining)
  }

  function SetIntent(r: Registry, id: string, intent: Intent): (Registry, Verdict) {
    if !A.ValidId(id) || intent.OtherIntent? || id !in r.workers then (r, Invalid)
    else
      var w := r.workers[id];
      if w.intent.Removed? then (r, Forbidden)
      else if intent.Removed? && (!w.intent.Draining? || !w.drain.Drained?) then (r, Conflict)
      else if w.intent == intent then (r, Ok)
      else (r.(workers := r.workers[id := WithIntent(w, intent)], revision := r.revision + 1), Ok)
  }

  predicate Proves(o: DrainObservation) {
    o.active == 0 && o.assignmentsDrained && (o.acked || o.expired)
  }

  function UpdateDrain(r: Registry, o: DrainObservation): (Registry, Verdict) {
    var id := o.session.workerId;
    if !A.ValidSession(o.session) then (r, Invalid)
    else if !IsCurrent(r, o.session) then (r, Stale)
    else if !r.workers[id].intent.Draining? then (r, Conflict)
    else
      var next := if Proves(o) then Drained else InProgress;
      if r.workers[id].drain == next then (r, Ok)
      else (r.(workers := r.workers[id := r.workers[id].(drain := next)], revision := r.revision + 1), Ok)
  }
}
