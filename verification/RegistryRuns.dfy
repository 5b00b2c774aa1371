/** What every run of the worker registry keeps. */
module RegistryRuns {
  import opened Common
  import opened WorkerRegistry
  import A = ServingAuth
  import R = Runs

  datatype Step =
    | CommitStep(session: A.Session)
    | RegisterStep(session: A.Session, now: int)
    | ReportStep(inventory: Inventory, now: int)
    | HeartbeatStep(session: A.Session, now: int)
    | EvaluateStep(now: int)
    | IntentStep(id: string, intent: Intent)
    | DrainStep(observation: DrainObservation)

  /**
   What a run remembers of one worker: its committed sessions, the last inventory accepted, and when it was
   last heard of.
   */
  datatype History = History(commits: seq<A.Session>, report: Option<Inventory>, heard: int)

  datatype Sys = Sys(registry: Registry, past: map<string, History>)

  function Execute(cfg: Config, r: Registry, step: Step): (Registry, Verdict) {
    match step
    case CommitStep(s) => CommitSession(cfg, r, s)
    case RegisterStep(s, now) => Register(r, s, now)
    case ReportStep(i, now) => ReportInventory(r, i, now)
    case HeartbeatStep(s, now) => Heartbeat(r, s, now)
    case EvaluateStep(now) => Evaluate(cfg, r, now)
    case IntentStep(id, intent) => SetIntent(r, id, intent)
    case DrainStep(o) => UpdateDrain(r, o)
  }

  function PastOf(s: Sys, id: string): History {
    if id in s.past then s.past[id] else History([], None, 0)
  }

  /** What an accepted step adds to its worker's history; repeating a registration adds nothing. */
  function Heard(r: Registry, step: Step, h: History): History {
    match step
    case CommitStep(x) => h.(commits := h.commits + [x])
    case RegisterStep(x, now) =>
      if x.workerId in r.workers && r.workers[x.workerId].registered then h else h.(heard := now)
    case ReportStep(i, now) => h.(report := Some(i), heard := now)
    case HeartbeatStep(_, now) => h.(heard := now)
    case _ => h
  }

  function Sender(step: Step): Option<string> {
    match step
    case CommitStep(x) => Some(x.workerId)
    case RegisterStep(x, _) => Some(x.workerId)
    case ReportStep(i, _) => Some(i.session.workerId)
    case HeartbeatStep(x, _) => Some(x.workerId)
    case _ => None
  }

  function Next(cfg: Config, s: Sys, step: Step): Sys {
    var (r, v) := Execute(cfg, s.registry, step);
    if v.Ok? && Sender(step).Some? then
      var id := Sender(step).value;
      Sys(r, s.past[id := Heard(s.registry, step, PastOf(s, id))])
    else s.(registry := r)
  }

  function Init(elapsed: nat): Sys {
    Sys(Registry(map[], 0, elapsed, true), map[])
  }

  // ---------- the invariant, worker by worker ----------

  predicate Serving(w: Worker) {
    w.state.Ready? || w.state.Suspect?
  }

  predicate Consistent(w: Worker, elapsed: int, healthy: bool) {
    && (Serving(w) ==> w.registered && w.hasInventory && !w.needsNew && !w.intent.Removed? && healthy)
    && (w.intent.Removed? ==> !w.registered && w.state.Unavailable? && w.drain.Drained?)
    && (w.intent.Schedulable? ==> w.drain.NotDraining?) && (w.intent.Draining? ==> !w.drain.NotDraining?)
    && !w.intent.OtherIntent? && w.lastHeartbeat <= elapsed
  }

  /** The sessions of one worker were committed with epochs 1, 2, 3, ... and the last one is current. */
  predicate InOrder(id: string, commits: seq<A.Session>) {
    forall i :: 0 <= i < |commits| ==> commits[i].epoch == i + 1 && commits[i].workerId == id
  }

  predicate Follows(id: string, w: Worker, commits: seq<A.Session>) {
    && InOrder(id, commits) && commits != [] && w.current == commits[|commits| - 1]
    && w.maxEpoch == w.current.epoch && w.bootId == w.current.bootId && 0 < w.maxEpoch < TWO64
  }

  /** The inventory held is the last accepted one and came from the current session. */
  predicate Reported(w: Worker, report: Option<Inventory>) {
    w.hasInventory ==> report.Some? && Holds(w, report.value)
  }

  predicate Holds(w: Worker, i: Inventory) {
    i.session == w.current && w.content == Some(i.content) && w.inventoryRevision == i.revision
  }

  datatype Clock = Clock(elapsed: int, healthy: bool)

  predicate SoundWorker(id: string, c: Clock, w: Worker, h: History) {
    && Consistent(w, c.elapsed, c.healthy) && Follows(id, w, h.commits) && Reported(w, h.report)
    && (w.registered ==> w.lastHeartbeat == h.heard)
  }

  predicate AllAre(good: (string, Clock, Worker, History) -> bool, c: Clock, workers: map<string, Worker>, past: map<string, History>) {
    past.Keys == workers.Keys && forall id :: id in workers ==> good(id, c, workers[id], past[id])
  }

  function ClockOf(r: Registry): Clock {
    Clock(r.lastElapsed, r.healthy)
  }

  ghost function Sound(cfg: Config): iset<Sys> {
    iset s: Sys |
      && AllAre(SoundWorker, ClockOf(s.registry), s.registry.workers, s.past)
      && |s.registry.workers| <= cfg.maxWorkers && s.registry.lastElapsed >= 0
  }

  // ---------- one worker ----------

  lemma CommittedIsSound(id: string, c: Clock, w: Worker, h: History, x: A.Session)
    requires A.ValidSession(x) && x.workerId == id && !w.intent.Removed? && x.epoch == (w.maxEpoch + 1) % TWO64
    requires SoundWorker(id, c, w, h) || (w == Fresh() && h.commits == [] && c.elapsed >= 0)
    ensures SoundWorker(id, c, Committed(w, x), h.(commits := h.commits + [x]))
  {
  }

  lemma RegisteredIsSound(id: string, c: Clock, w: Worker, h: History, x: A.Session, now: int)
    requires SoundWorker(id, c, w, h) && x.workerId == id && x.epoch == w.maxEpoch && x.bootId == w.bootId
    requires !w.intent.Removed?
    ensures SoundWorker(id, c.(elapsed := now),
                        w.(current := x, registered := true, hasInventory := false, state := Joining, lastHeartbeat := now),
                        h.(heard := now))
  {
  }

  lemma ReportedIsSound(id: string, c: Clock, w: Worker, h: History, i: Inventory, now: int)
    requires SoundWorker(id, c, w, h) && c.healthy && w.registered && !w.needsNew && w.current == i.session
    ensures SoundWorker(id, c.(elapsed := now),
                        w.(content := Some(i.content), hasInventory := true, inventoryRevision := i.revision,
                           state := Ready, lastHeartbeat := now),
                        h.(report := Some(i), heard := now))
  {
  }

  lemma HeartbeatIsSound(id: string, c: Clock, w: Worker, h: History, now: int)
    requires SoundWorker(id, c, w, h) && w.registered && !w.needsNew && c.healthy && now >= c.elapsed
    ensures SoundWorker(id, c.(elapsed := now), w.(lastHeartbeat := now), h.(heard := now))
    ensures w.hasInventory ==>
      SoundWorker(id, c.(elapsed := now), w.(lastHeartbeat := now, state := Ready), h.(heard := now))
  {
  }

  lemma EvaluatedIsSound(id: string, c: Clock, w: Worker, h: History, cfg: Config, now: int)
    requires SoundWorker(id, c, w, h) && c.healthy
    ensures SoundWorker(id, c, Evaluated(cfg, now, w), h)
  {
  }

  lemma IntentIsSound(id: string, c: Clock, w: Worker, h: History, intent: Intent)
    requires SoundWorker(id, c, w, h) && !intent.OtherIntent? && (intent.Removed? ==> w.drain.Drained?)
    ensures SoundWorker(id, c, WithIntent(w, intent), h)
  {
  }

  lemma DrainIsSound(id: string, c: Clock, w: Worker, h: History, drain: Drain)
    requires SoundWorker(id, c, w, h) && w.intent.Draining? && !drain.NotDraining?
    ensures SoundWorker(id, c, w.(drain := drain), h)
  {
  }

  // ---------- all workers ----------

  lemma UpdateOne(
      good: (string, Clock, Worker, History) -> bool, c: Clock, workers: map<string, Worker>, past: map<string, History>,
      id: string, w: Worker, h: History)
    requires AllAre(good, c, workers, past) && good(id, c, w, h)
    ensures AllAre(good, c, workers[id := w], past[id := h])
    ensures |workers[id := w]| == if id in workers then |workers| else |workers| + 1
  {
    assert workers[id := w].Keys == workers.Keys + {id} == past[id := h].Keys;
    assert |workers| == |workers.Keys| && |workers[id := w]| == |workers[id := w].Keys|;
  }

  lemma UpdateWorker(
      good: (string, Clock, Worker, History) -> bool, c: Clock, workers: map<string, Worker>, past: map<string, History>,
      id: string, w: Worker)
    requires AllAre(good, c, workers, past) && id in workers && good(id, c, w, past[id])
    ensures AllAre(good, c, workers[id := w], past) && |workers[id := w]| == |workers|
  {
    UpdateOne(good, c, workers, past, id, w, past[id]);
    assert past[id := past[id]] == past;
  }

  lemma LaterClock(c: Clock, elapsed: int, workers: map<string, Worker>, past: map<string, History>)
    requires AllAre(SoundWorker, c, workers, past) && elapsed >= c.elapsed
    ensures AllAre(SoundWorker, c.(elapsed := elapsed), workers, past)
  {
    forall id | id in workers ensures SoundWorker(id, c.(elapsed := elapsed), workers[id], past[id]) {
      assert SoundWorker(id, c, workers[id], past[id]);
    }
  }

  lemma SameSize(m: map<string, Worker>, n: map<string, Worker>)
    requires m.Keys == n.Keys
    ensures |m| == |n|
  {
    assert |m| == |m.Keys| && |n| == |n.Keys|;
  }

  lemma ClosedAreSound(c: Clock, workers: map<string, Worker>, past: map<string, History>)
    requires AllAre(SoundWorker, c, workers, past)
    ensures AllAre(SoundWorker, c.(healthy := false), map w | w in workers :: FailedClosed(workers[w]), past)
  {
    forall id | id in workers ensures SoundWorker(id, c.(healthy := false), FailedClosed(workers[id]), past[id]) {
      assert SoundWorker(id, c, workers[id], past[id]);
    }
  }

  lemma WorkerIsSound(cfg: Config, s: Sys, id: string)
    requires s in Sound(cfg) && id in s.registry.workers
    ensures id in s.past && SoundWorker(id, ClockOf(s.registry), s.registry.workers[id], s.past[id])
  {
  }

  lemma ReadClockSound(cfg: Config, s: Sys, now: int)
    requires s in Sound(cfg)
    ensures s.(registry := ReadClock(s.registry, now)) in Sound(cfg)
  {
    if s.registry.healthy && now >= s.registry.lastElapsed {
      LaterClock(ClockOf(s.registry), now, s.registry.workers, s.past);
    } else {
      ClosedAreSound(ClockOf(s.registry), s.registry.workers, s.past);
      SameSize(s.registry.workers, ReadClock(s.registry, now).workers);
    }
  }

  // ---------- one step ----------

  lemma CommitSound(cfg: Config, s: Sys, x: A.Session)
    requires s in Sound(cfg) && CommitSession(cfg, s.registry, x).1.Ok?
    ensures Next(cfg, s, CommitStep(x)) in Sound(cfg)
  {
    var id, c := x.workerId, ClockOf(s.registry);
    var w := if id in s.registry.workers then s.registry.workers[id] else Fresh();
    var h := PastOf(s, id);
    CommittedIsSound(id, c, w, h, x);
    UpdateOne(SoundWorker, c, s.registry.workers, s.past, id, Committed(w, x), h.(commits := h.commits + [x]));
  }

  lemma RegisterSound(cfg: Config, s: Sys, x: A.Session, now: int)
    requires s in Sound(cfg) && Register(s.registry, x, now).1.Ok?
    ensures Next(cfg, s, RegisterStep(x, now)) in Sound(cfg)
  {
    var id, c, s' := x.workerId, ClockOf(s.registry), Next(cfg, s, RegisterStep(x, now));
    if s.registry.workers[id].registered {
      assert s'.past == s.past;
    } else {
      RegisteredIsSound(id, c, s.registry.workers[id], s.past[id], x, now);
      LaterClock(c, now, s.registry.workers, s.past);
      UpdateOne(SoundWorker, ClockOf(s'.registry), s.registry.workers, s.past, id, s'.registry.workers[id], s'.past[id]);
    }
  }

  lemma ReportSound(cfg: Config, s: Sys, i: Inventory, now: int)
    requires s in Sound(cfg) && ReportInventory(s.registry, i, now).1.Ok?
    ensures Next(cfg, s, ReportStep(i, now)) in Sound(cfg)
  {
    var id, c, s' := i.session.workerId, ClockOf(s.registry), Next(cfg, s, ReportStep(i, now));
    ReportedIsSound(id, c, s.registry.workers[id], s.past[id], i, now);
    LaterClock(c, now, s.registry.workers, s.past);
    UpdateOne(SoundWorker, ClockOf(s'.registry), s.registry.workers, s.past, id, s'.registry.workers[id], s'.past[id]);
  }

  lemma HeartbeatSound(cfg: Config, s: Sys, x: A.Session, now: int)
    requires s in Sound(cfg) && Heartbeat(s.registry, x, now).1.Ok?
    ensures Next(cfg, s, HeartbeatStep(x, now)) in Sound(cfg)
  {
    var id, c, s' := x.workerId, ClockOf(s.registry), Next(cfg, s, HeartbeatStep(x, now));
    HeartbeatIsSound(id, c, s.registry.workers[id], s.past[id], now);
    LaterClock(c, now, s.registry.workers, s.past);
    UpdateOne(SoundWorker, ClockOf(s'.registry), s.registry.workers, s.past, id, s'.registry.workers[id], s'.past[id]);
  }

  lemma AllEvaluated(cfg: Config, now: int, c: Clock, workers: map<string, Worker>, past: map<string, History>)
    requires AllAre(SoundWorker, c, workers, past) && c.healthy
    ensures AllAre(SoundWorker, c, map w | w in workers :: Evaluated(cfg, now, workers[w]), past)
  {
    forall id | id in workers ensures SoundWorker(id, c, Evaluated(cfg, now, workers[id]), past[id]) {
      EvaluatedIsSound(id, c, workers[id], past[id], cfg, now);
    }
  }

  lemma EvaluateSound(cfg: Config, s: Sys, now: int)
    requires s in Sound(cfg) && Evaluate(cfg, s.registry, now).1.Ok?
    ensures Next(cfg, s, EvaluateStep(now)) in Sound(cfg)
  {
    var c, s' := ClockOf(s.registry), Next(cfg, s, EvaluateStep(now));
    LaterClock(c, now, s.registry.workers, s.past);
    AllEvaluated(cfg, now, ClockOf(s'.registry), s.registry.workers, s.past);
    SameSize(s.registry.workers, s'.registry.workers);
  }

  lemma IntentSound(cfg: Config, s: Sys, id: string, intent: Intent)
    requires s in Sound(cfg) && SetIntent(s.registry, id, intent).1.Ok?
    ensures Next(cfg, s, IntentStep(id, intent)) in Sound(cfg)
  {
    var c, s' := ClockOf(s.registry), Next(cfg, s, IntentStep(id, intent));
    if s.registry.workers[id].intent != intent {
      IntentIsSound(id, c, s.registry.workers[id], s.past[id], intent);
      UpdateWorker(SoundWorker, c, s.registry.workers, s.past, id, s'.registry.workers[id]);
    }
  }

  lemma DrainSound(cfg: Config, s: Sys, o: DrainObservation)
    requires s in Sound(cfg) && UpdateDrain(s.registry, o).1.Ok?
    ensures Next(cfg, s, DrainStep(o)) in Sound(cfg)
  {
    var id, c, s' := o.session.workerId, ClockOf(s.registry), Next(cfg, s, DrainStep(o));
    var next := if Proves(o) then Drained else InProgress;
    if s.registry.workers[id].drain != next {
      DrainIsSound(id, c, s.registry.workers[id], s.past[id], next);
      UpdateWorker(SoundWorker, c, s.registry.workers, s.past, id, s'.registry.workers[id]);
    }
  }

  /** A refused call changes nothing, except that a clock found unhealthy stays so and fails every worker closed. */
  lemma RefusalChangesNothing(cfg: Config, s: Sys, step: Step, now: int)
    requires !Execute(cfg, s.registry, step).1.Ok?
    requires step.RegisterStep? || step.ReportStep? || step.HeartbeatStep? || step.EvaluateStep? ==> step.now == now
    ensures var v := Execute(cfg, s.registry, step).1;
            Next(cfg, s, step) == if v.Unhealthy? then s.(registry := ReadClock(s.registry, now)) else s
  {
  }

  function NowOf(step: Step): int {
    if step.RegisterStep? || step.ReportStep? || step.HeartbeatStep? || step.EvaluateStep? then step.now else 0
  }

  lemma StepSound(cfg: Config, s: Sys, step: Step)
    requires s in Sound(cfg)
    ensures Next(cfg, s, step) in Sound(cfg)
  {
    if Execute(cfg, s.registry, step).1.Ok? {
      match step
      case CommitStep(x) => CommitSound(cfg, s, x);
      case RegisterStep(x, now) => RegisterSound(cfg, s, x, now);
      case ReportStep(i, now) => ReportSound(cfg, s, i, now);
      case HeartbeatStep(x, now) => HeartbeatSound(cfg, s, x, now);
      case EvaluateStep(now) => EvaluateSound(cfg, s, now);
      case IntentStep(id, intent) => IntentSound(cfg, s, id, intent);
      case DrainStep(o) => DrainSound(cfg, s, o);
    } else {
      RefusalChangesNothing(cfg, s, step, NowOf(step));
      ReadClockSound(cfg, s, NowOf(step));
    }
  }

  // ---------- whole runs ----------

  ghost function Moves(cfg: Config): iset<R.Move<Sys, Step>> {
    iset m: R.Move<Sys, Step> | m.post == Next(cfg, m.pre, m.step)
  }

  lemma ReachableIsSound(cfg: Config, elapsed: nat, s: Sys)
    requires R.Reachable(Init(elapsed), Moves(cfg), s)
    ensures s in Sound(cfg)
  {
    forall m | m in Moves(cfg) && m.pre in Sound(cfg) ensures m.post in Sound(cfg) {
      StepSound(cfg, m.pre, m.step);
    }
    R.ReachableIsIn(Init(elapsed), Moves(cfg), Sound(cfg), s);
  }

  /**
   A worker that counts as Ready or Suspect is registered, holds the last inventory accepted from its current
   session, waits for no newer session, is not Removed, and the clock never ran backwards.
   */
  lemma ServingWorkerIsCurrent(cfg: Config, elapsed: nat, s: Sys, id: string)
    requires R.Reachable(Init(elapsed), Moves(cfg), s) && id in s.registry.workers && Serving(s.registry.workers[id])
    ensures var w := s.registry.workers[id];
      && w.registered && !w.needsNew && !w.intent.Removed? && s.registry.healthy
      && w.hasInventory && PastOf(s, id).report.Some? && PastOf(s, id).report.value.session == w.current
      && w.content == Some(PastOf(s, id).report.value.content)
  {
    ReachableIsSound(cfg, elapsed, s);
    WorkerIsSound(cfg, s, id);
  }

  /** Each worker's sessions are committed with epochs 1, 2, 3, ...; the current session is the last one committed. */
  lemma EpochsGrowByOne(cfg: Config, elapsed: nat, s: Sys, id: string)
    requires R.Reachable(Init(elapsed), Moves(cfg), s) && id in s.registry.workers
    ensures var commits := PastOf(s, id).commits;
      && InOrder(id, commits) && s.registry.workers[id].maxEpoch == |commits| > 0
      && s.registry.workers[id].current == commits[|commits| - 1]
  {
    ReachableIsSound(cfg, elapsed, s);
    WorkerIsSound(cfg, s, id);
  }

  /** The registration that answers "another registration owns the session" never happens. */
  lemma SessionIsNeverOwnedTwice(cfg: Config, elapsed: nat, s: Sys, x: A.Session, now: int)
    requires R.Reachable(Init(elapsed), Moves(cfg), s)
    ensures !Register(s.registry, x, now).1.Owned?
  {
    ReachableIsSound(cfg, elapsed, s);
    if x.workerId in s.registry.workers {
      WorkerIsSound(cfg, s, x.workerId);
    }
  }

  lemma RegistryIsBounded(cfg: Config, elapsed: nat, s: Sys)
    requires R.Reachable(Init(elapsed), Moves(cfg), s)
    ensures |s.registry.workers| <= cfg.maxWorkers
  {
    ReachableIsSound(cfg, elapsed, s);
  }

  /** A worker becomes Removed only by SetIntent, from Draining, when its drain is complete. */
  lemma RemovedOnlyFromDrained(cfg: Config, r: Registry, step: Step, id: string)
    requires var r' := Execute(cfg, r, step).0; id in r'.workers && r'.workers[id].intent.Removed?
    ensures id in r.workers
    ensures || r.workers[id].intent.Removed?
            || (r.workers[id].intent.Draining? && r.workers[id].drain.Drained? && step == IntentStep(id, Removed))
  {
  }

  /**
   A drain completes only on an observation of the current session with no calls, no Assignments and a fence
   proof.
   */
  lemma DrainedNeedsProof(cfg: Config, r: Registry, step: Step, id: string)
    requires var r' := Execute(cfg, r, step).0; id in r'.workers && r'.workers[id].drain.Drained?
    ensures id in r.workers
    ensures || r.workers[id].drain.Drained?
            || (step.DrainStep? && Proves(step.observation) && IsCurrent(r, step.observation.session)
                && step.observation.session.workerId == id)
  {
  }

  ghost function RemovedAs(cfg: Config, id: string, w: Worker): iset<Sys> {
    iset s: Sys | s in Sound(cfg) && id in s.registry.workers && s.registry.workers[id] == w && w.intent.Removed?
  }

  /** Removed is absorbing: nothing in the worker's record ever changes again. */
  lemma RemovedForever(cfg: Config, elapsed: nat, states: seq<Sys>, steps: seq<Step>, i: nat, j: nat, id: string)
    requires R.IsRun(Init(elapsed), Moves(cfg), states, steps) && i <= j < |states|
    requires id in states[i].registry.workers && states[i].registry.workers[id].intent.Removed?
    ensures id in states[j].registry.workers && states[j].registry.workers[id] == states[i].registry.workers[id]
  {
    var w := states[i].registry.workers[id];
    assert R.Reachable(Init(elapsed), Moves(cfg), states[i]);
    ReachableIsSound(cfg, elapsed, states[i]);
    forall m | m in Moves(cfg) && m.pre in RemovedAs(cfg, id, w) ensures m.post in RemovedAs(cfg, id, w) {
      StepSound(cfg, m.pre, m.step);
      WorkerIsSound(cfg, m.pre, id);
      RemovedStays(cfg, m.pre.registry, m.step, id);
    }
    R.StaysFrom(Init(elapsed), Moves(cfg), RemovedAs(cfg, id, w), states, steps, i, j);
  }

  lemma RemovedStays(cfg: Config, r: Registry, step: Step, id: string)
    requires id in r.workers && r.workers[id].intent.Removed? && !r.workers[id].registered
    ensures var r' := Execute(cfg, r, step).0; id in r'.workers && r'.workers[id] == r.workers[id]
  {
  }

  lemma UnhealthyStays(cfg: Config, s: Sys, step: Step)
    requires !s.registry.healthy
    ensures !Next(cfg, s, step).registry.healthy
  {
  }

  ghost function ClosedStates(cfg: Config): iset<Sys> {
    iset s: Sys | s in Sound(cfg) && !s.registry.healthy
  }

  /** Once the clock has run backwards, no worker is Ready or Suspect in any later state. */
  lemma RegressionFailsClosed(cfg: Config, elapsed: nat, states: seq<Sys>, steps: seq<Step>, i: nat, j: nat, id: string)
    requires R.IsRun(Init(elapsed), Moves(cfg), states, steps) && i <= j < |states| && !states[i].registry.healthy
    requires id in states[j].registry.workers
    ensures !Serving(states[j].registry.workers[id])
  {
    assert R.Reachable(Init(elapsed), Moves(cfg), states[i]);
    ReachableIsSound(cfg, elapsed, states[i]);
    forall m | m in Moves(cfg) && m.pre in ClosedStates(cfg) ensures m.post in ClosedStates(cfg) {
      StepSound(cfg, m.pre, m.step);
      UnhealthyStays(cfg, m.pre, m.step);
    }
    R.StaysFrom(Init(elapsed), Moves(cfg), ClosedStates(cfg), states, steps, i, j);
    WorkerIsSound(cfg, states[j], id);
  }

  ghost predicate SameButHeartbeats(r: Registry, r': Registry) {
    && r'.workers.Keys == r.workers.Keys
    && forall id :: id in r.workers ==> r'.workers[id].(lastHeartbeat := 0) == r.workers[id].(lastHeartbeat := 0)
  }

  predicate OpenWorker(w: Worker) {
    w.registered && !w.intent.Removed? && !w.state.Unavailable?
  }

  /** The step passes every check in front of its clock reading. */
  predicate ReadsClock(r: Registry, step: Step) {
    match step
    case RegisterStep(x, _) =>
      && A.ValidSession(x) && x.workerId in r.workers
      && var w := r.workers[x.workerId];
         !w.intent.Removed? && w.maxEpoch == x.epoch && w.bootId == x.bootId && !w.needsNew && !w.registered
    case ReportStep(i, _) =>
      && A.ValidSession(i.session) && IsCurrent(r, i.session)
      && var w := r.workers[i.session.workerId]; !w.needsNew && (w.hasInventory ==> i.revision >= w.inventoryRevision) && i.fit
    case HeartbeatStep(x, _) => A.ValidSession(x) && IsCurrent(r, x) && !r.workers[x.workerId].needsNew
    case EvaluateStep(_) => true
    case _ => false
  }

  /** The step reads a clock that has run backwards, now or before. */
  predicate FindsRegression(r: Registry, step: Step) {
    ReadsClock(r, step) && (!r.healthy || NowOf(step) < r.lastElapsed)
  }

  lemma UnhealthyExactlyWhen(cfg: Config, r: Registry, step: Step)
    ensures Execute(cfg, r, step).1.Unhealthy? <==> FindsRegression(r, step)
  {
  }

  /**
   The revision moves with every change of a worker besides its heartbeat time, except exactly when a call
   finds a regressed clock while some worker is still open: that one change keeps the revision. This holds of
   the 64-bit counter too.
   */
  lemma RevisionTracksChanges(cfg: Config, r: Registry, step: Step)
    requires |r.workers| < TWO64
    ensures var r' := Execute(cfg, r, step).0;
            var silent := FindsRegression(r, step) && exists id :: id in r.workers && OpenWorker(r.workers[id]);
      && r'.revision >= r.revision
      && (r'.revision == r.revision && !SameButHeartbeats(r, r') <==> silent)
      && (r'.revision % TWO64 == r.revision % TWO64 && !SameButHeartbeats(r, r') <==> silent)
  {
    UnhealthyExactlyWhen(cfg, r, step);
    if FindsRegression(r, step) {
      RefusalChangesNothing(cfg, Sys(r, map[]), step, NowOf(step));
      FailureShows(r, NowOf(step));
    } else {
      HealthyChangesCount(cfg, r, step);
      FewChanges(cfg, r, step);
      WrapsOnlyBackToItself(r.revision, Execute(cfg, r, step).0.revision);
    }
  }

  lemma WrapsOnlyBackToItself(a: nat, b: nat)
    requires a <= b < a + TWO64
    ensures a % TWO64 == b % TWO64 <==> a == b
  {
    var k := b / TWO64 - a / TWO64;
    if a % TWO64 == b % TWO64 {
      assert b - a == k * TWO64;
    }
  }

  /** One step moves the revision once, or once per changed worker. */
  lemma FewChanges(cfg: Config, r: Registry, step: Step)
    requires |r.workers| < TWO64
    ensures Execute(cfg, r, step).0.revision < r.revision + TWO64
  {
    if step.EvaluateStep? {
      SubsetSize(Changed(cfg, step.now, r.workers), r.workers.Keys);
      assert |r.workers| == |r.workers.Keys|;
    }
  }

  lemma {:induction false} SubsetSize(a: set<string>, b: set<string>)
    requires a <= b
    ensures |a| <= |b|
  {
    if a != {} {
      var x :| x in a;
      SubsetSize(a - {x}, b - {x});
    }
  }

  lemma HealthyChangesCount(cfg: Config, r: Registry, step: Step)
    requires !Execute(cfg, r, step).1.Unhealthy?
    ensures var r' := Execute(cfg, r, step).0; r'.revision > r.revision || (r'.revision == r.revision && SameButHeartbeats(r, r'))
  {
    if step.EvaluateStep? && Changed(cfg, step.now, r.workers) == {} {
      forall id | id in r.workers ensures Evaluated(cfg, step.now, r.workers[id]) == r.workers[id] {
        assert id !in Changed(cfg, step.now, r.workers);
      }
    }
  }

  lemma FailureShows(r: Registry, now: int)
    requires !ReadClock(r, now).healthy
    ensures SameButHeartbeats(r, ReadClock(r, now)) <==> forall id :: id in r.workers ==> !OpenWorker(r.workers[id])
  {
    forall id | id in r.workers
      ensures OpenWorker(r.workers[id])
        <==> ReadClock(r, now).workers[id].(lastHeartbeat := 0) != r.workers[id].(lastHeartbeat := 0)
    {
    }
  }

  /** After Evaluate a watched worker's state tells how long ago the run last heard of it, which is never negative. */
  lemma EvaluateMeasuresSilence(cfg: Config, elapsed: nat, s: Sys, now: int, id: string)
    requires R.Reachable(Init(elapsed), Moves(cfg), s) && id in s.registry.workers && Watched(s.registry.workers[id])
    requires Evaluate(cfg, s.registry, now).1.Ok?
    ensures var silent := now - PastOf(s, id).heard;
            var state := Evaluate(cfg, s.registry, now).0.workers[id].state;
      && silent >= 0 && (state.Unavailable? <==> silent >= cfg.unavailableAfter)
      && (state.Suspect? <==> cfg.suspectAfter <= silent < cfg.unavailableAfter)
  {
    ReachableIsSound(cfg, elapsed, s);
    WorkerIsSound(cfg, s, id);
  }

  // ---------- a change that keeps the revision ----------

  function ExampleSteps(): seq<Step> {
    var x := A.Session("w", "b", 1);
    [CommitStep(x), RegisterStep(x, 5), ReportStep(Inventory(x, 1, "content", true), 5), EvaluateStep(4)]
  }

  /** Commit, register and report at 5, evaluate at 4: the Ready worker turns Unavailable under the same revision. */
  lemma RegressionKeepsTheRevision(cfg: Config) returns (states: seq<Sys>)
    requires cfg.maxWorkers > 0
    ensures R.IsRun(Init(0), Moves(cfg), states, ExampleSteps())
    ensures var before, after := states[3].registry, states[4].registry;
      && "w" in before.workers && before.workers["w"].state.Ready?
      && "w" in after.workers && after.workers["w"].state.Unavailable? && after.revision == before.revision
  {
    var t := ExampleSteps();
    assert A.ValidId("w") && A.ValidId("b");
    var s1 := Next(cfg, Init(0), t[0]);
    var s2 := Next(cfg, s1, t[1]);
    var s3 := Next(cfg, s2, t[2]);
    assert s3.registry.workers["w"].state.Ready? && s3.registry.lastElapsed == 5;
    states := [Init(0), s1, s2, s3, Next(cfg, s3, t[3])];
  }
}
