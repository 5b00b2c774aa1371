/** Deterministic placement with retained decisions, and the barrier that authorizes it. */
module Planner {
  import opened Common
  import A = ServingAuth
  import opened Ordering
  import opened PlacementOrder

  datatype Reason = InvalidObservation | Intent | SessionState | Runtime | Labels | Memory | Slots

  /** `observed` is the snapshot's own validation. */
  datatype Worker = Worker(
    session: A.Session, observed: bool, schedulable: bool, ready: bool, runtime: string, labels: map<string, string>,
    memory: U64, allocatedMemory: U64, slots: U64, allocatedSlots: U64, artifacts: set<string>, compiled: set<string>)

  /** `fit` stands for the field checks of the request; `rest` for the fields that do not steer placement. */
  datatype Request = Request(
    commandId: string, assignmentId: string, artifact: string, runtime: string, memory: U64, requiredSlots: U64,
    compiledKey: string, requiredLabels: map<string, string>, existing: set<string>, rest: string, fit: bool)

  datatype Candidate = Candidate(
    session: A.Session, eligible: bool, reasons: seq<Reason>, cacheScore: nat, loadNum: nat, loadDen: nat)

  datatype Barrier = Barrier(term: nat, index: nat, ready: bool)

  datatype Placed = Placed(request: Request, worker: A.Session)

  datatype Status = Applied | Duplicate | AlreadySatisfied

  datatype Decision = Decision(status: Status, placed: Placed, barrier: Barrier, candidates: seq<Candidate>)

  datatype DecisionRecord = DecisionRecord(fingerprint: Request, decision: Decision)

  datatype PlannerState = PlannerState(
    barrier: Barrier, decisions: map<string, DecisionRecord>, assignments: map<string, string>)

  datatype Code = Invalid | Conflict | Stale | Overloaded | NoReadyReplica

  datatype Result = Decided(decision: Decision) | Refused(code: Code, candidates: seq<Candidate>)

  const MAX_WORKERS := 1_000

  function NewPlanner(): PlannerState {
    PlannerState(Barrier(0, 0, false), map[], map[])
  }

  // ---------- one worker ----------

  function LabelOf(labels: map<string, string>, key: string): string {
    if key in labels then labels[key] else ""
  }

  predicate LabelsMatch(labels: map<string, string>, required: map<string, string>) {
    forall key :: key in required ==> LabelOf(labels, key) == required[key]
  }

  predicate MemoryFits(r: Request, w: Worker) {
    w.memory >= w.allocatedMemory && w.memory - w.allocatedMemory >= r.memory
  }

  predicate SlotsFit(r: Request, w: Worker) {
    w.slots >= w.allocatedSlots && w.slots - w.allocatedSlots >= r.requiredSlots
  }

  function When(condition: bool, reason: Reason): seq<Reason> {
    if condition then [reason] else []
  }

  /** Why a worker is excluded; empty means eligible. */
  function Reasons(r: Request, w: Worker): seq<Reason> {
    if !w.observed then [InvalidObservation]
    else
      When(!w.schedulable, Intent) + When(!w.ready, SessionState) + When(w.runtime != r.runtime, Runtime)
      + When(!LabelsMatch(w.labels, r.requiredLabels), Labels) + When(!MemoryFits(r, w), Memory) + When(!SlotsFit(r, w), Slots)
  }

  function CacheScore(r: Request, w: Worker): nat {
    if r.compiledKey != "" && r.compiledKey in w.compiled then 2 else if r.artifact in w.artifacts then 1 else 0
  }

  function CandidateOf(r: Request, w: Worker): Candidate {
    if Reasons(r, w) != [] then Candidate(w.session, false, Reasons(r, w), 0, 0, 0)
    else Candidate(w.session, true, [], CacheScore(r, w), w.allocatedSlots, w.slots)
  }

  function EligibleOf(r: Request, w: Worker): Eligible {
    Eligible(w.session, CacheScore(r, w), if w.session.workerId in r.existing then 0 else 1,
             w.allocatedSlots, w.slots, w.allocatedMemory, w.memory)
  }

  predicate ValidRequest(r: Request) {
    r.fit && r.memory > 0 && r.requiredSlots > 0
  }

  /** Eligibility forces both denominators to be positive. */
  lemma EligibleIsRankable(r: Request, w: Worker)
    requires ValidRequest(r) && Reasons(r, w) == []
    ensures Rankable(EligibleOf(r, w))
  {
    assert When(!MemoryFits(r, w), Memory) == [] && When(!SlotsFit(r, w), Slots) == [];
  }

  // ---------- all workers ----------

  function CandidatesOf(r: Request, workers: seq<Worker>): (cs: seq<Candidate>)
    ensures |cs| == |workers| && forall i :: 0 <= i < |cs| ==> cs[i] == CandidateOf(r, workers[i])
  {
    seq(|workers|, i requires 0 <= i < |workers| => CandidateOf(r, workers[i]))
  }

  function EligiblesOf(r: Request, workers: seq<Worker>): seq<Eligible> {
    if workers == [] then []
    else if Reasons(r, workers[0]) == [] then [EligibleOf(r, workers[0])] + EligiblesOf(r, workers[1..])
    else EligiblesOf(r, workers[1..])
  }

  lemma {:induction false} EligiblesAre(r: Request, workers: seq<Worker>, e: Eligible)
    ensures e in EligiblesOf(r, workers) <==> exists w :: w in workers && Reasons(r, w) == [] && e == EligibleOf(r, w)
  {
    if workers != [] {
      EligiblesAre(r, workers[1..], e);
      assert forall w :: w in workers <==> w == workers[0] || w in workers[1..];
    }
  }

  predicate DistinctWorkers(workers: seq<Worker>) {
    forall i, j :: 0 <= i < j < |workers| ==> workers[i].session.workerId != workers[j].session.workerId
  }

  function Ids(workers: seq<Worker>): set<string> {
    set w | w in workers :: w.session.workerId
  }

  /** A repeated id is an invalid observation, whatever it says. */
  function Taken(w: Worker, repeated: bool): Worker {
    if repeated then w.(observed := false) else w
  }

  /** The workers as evaluateCandidates takes them. */
  function Noted(workers: seq<Worker>): (ns: seq<Worker>)
    ensures |ns| == |workers|
  {
    seq(|workers|, i requires 0 <= i < |workers| => Taken(workers[i], workers[i].session.workerId in Ids(workers[..i])))
  }

  lemma DistinctAreNoted(workers: seq<Worker>)
    requires DistinctWorkers(workers)
    ensures Noted(workers) == workers
  {
    forall i | 0 <= i < |workers| ensures Noted(workers)[i] == workers[i] {
      forall w | w in workers[..i] ensures w.session.workerId != workers[i].session.workerId {
        var j :| 0 <= j < i && workers[..i][j] == w;
      }
    }
  }

  /** A least element, as the first element after sorting is. */
  function Best(es: seq<Eligible>): (b: Eligible)
    requires es != []
    ensures b in es
  {
    if |es| == 1 then es[0]
    else
      var rest := Best(es[1..]);
      if CompareEligible(es[0], rest) <= 0 then es[0] else rest
  }

  /** compareCandidates. */
  function CompareCandidates(a: Candidate, b: Candidate): int {
    CompareSession(a.session, b.session)
  }

  function SortCandidates(cs: seq<Candidate>): seq<Candidate> {
    Sort(cs, CompareCandidates)
  }

  // ---------- planning ----------

  function Fingerprint(r: Request): Request {
    r.(commandId := "")
  }

  function Plan(max: nat, p: PlannerState, r: Request, workers: seq<Worker>): (PlannerState, Result) {
    if !ValidRequest(r) then (p, Refused(Invalid, []))
    else if r.commandId in p.decisions then
      var existing := p.decisions[r.commandId];
      (p, if existing.fingerprint != Fingerprint(r) then Refused(Conflict, []) else Decided(existing.decision.(status := Duplicate)))
    else if r.assignmentId in p.assignments then
      var command := p.assignments[r.assignmentId];
      (p, if command !in p.decisions || p.decisions[command].fingerprint != Fingerprint(r) then Refused(Conflict, [])
          else Decided(p.decisions[command].decision.(status := AlreadySatisfied)))
    else if !p.barrier.ready then (p, Refused(Stale, []))
    else if |p.decisions| >= max then (p, Refused(Overloaded, []))
    else if |workers| > MAX_WORKERS || !DistinctWorkers(workers) then (p, Refused(Invalid, []))
    else
      var candidates := SortCandidates(CandidatesOf(r, workers));
      if EligiblesOf(r, workers) == [] then (p, Refused(NoReadyReplica, candidates))
      else
        var decision := Decision(Applied, Placed(r, Best(EligiblesOf(r, workers)).session), p.barrier, candidates);
        (p.(decisions := p.decisions[r.commandId := DecisionRecord(Fingerprint(r), decision)],
            assignments := p.assignments[r.assignmentId := r.commandId]), Decided(decision))
  }

  function Acknowledge(p: PlannerState, commandId: string): PlannerState {
    if commandId !in p.decisions then p
    else
      var id := p.decisions[commandId].decision.placed.request.assignmentId;
      p.(decisions := p.decisions - {commandId},
         assignments := if id in p.assignments && p.assignments[id] == commandId then p.assignments - {id} else p.assignments)
  }

  function InstallBarrier(p: PlannerState, b: Barrier): (PlannerState, bool) {
    if b.term == 0 || b.index == 0 || !b.ready then (p, false)
    else if p.barrier.term != 0 && (b.term < p.barrier.term || b.index < p.barrier.index) then (p, false)
    else (p.(barrier := b), true)
  }

  function InvalidateBarrier(p: PlannerState): PlannerState {
    p.(barrier := p.barrier.(ready := false))
  }
}
