/** The planner as a mutable object, with the loops that check and evaluate the worker observations. */
module PlannerObject {
  import opened PlacementOrder
  import opened Planner

  lemma SeenNext(workers: seq<Worker>, i: nat)
    requires i < |workers|
    ensures Ids(workers[..i + 1]) == Ids(workers[..i]) + {workers[i].session.workerId}
  {
    assert workers[..i + 1] == workers[..i] + [workers[i]];
  }

  lemma SeenIsDuplicate(workers: seq<Worker>, i: nat)
    requires i < |workers| && workers[i].session.workerId in Ids(workers[..i])
    ensures !DistinctWorkers(workers)
  {
    var w :| w in workers[..i] && w.session.workerId == workers[i].session.workerId;
    var j :| 0 <= j < i && workers[..i][j] == w;
    assert workers[j].session.workerId == workers[i].session.workerId;
  }

  lemma UnseenIsDistinct(workers: seq<Worker>, i: nat)
    requires i < |workers| && DistinctWorkers(workers[..i]) && workers[i].session.workerId !in Ids(workers[..i])
    ensures DistinctWorkers(workers[..i + 1])
  {
    var longer := workers[..i + 1];
    forall j, k | 0 <= j < k < |longer| ensures longer[j].session.workerId != longer[k].session.workerId {
      assert workers[..i][j] in workers[..i];
      if k < i { assert longer[j] == workers[..i][j] && longer[k] == workers[..i][k]; }
    }
  }

  /** validateWorkerSet. */
  method ValidateWorkerSet(workers: seq<Worker>) returns (ok: bool)
    ensures ok == (|workers| <= MAX_WORKERS && DistinctWorkers(workers))
  {
    if |workers| > MAX_WORKERS {
      return false;
    }
    var seen: set<string> := {};
    for i := 0 to |workers|
      invariant seen == Ids(workers[..i]) && DistinctWorkers(workers[..i])
    {
      SeenNext(workers, i);
      if workers[i].session.workerId in seen {
        SeenIsDuplicate(workers, i);
        return false;
      }
      UnseenIsDistinct(workers, i);
      seen := seen + {workers[i].session.workerId};
    }
    assert workers[..|workers|] == workers;
    return true;
  }

  /** One more worker, noted as w: one more candidate, and one more eligible worker if nothing speaks against it. */
  lemma EvaluateNext(r: Request, noted: seq<Worker>, i: nat, eligible: seq<Eligible>)
    requires i < |noted|
    ensures CandidatesOf(r, noted[..i + 1]) == CandidatesOf(r, noted[..i]) + [CandidateOf(r, noted[i])]
    ensures var more := if Reasons(r, noted[i]) == [] then [EligibleOf(r, noted[i])] else [];
            eligible + EligiblesOf(r, noted[i..]) == eligible + more + EligiblesOf(r, noted[i + 1..])
  {
    assert noted[i..][0] == noted[i] && noted[i..][1..] == noted[i + 1..];
  }

  /** One round of evaluateCandidates: the worker's candidate, and its rank if nothing speaks against it. */
  method Judge(r: Request, w: Worker, repeated: bool) returns (candidate: Candidate, rank: seq<Eligible>)
    ensures candidate == CandidateOf(r, Taken(w, repeated))
    ensures rank == if Reasons(r, Taken(w, repeated)) == [] then [EligibleOf(r, Taken(w, repeated))] else []
  {
    if repeated || !w.observed {
      return Candidate(w.session, false, [InvalidObservation], 0, 0, 0), [];
    }
    var reasons := Reasons(r, w);
    if reasons != [] {
      return Candidate(w.session, false, reasons, 0, 0, 0), [];
    }
    return Candidate(w.session, true, [], CacheScore(r, w), w.allocatedSlots, w.slots), [EligibleOf(r, w)];
  }

  /** The loop of evaluateCandidates; `noted` is how it takes each worker. */
  method EvaluateEach(r: Request, workers: seq<Worker>, ghost noted: seq<Worker>)
      returns (candidates: seq<Candidate>, eligible: seq<Eligible>)
    requires |noted| == |workers|
    requires forall i :: 0 <= i < |workers| ==>
      noted[i] == Taken(workers[i], workers[i].session.workerId in Ids(workers[..i]))
    ensures candidates == CandidatesOf(r, noted) && eligible == EligiblesOf(r, noted)
  {
    candidates, eligible := [], [];
    var seen: set<string> := {};
    for i := 0 to |workers|
      invariant seen == Ids(workers[..i]) && candidates == CandidatesOf(r, noted[..i])
      invariant eligible + EligiblesOf(r, noted[i..]) == EligiblesOf(r, noted)
    {
      SeenNext(workers, i);
      EvaluateNext(r, noted, i, eligible);
      var candidate, rank := Judge(r, workers[i], workers[i].session.workerId in seen);
      seen := seen + {workers[i].session.workerId};
      candidates := candidates + [candidate];
      eligible := eligible + rank;
    }
    assert noted[..|workers|] == noted;
  }

  /** evaluateCandidates, before its sort. */
  method EvaluateCandidates(
      r: Request, workers: seq<Worker>) returns (candidates: seq<Candidate>, eligible: seq<Eligible>)
    ensures candidates == CandidatesOf(r, Noted(workers)) && eligible == EligiblesOf(r, Noted(workers))
  {
    candidates, eligible := EvaluateEach(r, workers, Noted(workers));
  }

  class PlannerStore {
    const maxDecisions: nat
    var barrier: Barrier
    var decisions: map<string, DecisionRecord>
    var assignments: map<string, string>

    function View(): PlannerState
      reads this
    {
      PlannerState(barrier, decisions, assignments)
    }

    constructor (maxDecisions: nat)
      ensures this.maxDecisions == maxDecisions && View() == NewPlanner()
    {
      this.maxDecisions := maxDecisions;
      barrier, decisions, assignments := Barrier(0, 0, false), map[], map[];
    }

    method Place(r: Request, workers: seq<Worker>) returns (result: Result)
      modifies this`decisions, this`assignments
      ensures (View(), result) == Plan(maxDecisions, old(View()), r, workers)
    {
      if !ValidRequest(r) {
        return Refused(Invalid, []);
      }
      if r.commandId in decisions {
        var existing := decisions[r.commandId];
        return if existing.fingerprint != Fingerprint(r) then Refused(Conflict, []) else Decided(existing.decision.(status := Duplicate));
      }
      if r.assignmentId in assignments {
        var command := assignments[r.assignmentId];
        return if command !in decisions || decisions[command].fingerprint != Fingerprint(r) then Refused(Conflict, [])
               else Decided(decisions[command].decision.(status := AlreadySatisfied));
      }
      if !barrier.ready {
        return Refused(Stale, []);
      }
      if |decisions| >= maxDecisions {
        return Refused(Overloaded, []);
      }
      var ok := ValidateWorkerSet(workers);
      if !ok {
        return Refused(Invalid, []);
      }
      DistinctAreNoted(workers);
      var candidates, eligible := EvaluateCandidates(r, workers);
      candidates := SortCandidates(candidates);
      if eligible == [] {
        return Refused(NoReadyReplica, candidates);
      }
      var decision := Decision(Applied, Placed(r, Best(eligible).session), barrier, candidates);
      decisions := decisions[r.commandId := DecisionRecord(Fingerprint(r), decision)];
      assignments := assignments[r.assignmentId := r.commandId];
      return Decided(decision);
    }

    method AcknowledgeCommand(commandId: string)
      modifies this`decisions, this`assignments
      ensures View() == Acknowledge(old(View()), commandId)
    {
      if commandId !in decisions {
        return;
      }
      var id := decisions[commandId].decision.placed.request.assignmentId;
      decisions := decisions - {commandId};
      if id in assignments && assignments[id] == commandId {
        assignments := assignments - {id};
      }
    }

    method InstallLeaderBarrier(b: Barrier) returns (ok: bool)
      modifies this`barrier
      ensures (View(), ok) == InstallBarrier(old(View()), b)
    {
      if b.term == 0 || b.index == 0 || !b.ready {
        return false;
      }
      if barrier.term != 0 && (b.term < barrier.term || b.index < barrier.index) {
        return false;
      }
      barrier := b;
      return true;
    }
  }
}
