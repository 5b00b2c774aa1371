/** Placement does not depend on the order of its input, and retained decisions stay consistent. */
module PlannerTheorems {
  import opened Ordering
  import opened PlacementOrder
  import opened Planner
  import R = Runs

  // ---------- the chosen worker ----------

  ghost predicate AllRankable(es: seq<Eligible>) {
    forall e :: e in es ==> Rankable(e)
  }

  ghost predicate Least(b: Eligible, es: seq<Eligible>) {
    b in es && forall e :: e in es ==> CompareEligible(b, e) <= 0
  }

  lemma {:induction false} BestIsLeast(es: seq<Eligible>)
    requires es != [] && AllRankable(es)
    ensures Least(Best(es), es)
  {
    if |es| == 1 {
      EligibleOrder(es[0], es[0], es[0]);
    } else {
      BestIsLeast(es[1..]);
      var rest, b := Best(es[1..]), Best(es);
      forall e | e in es ensures CompareEligible(b, e) <= 0 {
        assert e == es[0] || e in es[1..];
        assert rest in es;
        LeastStep(es[0], rest, e);
      }
    }
  }

  /** The smaller of two is at most anything the second is at most. */
  lemma LeastStep(x: Eligible, y: Eligible, e: Eligible)
    requires Rankable(x) && Rankable(y) && Rankable(e) && (e == x || CompareEligible(y, e) <= 0)
    ensures CompareEligible(if CompareEligible(x, y) <= 0 then x else y, e) <= 0
  {
    EligibleOrder(x, y, e);
    EligibleOrder(x, x, x);
    EligibleOrder(y, e, e);
    RatioOrder(x.loadNum, x.loadDen, y.loadNum, y.loadDen, e.loadNum, e.loadDen);
    RatioOrder(x.memoryNum, x.memoryDen, y.memoryNum, y.memoryDen, e.memoryNum, e.memoryDen);
    SessionOrder(x.session, y.session, e.session);
    EligibleConsistent(x, y, e);
  }

  /** Two least elements of the same elements are the same worker session. */
  lemma LeastIsUnique(a: Eligible, b: Eligible, es: seq<Eligible>, fs: seq<Eligible>)
    requires Least(a, es) && Least(b, fs) && AllRankable(es) && forall e :: e in es <==> e in fs
    ensures a.session == b.session
  {
    assert a in fs && b in es;
    EligibleOrder(a, b, b);
  }

  /** The first element of any arrangement that sorting may produce is the worker Best picks. */
  lemma FirstOfSortedIsBest(es: seq<Eligible>, sorted: seq<Eligible>)
    requires es != [] && AllRankable(es) && (forall e :: e in es <==> e in sorted)
    requires forall i, j :: 0 <= i < j < |sorted| ==> CompareEligible(sorted[i], sorted[j]) <= 0
    ensures sorted != [] && sorted[0].session == Best(es).session
  {
    assert es[0] in sorted;
    BestIsLeast(es);
    assert sorted[0] in es;
    EligibleOrder(sorted[0], sorted[0], sorted[0]);
    forall e | e in sorted ensures CompareEligible(sorted[0], e) <= 0 {
      var i :| 0 <= i < |sorted| && sorted[i] == e;
    }
    LeastIsUnique(sorted[0], Best(es), sorted, es);
  }

  // ---------- order independence ----------

  lemma CandidateOrder()
    ensures TotalOrder(CompareCandidates)
  {
    forall a: Candidate, b: Candidate, c: Candidate
      ensures Consistent(CompareCandidates(a, b), CompareCandidates(b, c), CompareCandidates(a, c))
      ensures CompareCandidates(b, a) == -CompareCandidates(a, b)
    {
      SessionOrder(a.session, b.session, c.session);
    }
  }

  lemma DistinctCandidates(r: Request, ws: seq<Worker>)
    requires DistinctWorkers(ws)
    ensures NoTies(CandidatesOf(r, ws), CompareCandidates)
  {
    var cs := CandidatesOf(r, ws);
    forall i, j | 0 <= i < j < |cs| ensures CompareCandidates(cs[i], cs[j]) != 0 {
      SessionOrder(cs[i].session, cs[j].session, cs[j].session);
      assert cs[i].session == ws[i].session && cs[j].session == ws[j].session;
    }
  }

  lemma SameCandidates(r: Request, ws: seq<Worker>, vs: seq<Worker>)
    requires DistinctWorkers(ws) && DistinctWorkers(vs) && forall w :: w in ws <==> w in vs
    ensures SortCandidates(CandidatesOf(r, ws)) == SortCandidates(CandidatesOf(r, vs))
  {
    DistinctCandidates(r, ws);
    DistinctCandidates(r, vs);
    CandidatesSubset(r, ws, vs);
    CandidatesSubset(r, vs, ws);
    CandidateOrder();
    SortIgnoresOrder(CandidatesOf(r, ws), CandidatesOf(r, vs), CompareCandidates);
  }

  lemma CandidatesSubset(r: Request, ws: seq<Worker>, vs: seq<Worker>)
    requires forall w :: w in ws ==> w in vs
    ensures forall c :: c in CandidatesOf(r, ws) ==> c in CandidatesOf(r, vs)
  {
    forall i | 0 <= i < |ws| ensures CandidatesOf(r, ws)[i] in CandidatesOf(r, vs) {
      assert ws[i] in vs;
      var j :| 0 <= j < |vs| && vs[j] == ws[i];
      assert CandidatesOf(r, vs)[j] == CandidateOf(r, ws[i]);
    }
  }

  lemma SameBest(r: Request, ws: seq<Worker>, vs: seq<Worker>)
    requires ValidRequest(r) && forall w :: w in ws <==> w in vs
    ensures (EligiblesOf(r, ws) == []) == (EligiblesOf(r, vs) == [])
    ensures EligiblesOf(r, ws) != [] ==> Best(EligiblesOf(r, ws)).session == Best(EligiblesOf(r, vs)).session
  {
    var a, b := EligiblesOf(r, ws), EligiblesOf(r, vs);
    forall e ensures e in a <==> e in b {
      EligiblesAre(r, ws, e);
      EligiblesAre(r, vs, e);
    }
    forall e | e in a ensures Rankable(e) {
      EligiblesAre(r, ws, e);
      var w :| w in ws && Reasons(r, w) == [] && e == EligibleOf(r, w);
      EligibleIsRankable(r, w);
    }
    assert a != [] ==> a[0] in b;
    assert b != [] ==> b[0] in a;
    if a != [] {
      BestIsLeast(a);
      BestIsLeast(b);
      LeastIsUnique(Best(a), Best(b), a, b);
    }
  }

  /** Permuting the observations changes neither the state nor the answer, including its explanations. */
  lemma PlanIgnoresOrder(max: nat, p: PlannerState, r: Request, ws: seq<Worker>, vs: seq<Worker>)
    requires multiset(ws) == multiset(vs)
    ensures Plan(max, p, r, ws) == Plan(max, p, r, vs)
  {
    assert |ws| == |multiset(ws)| == |multiset(vs)| == |vs|;
    forall w ensures w in ws <==> w in vs { assert w in multiset(ws) <==> w in multiset(vs); }
    SameDistinct(ws, vs);
    if ValidRequest(r) && DistinctWorkers(ws) {
      SameCandidates(r, ws, vs);
      SameBest(r, ws, vs);
    }
  }

  lemma {:induction false} DistinctByCount(ws: seq<Worker>)
    ensures |Ids(ws)| <= |ws|
    ensures DistinctWorkers(ws) <==> |Ids(ws)| == |ws|
  {
    if ws == [] {
      assert Ids(ws) == {};
    } else {
      DistinctByCount(ws[1..]);
      var id := ws[0].session.workerId;
      assert Ids(ws) == {id} + Ids(ws[1..]);
      if id in Ids(ws[1..]) {
        RepeatedHead(ws);
        assert Ids(ws) == Ids(ws[1..]);
      } else {
        forall i | 0 < i < |ws| ensures ws[i].session.workerId != id { assert ws[i] in ws[1..]; }
        DistinctCons(ws);
      }
    }
  }

  lemma RepeatedHead(ws: seq<Worker>)
    requires ws != [] && ws[0].session.workerId in Ids(ws[1..])
    ensures !DistinctWorkers(ws)
  {
    var w :| w in ws[1..] && w.session.workerId == ws[0].session.workerId;
    var i :| 0 <= i < |ws[1..]| && ws[1..][i] == w;
    assert ws[i + 1].session.workerId == ws[0].session.workerId;
  }

  lemma DistinctCons(ws: seq<Worker>)
    requires ws != [] && forall i :: 0 < i < |ws| ==> ws[i].session.workerId != ws[0].session.workerId
    ensures DistinctWorkers(ws) <==> DistinctWorkers(ws[1..])
  {
    if DistinctWorkers(ws[1..]) {
      forall i, j | 0 <= i < j < |ws| ensures ws[i].session.workerId != ws[j].session.workerId {
        if i > 0 { assert ws[i] == ws[1..][i - 1] && ws[j] == ws[1..][j - 1]; }
      }
    }
  }

  lemma SameDistinct(ws: seq<Worker>, vs: seq<Worker>)
    requires |ws| == |vs| && forall w :: w in ws <==> w in vs
    ensures DistinctWorkers(ws) <==> DistinctWorkers(vs)
  {
    assert Ids(ws) == Ids(vs);
    DistinctByCount(ws);
    DistinctByCount(vs);
  }

  // ---------- retained decisions ----------

  datatype Event =
    | Planning(request: Request, workers: seq<Worker>)
    | Acknowledging(commandId: string)
    | Installing(barrier: Barrier)
    | Invalidating

  function After(max: nat, p: PlannerState, e: Event): PlannerState {
    match e
    case Planning(r, ws) => Plan(max, p, r, ws).0
    case Acknowledging(id) => Acknowledge(p, id)
    case Installing(b) => InstallBarrier(p, b).0
    case Invalidating => InvalidateBarrier(p)
  }

  ghost function Moves(max: nat): iset<R.Move<PlannerState, Event>> {
    iset m: R.Move<PlannerState, Event> | m.post == After(max, m.pre, m.step)
  }

  /** A decision is filed under its own command and assignment, with the fingerprint of its request. */
  predicate DecisionOk(p: PlannerState, id: string)
    requires id in p.decisions
  {
    var d := p.decisions[id];
    && d.decision.placed.request.commandId == id && d.fingerprint == Fingerprint(d.decision.placed.request)
    && d.decision.placed.request.assignmentId in p.assignments
    && p.assignments[d.decision.placed.request.assignmentId] == id
  }

  predicate AssignmentOk(p: PlannerState, a: string)
    requires a in p.assignments
  {
    p.assignments[a] in p.decisions && p.decisions[p.assignments[a]].decision.placed.request.assignmentId == a
  }

  /** `decisions` and `assignments` are inverse maps. */
  ghost predicate Inverse(p: PlannerState) {
    && (forall id :: id in p.decisions ==> DecisionOk(p, id))
    && (forall a :: a in p.assignments ==> AssignmentOk(p, a))
  }

  ghost function InverseStates(): iset<PlannerState> {
    iset p: PlannerState | Inverse(p)
  }

  lemma PlanKeeps(max: nat, p: PlannerState, r: Request, ws: seq<Worker>)
    requires Inverse(p)
    ensures Inverse(Plan(max, p, r, ws).0)
  {
    var q := Plan(max, p, r, ws).0;
    if q != p {
      forall id | id in q.decisions ensures DecisionOk(q, id) { assert id in p.decisions ==> DecisionOk(p, id); }
      forall a | a in q.assignments ensures AssignmentOk(q, a) { assert a in p.assignments ==> AssignmentOk(p, a); }
    }
  }

  lemma AcknowledgeKeeps(p: PlannerState, id: string)
    requires Inverse(p)
    ensures Inverse(Acknowledge(p, id))
  {
    var q := Acknowledge(p, id);
    assert id in p.decisions ==> DecisionOk(p, id);
    forall x | x in q.decisions ensures DecisionOk(q, x) { assert DecisionOk(p, x); }
    forall a | a in q.assignments ensures AssignmentOk(q, a) { assert AssignmentOk(p, a); }
  }

  lemma AfterKeeps(max: nat, p: PlannerState, e: Event)
    requires Inverse(p)
    ensures Inverse(After(max, p, e))
  {
    match e
    case Planning(r, ws) => PlanKeeps(max, p, r, ws);
    case Acknowledging(id) => AcknowledgeKeeps(p, id);
    case Installing(b) => SameDecisions(p, InstallBarrier(p, b).0);
    case Invalidating => SameDecisions(p, InvalidateBarrier(p));
  }

  lemma SameDecisions(p: PlannerState, q: PlannerState)
    requires Inverse(p) && q.decisions == p.decisions && q.assignments == p.assignments
    ensures Inverse(q)
  {
    forall x | x in q.decisions ensures DecisionOk(q, x) { assert DecisionOk(p, x); }
    forall a | a in q.assignments ensures AssignmentOk(q, a) { assert AssignmentOk(p, a); }
  }

  ghost predicate IsRun(max: nat, states: seq<PlannerState>, events: seq<Event>) {
    R.IsRun(NewPlanner(), Moves(max), states, events)
  }

  lemma RunIsInverse(max: nat, states: seq<PlannerState>, events: seq<Event>, i: nat)
    requires IsRun(max, states, events) && i < |states|
    ensures Inverse(states[i])
  {
    forall m | m in Moves(max) && m.pre in InverseStates()
      ensures m.post in InverseStates()
    {
      AfterKeeps(max, m.pre, m.step);
    }
    R.StaysFrom(NewPlanner(), Moves(max), InverseStates(), states, events, 0, i);
  }

  /**
   In every reachable state the two maps invert each other, so the lookup behind a reused assignment id cannot
   miss.
   */
  lemma DecisionsAndAssignmentsAreInverse(max: nat, states: seq<PlannerState>, events: seq<Event>, i: nat)
    requires IsRun(max, states, events) && i < |states|
    ensures forall id, a :: (id in states[i].decisions && states[i].decisions[id].decision.placed.request.assignmentId == a)
                       <==> (a in states[i].assignments && states[i].assignments[a] == id)
  {
    RunIsInverse(max, states, events, i);
    var p := states[i];
    forall id, a | id in p.decisions && p.decisions[id].decision.placed.request.assignmentId == a
      ensures a in p.assignments && p.assignments[a] == id { assert DecisionOk(p, id); }
    forall id, a | a in p.assignments && p.assignments[a] == id
      ensures id in p.decisions
      ensures p.decisions[id].decision.placed.request.assignmentId == a { assert AssignmentOk(p, a); }
  }

  /** The command whose decision answers r again: r's own, or the one that holds its assignment. */
  function Answering(p: PlannerState, r: Request): string
    requires r.commandId in p.decisions || r.assignmentId in p.assignments
  {
    if r.commandId in p.decisions then r.commandId else p.assignments[r.assignmentId]
  }

  /**
   Asking again, under the same or a new command, changes nothing. The answer is the retained placement
   exactly when the request is the retained one up to its command id, and a conflict otherwise.
   */
  lemma RetryReturnsTheDecision(
      max: nat, states: seq<PlannerState>, events: seq<Event>, i: nat, r: Request, ws: seq<Worker>)
    requires IsRun(max, states, events) && i < |states| && ValidRequest(r)
    requires r.commandId in states[i].decisions || r.assignmentId in states[i].assignments
    ensures Answering(states[i], r) in states[i].decisions
    ensures var (q, result) := Plan(max, states[i], r, ws);
            var retained := states[i].decisions[Answering(states[i], r)].decision;
      && q == states[i]
      && (result.Decided? <==> Fingerprint(retained.placed.request) == Fingerprint(r))
      && (result.Decided? ==> result.decision == retained.(status := result.decision.status) && result.decision.status != Applied)
      && (result.Refused? ==> result.code == Conflict)
  {
    RunIsInverse(max, states, events, i);
    var p := states[i];
    if r.commandId !in p.decisions {
      assert AssignmentOk(p, r.assignmentId);
    }
    assert DecisionOk(p, Answering(p, r));
  }

  ghost function BarriersFrom(b: Barrier): iset<PlannerState> {
    iset p: PlannerState | p.barrier.term >= b.term && p.barrier.index >= b.index
  }

  /** The barrier's term and applied index never move backwards. */
  lemma BarrierNeverMovesBack(max: nat, states: seq<PlannerState>, events: seq<Event>, i: nat, j: nat)
    requires IsRun(max, states, events) && i <= j < |states|
    ensures states[i].barrier.term <= states[j].barrier.term && states[i].barrier.index <= states[j].barrier.index
  {
    var good := BarriersFrom(states[i].barrier);
    var both := iset p: PlannerState | p in good && (p.barrier.term == 0 ==> p.barrier.index == 0);
    BarrierStart(max, states, events, i);
    forall m | m in Moves(max) && m.pre in both ensures m.post in both { }
    R.StaysFrom(NewPlanner(), Moves(max), both, states, events, i, j);
  }

  lemma BarrierStart(max: nat, states: seq<PlannerState>, events: seq<Event>, i: nat)
    requires IsRun(max, states, events) && i < |states|
    ensures states[i].barrier.term == 0 ==> states[i].barrier.index == 0
  {
    var good := iset p: PlannerState | p.barrier.term == 0 ==> p.barrier.index == 0;
    R.StaysFrom(NewPlanner(), Moves(max), good, states, events, 0, i);
  }
}
