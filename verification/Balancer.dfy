/** The Gateway's least-inflight balancer over the endpoints of one route target. */
module Balancer {
  import opened Common
  import opened Ordering
  import A = ServingAuth
  import Routing
  import R = Runs

  /** `fit` is Endpoint.Validate. */
  datatype Endpoint = Endpoint(assignment: A.Identity, address: string, fit: bool)

  datatype TargetKey = TargetKey(functionId: string, versionId: string, generation: nat)

  datatype BalancerState = BalancerState(inflight: map<A.Identity, nat>, roundRobin: map<TargetKey, U64>)

  datatype Choice = Chosen(endpoint: Endpoint) | Invalid | NoReadyReplica

  function NewBalancer(): BalancerState {
    BalancerState(map[], map[])
  }

  function Load(b: BalancerState, id: A.Identity): nat {
    if id in b.inflight then b.inflight[id] else 0
  }

  // ---------- choosing ----------

  predicate Serves(e: Endpoint, t: Routing.Target) {
    var a := e.assignment;
    a.mode == A.Normal && a.versionId == t.versionId && a.admissionEpoch == t.admissionEpoch
    && a.generation == t.generation && a.policyDigest == t.policyDigest
  }

  function Serving(endpoints: seq<Endpoint>, t: Routing.Target): (r: seq<Endpoint>)
    ensures forall e :: e in r <==> e in endpoints && Serves(e, t)
  {
    if endpoints == [] then []
    else
      var n := |endpoints| - 1;
      if Serves(endpoints[n], t) then Serving(endpoints[..n], t) + [endpoints[n]] else Serving(endpoints[..n], t)
  }

  /** compareEndpoints. */
  function Compare(x: Endpoint, y: Endpoint): int {
    CompareString(x.assignment.assignmentId, y.assignment.assignmentId)
  }

  predicate DistinctIds(endpoints: seq<Endpoint>) {
    forall i, j :: 0 <= i < j < |endpoints| ==> endpoints[i].assignment.assignmentId != endpoints[j].assignment.assignmentId
  }

  predicate AllFit(endpoints: seq<Endpoint>) {
    forall i :: 0 <= i < |endpoints| ==> endpoints[i].fit
  }

  function MinLoad(b: BalancerState, es: seq<Endpoint>): (m: nat)
    requires es != []
    ensures forall e :: e in es ==> m <= Load(b, e.assignment)
    ensures exists e :: e in es && m == Load(b, e.assignment)
  {
    var n := |es| - 1;
    if n == 0 then Load(b, es[0].assignment)
    else
      var rest := MinLoad(b, es[..n]);
      assert forall e :: e in es <==> e in es[..n] || e == es[n];
      if Load(b, es[n].assignment) < rest then Load(b, es[n].assignment) else rest
  }

  function AtLoad(b: BalancerState, es: seq<Endpoint>, m: nat): (r: seq<Endpoint>)
    ensures forall e :: e in r <==> e in es && Load(b, e.assignment) == m
  {
    if es == [] then []
    else
      var n := |es| - 1;
      if Load(b, es[n].assignment) == m then AtLoad(b, es[..n], m) + [es[n]] else AtLoad(b, es[..n], m)
  }

  function Cursor(b: BalancerState, k: TargetKey): U64 {
    if k in b.roundRobin then b.roundRobin[k] else 0
  }

  function Tied(b: BalancerState, es: seq<Endpoint>): (r: seq<Endpoint>)
    requires es != []
    ensures r != []
  {
    var m := MinLoad(b, es);
    var r := AtLoad(b, es, m);
    assert exists e :: e in es && m == Load(b, e.assignment) && e in r;
    r
  }

  predicate FitRequest(f: string, t: Routing.Target) {
    A.ValidId(f) && Routing.FitTarget(t)
  }

  /** The critical section of Acquire, on the sorted endpoints that serve the target. */
  function Choose(b: BalancerState, key: TargetKey, sorted: seq<Endpoint>): (BalancerState, Choice) {
    if sorted == [] then (b, NoReadyReplica)
    else
      var tied := Tied(b, sorted);
      var chosen := tied[Cursor(b, key) % |tied|];
      (BalancerState(b.inflight[chosen.assignment := Load(b, chosen.assignment) + 1],
                     b.roundRobin[key := Succ64(Cursor(b, key))]), Chosen(chosen))
  }

  function Acquire(b: BalancerState, f: string, t: Routing.Target, endpoints: seq<Endpoint>): (BalancerState, Choice) {
    var serving := Serving(endpoints, t);
    if !FitRequest(f, t) || !AllFit(endpoints) || !DistinctIds(serving) then (b, Invalid)
    else Choose(b, TargetKey(f, t.versionId, t.generation), Sort(serving, Compare))
  }

  /** The first Release of a lease. */
  function Release(b: BalancerState, id: A.Identity): BalancerState {
    if Load(b, id) <= 1 then b.(inflight := b.inflight - {id}) else b.(inflight := b.inflight[id := Load(b, id) - 1])
  }

  // ---------- what an Acquire does to the loads ----------

  lemma EndpointOrder()
    ensures TotalOrder(Compare)
  {
    forall x: Endpoint, y: Endpoint, z: Endpoint
      ensures Consistent(Compare(x, y), Compare(y, z), Compare(x, z)) && Compare(y, x) == -Compare(x, y)
    {
      StringOrder(x.assignment.assignmentId, y.assignment.assignmentId, z.assignment.assignmentId);
    }
  }

  lemma DistinctIdsDoNotTie(es: seq<Endpoint>)
    requires DistinctIds(es)
    ensures NoTies(es, Compare)
  {
    forall i, j | 0 <= i < j < |es| ensures Compare(es[i], es[j]) != 0 {
      StringOrder(es[i].assignment.assignmentId, es[j].assignment.assignmentId, es[j].assignment.assignmentId);
    }
  }

  lemma ChoosePicksLeast(b: BalancerState, key: TargetKey, sorted: seq<Endpoint>)
    requires Choose(b, key, sorted).1.Chosen?
    ensures var (b', c) := Choose(b, key, sorted);
      && c.endpoint in sorted
      && (forall e :: e in sorted ==> Load(b, c.endpoint.assignment) <= Load(b, e.assignment))
      && (forall id :: Load(b', id) == Load(b, id) + if id == c.endpoint.assignment then 1 else 0)
  {
    var c := Choose(b, key, sorted).1.endpoint;
    assert c in Tied(b, sorted);
    assert c in sorted && Load(b, c.assignment) == MinLoad(b, sorted);
  }

  /**
   The chosen endpoint serves exactly the target, carries the least load, and is the only one whose load
   changes, by one.
   */
  lemma AcquirePicksLeast(b: BalancerState, f: string, t: Routing.Target, endpoints: seq<Endpoint>)
    requires Acquire(b, f, t, endpoints).1.Chosen?
    ensures var (b', c) := Acquire(b, f, t, endpoints);
      && c.endpoint in endpoints && Serves(c.endpoint, t)
      && (forall e :: e in endpoints && Serves(e, t) ==> Load(b, c.endpoint.assignment) <= Load(b, e.assignment))
      && (forall id :: Load(b', id) == Load(b, id) + if id == c.endpoint.assignment then 1 else 0)
  {
    var serving := Serving(endpoints, t);
    EndpointOrder();
    DistinctIdsDoNotTie(serving);
    SortSorts(serving, Compare);
    ChoosePicksLeast(b, TargetKey(f, t.versionId, t.generation), Sort(serving, Compare));
  }

  /** An Acquire succeeds exactly when its inputs are in order and some endpoint serves the target. */
  lemma AcquireSucceedsWhenServed(b: BalancerState, f: string, t: Routing.Target, endpoints: seq<Endpoint>)
    ensures Acquire(b, f, t, endpoints).1.Chosen? <==>
      && FitRequest(f, t) && AllFit(endpoints) && DistinctIds(Serving(endpoints, t)) && Serving(endpoints, t) != []
  {
    var serving := Serving(endpoints, t);
    if DistinctIds(serving) && serving != [] {
      EndpointOrder();
      DistinctIdsDoNotTie(serving);
      SortSorts(serving, Compare);
      assert serving[0] in Sort(serving, Compare);
    }
  }

  /**
   If loads over the serving endpoints differ by at most gap, then after an Acquire by at most the larger of
   gap and 1.
   */
  lemma GapStaysBounded(
      b: BalancerState, f: string, t: Routing.Target, endpoints: seq<Endpoint>, gap: nat, x: Endpoint, y: Endpoint)
    requires Acquire(b, f, t, endpoints).1.Chosen?
    requires x in endpoints && Serves(x, t) && y in endpoints && Serves(y, t)
    requires Load(b, x.assignment) - Load(b, y.assignment) <= gap
    ensures var b' := Acquire(b, f, t, endpoints).0;
            Load(b', x.assignment) - Load(b', y.assignment) <= if gap >= 1 then gap else 1
  {
    AcquirePicksLeast(b, f, t, endpoints);
  }

  ghost predicate Even(b: BalancerState, t: Routing.Target, endpoints: seq<Endpoint>) {
    forall x, y :: x in endpoints && y in endpoints && Serves(x, t) && Serves(y, t) ==> Load(b, x.assignment) - Load(b, y.assignment) <= 1
  }

  function AcquireMany(
      b: BalancerState, f: string, t: Routing.Target, endpoints: seq<Endpoint>, n: nat): BalancerState {
    if n == 0 then b else Acquire(AcquireMany(b, f, t, endpoints, n - 1), f, t, endpoints).0
  }

  lemma PickStaysEven(b: BalancerState, b': BalancerState, c: Endpoint, t: Routing.Target, endpoints: seq<Endpoint>)
    requires Even(b, t, endpoints)
    requires forall e :: e in endpoints && Serves(e, t) ==> Load(b, c.assignment) <= Load(b, e.assignment)
    requires forall id :: Load(b', id) == Load(b, id) + if id == c.assignment then 1 else 0
    ensures Even(b', t, endpoints)
  {
  }

  lemma AcquireStaysEven(b: BalancerState, f: string, t: Routing.Target, endpoints: seq<Endpoint>)
    requires Even(b, t, endpoints)
    ensures Even(Acquire(b, f, t, endpoints).0, t, endpoints)
  {
    var (b', c) := Acquire(b, f, t, endpoints);
    if c.Chosen? {
      AcquirePicksLeast(b, f, t, endpoints);
      PickStaysEven(b, b', c.endpoint, t, endpoints);
    }
  }

  /**
   Any number of Acquires spreads its leases evenly: loads that differ by at most one go on differing by at
   most one.
   */
  lemma {:induction false} LoadsStayEven(
      b: BalancerState, f: string, t: Routing.Target, endpoints: seq<Endpoint>, n: nat)
    requires Even(b, t, endpoints)
    ensures Even(AcquireMany(b, f, t, endpoints, n), t, endpoints)
  {
    if n > 0 {
      LoadsStayEven(b, f, t, endpoints, n - 1);
      AcquireStaysEven(AcquireMany(b, f, t, endpoints, n - 1), f, t, endpoints);
    }
  }

  /** The choice does not depend on the order in which endpoints are listed. */
  lemma AcquireIgnoresOrder(b: BalancerState, f: string, t: Routing.Target, es: seq<Endpoint>, fs: seq<Endpoint>)
    requires AllFit(es) && AllFit(fs) && DistinctIds(Serving(es, t)) && DistinctIds(Serving(fs, t)) && forall e :: e in es <==> e in fs
    ensures Acquire(b, f, t, es) == Acquire(b, f, t, fs)
  {
    EndpointOrder();
    DistinctIdsDoNotTie(Serving(es, t));
    DistinctIdsDoNotTie(Serving(fs, t));
    SortIgnoresOrder(Serving(es, t), Serving(fs, t), Compare);
  }

  // ---------- leases ----------

  datatype Lease = Lease(identity: A.Identity, released: bool)

  /** Every lease ever handed out; copies of a lease share its release state. */
  datatype Sys = Sys(balancer: BalancerState, leases: seq<Lease>)

  datatype Step = AcquireStep(f: string, target: Routing.Target, endpoints: seq<Endpoint>) | ReleaseStep(lease: nat)

  function Next(s: Sys, step: Step): Sys {
    match step
    case AcquireStep(f, t, endpoints) =>
      var (b, c) := Acquire(s.balancer, f, t, endpoints);
      Sys(b, if c.Chosen? then s.leases + [Lease(c.endpoint.assignment, false)] else s.leases)
    case ReleaseStep(i) =>
      if i < |s.leases| && !s.leases[i].released then
        Sys(Release(s.balancer, s.leases[i].identity), s.leases[i := s.leases[i].(released := true)])
      else s
  }

  ghost function Open(leases: seq<Lease>, id: A.Identity): set<int> {
    set i: int | 0 <= i < |leases| && leases[i].identity == id && !leases[i].released
  }

  ghost predicate CountsLeases(s: Sys) {
    && (forall id :: Load(s.balancer, id) == |Open(s.leases, id)|)
    && (forall id :: id in s.balancer.inflight ==> s.balancer.inflight[id] > 0)
  }

  lemma OpenGrows(leases: seq<Lease>, x: Lease, id: A.Identity)
    requires !x.released
    ensures |Open(leases + [x], id)| == |Open(leases, id)| + if x.identity == id then 1 else 0
  {
    assert Open(leases + [x], id) == Open(leases, id) + (if x.identity == id then {|leases|} else {});
  }

  lemma OpenShrinks(leases: seq<Lease>, i: nat, id: A.Identity)
    requires i < |leases| && !leases[i].released
    ensures |Open(leases[i := leases[i].(released := true)], id)| == |Open(leases, id)| - if leases[i].identity == id then 1 else 0
  {
    assert Open(leases[i := leases[i].(released := true)], id) == Open(leases, id) - (if leases[i].identity == id then {i} else {});
  }

  lemma AcquireCounts(s: Sys, f: string, t: Routing.Target, endpoints: seq<Endpoint>)
    requires CountsLeases(s)
    ensures CountsLeases(Next(s, AcquireStep(f, t, endpoints)))
  {
    var s' := Next(s, AcquireStep(f, t, endpoints));
    if Acquire(s.balancer, f, t, endpoints).1.Chosen? {
      AcquirePicksLeast(s.balancer, f, t, endpoints);
      forall id ensures Load(s'.balancer, id) == |Open(s'.leases, id)| {
        OpenGrows(s.leases, s'.leases[|s.leases|], id);
      }
    }
  }

  lemma ReleaseCounts(s: Sys, i: nat)
    requires CountsLeases(s)
    ensures CountsLeases(Next(s, ReleaseStep(i)))
  {
    var s' := Next(s, ReleaseStep(i));
    if i < |s.leases| && !s.leases[i].released {
      var x := s.leases[i].identity;
      assert Load(s.balancer, x) == |Open(s.leases, x)| && i in Open(s.leases, x);
      forall id ensures Load(s'.balancer, id) == |Open(s'.leases, id)| {
        assert Load(s.balancer, id) == |Open(s.leases, id)|;
        OpenShrinks(s.leases, i, id);
      }
    }
  }

  ghost function Moves(): iset<R.Move<Sys, Step>> {
    iset m: R.Move<Sys, Step> | m.post == Next(m.pre, m.step)
  }

  ghost function CountingStates(): iset<Sys> {
    iset s: Sys | CountsLeases(s)
  }

  /**
   However often leases and their copies are released, inflight is the number of unreleased leases, and zero
   counts are dropped.
   */
  lemma InflightIsOpenLeases(s: Sys, id: A.Identity)
    requires R.Reachable(Sys(NewBalancer(), []), Moves(), s)
    ensures Load(s.balancer, id) == |Open(s.leases, id)|
    ensures id in s.balancer.inflight <==> Open(s.leases, id) != {}
  {
    var start := Sys(NewBalancer(), []);
    forall x ensures Load(start.balancer, x) == |Open(start.leases, x)| { assert Open(start.leases, x) == {}; }
    forall m | m in Moves() && m.pre in CountingStates() ensures m.post in CountingStates() {
      match m.step
      case AcquireStep(f, t, endpoints) => AcquireCounts(m.pre, f, t, endpoints);
      case ReleaseStep(i) => ReleaseCounts(m.pre, i);
    }
    R.ReachableIsIn(start, Moves(), CountingStates(), s);
  }

  // ---------- the object ----------

  class LoadBalancer {
    var inflight: map<A.Identity, nat>
    var roundRobin: map<TargetKey, U64>

    function View(): BalancerState
      reads this
    {
      BalancerState(inflight, roundRobin)
    }

    constructor ()
      ensures View() == NewBalancer()
    {
      inflight, roundRobin := map[], map[];
    }

    method ChooseLocked(key: TargetKey, sorted: seq<Endpoint>) returns (c: Choice)
      modifies this
      ensures (View(), c) == Choose(old(View()), key, sorted)
    {
      if sorted == [] {
        return NoReadyReplica;
      }
      var minimum := LeastLoad(View(), sorted);
      var tied := CollectTied(View(), sorted, minimum);
      var cursor := Cursor(View(), key);
      var chosen := tied[cursor % |tied|];
      roundRobin := roundRobin[key := Succ64(cursor)];
      inflight := inflight[chosen.assignment := Load(View(), chosen.assignment) + 1];
      return Chosen(chosen);
    }

    method AcquireEndpoint(f: string, t: Routing.Target, endpoints: seq<Endpoint>) returns (c: Choice)
      modifies this
      ensures (View(), c) == Acquire(old(View()), f, t, endpoints)
    {
      if !FitRequest(f, t) {
        return Invalid;
      }
      var serving := Filter(endpoints, t);
      if serving.None? {
        return Invalid;
      }
      c := ChooseLocked(TargetKey(f, t.versionId, t.generation), Sort(serving.value, Compare));
    }

    method ReleaseOnce(id: A.Identity)
      modifies this`inflight
      ensures View() == Release(old(View()), id)
    {
      var count := Load(View(), id);
      if count <= 1 {
        inflight := inflight - {id};
      } else {
        inflight := inflight[id := count - 1];
      }
    }
  }

  /** What all copies of one lease share. */
  class ReleaseState {
    const balancer: LoadBalancer
    const identity: A.Identity
    var done: bool

    constructor (balancer: LoadBalancer, identity: A.Identity)
      ensures this.balancer == balancer && this.identity == identity && !done
    {
      this.balancer, this.identity, done := balancer, identity, false;
    }

    method ReleaseLease()
      modifies this, balancer
      ensures done
      ensures balancer.View() == if old(done) then old(balancer.View()) else Release(old(balancer.View()), identity)
    {
      if !done {
        done := true;
        balancer.ReleaseOnce(identity);
      }
    }
  }

  ghost function IdsOf(es: seq<Endpoint>): set<string> {
    set e | e in es :: e.assignment.assignmentId
  }

  lemma IdsGrow(es: seq<Endpoint>, e: Endpoint)
    requires DistinctIds(es)
    ensures IdsOf(es + [e]) == IdsOf(es) + {e.assignment.assignmentId}
    ensures DistinctIds(es + [e]) <==> e.assignment.assignmentId !in IdsOf(es)
  {
    var r := es + [e];
    if e.assignment.assignmentId in IdsOf(es) {
      var x :| x in es && x.assignment.assignmentId == e.assignment.assignmentId;
      var i :| 0 <= i < |es| && es[i] == x;
      assert r[i].assignment.assignmentId == r[|es|].assignment.assignmentId;
    } else {
      forall i, j | 0 <= i < j < |r| ensures r[i].assignment.assignmentId != r[j].assignment.assignmentId {
        assert es[i] in es;
      }
    }
  }

  lemma ServingStep(endpoints: seq<Endpoint>, t: Routing.Target, i: nat)
    requires i < |endpoints|
    ensures Serving(endpoints[..i + 1], t) == Serving(endpoints[..i], t) + if Serves(endpoints[i], t) then [endpoints[i]] else []
  {
    assert endpoints[..i + 1][..i] == endpoints[..i];
  }

  lemma {:induction false} ServingPrefix(endpoints: seq<Endpoint>, t: Routing.Target, n: nat)
    requires n <= |endpoints| && !DistinctIds(Serving(endpoints[..n], t))
    ensures !DistinctIds(Serving(endpoints, t))
    decreases |endpoints| - n
  {
    if n == |endpoints| {
      assert endpoints[..n] == endpoints;
    } else {
      ServingStep(endpoints, t, n);
      var a, b := Serving(endpoints[..n], t), Serving(endpoints[..n + 1], t);
      var i, j :| 0 <= i < j < |a| && a[i].assignment.assignmentId == a[j].assignment.assignmentId;
      assert b[i] == a[i] && b[j] == a[j];
      ServingPrefix(endpoints, t, n + 1);
    }
  }

  /**
   The filter loop of Acquire: the endpoints that serve the target, or None for a bad endpoint or a repeated
   assignment.
   */
  method Filter(endpoints: seq<Endpoint>, t: Routing.Target) returns (r: Option<seq<Endpoint>>)
    ensures r == if AllFit(endpoints) && DistinctIds(Serving(endpoints, t)) then Some(Serving(endpoints, t)) else None
  {
    var serving: seq<Endpoint> := [];
    var seen: set<string> := {};
    for i := 0 to |endpoints|
      invariant serving == Serving(endpoints[..i], t) && DistinctIds(serving) && seen == IdsOf(serving)
      invariant forall j :: 0 <= j < i ==> endpoints[j].fit
    {
      var e := endpoints[i];
      ServingStep(endpoints, t, i);
      if !e.fit {
        return None;
      }
      if Serves(e, t) {
        IdsGrow(serving, e);
        if e.assignment.assignmentId in seen {
          ServingPrefix(endpoints, t, i + 1);
          return None;
        }
        seen := seen + {e.assignment.assignmentId};
        serving := serving + [e];
      }
    }
    assert endpoints[..|endpoints|] == endpoints;
    return Some(serving);
  }

  /** The loop that finds the least load. */
  method LeastLoad(b: BalancerState, es: seq<Endpoint>) returns (minimum: nat)
    requires es != []
    ensures minimum == MinLoad(b, es)
  {
    minimum := Load(b, es[0].assignment);
    for i := 1 to |es|
      invariant minimum == MinLoad(b, es[..i])
    {
      assert es[..i + 1][..i] == es[..i];
      if Load(b, es[i].assignment) < minimum {
        minimum := Load(b, es[i].assignment);
      }
    }
    assert es[..|es|] == es;
  }

  /** The loop that collects the endpoints with that load. */
  method CollectTied(b: BalancerState, es: seq<Endpoint>, minimum: nat) returns (tied: seq<Endpoint>)
    ensures tied == AtLoad(b, es, minimum)
  {
    tied := [];
    for i := 0 to |es|
      invariant tied == AtLoad(b, es[..i], minimum)
    {
      assert es[..i + 1][..i] == es[..i];
      if Load(b, es[i].assignment) == minimum {
        tied := tied + [es[i]];
      }
    }
    assert es[..|es|] == es;
  }
}
