/**
 The compiled-module cache as a mutable object: one method per critical
 section, proved against the functions of CacheCore that the run theorems
 are about.
 */
module WorkerCache {
  import opened Common
  import opened CacheCore
  import S = CacheSystem

  lemma {:induction false} WithoutTwice(s: seq<nat>, a: set<nat>, b: set<nat>)
    ensures Without(Without(s, a), b) == Without(s, a + b)
  {
    if s != [] {
      WithoutTwice(s[1..], a, b);
      if s[0] !in a {
        WithoutCons(s[0], Without(s[1..], a), b);
      }
    }
  }

  lemma WithoutCons(x: nat, s: seq<nat>, drop: set<nat>)
    ensures Without([x] + s, drop) == if x in drop then Without(s, drop) else [x] + Without(s, drop)
  {
    assert ([x] + s)[1..] == s;
  }

  lemma {:induction false} WithoutNothing(s: seq<nat>)
    ensures Without(s, {}) == s
  {
    if s != [] { WithoutNothing(s[1..]); }
  }

  /** The reference selection is the only oldest-first run that makes room and has no shorter one. */
  lemma {:induction false} ShortestIsUnique(limits: Limits, s: Core, need: int, k: nat, n: nat)
    requires k <= n <= |Unpinned(s.cells, s.lru)|
    requires MakesRoom(limits, s, Unpinned(s.cells, s.lru)[..n], need)
    requires forall j :: k <= j < n ==> !MakesRoom(limits, s, Unpinned(s.cells, s.lru)[..j], need)
    ensures ShortestRun(limits, s, need, k) == Some(Unpinned(s.cells, s.lru)[..n])
    decreases n - k
  {
    if k < n {
      ShortestIsUnique(limits, s, need, k + 1, n);
    }
  }

  /** The programs whose Close failed, in order; closed[i] tells how the i-th attempt went. */
  function FailedOf(programs: seq<nat>, closed: seq<bool>): (failed: seq<nat>)
    requires |programs| == |closed|
    ensures forall p :: p in failed ==> p in programs
  {
    if programs == [] then []
    else if closed[0] then FailedOf(programs[1..], closed[1..])
    else [programs[0]] + FailedOf(programs[1..], closed[1..])
  }

  /** Closing a batch one program at a time, as goroutines do between critical sections. */
  function CloseBatch(b: S.Batch, closed: seq<bool>): S.Batch
    requires |b.todo| == |closed|
    decreases |closed|
  {
    if closed == [] then b else CloseBatch(S.CloseOne(b, closed[0]), closed[1..])
  }

  lemma {:induction false} BatchKeepsFailures(b: S.Batch, closed: seq<bool>)
    requires |b.todo| == |closed|
    ensures CloseBatch(b, closed) == S.Batch([], b.failed + FailedOf(b.todo, closed))
    decreases |closed|
  {
    if closed == [] {
      assert b.failed + [] == b.failed;
    } else {
      var c := S.CloseOne(b, closed[0]);
      BatchKeepsFailures(c, closed[1..]);
      assert c.failed + FailedOf(b.todo[1..], closed[1..]) == b.failed + FailedOf(b.todo, closed);
    }
  }

  /** closePrograms. */
  method ClosePrograms(programs: seq<nat>, closed: seq<bool>) returns (failed: seq<nat>)
    requires |programs| == |closed|
    ensures failed == FailedOf(programs, closed)
    ensures S.Batch([], failed) == CloseBatch(S.Batch(programs, []), closed)
  {
    failed := [];
    var i := 0;
    while i < |programs|
      invariant 0 <= i <= |programs|
      invariant failed + FailedOf(programs[i..], closed[i..]) == FailedOf(programs, closed)
    {
      assert programs[i..][1..] == programs[i + 1..] && closed[i..][1..] == closed[i + 1..];
      if !closed[i] {
        failed := failed + [programs[i]];
      }
      i := i + 1;
    }
    BatchKeepsFailures(S.Batch(programs, []), closed);
    assert [] + FailedOf(programs, closed) == FailedOf(programs, closed);
  }

  /** After visiting all but the first i list elements, `victims` are the unpinned ones, and no fewer make room. */
  ghost predicate Walked(limits: Limits, s: Core, need: int, i: nat, victims: seq<nat>) {
    var u := Unpinned(s.cells, s.lru);
    && i <= |s.lru| && u == victims + Unpinned(s.cells, s.lru[..i])
    && forall j :: 0 <= j < |victims| ==> !MakesRoom(limits, s, u[..j], need)
  }

  /** One step towards the front of the list. */
  lemma WalkStep(limits: Limits, s: Core, need: int, i: nat, victims: seq<nat>)
    requires Walked(limits, s, need, i, victims) && i > 0 && s.lru[i - 1] in s.cells
    requires !MakesRoom(limits, s, victims, need)
    ensures Walked(limits, s, need, i - 1, if s.cells[s.lru[i - 1]].refs == 0 then victims + [s.lru[i - 1]] else victims)
  {
    var u := Unpinned(s.cells, s.lru);
    var last := s.lru[i - 1];
    assert s.lru[..i][..i - 1] == s.lru[..i - 1];
    assert u[..|victims|] == victims;
    if s.cells[last].refs == 0 {
      assert u == (victims + [last]) + Unpinned(s.cells, s.lru[..i - 1]);
    }
  }

  lemma WalkEnd(limits: Limits, s: Core, need: int, i: nat, victims: seq<nat>)
    requires Walked(limits, s, need, i, victims)
    ensures MakesRoom(limits, s, victims, need) ==> SelectVictims(limits, s, need) == Some(victims)
    ensures i == 0 && !MakesRoom(limits, s, victims, need) ==> SelectVictims(limits, s, need) == None
  {
    var u := Unpinned(s.cells, s.lru);
    assert u[..|victims|] == victims;
    if MakesRoom(limits, s, victims, need) {
      ShortestIsUnique(limits, s, need, 0, |victims|);
    } else if i == 0 {
      assert victims == u == u[..|u|];
    }
  }

  /** The loop of selectVictimsLocked, from the back of the list. */
  method WalkFromBack(limits: Limits, s: Core, weight: int) returns (r: Option<seq<nat>>)
    requires forall i :: i in s.lru ==> i in s.cells
    ensures r == SelectVictims(limits, s, weight)
  {
    var remainingWeight, remainingEntries := s.currentWeight, |s.entries|;
    var victims: seq<nat> := [];
    var i := |s.lru|;
    assert s.lru[..i] == s.lru;
    while i > 0 && !Room(limits, remainingWeight, remainingEntries, weight)
      invariant 0 <= i <= |s.lru|
      invariant Walked(limits, s, weight, i, victims)
      invariant remainingWeight == s.currentWeight - TotalWeight(s.cells, victims)
      invariant remainingEntries == |s.entries| - |victims|
    {
      var candidate := s.lru[i - 1];
      WalkStep(limits, s, weight, i, victims);
      if s.cells[candidate].refs == 0 {
        TotalWeightConcat(s.cells, victims, [candidate]);
        victims := victims + [candidate];
        remainingWeight := remainingWeight - s.cells[candidate].weight;
        remainingEntries := remainingEntries - 1;
      }
      i := i - 1;
    }
    WalkEnd(limits, s, weight, i, victims);
    r := if Room(limits, remainingWeight, remainingEntries, weight) then Some(victims) else None;
  }

  /** Evicting one more entry extends each accumulated effect by that entry. */
  lemma EvictOne(cells: map<nat, Entry>, entries: map<Key, nat>, lru: seq<nat>, gone: seq<nat>, victim: nat)
    requires victim in cells
    ensures (entries - KeysOf(cells, gone)) - {cells[victim].key} == entries - KeysOf(cells, gone + [victim])
    ensures Without(Without(lru, ToSetOf(gone)), {victim}) == Without(lru, ToSetOf(gone + [victim]))
    ensures TotalWeight(cells, gone + [victim]) == TotalWeight(cells, gone) + cells[victim].weight
  {
    assert KeysOf(cells, gone + [victim]) == KeysOf(cells, gone) + {cells[victim].key};
    assert ToSetOf(gone + [victim]) == ToSetOf(gone) + {victim};
    WithoutTwice(lru, ToSetOf(gone), {victim});
    TotalWeightConcat(cells, gone, [victim]);
  }

  lemma EvictNone(cells: map<nat, Entry>, entries: map<Key, nat>, lru: seq<nat>)
    ensures entries - KeysOf(cells, []) == entries
    ensures Without(lru, ToSetOf([])) == lru
  {
    assert KeysOf(cells, []) == {} && ToSetOf([]) == {};
    WithoutNothing(lru);
  }

  /** Pointers lead to allocated objects, the map is keyed by its entries, and new numbers are fresh. */
  ghost predicate Sound(s: Core, nextEntry: nat, nextFlight: nat) {
    && Linked(s)
    && (forall k :: k in s.entries ==> s.cells[s.entries[k]].key == k)
    && (forall e :: e in s.cells ==> e < nextEntry)
    && (forall f :: f in s.fcells ==> f < nextFlight)
  }

  lemma DetachSound(s: Core, order: seq<nat>, e: nat, n: nat)
    requires Sound(s, e, n) && forall i :: i in order ==> i in s.cells
    ensures Sound(Detach(s, order).0, e, n)
  {
  }

  /** The loop of detachProgramsLocked: `order` is the order in which the range visited the map. */
  method RangeOverEntries(s: Core) returns (programs: seq<nat>, ghost order: seq<nat>)
    requires forall k :: k in s.entries ==> s.entries[k] in s.cells && s.cells[s.entries[k]].key == k
    ensures Enumerates(s, order)
    ensures (forall i :: i in order ==> i in s.cells) && programs == ProgramsOf(s.cells, order)
    ensures |programs| == |s.entries|
  {
    programs, order := [], [];
    var todo := s.entries.Keys;
    while todo != {}
      invariant todo <= s.entries.Keys && Distinct(order) && |programs| + |todo| == |s.entries|
      invariant forall i :: i in order ==> i in s.cells
      invariant forall i :: i in order ==> i in s.entries.Values && s.cells[i].key !in todo
      invariant forall k :: k in s.entries.Keys - todo ==> s.entries[k] in order
      invariant programs == ProgramsOf(s.cells, order)
      decreases |todo|
    {
      var k :| k in todo;
      programs := programs + [s.cells[s.entries[k]].program];
      order := order + [s.entries[k]];
      todo := todo - {k};
    }
  }

  class Cache {
    const limits: Limits
    var cells: map<nat, Entry>
    var entries: map<Key, nat>
    var lru: seq<nat>
    var fcells: map<nat, Flight>
    var flights: map<Key, nat>
    var currentWeight: int
    var active: int
    var drainGen: nat
    var drainClosed: bool
    var closing: bool
    var releasing: bool
    var released: bool
    var closePending: seq<nat>
    var nextEntry: nat
    var nextFlight: nat

    function View(): Core
      reads this
    {
      Core(cells, entries, lru, fcells, flights, currentWeight, active, drainGen, drainClosed,
           closing, releasing, released, closePending)
    }

    ghost predicate Valid()
      reads this
    {
      Sound(View(), nextEntry, nextFlight)
    }

    constructor (limits: Limits)
      ensures View() == Empty() && Valid() && this.limits == limits
    {
      this.limits := limits;
      cells, entries, lru, fcells, flights := map[], map[], [], map[], map[];
      currentWeight, active, drainGen, drainClosed := 0, 0, 0, true;
      closing, releasing, released, closePending := false, false, false, [];
      nextEntry, nextFlight := 0, 0;
    }

    method StartLocked()
      modifies this
      ensures View() == Start(old(View()))
      ensures nextEntry == old(nextEntry) && nextFlight == old(nextFlight)
    {
      if active == 0 {
        drainGen, drainClosed := drainGen + 1, false;
      }
      active := active + 1;
    }

    method EndLocked()
      modifies this
      ensures View() == End(old(View()))
      ensures nextEntry == old(nextEntry) && nextFlight == old(nextFlight)
    {
      active := active - 1;
      if active == 0 {
        drainClosed := true;
      }
    }

    /** The first critical section of Acquire. */
    method Begin() returns (ok: bool)
      requires Valid()
      modifies this
      ensures Valid() && ok == !old(closing)
      ensures View() == if ok then Start(old(View())) else old(View())
    {
      if closing {
        return false;
      }
      StartLocked();
      return true;
    }

    /** A hit: one more reference, and the entry moves to the front. */
    method PinAndTouch(e: nat)
      requires Valid() && e in cells
      modifies this`cells, this`lru
      ensures Valid() && cells == Pin(old(cells), e, 1) && lru == Touch(old(lru), e)
    {
      cells := cells[e := cells[e].(refs := cells[e].refs + 1)];
      lru := [e] + Without(lru, {e});
    }

    /** A miss that finds a load of the same key under way. */
    method JoinFlight(g: nat)
      requires Valid() && g in fcells
      modifies this`fcells
      ensures Valid() && fcells == old(fcells)[g := old(fcells)[g].(waiters := old(fcells)[g].waiters + 1)]
    {
      fcells := fcells[g := fcells[g].(waiters := fcells[g].waiters + 1)];
    }

    method StartFlightLocked(key: Key, weight: int) returns (f: nat)
      requires Valid()
      modifies this
      ensures Valid() && f == old(nextFlight) && View() == StartFlight(old(View()), key, weight, f)
    {
      f := nextFlight;
      nextFlight := f + 1;
      fcells := fcells[f := Flight(key, weight, 1, false, false, None)];
      flights := flights[key := f];
      StartLocked();
    }

    /** The second critical section of Acquire. */
    method Acquire(key: Key, weight: int, queueFull: bool) returns (how: Admission)
      requires Valid()
      modifies this
      ensures Valid() && (View(), how) == Admit(old(View()), key, weight, queueFull, old(nextFlight))
    {
      if closing {
        return Refused;
      }
      if key in entries {
        PinAndTouch(entries[key]);
        return Hit(entries[key]);
      }
      if key in flights {
        JoinFlight(flights[key]);
        return Joined(flights[key]);
      }
      if queueFull {
        return QueueFull;
      }
      var f := StartFlightLocked(key, weight);
      return Started(f);
    }

    /** abandonFlight. */
    method AbandonFlight(f: nat)
      requires Valid() && f in fcells && (fcells[f].entry.Some? ==> fcells[f].entry.value in cells)
      modifies this
      ensures Valid() && View() == Abandon(old(View()), f)
    {
      var flight := fcells[f];
      if flight.waiters == 0 {
        assert fcells[f := flight] == fcells;
        return;
      }
      fcells := fcells[f := flight.(waiters := flight.waiters - 1)];
      if flight.finished && flight.entry.Some? {
        var e := flight.entry.value;
        cells := cells[e := cells[e].(refs := cells[e].refs - 1)];
      }
      if !flight.finished && flight.waiters == 1 {
        fcells := fcells[f := fcells[f].(cancelled := true)];
      }
    }

    /** Lease.Release, on its first call. */
    method Release(e: nat)
      requires Valid() && e in cells
      modifies this
      ensures Valid() && View() == Unpin(old(View()), e)
    {
      cells := cells[e := cells[e].(refs := cells[e].refs - 1)];
      EndLocked();
    }

    /** selectVictimsLocked. */
    method SelectVictimsLocked(weight: int) returns (r: Option<seq<nat>>)
      requires Valid()
      ensures r == SelectVictims(limits, View(), weight)
    {
      r := WalkFromBack(limits, View(), weight);
    }

    /** The eviction loop of completeFlight. */
    method Evict(victims: seq<nat>) returns (programs: seq<nat>)
      requires Valid() && forall v :: v in victims ==> v in cells
      modifies this`entries, this`lru, this`currentWeight
      ensures Valid() && programs == ProgramsOf(cells, victims)
      ensures entries == old(entries) - KeysOf(cells, victims)
      ensures lru == Without(old(lru), ToSetOf(victims))
      ensures currentWeight == old(currentWeight) - TotalWeight(cells, victims)
    {
      programs := [];
      EvictNone(cells, entries, lru);
      for i := 0 to |victims|
        invariant programs == ProgramsOf(cells, victims[..i])
        invariant entries == old(entries) - KeysOf(cells, victims[..i])
        invariant lru == Without(old(lru), ToSetOf(victims[..i]))
        invariant currentWeight == old(currentWeight) - TotalWeight(cells, victims[..i])
      {
        var victim := victims[i];
        assert victims[..i + 1] == victims[..i] + [victim];
        EvictOne(cells, old(entries), old(lru), victims[..i], victim);
        entries := entries - {cells[victim].key};
        lru := Without(lru, {victim});
        currentWeight := currentWeight - cells[victim].weight;
        programs := programs + [cells[victim].program];
      }
      assert victims[..|victims|] == victims;
    }

    /** A new entry at the front of the list, pinned once per waiter. */
    method Insert(key: Key, program: nat, weight: int, refs: int)
      requires Valid()
      modifies this`cells, this`lru, this`entries, this`currentWeight, this`nextEntry
      ensures Valid() && cells == old(cells)[old(nextEntry) := Entry(key, program, weight, refs)]
      ensures lru == [old(nextEntry)] + old(lru) && entries == old(entries)[key := old(nextEntry)]
      ensures currentWeight == old(currentWeight) + weight
    {
      var e := nextEntry;
      nextEntry := e + 1;
      cells := cells[e := Entry(key, program, weight, refs)];
      lru := [e] + lru;
      entries := entries[key := e];
      currentWeight := currentWeight + weight;
    }

    /** The flight leaves the map and its waiters are told. */
    method Settle(f: nat, entry: Option<nat>)
      requires Valid() && f in fcells
      modifies this`flights, this`fcells
      ensures Valid() && flights == old(flights) - {old(fcells)[f].key}
      ensures fcells == old(fcells)[f := old(fcells)[f].(finished := true, cancelled := true, entry := entry)]
    {
      flights := flights - {fcells[f].key};
      fcells := fcells[f := fcells[f].(finished := true, cancelled := true, entry := entry)];
    }

    /** The successful case of completeFlight: evict, then cache the program under a new entry. */
    method PublishLocked(f: nat, program: nat, victims: seq<nat>) returns (toClose: seq<nat>)
      requires Valid() && f in fcells && forall v :: v in victims ==> v in cells
      modifies this
      ensures Valid() && View() == Publish(old(View()), f, program, old(nextEntry), victims)
      ensures toClose == ProgramsOf(old(cells), victims)
    {
      var e := nextEntry;
      toClose := Evict(victims);
      Insert(fcells[f].key, program, fcells[f].weight, fcells[f].waiters);
      Settle(f, Some(e));
    }

    /** The critical section of completeFlight; returns the programs to close after it. */
    method CompleteFlight(f: nat, program: Option<nat>, loadErr: bool) returns (toClose: seq<nat>)
      requires Valid() && f in fcells && (loadErr || program.Some?)
      modifies this
      ensures Valid()
      ensures (View(), toClose) == Complete(limits, old(View()), f, program, loadErr, old(nextEntry))
    {
      if !closing && !loadErr && fcells[f].waiters != 0 {
        var victims := SelectVictimsLocked(fcells[f].weight);
        if victims.Some? {
          toClose := PublishLocked(f, program.value, victims.value);
          return;
        }
      }
      Settle(f, None);
      toClose := if program.Some? then [program.value] else [];
    }

    /** cancelFlightsLocked. */
    method CancelFlightsLocked()
      requires Valid()
      modifies this`fcells
      ensures Valid() && fcells == CancelAll(old(fcells), flights)
    {
      var todo := flights.Values;
      while todo != {}
        invariant todo <= flights.Values && fcells.Keys == old(fcells).Keys
        invariant forall f :: f in fcells ==>
          fcells[f] == if f in flights.Values - todo then old(fcells)[f].(cancelled := true) else old(fcells)[f]
        decreases |todo|
      {
        var f :| f in todo;
        fcells := fcells[f := fcells[f].(cancelled := true)];
        todo := todo - {f};
      }
    }

    /** The critical section of closeEvicted when some program failed to close. */
    method ReportFailures(failed: seq<nat>)
      requires Valid()
      modifies this
      ensures Valid() && View() == ReportFailed(old(View()), failed)
    {
      closePending := closePending + failed;
      closing := true;
      CancelFlightsLocked();
    }

    /** The first critical section of a round of Close. */
    method CloseBeginLocked() returns (how: CloseEntry)
      requires Valid()
      modifies this
      ensures Valid() && (View(), how) == CloseBegin(old(View()))
    {
      if released {
        return AlreadyReleased;
      }
      if !closing {
        closing := true;
        CancelFlightsLocked();
      }
      return if releasing then AwaitRelease else AwaitDrain(drainGen);
    }

    /** The second critical section: detachProgramsLocked and the pending list. */
    method DetachPrograms() returns (programs: seq<nat>, ghost order: seq<nat>)
      requires Valid() && !releasing
      modifies this
      ensures Valid() && Enumerates(old(View()), order)
      ensures (forall i :: i in order ==> i in old(cells)) && (View(), programs) == Detach(old(View()), order)
    {
      programs, order := RangeOverEntries(View());
      DetachSound(View(), order, nextEntry, nextFlight);
      programs := programs + closePending;
      entries, lru, currentWeight := map[], [], 0;
      closePending, releasing := [], true;
    }

    /** The third critical section of Close. */
    method CloseEndLocked(failed: seq<nat>)
      requires Valid()
      modifies this
      ensures Valid() && View() == CloseEnd(old(View()), failed)
    {
      closePending := failed;
      releasing := false;
      if failed == [] {
        released := true;
      }
    }
  }
}
