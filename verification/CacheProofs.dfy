/** Every step of the cache system keeps its invariant. */
module CacheProofs {
  import opened Common
  import opened CacheCore
  import opened CacheSystem

  // ---------- counting ----------

  function One(b: bool): int { if b then 1 else 0 }

  lemma SizeChange(before: set<nat>, after: set<nat>, c: nat)
    requires forall x :: x != c ==> (x in before <==> x in after)
    ensures |after| == |before| - One(c in before) + One(c in after)
  {
    assert after - {c} == before - {c};
    assert c in after ==> after == (after - {c}) + {c};
    assert c in before ==> before == (before - {c}) + {c};
  }

  lemma MapPut<V>(m: map<nat, V>, k: nat, v: V)
    ensures |m[k := v]| == |m| + One(k !in m)
  {
    SizeChange(m.Keys, m[k := v].Keys, k);
  }

  lemma MapDrop<V>(m: map<nat, V>, k: nat)
    ensures |m - {k}| == |m| - One(k in m)
  {
    SizeChange(m.Keys, (m - {k}).Keys, k);
  }

  lemma HoldersUpdate(fcells: map<nat, Flight>, callers: map<nat, Caller>, c: nat, v: Caller, e: nat)
    ensures |Holders(fcells, callers[c := v], e)|
         == |Holders(fcells, callers, e)| - One(c in callers && Pins(fcells, callers[c], e)) + One(Pins(fcells, v, e))
  {
    SizeChange(Holders(fcells, callers, e), Holders(fcells, callers[c := v], e), c);
  }

  lemma HoldersRemove(fcells: map<nat, Flight>, callers: map<nat, Caller>, c: nat, e: nat)
    requires c in callers
    ensures |Holders(fcells, callers - {c}, e)|
         == |Holders(fcells, callers, e)| - One(Pins(fcells, callers[c], e))
  {
    SizeChange(Holders(fcells, callers, e), Holders(fcells, callers - {c}, e), c);
  }

  lemma WaitersUpdate(callers: map<nat, Caller>, c: nat, v: Caller, f: nat)
    ensures |WaitersOf(callers[c := v], f)|
         == |WaitersOf(callers, f)| - One(c in callers && callers[c] == Waiting(f)) + One(v == Waiting(f))
  {
    SizeChange(WaitersOf(callers, f), WaitersOf(callers[c := v], f), c);
  }

  /** Only the finished flights and their entries decide who pins what. */
  lemma HoldersSame(before: map<nat, Flight>, after: map<nat, Flight>, callers: map<nat, Caller>, e: nat)
    requires forall c :: c in callers ==> (Pins(before, callers[c], e) <==> Pins(after, callers[c], e))
    ensures Holders(before, callers, e) == Holders(after, callers, e)
  {
  }

  lemma WaitersRemove(callers: map<nat, Caller>, c: nat, f: nat)
    requires c in callers && callers[c] != Waiting(f)
    ensures WaitersOf(callers - {c}, f) == WaitersOf(callers, f)
  {
  }

  // ---------- the list ----------

  /** Two orders of the same entries weigh the same. */
  lemma {:induction false} WeightOfSet(cells: map<nat, Entry>, a: seq<nat>, b: seq<nat>)
    requires Distinct(a) && Distinct(b)
    requires forall i :: i in a <==> i in b
    ensures |a| == |b| && TotalWeight(cells, a) == TotalWeight(cells, b)
    decreases |a|
  {
    DistinctSize(a);
    DistinctSize(b);
    assert ToSet(a) == ToSet(b);
    if a != [] {
      assert a[0] in b;
      var j :| 0 <= j < |b| && b[j] == a[0];
      var rest := b[..j] + b[j + 1..];
      assert b == b[..j] + [b[j]] + b[j + 1..];
      SameRest(a, b, j);
      WeightOfSet(cells, a[1..], rest);
      TotalWeightConcat(cells, b[..j] + [b[j]], b[j + 1..]);
      TotalWeightConcat(cells, b[..j], [b[j]]);
      TotalWeightConcat(cells, b[..j], b[j + 1..]);
    }
  }

  lemma SameRest(a: seq<nat>, b: seq<nat>, j: nat)
    requires a != [] && j < |b| && b[j] == a[0]
    requires Distinct(a) && Distinct(b)
    requires forall i :: i in a <==> i in b
    ensures var rest := b[..j] + b[j + 1..];
            Distinct(a[1..]) && Distinct(rest) && forall i :: i in a[1..] <==> i in rest
  {
    var rest := b[..j] + b[j + 1..];
    forall i ensures i in a[1..] <==> i in rest {
      if i in a[1..] {
        assert i in b && i != a[0];
        var m :| 0 <= m < |b| && b[m] == i;
        assert m < j ==> rest[m] == i;
        assert m > j ==> rest[m - 1] == i;
      }
      if i in rest {
        var m :| 0 <= m < |rest| && rest[m] == i;
        assert rest[m] == if m < j then b[m] else b[m + 1];
        assert i in a && i != a[0];
        var n :| 0 <= n < |a| && a[n] == i;
        assert a[1..][n - 1] == i;
      }
    }
  }

  lemma {:induction false} TotalWeightSame(a: map<nat, Entry>, b: map<nat, Entry>, ids: seq<nat>)
    requires forall e :: e in ids ==> e in a && e in b && a[e].weight == b[e].weight
    ensures TotalWeight(a, ids) == TotalWeight(b, ids)
  {
    if ids != [] {
      TotalWeightSame(a, b, ids[1..]);
    }
  }

  lemma TouchFacts(lru: seq<nat>, e: nat)
    requires Distinct(lru) && e in lru
    ensures Distinct(Touch(lru, e))
    ensures forall x :: x in Touch(lru, e) <==> x in lru
  {
    WithoutDistinct(lru, {e});
    DistinctAppend([e], Without(lru, {e}));
  }

  /** The same entries, possibly reordered and differently pinned. */
  lemma Relist(limits: Limits, core: Core, core': Core)
    requires ListOk(limits, core)
    requires Distinct(core'.lru) && forall x :: x in core'.lru <==> x in core.lru
    requires core'.entries == core.entries && core'.currentWeight == core.currentWeight
    requires SameModules(core.cells, core'.cells)
    ensures ListOk(limits, core')
  {
    WeightOfSet(core.cells, core.lru, core'.lru);
    forall e | e in core'.lru ensures Listed(core', e) { assert Listed(core, e); }
    forall k | k in core'.entries ensures Mapped(core', k) { assert Mapped(core, k); }
    TotalWeightSame(core.cells, core'.cells, core'.lru);
  }

  // ---------- callers and flights ----------

  /** The flight objects, their goroutines and their waiters are as before. */
  lemma FlightsFrame(limits: Limits, s: Sys, s': Sys)
    requires Pointers(s) && FlightsOk(limits, s)
    requires s'.core.fcells == s.core.fcells && s'.core.flights == s.core.flights && s'.loaders == s.loaders
    requires s'.core.entries.Keys == s.core.entries.Keys && s'.core.closing == s.core.closing
    requires s.core.cells.Keys <= s'.core.cells.Keys && s'.nextFlight == s.nextFlight
    requires Linked(s'.core)
    requires forall c :: c in s'.callers ==> CallerOk(limits, s', c) && Points(s'.core, s'.callers[c])
    requires forall f :: f in s.core.fcells ==>
      |WaitersOf(s'.callers, f)| == |WaitersOf(s.callers, f)|
      || (s.core.fcells[f].finished && |WaitersOf(s'.callers, f)| <= |WaitersOf(s.callers, f)|)
    ensures Pointers(s') && FlightsOk(limits, s')
  {
    forall f | f in s'.core.fcells ensures FlightOk(limits, s', f) { assert FlightOk(limits, s, f); }
    forall k | k in s'.core.flights ensures InFlight(s'.core, k) { assert InFlight(s.core, k); }
  }

  /** Caller c changes to v. */
  lemma PutFlights(limits: Limits, s: Sys, s': Sys, c: nat, v: Caller)
    requires Pointers(s) && FlightsOk(limits, s)
    requires s'.core.fcells == s.core.fcells && s'.core.flights == s.core.flights && s'.loaders == s.loaders
    requires s'.core.entries.Keys == s.core.entries.Keys && s'.core.closing == s.core.closing
    requires s.core.cells.Keys <= s'.core.cells.Keys && s'.nextFlight == s.nextFlight
    requires Linked(s'.core)
    requires s'.callers == s.callers[c := v] && s'.nextCaller >= s.nextCaller
    requires !v.Waiting? && CallerOk(limits, s', c) && Points(s'.core, v)
    requires c in s.callers && s.callers[c].Waiting? ==> FlightDone(s.core, s.callers[c].flight)
    ensures Pointers(s') && FlightsOk(limits, s')
  {
    forall f | f in s.core.fcells ensures |WaitersOf(s'.callers, f)| == |WaitersOf(s.callers, f)|
      || (s.core.fcells[f].finished && |WaitersOf(s'.callers, f)| <= |WaitersOf(s.callers, f)|) {
      WaitersUpdate(s.callers, c, v, f);
    }
    forall x | x in s'.callers ensures CallerOk(limits, s', x) && Points(s'.core, s'.callers[x]) {
      assert x != c ==> CallerOk(limits, s, x) && Points(s.core, s.callers[x]);
    }
    FlightsFrame(limits, s, s');
  }

  /** Caller c, not in awaitFlight, leaves. */
  lemma DropFlights(limits: Limits, s: Sys, s': Sys, c: nat)
    requires Pointers(s) && FlightsOk(limits, s)
    requires s'.core.fcells == s.core.fcells && s'.core.flights == s.core.flights && s'.loaders == s.loaders
    requires s'.core.entries.Keys == s.core.entries.Keys && s'.core.closing == s.core.closing
    requires s.core.cells.Keys <= s'.core.cells.Keys && s'.nextFlight == s.nextFlight
    requires Linked(s'.core)
    requires s'.callers == s.callers - {c} && s'.nextCaller == s.nextCaller
    requires c in s.callers && !s.callers[c].Waiting?
    ensures Pointers(s') && FlightsOk(limits, s')
  {
    forall f ensures WaitersOf(s'.callers, f) == WaitersOf(s.callers, f) { WaitersRemove(s.callers, c, f); }
    forall x | x in s'.callers ensures CallerOk(limits, s', x) && Points(s'.core, s'.callers[x]) {
      assert CallerOk(limits, s, x) && Points(s.core, s.callers[x]);
    }
    FlightsFrame(limits, s, s');
  }

  lemma BeginFlights(limits: Limits, s: Sys, key: Key, weight: int)
    requires Pointers(s) && FlightsOk(limits, s) && 1 <= weight <= limits.maxWeight
    ensures var s' := BeginNext(s, key, weight); Pointers(s') && FlightsOk(limits, s')
  {
    if !s.core.closing {
      assert s.nextCaller !in s.callers by {
        assert forall c :: c in s.callers ==> CallerOk(limits, s, c);
      }
      PutFlights(limits, s, BeginNext(s, key, weight), s.nextCaller, Began(key, weight));
    }
  }

  lemma JoinFlights(limits: Limits, s: Sys, c: nat, g: nat)
    requires Pointers(s) && FlightsOk(limits, s)
    requires c in s.callers && s.callers[c].Began? && g in s.core.fcells && !s.core.fcells[g].finished
    ensures var s' := JoinNext(s, c, g); Pointers(s') && FlightsOk(limits, s')
  {
    var s' := JoinNext(s, c, g);
    forall f | f in s'.core.fcells ensures FlightOk(limits, s', f) {
      assert FlightOk(limits, s, f);
      WaitersUpdate(s.callers, c, Waiting(g), f);
    }
    forall k | k in s'.core.flights ensures InFlight(s'.core, k) { assert InFlight(s.core, k); }
    forall x | x in s'.callers ensures CallerOk(limits, s', x) && Points(s'.core, s'.callers[x]) {
      assert CallerOk(limits, s, x) && Points(s.core, s.callers[x]);
    }
  }

  lemma StartFlights(limits: Limits, s: Sys, c: nat)
    requires Pointers(s) && FlightsOk(limits, s) && !s.core.closing
    requires c in s.callers && s.callers[c].Began?
    requires s.callers[c].key !in s.core.entries && s.callers[c].key !in s.core.flights
    ensures var s' := StartNext(s, c); Pointers(s') && FlightsOk(limits, s')
  {
    var g := s.nextFlight;
    var s' := StartNext(s, c);
    assert CallerOk(limits, s, c);
    assert g !in s.core.fcells by {
      assert forall f :: f in s.core.fcells ==> FlightOk(limits, s, f);
    }
    forall f | f in s'.core.fcells ensures FlightOk(limits, s', f) {
      assert f != g ==> FlightOk(limits, s, f);
      WaitersUpdate(s.callers, c, Waiting(g), f);
      assert WaitersOf(s.callers, g) == {} by {
        assert forall x :: x in s.callers ==> Points(s.core, s.callers[x]);
      }
    }
    forall k | k in s'.core.flights ensures InFlight(s'.core, k) {
      assert k in s.core.flights ==> InFlight(s.core, k);
    }
    forall x | x in s'.callers ensures CallerOk(limits, s', x) && Points(s'.core, s'.callers[x]) {
      assert CallerOk(limits, s, x) && Points(s.core, s.callers[x]);
    }
  }

  lemma SomeoneWaits(limits: Limits, s: Sys, c: nat)
    requires Pointers(s) && FlightsOk(limits, s) && c in s.callers && s.callers[c].Waiting?
    ensures s.callers[c].flight in s.core.fcells
    ensures s.core.fcells[s.callers[c].flight].waiters >= 1
  {
    var g := s.callers[c].flight;
    assert Points(s.core, s.callers[c]) && FlightOk(limits, s, g);
    assert c in WaitersOf(s.callers, g);
  }

  lemma LeaveFlights(limits: Limits, s: Sys, c: nat)
    requires Pointers(s) && FlightsOk(limits, s) && c in s.callers && s.callers[c].Waiting?
    ensures s.callers[c].flight in s.core.fcells
    ensures var s' := LeaveNext(s, c); Pointers(s') && FlightsOk(limits, s')
  {
    SomeoneWaits(limits, s, c);
    AbandonFlights(limits, s, LeaveNext(s, c), c, s.callers[c].flight);
  }

  /** The other callers are as before. */
  lemma PutCallers(limits: Limits, s: Sys, s': Sys, c: nat)
    requires Pointers(s) && FlightsOk(limits, s) && c in s'.callers
    requires s'.callers == s.callers[c := s'.callers[c]] && s'.nextCaller >= s.nextCaller
    requires s.core.fcells.Keys <= s'.core.fcells.Keys && s.core.cells.Keys <= s'.core.cells.Keys
    requires CallerOk(limits, s', c) && Points(s'.core, s'.callers[c])
    ensures forall x :: x in s'.callers ==> CallerOk(limits, s', x)
    ensures forall x :: x in s'.callers ==> Points(s'.core, s'.callers[x])
  {
    forall x | x in s'.callers && x != c ensures CallerOk(limits, s', x) { assert CallerOk(limits, s, x); }
    forall x | x in s'.callers && x != c ensures Points(s'.core, s'.callers[x]) { assert Points(s.core, s.callers[x]); }
  }

  lemma AbandonFlights(limits: Limits, s: Sys, s': Sys, c: nat, g: nat)
    requires Pointers(s) && FlightsOk(limits, s) && c in s.callers && s.callers[c] == Waiting(g)
    requires g in s.core.fcells && s.core.fcells[g].waiters >= 1
    requires s'.core.fcells == s.core.fcells[g := Forsaken(s.core.fcells[g])]
    requires s'.core.flights == s.core.flights && s'.core.entries == s.core.entries && s'.core.lru == s.core.lru
    requires s'.core.closing == s.core.closing && s'.core.cells.Keys == s.core.cells.Keys
    requires s'.callers == s.callers[c := Ending] && s'.nextCaller == s.nextCaller
    requires s'.loaders == s.loaders && s'.nextFlight == s.nextFlight
    ensures Pointers(s') && FlightsOk(limits, s')
  {
    forall f | f in s'.core.fcells ensures FlightOk(limits, s', f) {
      assert FlightOk(limits, s, f);
      WaitersUpdate(s.callers, c, Ending, f);
    }
    forall k | k in s'.core.flights ensures InFlight(s'.core, k) { assert InFlight(s.core, k); }
    assert CallerOk(limits, s, c);
    PutCallers(limits, s, s', c);
  }

  predicate Busy(l: Loader) { l.Loading? || l.Compiled? }

  /** A flight goroutine moves on without crossing completeFlight; the flights are as before. */
  lemma LoaderFlights(limits: Limits, s: Sys, s': Sys, f: nat)
    requires Pointers(s) && FlightsOk(limits, s) && f in s.loaders
    requires s'.core.fcells == s.core.fcells && s'.core.flights == s.core.flights && s'.core.entries == s.core.entries
    requires s'.core.lru == s.core.lru && s'.core.cells == s.core.cells && s'.core.closing == s.core.closing
    requires s'.callers == s.callers && s'.nextCaller == s.nextCaller && s'.nextFlight == s.nextFlight
    requires (s'.loaders == s.loaders - {f} && !Busy(s.loaders[f]))
          || (f in s'.loaders && s'.loaders == s.loaders[f := s'.loaders[f]] && Busy(s.loaders[f]) == Busy(s'.loaders[f]))
    ensures Pointers(s') && FlightsOk(limits, s')
  {
    forall g | g in s'.core.fcells ensures FlightOk(limits, s', g) { assert FlightOk(limits, s, g); }
    forall k | k in s'.core.flights ensures InFlight(s'.core, k) { assert InFlight(s.core, k); }
    forall x | x in s'.callers ensures CallerOk(limits, s', x) { assert CallerOk(limits, s, x); }
    forall x | x in s'.callers ensures Points(s'.core, s'.callers[x]) { assert Points(s.core, s.callers[x]); }
  }

  /** closing is set and every running flight is cancelled. */
  lemma CancelFlights(limits: Limits, s: Sys, s': Sys)
    requires Pointers(s) && FlightsOk(limits, s)
    requires s'.core.fcells == CancelAll(s.core.fcells, s.core.flights) && s'.core.flights == s.core.flights
    requires s'.core.entries == s.core.entries && s'.core.lru == s.core.lru && s'.core.cells == s.core.cells
    requires s'.callers == s.callers && s'.nextCaller == s.nextCaller && s'.nextFlight == s.nextFlight
    requires s'.loaders == s.loaders
    ensures Pointers(s') && FlightsOk(limits, s')
  {
    forall g | g in s'.core.fcells ensures FlightOk(limits, s', g) { assert FlightOk(limits, s, g); }
    forall k | k in s'.core.flights ensures InFlight(s'.core, k) {
      assert InFlight(s.core, k);
      assert s.core.flights[k] in s.core.flights.Values;
    }
    forall x | x in s'.callers ensures CallerOk(limits, s', x) { assert CallerOk(limits, s, x); }
    forall x | x in s'.callers ensures Points(s'.core, s'.callers[x]) { assert Points(s.core, s.callers[x]); }
  }

  /** completeFlight takes flight f out of the map; `entries` gains at most its key. */
  lemma SettleFlights(limits: Limits, s: Sys, s': Sys, f: nat)
    requires Pointers(s) && FlightsOk(limits, s) && f in s.loaders && Busy(s.loaders[f])
    requires f in s'.core.fcells && s'.core.fcells == s.core.fcells[f := s'.core.fcells[f]]
    requires var old_, new_ := s.core.fcells[f], s'.core.fcells[f];
             && new_.key == old_.key && new_.weight == old_.weight && new_.waiters == old_.waiters && new_.finished
             && (new_.entry.Some? ==> new_.entry.value in s'.core.cells)
    requires s'.core.flights == s.core.flights - {s.core.fcells[f].key}
    requires s'.core.entries.Keys <= s.core.entries.Keys + {s.core.fcells[f].key}
    requires s.core.cells.Keys <= s'.core.cells.Keys && s'.core.closing == s.core.closing
    requires Linked(s'.core)
    requires s'.callers == s.callers && s'.nextCaller == s.nextCaller && s'.nextFlight == s.nextFlight
    requires f in s'.loaders && s'.loaders == s.loaders[f := s'.loaders[f]] && s'.loaders[f].Closing?
    ensures Pointers(s') && FlightsOk(limits, s')
  {
    assert FlightOk(limits, s, f);
    forall g | g in s'.core.fcells ensures FlightOk(limits, s', g) {
      assert FlightOk(limits, s, g);
    }
    forall k | k in s'.core.flights ensures InFlight(s'.core, k) { assert InFlight(s.core, k); }
    forall x | x in s'.callers ensures CallerOk(limits, s', x) { assert CallerOk(limits, s, x); }
    forall x | x in s'.callers ensures Points(s'.core, s'.callers[x]) { assert Points(s.core, s.callers[x]); }
  }

  // ---------- pins ----------

  lemma PinsFrame(s: Sys, s': Sys)
    requires PinsOk(s)
    requires s'.core.cells == s.core.cells && s'.nextEntry >= s.nextEntry
    requires forall e :: e in s.core.lru && e in s.core.cells && s.core.cells[e].refs != 0 ==> e in s'.core.lru
    requires forall e :: e in s.core.cells ==>
      |Holders(s'.core.fcells, s'.callers, e)| == |Holders(s.core.fcells, s.callers, e)|
    ensures PinsOk(s')
  {
    forall e | e in s'.core.cells ensures PinOk(s', e) { assert PinOk(s, e); }
  }

  /** Flights may change, but not who waits on which finished entry. */
  lemma SamePinners(s: Sys, s': Sys)
    requires PinsOk(s) && s'.callers == s.callers
    requires s'.core.cells == s.core.cells && s'.nextEntry >= s.nextEntry && s'.core.lru == s.core.lru
    requires forall f :: f in s.core.fcells ==>
      f in s'.core.fcells && s'.core.fcells[f].finished == s.core.fcells[f].finished
      && s'.core.fcells[f].entry == s.core.fcells[f].entry
    requires s'.core.fcells.Keys == s.core.fcells.Keys
    ensures PinsOk(s')
  {
    forall e | e in s.core.cells
      ensures Holders(s'.core.fcells, s'.callers, e) == Holders(s.core.fcells, s.callers, e) {
      HoldersSame(s.core.fcells, s'.core.fcells, s.callers, e);
    }
    PinsFrame(s, s');
  }

  /** A caller that pins nothing before and after. */
  lemma IdlePins(s: Sys, s': Sys, c: nat)
    requires PinsOk(s) && s'.core.cells == s.core.cells && s'.core.lru == s.core.lru && s'.nextEntry == s.nextEntry
    requires s'.core.fcells == s.core.fcells
    requires s'.callers == s.callers - {c} || (c in s'.callers && s'.callers == s.callers[c := s'.callers[c]])
    requires c in s.callers ==> s.callers[c].Began? || s.callers[c].Ending?
    requires c in s'.callers ==> s'.callers[c].Began? || s'.callers[c].Ending?
    ensures PinsOk(s')
  {
    forall e ensures Holders(s.core.fcells, s'.callers, e) == Holders(s.core.fcells, s.callers, e) { }
    PinsFrame(s, s');
  }

  /** One caller changes what it pins; refs follows. */
  lemma MovePin(s: Sys, s': Sys, c: nat, e: nat, delta: int)
    requires PinsOk(s) && e in s.core.cells
    requires s'.core.cells == Pin(s.core.cells, e, delta) && s'.nextEntry == s.nextEntry
    requires forall x :: x in s.core.lru ==> x in s'.core.lru
    requires e in s.core.lru
    requires s'.core.fcells == s.core.fcells && c in s.callers
    requires s'.callers == s.callers - {c} || (c in s'.callers && s'.callers == s.callers[c := s'.callers[c]])
    requires forall x :: x in s.core.cells ==>
      One(c in s'.callers && Pins(s.core.fcells, s'.callers[c], x)) - One(Pins(s.core.fcells, s.callers[c], x))
      == if x == e then delta else 0
    ensures PinsOk(s')
  {
    forall x | x in s'.core.cells ensures PinOk(s', x) {
      assert PinOk(s, x);
      if c in s'.callers {
        HoldersUpdate(s.core.fcells, s.callers, c, s'.callers[c], x);
      } else {
        HoldersRemove(s.core.fcells, s.callers, c, x);
      }
    }
  }

  /** Someone who pins an entry keeps it in the list. */
  lemma HeldIsListed(s: Sys, c: nat, e: nat)
    requires PinsOk(s) && c in s.callers && Pins(s.core.fcells, s.callers[c], e) && e in s.core.cells
    ensures e in s.core.lru
  {
    assert PinOk(s, e);
    assert c in Holders(s.core.fcells, s.callers, e);
  }

  lemma ClaimPins(s: Sys, c: nat)
    requires PinsOk(s) && c in s.callers && s.callers[c].Waiting? && FlightDone(s.core, s.callers[c].flight)
    ensures PinsOk(ClaimNext(s, c))
  {
    var s' := ClaimNext(s, c);
    forall e | e in s.core.cells
      ensures |Holders(s.core.fcells, s'.callers, e)| == |Holders(s.core.fcells, s.callers, e)| {
      HoldersUpdate(s.core.fcells, s.callers, c, s'.callers[c], e);
    }
    PinsFrame(s, s');
  }

  lemma JoinPins(s: Sys, c: nat, g: nat)
    requires PinsOk(s) && c in s.callers && s.callers[c].Began? && g in s.core.fcells && !s.core.fcells[g].finished
    ensures PinsOk(JoinNext(s, c, g))
  {
    var s' := JoinNext(s, c, g);
    forall e | e in s.core.cells
      ensures |Holders(s'.core.fcells, s'.callers, e)| == |Holders(s.core.fcells, s.callers, e)| {
      HoldersUpdate(s.core.fcells, s.callers, c, Waiting(g), e);
      HoldersSame(s.core.fcells, s'.core.fcells, s'.callers, e);
    }
    PinsFrame(s, s');
  }

  lemma StartPins(s: Sys, c: nat)
    requires Pointers(s) && PinsOk(s) && c in s.callers && s.callers[c].Began? && s.nextFlight !in s.core.fcells
    ensures PinsOk(StartNext(s, c))
  {
    var s' := StartNext(s, c);
    forall e | e in s.core.cells
      ensures |Holders(s'.core.fcells, s'.callers, e)| == |Holders(s.core.fcells, s.callers, e)| {
      HoldersUpdate(s.core.fcells, s.callers, c, Waiting(s.nextFlight), e);
      HoldersSame(s.core.fcells, s'.core.fcells, s'.callers, e);
    }
    PinsFrame(s, s');
  }

  /** Abandoning gives back the pin the finished flight holds for this waiter, if any. */
  lemma LeavePins(s: Sys, c: nat, g: nat)
    requires PinsOk(s) && c in s.callers && s.callers[c] == Waiting(g) && g in s.core.fcells
    requires s.core.fcells[g].waiters >= 1
    requires s.core.fcells[g].finished && s.core.fcells[g].entry.Some? ==> s.core.fcells[g].entry.value in s.core.cells
    ensures PinsOk(LeaveNext(s, c))
  {
    var s', flight := LeaveNext(s, c), s.core.fcells[g];
    forall x | x in s'.core.cells ensures PinOk(s', x) {
      assert PinOk(s, x);
      HoldersUpdate(s.core.fcells, s.callers, c, Ending, x);
      HoldersSame(s.core.fcells, s'.core.fcells, s'.callers, x);
      assert c in Holders(s.core.fcells, s.callers, x) <==> flight.finished && flight.entry == Some(x);
    }
  }

  /** The entries left behind by an eviction keep their holders; the new one is held by the flight's waiters. */
  lemma PublishPins(limits: Limits, s: Sys, f: nat, program: nat, victims: seq<nat>)
    requires Pointers(s) && FlightsOk(limits, s) && PinsOk(s)
    requires f in s.core.fcells && !s.core.fcells[f].finished
    requires forall i :: i in victims ==> i in s.core.cells && s.core.cells[i].refs == 0
    ensures PinsOk(PublishNext(s, f, program, victims))
  {
    var s', e := PublishNext(s, f, program, victims), s.nextEntry;
    assert FlightOk(limits, s, f);
    forall x | x in s'.core.cells ensures PinOk(s', x) {
      if x == e {
        assert Holders(s'.core.fcells, s.callers, e) == WaitersOf(s.callers, f) by {
          NobodyHolds(limits, s, e);
        }
      } else {
        assert PinOk(s, x);
        HoldersSame(s.core.fcells, s'.core.fcells, s.callers, x);
      }
    }
  }

  /** Nobody refers to an entry that was never allocated. */
  lemma NobodyHolds(limits: Limits, s: Sys, e: nat)
    requires Pointers(s) && FlightsOk(limits, s) && PinsOk(s) && e >= s.nextEntry
    ensures e !in s.core.cells
    ensures Holders(s.core.fcells, s.callers, e) == {}
  {
    assert e in s.core.cells ==> PinOk(s, e);
    forall c | c in s.callers ensures !Pins(s.core.fcells, s.callers[c], e) {
      assert Points(s.core, s.callers[c]);
      if s.callers[c].Waiting? {
        assert FlightOk(limits, s, s.callers[c].flight);
      }
    }
  }

  lemma GiveUpPins(limits: Limits, s: Sys, f: nat, program: Option<nat>)
    requires PinsOk(s) && f in s.core.fcells && !s.core.fcells[f].finished
    ensures PinsOk(GiveUpNext(s, f, program))
  {
    var s' := GiveUpNext(s, f, program);
    forall e | e in s.core.cells
      ensures Holders(s'.core.fcells, s'.callers, e) == Holders(s.core.fcells, s.callers, e) {
      HoldersSame(s.core.fcells, s'.core.fcells, s.callers, e);
    }
    PinsFrame(s, s');
  }

  /** With no caller left nothing is pinned, so emptying the list is safe. */
  lemma DetachPins(s: Sys, s': Sys)
    requires PinsOk(s) && s.callers == map[] && s'.callers == map[]
    requires s'.core.cells == s.core.cells && s'.nextEntry == s.nextEntry && s'.core.fcells == s.core.fcells
    ensures PinsOk(s')
  {
    forall x | x in s'.core.cells ensures PinOk(s', x) {
      assert PinOk(s, x);
      assert Holders(s.core.fcells, s.callers, x) == {};
    }
  }

  // ---------- capacity ----------

  lemma {:induction false} UnpinnedDistinct(cells: map<nat, Entry>, lru: seq<nat>)
    requires Distinct(lru)
    ensures Distinct(Unpinned(cells, lru))
  {
    if lru != [] {
      var n := |lru| - 1;
      UnpinnedDistinct(cells, lru[..n]);
      if lru[n] in cells && cells[lru[n]].refs == 0 {
        DistinctAppend([lru[n]], Unpinned(cells, lru[..n]));
      }
    }
  }

  lemma MapSize(limits: Limits, core: Core)
    requires ListOk(limits, core)
    ensures |core.entries| == |core.lru|
  {
    KeysMatchValues(limits, core, core.lru);
    assert core.entries.Keys == KeysOf(core.cells, core.lru) by {
      forall k | k in core.entries.Keys ensures k in KeysOf(core.cells, core.lru) { assert Mapped(core, k); }
      forall k | k in KeysOf(core.cells, core.lru) ensures k in core.entries.Keys {
        var i :| i in core.lru && i in core.cells && core.cells[i].key == k;
        assert Listed(core, i);
      }
    }
  }

  lemma MapValues(limits: Limits, core: Core)
    requires ListOk(limits, core)
    ensures forall e :: e in core.entries.Values <==> e in core.lru
  {
    forall e | e in core.lru ensures e in core.entries.Values {
      assert Listed(core, e);
    }
    forall e | e in core.entries.Values ensures e in core.lru {
      var k :| k in core.entries && core.entries[k] == e;
      assert Mapped(core, k);
    }
  }

  /** Listed entries have different keys. */
  lemma {:induction false} KeysMatchValues(limits: Limits, core: Core, ids: seq<nat>)
    requires Distinct(ids) && forall i :: i in ids ==> Listed(core, i)
    ensures |KeysOf(core.cells, ids)| == |ids|
  {
    if ids != [] {
      var rest := ids[1..];
      assert Listed(core, ids[0]);
      KeysMatchValues(limits, core, rest);
      var k := core.cells[ids[0]].key;
      forall i | i in rest ensures core.cells[i].key != k {
        assert Listed(core, i);
        var j :| 0 <= j < |rest| && rest[j] == i;
        assert ids[0] != ids[j + 1];
      }
      assert KeysOf(core.cells, ids) == {k} + KeysOf(core.cells, rest);
    }
  }

  /** Eviction splits the list into the victims and the rest, in number and in weight. */
  lemma EvictionSplits(core: Core, victims: seq<nat>)
    requires Distinct(core.lru) && Distinct(victims) && forall i :: i in victims ==> i in core.lru
    ensures var rest := Without(core.lru, ToSetOf(victims));
            && Distinct(rest) && |rest| == |core.lru| - |victims|
            && TotalWeight(core.cells, rest) == TotalWeight(core.cells, core.lru) - TotalWeight(core.cells, victims)
  {
    var rest := Without(core.lru, ToSetOf(victims));
    WithoutDistinct(core.lru, ToSetOf(victims));
    DistinctAppend(victims, rest);
    WeightOfSet(core.cells, victims + rest, core.lru);
    TotalWeightConcat(core.cells, victims, rest);
  }

  /** The selected victims are distinct, listed and unpinned. */
  lemma VictimsListed(limits: Limits, core: Core, need: int)
    requires ListOk(limits, core) && SelectVictims(limits, core, need).Some?
    ensures var v := SelectVictims(limits, core, need).value;
            Distinct(v) && (forall i :: i in v ==> i in core.lru && i in core.cells && core.cells[i].refs == 0)
  {
    var u, v := Unpinned(core.cells, core.lru), SelectVictims(limits, core, need).value;
    UnpinnedDistinct(core.cells, core.lru);
    forall i | i in v ensures i in u { }
  }

  /** What publishing does to the map, the list and the weight. */
  ghost predicate Relisted(core: Core, core': Core, key: Key, e: nat, victims: seq<nat>) {
    && e !in core.cells && e in core'.cells && core'.cells == core.cells[e := core'.cells[e]]
    && key !in core.entries && core'.cells[e].key == key && core'.cells[e].weight >= 1
    && Distinct(victims) && (forall i :: i in victims ==> i in core.lru && i in core.cells)
    && core'.lru == [e] + Without(core.lru, ToSetOf(victims))
    && core'.entries == (core.entries - KeysOf(core.cells, victims))[key := e]
  }

  lemma PublishListed(limits: Limits, core: Core, core': Core, key: Key, e: nat, victims: seq<nat>)
    requires ListOk(limits, core) && Relisted(core, core', key, e, victims)
    ensures forall x :: x in core'.lru ==> Listed(core', x)
  {
    forall x | x in core'.lru ensures Listed(core', x) {
      if x != e {
        assert x in core.lru && Listed(core, x);
        forall i | i in victims ensures core.cells[i].key != core.cells[x].key { assert Listed(core, i); }
      }
    }
  }

  lemma PublishMapped(limits: Limits, core: Core, core': Core, key: Key, e: nat, victims: seq<nat>)
    requires ListOk(limits, core) && Relisted(core, core', key, e, victims)
    ensures forall k :: k in core'.entries ==> Mapped(core', k)
  {
    forall k | k in core'.entries ensures Mapped(core', k) {
      if k != key {
        assert Mapped(core, k);
        assert core.entries[k] !in victims;
      }
    }
  }

  /** A new entry in front of a list of older ones. */
  lemma FrontWeight(cells: map<nat, Entry>, e: nat, entry: Entry, rest: seq<nat>)
    requires Distinct(rest) && e !in rest && forall i :: i in rest ==> i in cells
    ensures Distinct([e] + rest)
    ensures TotalWeight(cells[e := entry], [e] + rest) == entry.weight + TotalWeight(cells, rest)
  {
    DistinctAppend([e], rest);
    assert ([e] + rest)[1..] == rest;
    TotalWeightSame(cells, cells[e := entry], rest);
  }

  /** Weight and length of the list after publishing. */
  lemma PublishWeight(core: Core, e: nat, entry: Entry, victims: seq<nat>)
    requires Distinct(core.lru) && Distinct(victims) && forall i :: i in victims ==> i in core.lru
    requires e !in core.lru && forall i :: i in core.lru ==> i in core.cells
    ensures var lru := [e] + Without(core.lru, ToSetOf(victims));
            && Distinct(lru) && |lru| == |core.lru| - |victims| + 1
            && TotalWeight(core.cells[e := entry], lru)
               == TotalWeight(core.cells, core.lru) - TotalWeight(core.cells, victims) + entry.weight
  {
    EvictionSplits(core, victims);
    FrontWeight(core.cells, e, entry, Without(core.lru, ToSetOf(victims)));
  }

  lemma PublishList(limits: Limits, core: Core, core': Core, key: Key, e: nat, victims: seq<nat>)
    requires ListOk(limits, core) && Relisted(core, core', key, e, victims)
    requires MakesRoom(limits, core, victims, core'.cells[e].weight)
    requires core'.currentWeight == core.currentWeight - TotalWeight(core.cells, victims) + core'.cells[e].weight
    ensures ListOk(limits, core')
  {
    assert |core.entries| == |core.lru| by { MapSize(limits, core); }
    assert forall x :: x in core.lru ==> x in core.cells by {
      assert forall x :: x in core.lru ==> Listed(core, x);
    }
    assert forall x :: x in core'.lru ==> Listed(core', x) by { PublishListed(limits, core, core', key, e, victims); }
    assert forall k :: k in core'.entries ==> Mapped(core', k) by { PublishMapped(limits, core, core', key, e, victims); }
    PublishWeight(core, e, core'.cells[e], victims);
  }
}
