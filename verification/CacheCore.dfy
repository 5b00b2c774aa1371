/**
 The lock-protected fields of the Worker's compiled-module cache, and one
 function per critical section. Objects the source reaches by pointer (entries
 and flights) are numbered; `cells` and `fcells` hold every one ever allocated,
 `entries` and `flights` are the two maps of the source.
 */
module CacheCore {
  import opened Common

  type Key = string

  datatype Entry = Entry(key: Key, program: nat, weight: int, refs: int)

  datatype Flight = Flight(
    key: Key, weight: int, waiters: int, cancelled: bool,
    finished: bool, entry: Option<nat>)

  /** The two capacity bounds fixed at construction. */
  datatype Limits = Limits(maxWeight: int, maxEntries: int)

  datatype Core = Core(
    cells: map<nat, Entry>,
    entries: map<Key, nat>,
    lru: seq<nat>,              // most recently used first
    fcells: map<nat, Flight>,
    flights: map<Key, nat>,
    currentWeight: int,
    active: int,
    drainGen: nat,              // which `drained` channel is current
    drainClosed: bool,          // whether that channel is closed
    closing: bool,
    releasing: bool,
    released: bool,
    closePending: seq<nat>)

  function Empty(): Core {
    Core(map[], map[], [], map[], map[], 0, 0, 0, true, false, false, false, [])
  }

  // ---------- capacity ----------

  function TotalWeight(cells: map<nat, Entry>, ids: seq<nat>): (w: int) {
    if ids == [] then 0
    else (if ids[0] in cells then cells[ids[0]].weight else 0) + TotalWeight(cells, ids[1..])
  }

  /** The entries nobody pins, least recently used first. */
  function Unpinned(cells: map<nat, Entry>, lru: seq<nat>): (u: seq<nat>)
    ensures forall i :: i in u ==> i in lru && i in cells && cells[i].refs == 0
    ensures forall i :: i in lru && i in cells && cells[i].refs == 0 ==> i in u
  {
    if lru == [] then []
    else
      var last := lru[|lru| - 1];
      var newer := Unpinned(cells, lru[..|lru| - 1]);
      if last in cells && cells[last].refs == 0 then [last] + newer else newer
  }

  predicate Room(limits: Limits, weight: int, count: int, need: int) {
    weight + need <= limits.maxWeight && count + 1 <= limits.maxEntries
  }

  /** Evicting `gone` leaves room for one more entry of weight `need`. */
  predicate MakesRoom(limits: Limits, s: Core, gone: seq<nat>, need: int) {
    Room(limits, s.currentWeight - TotalWeight(s.cells, gone), |s.entries| - |gone|, need)
  }

  /** The reference selection: the shortest run of the oldest unpinned entries that makes room. */
  function ShortestRun(limits: Limits, s: Core, need: int, k: nat): (r: Option<seq<nat>>)
    requires k <= |Unpinned(s.cells, s.lru)|
    ensures var u := Unpinned(s.cells, s.lru);
            match r
            case Some(v) => k <= |v| <= |u| && v == u[..|v|] && MakesRoom(limits, s, v, need)
                            && forall j :: k <= j < |v| ==> !MakesRoom(limits, s, u[..j], need)
            case None => forall j :: k <= j <= |u| ==> !MakesRoom(limits, s, u[..j], need)
    decreases |Unpinned(s.cells, s.lru)| - k
  {
    var u := Unpinned(s.cells, s.lru);
    if MakesRoom(limits, s, u[..k], need) then Some(u[..k])
    else if k == |u| then None
    else ShortestRun(limits, s, need, k + 1)
  }

  function SelectVictims(limits: Limits, s: Core, need: int): (r: Option<seq<nat>>)
  {
    ShortestRun(limits, s, need, 0)
  }

  lemma {:induction false} TotalWeightConcat(cells: map<nat, Entry>, a: seq<nat>, b: seq<nat>)
    ensures TotalWeight(cells, a + b) == TotalWeight(cells, a) + TotalWeight(cells, b)
  {
    if a == [] {
      assert a + b == b;
    } else {
      assert (a + b)[1..] == a[1..] + b;
      TotalWeightConcat(cells, a[1..], b);
    }
  }

  lemma {:induction false} TotalWeightNonNegative(cells: map<nat, Entry>, ids: seq<nat>)
    requires forall i :: i in ids && i in cells ==> cells[i].weight >= 0
    ensures TotalWeight(cells, ids) >= 0
  {
    if ids != [] {
      TotalWeightNonNegative(cells, ids[1..]);
    }
  }

  /** ErrFull is returned exactly when even evicting every unpinned entry would not make room. */
  lemma FullExactlyWhenHopeless(limits: Limits, s: Core, need: int)
    requires forall i :: i in s.lru && i in s.cells ==> s.cells[i].weight >= 0
    ensures SelectVictims(limits, s, need).None?
       <==> !MakesRoom(limits, s, Unpinned(s.cells, s.lru), need)
  {
    var u := Unpinned(s.cells, s.lru);
    assert u[..|u|] == u;
    if MakesRoom(limits, s, u, need) {
      assert SelectVictims(limits, s, need).Some?;
    } else {
      forall j | 0 <= j <= |u| ensures !MakesRoom(limits, s, u[..j], need) || j < |u| { }
      if SelectVictims(limits, s, need).Some? {
        var v := SelectVictims(limits, s, need).value;
        assert u == v + u[|v|..];
        TotalWeightConcat(s.cells, v, u[|v|..]);
        TotalWeightNonNegative(s.cells, u[|v|..]);
        assert false;
      }
    }
  }

  // ---------- critical sections ----------

  /** startLocked: the first active user opens a fresh `drained` channel. */
  function Start(s: Core): Core {
    s.(active := s.active + 1,
       drainGen := if s.active == 0 then s.drainGen + 1 else s.drainGen,
       drainClosed := if s.active == 0 then false else s.drainClosed)
  }

  /** endLocked: the last active user closes the `drained` channel. */
  function End(s: Core): Core {
    s.(active := s.active - 1,
       drainClosed := s.drainClosed || s.active - 1 == 0)
  }

  function CancelAll(fcells: map<nat, Flight>, flights: map<Key, nat>): (r: map<nat, Flight>)
    ensures r.Keys == fcells.Keys
    ensures forall f :: f in fcells ==>
      r[f] == if f in flights.Values then fcells[f].(cancelled := true) else fcells[f]
  {
    map f | f in fcells :: if f in flights.Values then fcells[f].(cancelled := true) else fcells[f]
  }

  function BeginClosing(s: Core): Core {
    s.(closing := true, fcells := CancelAll(s.fcells, s.flights))
  }

  datatype Admission = Refused | Hit(entry: nat) | Joined(flight: nat) | QueueFull | Started(flight: nat)

  function Touch(lru: seq<nat>, e: nat): seq<nat> {
    [e] + Without(lru, {e})
  }

  /** Every pointer stored in a map or in the list leads to an allocated object. */
  ghost predicate Linked(s: Core) {
    && (forall k :: k in s.entries ==> s.entries[k] in s.cells)
    && (forall k :: k in s.flights ==> s.flights[k] in s.fcells)
    && (forall i :: i in s.lru ==> i in s.cells)
  }

  /** Every entry keeps its key, program and weight. */
  ghost predicate SameModules(a: map<nat, Entry>, b: map<nat, Entry>) {
    forall x :: x in a ==> x in b && b[x].key == a[x].key && b[x].program == a[x].program && b[x].weight == a[x].weight
  }

  /** `refs` of one entry changes by delta. */
  function Pin(cells: map<nat, Entry>, e: nat, delta: int): (r: map<nat, Entry>)
    requires e in cells
    ensures r.Keys == cells.Keys
    ensures forall x :: x in cells ==> r[x] == if x == e then cells[e].(refs := cells[e].refs + delta) else cells[x]
    ensures SameModules(cells, r)
  {
    cells[e := cells[e].(refs := cells[e].refs + delta)]
  }

  function StartFlight(s: Core, key: Key, weight: int, f: nat): Core {
    s.(fcells := s.fcells[f := Flight(key, weight, 1, false, false, None)],
       flights := s.flights[key := f],
       active := s.active + 1,
       drainGen := if s.active == 0 then s.drainGen + 1 else s.drainGen,
       drainClosed := if s.active == 0 then false else s.drainClosed)
  }

  /** The second critical section of Acquire; `f` numbers the flight it may create. */
  function Admit(s: Core, key: Key, weight: int, queueFull: bool, f: nat): (r: (Core, Admission))
    requires Linked(s)
    ensures r.1.Hit? ==> r.1.entry in s.cells
    ensures r.1.Joined? ==> r.1.flight in s.fcells
  {
    if s.closing then (s, Refused)
    else if key in s.entries then
      var e := s.entries[key];
      (s.(cells := Pin(s.cells, e, 1), lru := Touch(s.lru, e)), Hit(e))
    else if key in s.flights then
      var g := s.flights[key];
      (s.(fcells := s.fcells[g := s.fcells[g].(waiters := s.fcells[g].waiters + 1)]), Joined(g))
    else if queueFull then (s, QueueFull)
    else (StartFlight(s, key, weight, f), Started(f))
  }

  /** What abandonFlight does to the flight: one waiter fewer, and cancelled if it was the last. */
  function Forsaken(flight: Flight): Flight {
    if flight.waiters == 0 then flight
    else flight.(waiters := flight.waiters - 1,
                 cancelled := flight.cancelled || (!flight.finished && flight.waiters == 1))
  }

  /** Whether abandoning also gives back the pin the finished flight took for this waiter. */
  predicate GivesBack(s: Core, flight: Flight) {
    flight.waiters != 0 && flight.finished && flight.entry.Some? && flight.entry.value in s.cells
  }

  /** abandonFlight. */
  function Abandon(s: Core, f: nat): Core
    requires f in s.fcells
  {
    var flight := s.fcells[f];
    s.(fcells := s.fcells[f := Forsaken(flight)],
       cells := if GivesBack(s, flight) then Pin(s.cells, flight.entry.value, -1) else s.cells)
  }

  /** Lease.Release, on its first call. */
  function Unpin(s: Core, e: nat): Core
    requires e in s.cells
  {
    s.(cells := Pin(s.cells, e, -1), active := s.active - 1, drainClosed := s.drainClosed || s.active - 1 == 0)
  }

  function KeysOf(cells: map<nat, Entry>, ids: seq<nat>): (ks: set<Key>)
    ensures forall k :: k in ks <==> exists i :: i in ids && i in cells && cells[i].key == k
  {
    set i | i in ids && i in cells :: cells[i].key
  }

  function ProgramsOf(cells: map<nat, Entry>, ids: seq<nat>): (ps: seq<nat>)
    requires forall i :: i in ids ==> i in cells
    ensures |ps| == |ids|
    ensures forall j :: 0 <= j < |ids| ==> ps[j] == cells[ids[j]].program
  {
    seq(|ids|, j requires 0 <= j < |ids| => cells[ids[j]].program)
  }

  function ToSetOf(ids: seq<nat>): set<nat> {
    set i | i in ids
  }

  /** Whether, and at the cost of which victims, a completing flight may cache its program. */
  function Victims(limits: Limits, s: Core, f: nat, program: Option<nat>, loadErr: bool): (r: Option<seq<nat>>)
    requires f in s.fcells
  {
    if s.closing || loadErr || s.fcells[f].waiters == 0 || program.None? then None
    else SelectVictims(limits, s, s.fcells[f].weight)
  }

  /** completeFlight when the program is cached: evict the victims, pin the new entry once per waiter. */
  function Publish(s: Core, f: nat, program: nat, e: nat, victims: seq<nat>): Core
    requires f in s.fcells
  {
    var flight := s.fcells[f];
    s.(flights := s.flights - {flight.key},
       fcells := s.fcells[f := flight.(finished := true, cancelled := true, entry := Some(e))],
       cells := s.cells[e := Entry(flight.key, program, flight.weight, flight.waiters)],
       entries := (s.entries - KeysOf(s.cells, victims))[flight.key := e],
       lru := [e] + Without(s.lru, ToSetOf(victims)),
       currentWeight := s.currentWeight - TotalWeight(s.cells, victims) + flight.weight)
  }

  /** completeFlight when nothing is cached. */
  function GiveUp(s: Core, f: nat): Core
    requires f in s.fcells
  {
    s.(flights := s.flights - {s.fcells[f].key},
       fcells := s.fcells[f := s.fcells[f].(finished := true, cancelled := true, entry := None)])
  }

  /**
   The critical section of completeFlight. The second component lists the
   programs to close after the lock is released; `e` numbers a new entry.
   */
  function Complete(limits: Limits, s: Core, f: nat, program: Option<nat>, loadErr: bool, e: nat): (Core, seq<nat>)
    requires f in s.fcells
  {
    var victims := Victims(limits, s, f, program, loadErr);
    if victims.Some? && program.Some? then
      (Publish(s, f, program.value, e, victims.value), ProgramsOf(s.cells, victims.value))
    else (GiveUp(s, f), if program.Some? then [program.value] else [])
  }

  /** The critical section of closeEvicted after some Close call failed. */
  function ReportFailed(s: Core, failed: seq<nat>): Core {
    s.(closePending := s.closePending + failed, closing := true, fcells := CancelAll(s.fcells, s.flights))
  }

  datatype CloseEntry = AlreadyReleased | AwaitRelease | AwaitDrain(gen: nat)

  /** The first critical section of one round of Close. */
  function CloseBegin(s: Core): (Core, CloseEntry) {
    if s.released then (s, AlreadyReleased)
    else
      (if s.closing then s else BeginClosing(s), if s.releasing then AwaitRelease else AwaitDrain(s.drainGen))
  }

  predicate ChannelClosed(s: Core, gen: nat) {
    gen != s.drainGen || s.drainClosed
  }

  /** `order` visits every cached entry once, as a range over the map does. */
  ghost predicate Enumerates(s: Core, order: seq<nat>) {
    Distinct(order) && forall i :: i in order <==> i in s.entries.Values
  }

  /** The second critical section of Close, when no release is under way. */
  function Detach(s: Core, order: seq<nat>): (Core, seq<nat>)
    requires forall i :: i in order ==> i in s.cells
  {
    (s.(entries := map[], lru := [], currentWeight := 0, closePending := [], releasing := true),
     ProgramsOf(s.cells, order) + s.closePending)
  }

  /** The third critical section of Close. */
  function CloseEnd(s: Core, failed: seq<nat>): Core {
    s.(closePending := failed, releasing := false, released := s.released || failed == [])
  }
}
