/**
 Every interleaving of the cache's critical sections. A system state is the
 lock-protected core plus what each goroutine holds between two sections:
 Acquire calls (`callers`), flight goroutines (`loaders`) and Close calls
 (`closers`). `place` records where each compiled program is.
 */
module CacheSystem {
  import opened Common
  import opened CacheCore

  datatype Caller =
    | Began(key: Key, weight: int)   // inside Acquire, between begin() and the second section
    | Waiting(flight: nat)           // in awaitFlight
    | Leased(entry: nat)             // owns an unreleased Lease
    | Ending                         // about to run the deferred end()

  /** Programs handed to closePrograms: those not tried yet, and those whose Close failed. */
  datatype Batch = Batch(todo: seq<nat>, failed: seq<nat>)

  datatype Loader =
    | Loading
    | Compiled(program: nat)
    | Closing(batch: Batch)          // after completeFlight's section
    | LoaderEnding                   // about to run the deferred end()

  datatype Closer =
    | AwaitingDrain(gen: nat)
    | Releasing(batch: Batch)

  datatype Place =
    | InLoad(flight: nat)
    | InCache(entry: nat)
    | InPending
    | InLoaderBatch(flight: nat)
    | InCloserBatch(closer: nat)
    | IsClosed

  datatype Sys = Sys(
    core: Core,
    callers: map<nat, Caller>,
    loaders: map<nat, Loader>,
    closers: map<nat, Closer>,
    place: map<nat, Place>,
    closedLog: seq<nat>,     // programs whose Close succeeded, in order
    nextCaller: nat, nextEntry: nat, nextFlight: nat, nextCloser: nat, nextProgram: nat)

  function Init(): Sys {
    Sys(Empty(), map[], map[], map[], map[], [], 0, 0, 0, 0, 0)
  }

  datatype Step =
    | Begin(key: Key, weight: int)
    | AdmitStep(caller: nat, queueFull: bool)
    | Claim(caller: nat)                       // awaitFlight saw done, context alive
    | Leave(caller: nat)                       // awaitFlight gave up: abandonFlight
    | Finish(caller: nat)                      // deferred end()
    | Release(caller: nat)                     // Lease.Release
    | Compile(flight: nat)                     // loadAndCompile returned a program
    | CompleteStep(flight: nat, loadErr: bool)
    | LoaderCloseOne(flight: nat, ok: bool)
    | LoaderReport(flight: nat)
    | LoaderFinish(flight: nat)
    | CloseCall
    | CloseDetach(closer: nat, order: seq<nat>)
    | CloserCloseOne(closer: nat, ok: bool)
    | CloseReturn(closer: nat)

  /** Which steps the goroutines can take in s. Weights were checked before begin(). */
  ghost predicate Enabled(limits: Limits, s: Sys, step: Step) {
    match step
    case Begin(_, weight) => 1 <= weight <= limits.maxWeight
    case AdmitStep(c, _) => c in s.callers && s.callers[c].Began?
    case Claim(c) => c in s.callers && s.callers[c].Waiting? && FlightDone(s.core, s.callers[c].flight)
    case Leave(c) => c in s.callers && s.callers[c].Waiting?
    case Finish(c) => c in s.callers && s.callers[c].Ending?
    case Release(_) => true
    case Compile(f) => f in s.loaders && s.loaders[f].Loading?
    case CompleteStep(f, loadErr) =>
      f in s.loaders && ((s.loaders[f].Loading? && loadErr) || s.loaders[f].Compiled?)
    case LoaderCloseOne(f, _) => f in s.loaders && s.loaders[f].Closing? && s.loaders[f].batch.todo != []
    case LoaderReport(f) => f in s.loaders && s.loaders[f].Closing? && s.loaders[f].batch.todo == []
    case LoaderFinish(f) => f in s.loaders && s.loaders[f].LoaderEnding?
    case CloseCall => true
    case CloseDetach(k, order) =>
      k in s.closers && s.closers[k].AwaitingDrain? && ChannelClosed(s.core, s.closers[k].gen)
      && Enumerates(s.core, order)
    case CloserCloseOne(k, _) => k in s.closers && s.closers[k].Releasing? && s.closers[k].batch.todo != []
    case CloseReturn(k) => k in s.closers && s.closers[k].Releasing? && s.closers[k].batch.todo == []
  }

  predicate FlightDone(core: Core, f: nat) {
    f in core.fcells && core.fcells[f].finished
  }

  // ---------- the invariant ----------

  /** Acquire calls still waiting on flight f. */
  ghost function WaitersOf(callers: map<nat, Caller>, f: nat): set<nat> {
    set c | c in callers && callers[c] == Waiting(f)
  }

  /** A lease on e, or an unclaimed share of the finished flight that produced e. */
  predicate Pins(fcells: map<nat, Flight>, caller: Caller, e: nat) {
    match caller
    case Leased(x) => x == e
    case Waiting(f) => f in fcells && fcells[f].finished && fcells[f].entry == Some(e)
    case _ => false
  }

  ghost function Holders(fcells: map<nat, Flight>, callers: map<nat, Caller>, e: nat): set<nat> {
    set c | c in callers && Pins(fcells, callers[c], e)
  }

  /** The pointer a caller holds leads to an allocated object. */
  predicate Points(core: Core, caller: Caller) {
    match caller
    case Waiting(f) => f in core.fcells
    case Leased(e) => e in core.cells
    case _ => true
  }

  ghost predicate Pointers(s: Sys) {
    && Linked(s.core)
    && (forall c :: c in s.callers ==> Points(s.core, s.callers[c]))
    && (forall f :: f in s.loaders ==> f in s.core.fcells)
  }

  /** An unfinished flight is in the map, runs in a goroutine, and counts its waiters. */
  ghost predicate FlightOk(limits: Limits, s: Sys, f: nat)
    requires f in s.core.fcells
  {
    var flight := s.core.fcells[f];
    && f < s.nextFlight
    && 1 <= flight.weight <= limits.maxWeight
    && (if flight.finished then
          && (f in s.loaders ==> s.loaders[f].Closing? || s.loaders[f].LoaderEnding?)
          && flight.waiters >= |WaitersOf(s.callers, f)|
          && (flight.entry.Some? ==> flight.entry.value in s.core.cells)
        else
          && flight.key in s.core.flights && s.core.flights[flight.key] == f
          && f in s.loaders && (s.loaders[f].Loading? || s.loaders[f].Compiled?)
          && flight.entry.None?
          && flight.waiters == |WaitersOf(s.callers, f)|)
  }

  /** A key in flight is not cached, and closing cancels its flight. */
  ghost predicate InFlight(core: Core, k: Key)
    requires k in core.flights
  {
    var f := core.flights[k];
    && f in core.fcells && core.fcells[f].key == k && !core.fcells[f].finished
    && k !in core.entries
    && (core.closing ==> core.fcells[f].cancelled)
  }

  /** refs counts exactly the holders, and a held entry is still cached. */
  ghost predicate PinOk(s: Sys, e: nat)
    requires e in s.core.cells
  {
    && e < s.nextEntry
    && s.core.cells[e].refs == |Holders(s.core.fcells, s.callers, e)|
    && (s.core.cells[e].refs != 0 ==> e in s.core.lru)
  }

  predicate CallerOk(limits: Limits, s: Sys, c: nat)
    requires c in s.callers
  {
    c < s.nextCaller && (s.callers[c].Began? ==> 1 <= s.callers[c].weight <= limits.maxWeight)
  }

  ghost predicate FlightsOk(limits: Limits, s: Sys) {
    && (forall c :: c in s.callers ==> CallerOk(limits, s, c))
    && (forall f :: f in s.core.fcells ==> FlightOk(limits, s, f))
    && (forall k :: k in s.core.flights ==> InFlight(s.core, k))
  }

  ghost predicate PinsOk(s: Sys) {
    forall e :: e in s.core.cells ==> PinOk(s, e)
  }

  /** A listed entry is the one the map holds for its key. */
  predicate Listed(core: Core, e: nat) {
    e in core.cells && core.cells[e].key in core.entries && core.entries[core.cells[e].key] == e
    && core.cells[e].weight >= 1
  }

  predicate Mapped(core: Core, k: Key)
    requires k in core.entries
  {
    var e := core.entries[k];
    e in core.lru && e in core.cells && core.cells[e].key == k
  }

  /** The map and the list hold the same entries, and the weight is their sum within bounds. */
  ghost predicate ListOk(limits: Limits, core: Core) {
    && Distinct(core.lru)
    && (forall e :: e in core.lru ==> Listed(core, e))
    && (forall k :: k in core.entries ==> Mapped(core, k))
    && core.currentWeight == TotalWeight(core.cells, core.lru) <= limits.maxWeight
    && |core.lru| <= limits.maxEntries
  }

  ghost predicate CloserOk(s: Sys, k: nat)
    requires k in s.closers
  {
    k < s.nextCloser && s.core.closing
    && match s.closers[k]
       case AwaitingDrain(gen) => gen == s.core.drainGen
       case Releasing(_) => s.core.releasing && forall l :: l in s.closers && s.closers[l].Releasing? ==> l == k
  }

  /** `active` counts running calls, leases and flight goroutines; nothing is released before it is 0. */
  ghost predicate CloseOk(s: Sys) {
    && s.core.active == |s.callers| + |s.loaders|
    && (s.core.drainClosed <==> s.core.active == 0)
    && (s.core.releasing || s.core.released ==> s.core.closing && s.core.active == 0)
    && (s.core.releasing ==> s.core.closePending == [] && s.core.lru == [])
    && (forall k :: k in s.closers ==> CloserOk(s, k))
  }

  ghost predicate BatchOk(place: map<nat, Place>, b: Batch, where: Place) {
    Distinct(b.todo + b.failed)
    && forall p :: InBatch(p, b) ==> p in place && place[p] == where
  }

  /** Each structure owns the programs `place` says it owns. */
  ghost predicate Owned(s: Sys) {
    && (forall f :: f in s.loaders && s.loaders[f].Compiled? ==>
          s.loaders[f].program in s.place && s.place[s.loaders[f].program] == InLoad(f))
    && (forall f :: f in s.loaders && s.loaders[f].Closing? ==> BatchOk(s.place, s.loaders[f].batch, InLoaderBatch(f)))
    && (forall e :: e in s.core.lru ==>
          e in s.core.cells && s.core.cells[e].program in s.place && s.place[s.core.cells[e].program] == InCache(e))
    && BatchOk(s.place, Batch([], s.core.closePending), InPending)
    && (forall k :: k in s.closers && s.closers[k].Releasing? ==> BatchOk(s.place, s.closers[k].batch, InCloserBatch(k)))
    && BatchOk(s.place, Batch([], s.closedLog), IsClosed)
  }

  predicate InBatch(p: nat, b: Batch) {
    p in b.todo || p in b.failed
  }

  /** Program p is held by the structure that `where` names. */
  predicate Holds(s: Sys, p: nat, where: Place) {
    match where
    case InLoad(f) => f in s.loaders && s.loaders[f] == Compiled(p)
    case InCache(e) => e in s.core.lru && e in s.core.cells && s.core.cells[e].program == p
    case InPending => p in s.core.closePending
    case InLoaderBatch(f) => f in s.loaders && s.loaders[f].Closing? && InBatch(p, s.loaders[f].batch)
    case InCloserBatch(k) => k in s.closers && s.closers[k].Releasing? && InBatch(p, s.closers[k].batch)
    case IsClosed => p in s.closedLog
  }

  /** Every program is in the structure `place` names. */
  ghost predicate Found(s: Sys) {
    forall p :: p in s.place ==> p < s.nextProgram && Holds(s, p, s.place[p])
  }

  /** Each program is in exactly the structure `place` names. */
  ghost predicate Placed(s: Sys) {
    && Owned(s) && Found(s)
    && (forall p :: 0 <= p < s.nextProgram ==> p in s.place)
  }

  /** The states every run stays in. */
  ghost function Good(limits: Limits): iset<Sys> {
    iset s: Sys | Pointers(s) && FlightsOk(limits, s) && PinsOk(s) && ListOk(limits, s.core) && CloseOk(s) && Placed(s)
  }

  ghost predicate Inv(limits: Limits, s: Sys) {
    s in Good(limits)
  }

  function Move(place: map<nat, Place>, ps: seq<nat>, to: Place): (r: map<nat, Place>)
    ensures r.Keys == place.Keys + ToSetOf(ps)
    ensures forall p :: p in r ==> r[p] == if p in ps then to else place[p]
  {
    map p | p in place.Keys + ToSetOf(ps) :: if p in ps then to else place[p]
  }

  function CloseOne(b: Batch, ok: bool): Batch
    requires b.todo != []
  {
    Batch(b.todo[1..], if ok then b.failed else b.failed + [b.todo[0]])
  }

  function HitNext(s: Sys, c: nat, e: nat): Sys
    requires e in s.core.cells
  {
    s.(core := s.core.(cells := Pin(s.core.cells, e, 1), lru := Touch(s.core.lru, e)),
       callers := s.callers[c := Leased(e)])
  }

  function JoinNext(s: Sys, c: nat, g: nat): Sys
    requires g in s.core.fcells
  {
    s.(core := s.core.(fcells := s.core.fcells[g := s.core.fcells[g].(waiters := s.core.fcells[g].waiters + 1)]),
       callers := s.callers[c := Waiting(g)])
  }

  function StartNext(s: Sys, c: nat): Sys
    requires c in s.callers && s.callers[c].Began?
  {
    var f := s.nextFlight;
    s.(core := StartFlight(s.core, s.callers[c].key, s.callers[c].weight, f),
       callers := s.callers[c := Waiting(f)], loaders := s.loaders[f := Loading], nextFlight := f + 1)
  }

  function AdmitNext(s: Sys, c: nat, queueFull: bool): Sys
    requires c in s.callers && s.callers[c].Began? && Linked(s.core)
  {
    match Admit(s.core, s.callers[c].key, s.callers[c].weight, queueFull, s.nextFlight).1
    case Refused => s.(callers := s.callers[c := Ending])
    case QueueFull => s.(callers := s.callers[c := Ending])
    case Hit(e) => HitNext(s, c, e)
    case Joined(g) => JoinNext(s, c, g)
    case Started(_) => StartNext(s, c)
  }

  /** The program caches under a new entry; the victims go to the loader's batch. */
  function PublishNext(s: Sys, f: nat, program: nat, victims: seq<nat>): Sys
    requires f in s.core.fcells && forall i :: i in victims ==> i in s.core.cells
  {
    var gone := ProgramsOf(s.core.cells, victims);
    s.(core := Publish(s.core, f, program, s.nextEntry, victims),
       loaders := s.loaders[f := Closing(Batch(gone, []))], nextEntry := s.nextEntry + 1,
       place := Move(s.place, gone, InLoaderBatch(f))[program := InCache(s.nextEntry)])
  }

  function GiveUpNext(s: Sys, f: nat, program: Option<nat>): Sys
    requires f in s.core.fcells
  {
    var gone := if program.Some? then [program.value] else [];
    s.(core := GiveUp(s.core, f),
       loaders := s.loaders[f := Closing(Batch(gone, []))],
       place := Move(s.place, gone, InLoaderBatch(f)))
  }

  function ProgramAt(s: Sys, f: nat): Option<nat>
    requires f in s.loaders
  {
    if s.loaders[f].Compiled? then Some(s.loaders[f].program) else None
  }

  function CompleteNext(limits: Limits, s: Sys, f: nat, loadErr: bool): Sys
    requires f in s.loaders && f in s.core.fcells
  {
    var program := ProgramAt(s, f);
    var victims := Victims(limits, s.core, f, program, loadErr);
    if victims.Some? && program.Some? then PublishNext(s, f, program.value, victims.value)
    else GiveUpNext(s, f, program)
  }

  function BeginNext(s: Sys, key: Key, weight: int): Sys {
    if s.core.closing then s
    else s.(core := Start(s.core), callers := s.callers[s.nextCaller := Began(key, weight)],
            nextCaller := s.nextCaller + 1)
  }

  function ClaimNext(s: Sys, c: nat): Sys
    requires c in s.callers && s.callers[c].Waiting? && FlightDone(s.core, s.callers[c].flight)
  {
    var flight := s.core.fcells[s.callers[c].flight];
    s.(callers := s.callers[c := if flight.entry.Some? then Leased(flight.entry.value) else Ending])
  }

  function LeaveNext(s: Sys, c: nat): Sys
    requires c in s.callers && s.callers[c].Waiting? && s.callers[c].flight in s.core.fcells
  {
    s.(core := Abandon(s.core, s.callers[c].flight), callers := s.callers[c := Ending])
  }

  function FinishNext(s: Sys, c: nat): Sys {
    s.(core := End(s.core), callers := s.callers - {c})
  }

  /** A second Release of the same lease finds no lease and changes nothing. */
  function ReleaseNext(s: Sys, c: nat): Sys
    requires c in s.callers && s.callers[c].Leased? ==> s.callers[c].entry in s.core.cells
  {
    if c in s.callers && s.callers[c].Leased? then
      s.(core := Unpin(s.core, s.callers[c].entry), callers := s.callers - {c})
    else s
  }

  function CompileNext(s: Sys, f: nat): Sys {
    s.(loaders := s.loaders[f := Compiled(s.nextProgram)],
       place := s.place[s.nextProgram := InLoad(f)], nextProgram := s.nextProgram + 1)
  }

  function LoaderCloseNext(s: Sys, f: nat, ok: bool): Sys
    requires f in s.loaders && s.loaders[f].Closing? && s.loaders[f].batch.todo != []
  {
    var b := s.loaders[f].batch;
    s.(loaders := s.loaders[f := Closing(CloseOne(b, ok))],
       place := if ok then s.place[b.todo[0] := IsClosed] else s.place,
       closedLog := if ok then s.closedLog + [b.todo[0]] else s.closedLog)
  }

  function LoaderReportNext(s: Sys, f: nat): Sys
    requires f in s.loaders && s.loaders[f].Closing?
  {
    var failed := s.loaders[f].batch.failed;
    s.(core := if failed == [] then s.core else ReportFailed(s.core, failed),
       loaders := s.loaders[f := LoaderEnding],
       place := Move(s.place, failed, InPending))
  }

  function LoaderFinishNext(s: Sys, f: nat): Sys {
    s.(core := End(s.core), loaders := s.loaders - {f})
  }

  function CloseCallNext(s: Sys): Sys {
    var (core, how) := CloseBegin(s.core);
    if how.AwaitDrain? then
      s.(core := core, closers := s.closers[s.nextCloser := AwaitingDrain(how.gen)], nextCloser := s.nextCloser + 1)
    else s.(core := core)
  }

  function DetachNext(s: Sys, k: nat, order: seq<nat>): Sys
    requires forall i :: i in order ==> i in s.core.cells
  {
    if s.core.releasing then s.(closers := s.closers - {k})
    else
      var (core, programs) := Detach(s.core, order);
      s.(core := core, closers := s.closers[k := Releasing(Batch(programs, []))],
         place := Move(s.place, programs, InCloserBatch(k)))
  }

  function CloserCloseNext(s: Sys, k: nat, ok: bool): Sys
    requires k in s.closers && s.closers[k].Releasing? && s.closers[k].batch.todo != []
  {
    var b := s.closers[k].batch;
    s.(closers := s.closers[k := Releasing(CloseOne(b, ok))],
       place := if ok then s.place[b.todo[0] := IsClosed] else s.place,
       closedLog := if ok then s.closedLog + [b.todo[0]] else s.closedLog)
  }

  function CloseReturnNext(s: Sys, k: nat): Sys
    requires k in s.closers && s.closers[k].Releasing?
  {
    var failed := s.closers[k].batch.failed;
    s.(core := CloseEnd(s.core, failed), closers := s.closers - {k},
       place := Move(s.place, failed, InPending))
  }

  function Next(limits: Limits, s: Sys, step: Step): Sys
    requires Pointers(s) && Enabled(limits, s, step)
  {
    match step
    case Begin(key, weight) => BeginNext(s, key, weight)
    case AdmitStep(c, queueFull) => AdmitNext(s, c, queueFull)
    case Claim(c) => ClaimNext(s, c)
    case Leave(c) => LeaveNext(s, c)
    case Finish(c) => FinishNext(s, c)
    case Release(c) => ReleaseNext(s, c)
    case Compile(f) => CompileNext(s, f)
    case CompleteStep(f, loadErr) => CompleteNext(limits, s, f, loadErr)
    case LoaderCloseOne(f, ok) => LoaderCloseNext(s, f, ok)
    case LoaderReport(f) => LoaderReportNext(s, f)
    case LoaderFinish(f) => LoaderFinishNext(s, f)
    case CloseCall => CloseCallNext(s)
    case CloseDetach(k, order) => DetachNext(s, k, order)
    case CloserCloseOne(k, ok) => CloserCloseNext(s, k, ok)
    case CloseReturn(k) => CloseReturnNext(s, k)
  }
}
