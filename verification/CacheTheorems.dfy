/** Whole-run guarantees of the compiled-module cache. */
module CacheTheorems {
  import opened Common
  import opened CacheCore
  import opened CacheSystem
  import opened CacheProofs
  import opened CachePlaces
  import R = Runs

  lemma FreshFlight(limits: Limits, s: Sys)
    requires Pointers(s) && FlightsOk(limits, s)
    ensures s.nextFlight !in s.core.fcells && s.nextFlight !in s.loaders
  {
    assert s.nextFlight in s.core.fcells ==> FlightOk(limits, s, s.nextFlight);
  }

  lemma FreshEntry(s: Sys)
    requires PinsOk(s)
    ensures s.nextEntry !in s.core.cells
  {
    assert s.nextEntry in s.core.cells ==> PinOk(s, s.nextEntry);
  }

  // ---------- one lemma per step ----------

  lemma RefuseInv(limits: Limits, s: Sys, c: nat)
    requires Inv(limits, s) && c in s.callers && s.callers[c].Began?
    ensures Inv(limits, s.(callers := s.callers[c := Ending]))
  {
    var s' := s.(callers := s.callers[c := Ending]);
    assert CallerOk(limits, s, c);
    PutFlights(limits, s, s', c, Ending);
    IdlePins(s, s', c);
    MapPut(s.callers, c, Ending);
    CloseFrame(s, s');
    PlacedFrame(s, s');
  }

  lemma HitFlow(limits: Limits, s: Sys, c: nat, e: nat)
    requires Inv(limits, s) && c in s.callers && s.callers[c].Began? && e in s.core.lru && e in s.core.cells
    ensures var s' := HitNext(s, c, e); Pointers(s') && FlightsOk(limits, s') && PinsOk(s')
  {
    var s' := HitNext(s, c, e);
    TouchFacts(s.core.lru, e);
    assert CallerOk(limits, s, c);
    PutFlights(limits, s, s', c, Leased(e));
    MovePin(s, s', c, e, 1);
  }

  lemma HitInv(limits: Limits, s: Sys, c: nat, e: nat)
    requires Inv(limits, s) && c in s.callers && s.callers[c].Began? && !s.core.closing
    requires e in s.core.lru && e in s.core.cells
    ensures Inv(limits, HitNext(s, c, e))
  {
    var s' := HitNext(s, c, e);
    HitFlow(limits, s, c, e);
    TouchFacts(s.core.lru, e);
    Relist(limits, s.core, s'.core);
    MapPut(s.callers, c, Leased(e));
    CloseFrame(s, s');
    PlacedFrame(s, s');
  }

  lemma JoinInv(limits: Limits, s: Sys, c: nat, g: nat)
    requires Inv(limits, s) && c in s.callers && s.callers[c].Began?
    requires g in s.core.fcells && !s.core.fcells[g].finished
    ensures Inv(limits, JoinNext(s, c, g))
  {
    var s' := JoinNext(s, c, g);
    JoinFlights(limits, s, c, g);
    JoinPins(s, c, g);
    Relist(limits, s.core, s'.core);
    MapPut(s.callers, c, Waiting(g));
    CloseFrame(s, s');
    PlacedFrame(s, s');
  }

  lemma StartInv(limits: Limits, s: Sys, c: nat)
    requires Inv(limits, s) && c in s.callers && s.callers[c].Began? && !s.core.closing
    requires s.callers[c].key !in s.core.entries && s.callers[c].key !in s.core.flights
    ensures Inv(limits, StartNext(s, c))
  {
    var s' := StartNext(s, c);
    FreshFlight(limits, s);
    StartFlights(limits, s, c);
    StartPins(s, c);
    Relist(limits, s.core, s'.core);
    MapPut(s.callers, c, Waiting(s.nextFlight));
    MapPut(s.loaders, s.nextFlight, Loading);
    CloseFrame(s, s');
    StartPlaced(limits, s, c);
  }

  lemma AdmitInv(limits: Limits, s: Sys, c: nat, queueFull: bool)
    requires Inv(limits, s) && c in s.callers && s.callers[c].Began?
    ensures Inv(limits, AdmitNext(s, c, queueFull))
  {
    match Admit(s.core, s.callers[c].key, s.callers[c].weight, queueFull, s.nextFlight).1
    case Refused => RefuseInv(limits, s, c);
    case QueueFull => RefuseInv(limits, s, c);
    case Hit(e) =>
      assert Mapped(s.core, s.callers[c].key);
      HitInv(limits, s, c, e);
    case Joined(g) =>
      assert InFlight(s.core, s.callers[c].key);
      JoinInv(limits, s, c, g);
    case Started(_) => StartInv(limits, s, c);
  }

  lemma PublishLinked(limits: Limits, s: Sys, f: nat, program: nat, victims: seq<nat>)
    requires Linked(s.core) && f in s.core.fcells && forall i :: i in victims ==> i in s.core.cells
    ensures Linked(PublishNext(s, f, program, victims).core)
  {
  }

  /** The flights are untouched and the map of entries does not grow. */
  lemma DetachFlights(limits: Limits, s: Sys, s': Sys)
    requires Pointers(s) && FlightsOk(limits, s)
    requires s'.core.fcells == s.core.fcells && s'.core.flights == s.core.flights && s'.core.cells == s.core.cells
    requires s'.core.entries.Keys <= s.core.entries.Keys && s'.core.closing == s.core.closing && Linked(s'.core)
    requires s'.callers == s.callers && s'.loaders == s.loaders
    requires s'.nextCaller == s.nextCaller && s'.nextFlight == s.nextFlight
    ensures Pointers(s') && FlightsOk(limits, s')
  {
    forall g | g in s'.core.fcells ensures FlightOk(limits, s', g) { assert FlightOk(limits, s, g); }
    forall k | k in s'.core.flights ensures InFlight(s'.core, k) { assert InFlight(s.core, k); }
    forall x | x in s'.callers ensures CallerOk(limits, s', x) { assert CallerOk(limits, s, x); }
    forall x | x in s'.callers ensures Points(s'.core, s'.callers[x]) { assert Points(s.core, s.callers[x]); }
  }

  lemma BeginInv(limits: Limits, s: Sys, key: Key, weight: int)
    requires Inv(limits, s) && 1 <= weight <= limits.maxWeight
    ensures Inv(limits, BeginNext(s, key, weight))
  {
    var s' := BeginNext(s, key, weight);
    if !s.core.closing {
      BeginFlights(limits, s, key, weight);
      assert s.nextCaller !in s.callers by { assert s.nextCaller in s.callers ==> CallerOk(limits, s, s.nextCaller); }
      IdlePins(s, s', s.nextCaller);
      Relist(limits, s.core, s'.core);
      MapPut(s.callers, s.nextCaller, Began(key, weight));
      CloseFrame(s, s');
      PlacedFrame(s, s');
    }
  }

  lemma ClaimInv(limits: Limits, s: Sys, c: nat)
    requires Inv(limits, s)
    requires c in s.callers && s.callers[c].Waiting? && FlightDone(s.core, s.callers[c].flight)
    ensures Inv(limits, ClaimNext(s, c))
  {
    var s' := ClaimNext(s, c);
    assert CallerOk(limits, s, c) && FlightOk(limits, s, s.callers[c].flight);
    PutFlights(limits, s, s', c, s'.callers[c]);
    ClaimPins(s, c);
    MapPut(s.callers, c, s'.callers[c]);
    CloseFrame(s, s');
    PlacedFrame(s, s');
  }

  lemma LeaveInv(limits: Limits, s: Sys, c: nat)
    requires Inv(limits, s) && c in s.callers && s.callers[c].Waiting?
    ensures s.callers[c].flight in s.core.fcells && Inv(limits, LeaveNext(s, c))
  {
    LeaveFlights(limits, s, c);
    SomeoneWaits(limits, s, c);
    var s', g := LeaveNext(s, c), s.callers[c].flight;
    assert PinsOk(s') by {
      assert FlightOk(limits, s, g);
      LeavePins(s, c, g);
    }
    assert ListOk(limits, s'.core) by { Relist(limits, s.core, s'.core); }
    assert CloseOk(s') by {
      MapPut(s.callers, c, Ending);
      CloseFrame(s, s');
    }
    assert Placed(s') by { PlacedFrame(s, s'); }
  }

  lemma FinishInv(limits: Limits, s: Sys, c: nat)
    requires Inv(limits, s) && c in s.callers && s.callers[c].Ending?
    ensures Inv(limits, FinishNext(s, c))
  {
    var s' := FinishNext(s, c);
    DropFlights(limits, s, s', c);
    IdlePins(s, s', c);
    Relist(limits, s.core, s'.core);
    MapDrop(s.callers, c);
    CloseFrame(s, s');
    PlacedFrame(s, s');
  }

  lemma ReleaseFlow(limits: Limits, s: Sys, c: nat)
    requires Inv(limits, s) && c in s.callers && s.callers[c].Leased?
    ensures s.callers[c].entry in s.core.cells
    ensures var s' := ReleaseNext(s, c); Pointers(s') && FlightsOk(limits, s') && PinsOk(s')
  {
    assert Points(s.core, s.callers[c]);
    var s', e := ReleaseNext(s, c), s.callers[c].entry;
    HeldIsListed(s, c, e);
    DropFlights(limits, s, s', c);
    MovePin(s, s', c, e, -1);
  }

  lemma ReleaseInv(limits: Limits, s: Sys, c: nat)
    requires Inv(limits, s) && c in s.callers && s.callers[c].Leased?
    ensures s.callers[c].entry in s.core.cells && Inv(limits, ReleaseNext(s, c))
  {
    ReleaseFlow(limits, s, c);
    var s' := ReleaseNext(s, c);
    Relist(limits, s.core, s'.core);
    MapDrop(s.callers, c);
    CloseFrame(s, s');
    PlacedFrame(s, s');
  }

  lemma CompileInv(limits: Limits, s: Sys, f: nat)
    requires Inv(limits, s) && f in s.loaders && s.loaders[f].Loading?
    ensures Inv(limits, CompileNext(s, f))
  {
    var s' := CompileNext(s, f);
    LoaderFlights(limits, s, s', f);
    SamePinners(s, s');
    MapPut(s.loaders, f, s'.loaders[f]);
    CloseFrame(s, s');
    CompilePlaced(s, f);
  }

  lemma GiveUpFlights(limits: Limits, s: Sys, f: nat)
    requires Pointers(s) && FlightsOk(limits, s) && PinsOk(s) && f in s.loaders && Busy(s.loaders[f])
    ensures f in s.core.fcells && !s.core.fcells[f].finished
    ensures var s' := GiveUpNext(s, f, ProgramAt(s, f)); Pointers(s') && FlightsOk(limits, s')
  {
    assert FlightOk(limits, s, f);
    SettleFlights(limits, s, GiveUpNext(s, f, ProgramAt(s, f)), f);
  }

  lemma GiveUpCloses(limits: Limits, s: Sys, f: nat)
    requires ListOk(limits, s.core) && CloseOk(s) && f in s.loaders && Busy(s.loaders[f]) && f in s.core.fcells
    ensures var s' := GiveUpNext(s, f, ProgramAt(s, f)); ListOk(limits, s'.core) && CloseOk(s')
  {
    var s' := GiveUpNext(s, f, ProgramAt(s, f));
    Relist(limits, s.core, s'.core);
    MapPut(s.loaders, f, s'.loaders[f]);
    CloseFrame(s, s');
  }

  lemma GiveUpInv(limits: Limits, s: Sys, f: nat)
    requires Inv(limits, s) && f in s.loaders && Busy(s.loaders[f])
    ensures f in s.core.fcells && Inv(limits, GiveUpNext(s, f, ProgramAt(s, f)))
  {
    GiveUpFlights(limits, s, f);
    GiveUpPins(limits, s, f, ProgramAt(s, f));
    GiveUpCloses(limits, s, f);
    GiveUpPlaced(s, f);
  }

  lemma PublishInv(limits: Limits, s: Sys, f: nat, program: nat, victims: seq<nat>)
    requires Inv(limits, s) && f in s.loaders && s.loaders[f] == Compiled(program) && f in s.core.fcells
    requires SelectVictims(limits, s.core, s.core.fcells[f].weight) == Some(victims)
    requires forall i :: i in victims ==> i in s.core.cells
    ensures Inv(limits, PublishNext(s, f, program, victims))
  {
    var s' := PublishNext(s, f, program, victims);
    assert FlightOk(limits, s, f);
    assert InFlight(s.core, s.core.fcells[f].key);
    FreshEntry(s);
    VictimsListed(limits, s.core, s.core.fcells[f].weight);
    PublishLinked(limits, s, f, program, victims);
    SettleFlights(limits, s, s', f);
    PublishPins(limits, s, f, program, victims);
    PublishList(limits, s.core, s'.core, s.core.fcells[f].key, s.nextEntry, victims);
    MapPut(s.loaders, f, s'.loaders[f]);
    CloseFrame(s, s');
    PublishIsPublished(s, f, program, victims);
    PublishPlaced(s, s', f, program, victims);
  }

  lemma CompleteInv(limits: Limits, s: Sys, f: nat, loadErr: bool)
    requires Inv(limits, s) && f in s.loaders && Busy(s.loaders[f])
    ensures f in s.core.fcells && Inv(limits, CompleteNext(limits, s, f, loadErr))
  {
    var program := ProgramAt(s, f);
    var victims := Victims(limits, s.core, f, program, loadErr);
    if victims.Some? && program.Some? {
      VictimsListed(limits, s.core, s.core.fcells[f].weight);
      PublishInv(limits, s, f, program.value, victims.value);
    } else {
      GiveUpInv(limits, s, f);
    }
  }

  lemma LoaderCloseInv(limits: Limits, s: Sys, f: nat, ok: bool)
    requires Inv(limits, s) && f in s.loaders && s.loaders[f].Closing? && s.loaders[f].batch.todo != []
    ensures Inv(limits, LoaderCloseNext(s, f, ok))
  {
    var s' := LoaderCloseNext(s, f, ok);
    LoaderFlights(limits, s, s', f);
    SamePinners(s, s');
    MapPut(s.loaders, f, s'.loaders[f]);
    CloseFrame(s, s');
    LoaderClosePlaced(s, f, ok);
  }

  lemma ReportFlights(limits: Limits, s: Sys, f: nat)
    requires Pointers(s) && FlightsOk(limits, s) && f in s.loaders && s.loaders[f].Closing?
    ensures var s' := LoaderReportNext(s, f); Pointers(s') && FlightsOk(limits, s')
  {
    var s' := LoaderReportNext(s, f);
    var mid := s.(loaders := s.loaders[f := LoaderEnding]);
    LoaderFlights(limits, s, mid, f);
    if s.loaders[f].batch.failed != [] {
      CancelFlights(limits, mid, s');
    } else {
      LoaderFlights(limits, s, s', f);
    }
  }

  lemma ReportCloses(limits: Limits, s: Sys, f: nat)
    requires PinsOk(s) && ListOk(limits, s.core) && CloseOk(s) && f in s.loaders && s.loaders[f].Closing?
    ensures var s' := LoaderReportNext(s, f); PinsOk(s') && ListOk(limits, s'.core) && CloseOk(s')
  {
    var s' := LoaderReportNext(s, f);
    SamePinners(s, s');
    Relist(limits, s.core, s'.core);
    MapPut(s.loaders, f, LoaderEnding);
    assert f in s.loaders.Keys;
    CloseFrame(s, s');
  }

  lemma ReportInv(limits: Limits, s: Sys, f: nat)
    requires Inv(limits, s) && f in s.loaders && s.loaders[f].Closing? && s.loaders[f].batch.todo == []
    ensures Inv(limits, LoaderReportNext(s, f))
  {
    ReportFlights(limits, s, f);
    ReportCloses(limits, s, f);
    ReportPlaced(s, f);
  }

  lemma LoaderFinishInv(limits: Limits, s: Sys, f: nat)
    requires Inv(limits, s) && f in s.loaders && s.loaders[f].LoaderEnding?
    ensures Inv(limits, LoaderFinishNext(s, f))
  {
    var s' := LoaderFinishNext(s, f);
    LoaderFlights(limits, s, s', f);
    SamePinners(s, s');
    Relist(limits, s.core, s'.core);
    MapDrop(s.loaders, f);
    CloseFrame(s, s');
    LoaderFinishPlaced(s, f);
  }

  lemma CloseCallFlights(limits: Limits, s: Sys)
    requires Pointers(s) && FlightsOk(limits, s)
    ensures Pointers(CloseCallNext(s)) && FlightsOk(limits, CloseCallNext(s))
  {
    if !s.core.released && !s.core.closing {
      CancelFlights(limits, s, CloseCallNext(s));
    } else {
      DetachFlights(limits, s, CloseCallNext(s));
    }
  }

  lemma CloseCallPins(s: Sys)
    requires PinsOk(s)
    ensures PinsOk(CloseCallNext(s))
  {
    SamePinners(s, CloseCallNext(s));
  }

  lemma SameList(limits: Limits, core: Core, core': Core)
    requires ListOk(limits, core) && core'.lru == core.lru && core'.cells == core.cells
    requires core'.entries == core.entries && core'.currentWeight == core.currentWeight
    ensures ListOk(limits, core')
  {
    forall e | e in core'.lru ensures Listed(core', e) { assert Listed(core, e); }
    forall k | k in core'.entries ensures Mapped(core', k) { assert Mapped(core, k); }
  }

  lemma CloseCallCore(s: Sys)
    ensures var c := CloseCallNext(s).core;
            c.lru == s.core.lru && c.cells == s.core.cells && c.entries == s.core.entries && c.currentWeight == s.core.currentWeight
  {
  }

  lemma CloseCallList(limits: Limits, s: Sys)
    requires ListOk(limits, s.core)
    ensures ListOk(limits, CloseCallNext(s).core)
  {
    CloseCallCore(s);
    SameList(limits, s.core, CloseCallNext(s).core);
  }

  lemma CloseCallInv(limits: Limits, s: Sys)
    requires Inv(limits, s)
    ensures Inv(limits, CloseCallNext(s))
  {
    CloseCallFlights(limits, s);
    CloseCallPins(s);
    CloseCallList(limits, s);
    CloseCallClose(s);
    CloseCallPlaced(s);
  }

  lemma CloseCallPlaced(s: Sys)
    requires Placed(s) && CloseOk(s)
    ensures Placed(CloseCallNext(s))
  {
    var s' := CloseCallNext(s);
    assert forall k :: k in s.closers ==> CloserOk(s, k);
    forall p | p in s'.place ensures Holds(s', p, s'.place[p]) { assert Holds(s, p, s.place[p]); }
  }

  lemma DetachInv(limits: Limits, s: Sys, k: nat, order: seq<nat>)
    requires Inv(limits, s) && k in s.closers && s.closers[k].AwaitingDrain?
    requires ChannelClosed(s.core, s.closers[k].gen) && Enumerates(s.core, order)
    ensures (forall i :: i in order ==> i in s.core.cells) && Inv(limits, DetachNext(s, k, order))
  {
    assert forall i :: i in order ==> i in s.core.cells;
    var s' := DetachNext(s, k, order);
    DrainedMeansIdle(s, k);
    DetachFlights(limits, s, s');
    DetachPins(s, s');
    DetachClose(s, k, order);
    DetachPlaced(limits, s, k, order);
    DetachList(limits, s, k, order);
  }

  lemma DetachList(limits: Limits, s: Sys, k: nat, order: seq<nat>)
    requires ListOk(limits, s.core) && forall i :: i in order ==> i in s.core.cells
    ensures ListOk(limits, DetachNext(s, k, order).core)
  {
    TotalWeightNonNegative(s.core.cells, s.core.lru) by {
      assert forall e :: e in s.core.lru ==> Listed(s.core, e);
    }
  }

  lemma CloserCloseInv(limits: Limits, s: Sys, k: nat, ok: bool)
    requires Inv(limits, s) && k in s.closers && s.closers[k].Releasing? && s.closers[k].batch.todo != []
    ensures Inv(limits, CloserCloseNext(s, k, ok))
  {
    var s' := CloserCloseNext(s, k, ok);
    DetachFlights(limits, s, s');
    SamePinners(s, s');
    CloserCloseClose(s, k, ok);
    CloserClosePlaced(s, k, ok);
  }

  lemma CloseReturnInv(limits: Limits, s: Sys, k: nat)
    requires Inv(limits, s) && k in s.closers && s.closers[k].Releasing? && s.closers[k].batch.todo == []
    ensures Inv(limits, CloseReturnNext(s, k))
  {
    var s' := CloseReturnNext(s, k);
    assert CloserOk(s, k);
    DetachFlights(limits, s, s');
    SamePinners(s, s');
    Relist(limits, s.core, s'.core);
    CloseReturnClose(s, k);
    CloseReturnPlaced(s, k);
  }

  /** No step of any goroutine leaves the good states. */
  lemma StepInv(limits: Limits, s: Sys, step: Step)
    requires Inv(limits, s) && Enabled(limits, s, step)
    ensures Inv(limits, Next(limits, s, step))
  {
    match step
    case Begin(key, weight) => BeginInv(limits, s, key, weight);
    case AdmitStep(c, queueFull) => AdmitInv(limits, s, c, queueFull);
    case Claim(c) => ClaimInv(limits, s, c);
    case Leave(c) => LeaveInv(limits, s, c);
    case Finish(c) => FinishInv(limits, s, c);
    case Release(c) => if c in s.callers && s.callers[c].Leased? { ReleaseInv(limits, s, c); }
    case Compile(f) => CompileInv(limits, s, f);
    case CompleteStep(f, loadErr) => CompleteInv(limits, s, f, loadErr);
    case LoaderCloseOne(f, ok) => LoaderCloseInv(limits, s, f, ok);
    case LoaderReport(f) => ReportInv(limits, s, f);
    case LoaderFinish(f) => LoaderFinishInv(limits, s, f);
    case CloseCall => CloseCallInv(limits, s);
    case CloseDetach(k, order) => DetachInv(limits, s, k, order);
    case CloserCloseOne(k, ok) => CloserCloseInv(limits, s, k, ok);
    case CloseReturn(k) => CloseReturnInv(limits, s, k);
  }

  // ---------- whole runs ----------

  lemma InitInv(limits: Limits)
    requires limits.maxWeight >= 1 && limits.maxEntries >= 1
    ensures Inv(limits, Init())
  {
  }

  // ---------- runs ----------

  /** Any critical section of any goroutine, in any order. */
  ghost function Moves(limits: Limits): iset<R.Move<Sys, Step>> {
    iset m: R.Move<Sys, Step> |
      Pointers(m.pre) && Enabled(limits, m.pre, m.step) && m.post == Next(limits, m.pre, m.step)
  }

  /** A state of some run of a cache with the given limits. */
  ghost predicate Reachable(limits: Limits, s: Sys) {
    limits.maxWeight >= 1 && limits.maxEntries >= 1 && R.Reachable(Init(), Moves(limits), s)
  }

  lemma MoveInv(limits: Limits, s: Sys, step: Step, s': Sys)
    requires Inv(limits, s) && R.Move(s, step, s') in Moves(limits)
    ensures Inv(limits, s')
  {
    StepInv(limits, s, step);
  }

  lemma GoodIsKept(limits: Limits)
    ensures R.Keeps(Moves(limits), Good(limits))
  {
    forall m | m in Moves(limits) && m.pre in Good(limits) ensures m.post in Good(limits) {
      assert m == R.Move(m.pre, m.step, m.post);
      MoveInv(limits, m.pre, m.step, m.post);
    }
  }

  /** Every state of every run is good. */
  lemma ReachableIsGood(limits: Limits, s: Sys)
    requires Reachable(limits, s)
    ensures Inv(limits, s)
  {
    InitInv(limits);
    GoodIsKept(limits);
    R.ReachableIsIn(Init(), Moves(limits), Good(limits), s);
  }

  lemma HolderIsPlace(s: Sys, p: nat, v: Place)
    requires Owned(s) && Holds(s, p, v)
    ensures p in s.place && s.place[p] == v
  {
    match v
    case InLoad(f) =>
    case InCache(e) =>
    case InPending => assert InBatch(p, Batch([], s.core.closePending));
    case InLoaderBatch(f) => assert InBatch(p, s.loaders[f].batch);
    case InCloserBatch(k) => assert InBatch(p, s.closers[k].batch);
    case IsClosed => assert InBatch(p, Batch([], s.closedLog));
  }

  /** In every reachable state a compiled program is in exactly one place. */
  lemma ExactlyOnePlace(limits: Limits, s: Sys, p: nat)
    requires Reachable(limits, s) && p < s.nextProgram
    ensures exists w :: Holds(s, p, w) && forall v :: Holds(s, p, v) ==> v == w
  {
    ReachableIsGood(limits, s);
    var w := s.place[p];
    assert Holds(s, p, w);
    forall v | Holds(s, p, v) ensures v == w { HolderIsPlace(s, p, v); }
  }

  /** A program reachable from a live lease is cached; nobody holds it to close it, and it is not closed. */
  lemma LeasedProgramIsCached(limits: Limits, s: Sys, c: nat)
    requires Reachable(limits, s) && c in s.callers && s.callers[c].Leased?
    ensures var e := s.callers[c].entry;
            && e in s.core.cells && Holds(s, s.core.cells[e].program, InCache(e))
            && forall v :: Holds(s, s.core.cells[e].program, v) ==> v == InCache(e)
  {
    ReachableIsGood(limits, s);
    var e := s.callers[c].entry;
    assert Points(s.core, s.callers[c]);
    HeldIsListed(s, c, e);
    forall v | Holds(s, s.core.cells[e].program, v) ensures v == InCache(e) {
      HolderIsPlace(s, s.core.cells[e].program, v);
    }
  }

  /** Callers that own a lease on e. */
  ghost function LeasesOn(s: Sys, e: nat): set<nat> {
    set c | c in s.callers && s.callers[c] == Leased(e)
  }

  /** Callers whose flight finished with e and who have not claimed it yet. */
  ghost function UnclaimedOf(s: Sys, e: nat): set<nat> {
    set c | c in s.callers && s.callers[c].Waiting? && Pins(s.core.fcells, s.callers[c], e)
  }

  /** `refs` is the number of leases plus the unclaimed waiters of the finished flight. */
  lemma RefsCountHolders(limits: Limits, s: Sys, e: nat)
    requires Reachable(limits, s) && e in s.core.cells
    ensures s.core.cells[e].refs == |LeasesOn(s, e)| + |UnclaimedOf(s, e)|
    ensures s.core.cells[e].refs > 0 ==> e in s.core.lru
  {
    ReachableIsGood(limits, s);
    assert PinOk(s, e);
    HoldersSplit(s, e);
  }

  lemma HoldersSplit(s: Sys, e: nat)
    ensures |Holders(s.core.fcells, s.callers, e)| == |LeasesOn(s, e)| + |UnclaimedOf(s, e)|
  {
    assert Holders(s.core.fcells, s.callers, e) == LeasesOn(s, e) + UnclaimedOf(s, e);
    assert LeasesOn(s, e) !! UnclaimedOf(s, e);
  }

  /** No key is cached and in flight at once; both capacity bounds and the weight sum always hold. */
  lemma CapacityHolds(limits: Limits, s: Sys)
    requires Reachable(limits, s)
    ensures s.core.entries.Keys !! s.core.flights.Keys
    ensures s.core.currentWeight == TotalWeight(s.core.cells, s.core.lru) <= limits.maxWeight
    ensures |s.core.entries| == |s.core.lru| <= limits.maxEntries
    ensures Distinct(s.core.lru) && forall e :: e in s.core.lru <==> e in s.core.entries.Values
  {
    ReachableIsGood(limits, s);
    MapSize(limits, s.core);
    MapValues(limits, s.core);
    forall k | k in s.core.flights ensures k !in s.core.entries { assert InFlight(s.core, k); }
  }

  /** However Close calls overlap and fail, no program is closed successfully twice. */
  lemma ClosedAtMostOnce(limits: Limits, s: Sys)
    requires Reachable(limits, s)
    ensures Distinct(s.closedLog)
  {
    ReachableIsGood(limits, s);
    assert [] + s.closedLog == s.closedLog;
  }

  /** abandonFlight's early return for a flight without waiters is never taken. */
  lemma AbandonAlwaysCounts(limits: Limits, s: Sys, c: nat)
    requires Reachable(limits, s) && c in s.callers && s.callers[c].Waiting?
    ensures s.callers[c].flight in s.core.fcells && s.core.fcells[s.callers[c].flight].waiters >= 1
  {
    ReachableIsGood(limits, s);
    SomeoneWaits(limits, s, c);
  }

  // ---------- closing ----------

  ghost predicate Idle(s: Sys) {
    s.core.closing && s.core.active == 0 && s.callers == map[] && s.loaders == map[]
  }

  ghost function IdleStates(): iset<Sys> {
    iset s: Sys | Idle(s)
  }

  lemma IdleStep(limits: Limits, s: Sys, step: Step)
    requires Idle(s) && Pointers(s) && Enabled(limits, s, step)
    ensures Idle(Next(limits, s, step))
  {
  }

  lemma IdleIsKept(limits: Limits)
    ensures R.Keeps(Moves(limits), IdleStates())
  {
    forall m | m in Moves(limits) && m.pre in IdleStates() ensures m.post in IdleStates() {
      IdleStep(limits, m.pre, m.step);
    }
  }

  lemma DrainedIsIdle(s: Sys)
    requires CloseOk(s) && s.core.closing && s.core.active == 0
    ensures Idle(s)
  {
  }

  /** Once closing with nothing active, nothing becomes active again: no call, no lease, no flight goroutine. */
  lemma IdleForever(limits: Limits, states: seq<Sys>, steps: seq<Step>, i: nat, j: nat)
    requires limits.maxWeight >= 1 && limits.maxEntries >= 1
    requires R.IsRun(Init(), Moves(limits), states, steps) && i <= j < |states|
    requires states[i].core.closing && states[i].core.active == 0
    ensures Idle(states[j])
  {
    assert Idle(states[i]) by {
      assert states[i] in states;
      ReachableIsGood(limits, states[i]);
      DrainedIsIdle(states[i]);
    }
    IdleIsKept(limits);
    R.StaysFrom(Init(), Moves(limits), IdleStates(), states, steps, i, j);
  }

  /** A Close call detaches only in an idle cache, and the list it overwrites afterwards is empty. */
  lemma OverwriteLosesNothing(limits: Limits, s: Sys, k: nat)
    requires Reachable(limits, s) && k in s.closers && s.closers[k].Releasing?
    ensures s.core.closePending == [] && Idle(s)
  {
    ReachableIsGood(limits, s);
    assert CloserOk(s, k);
    DrainedIsIdle(s);
  }

  /** Idle, nothing left to close, and every program ever compiled is closed. */
  ghost predicate Finished(s: Sys) {
    && Idle(s) && s.core.entries == map[] && s.core.closePending == []
    && (forall k :: k in s.closers && s.closers[k].Releasing? ==> s.closers[k].batch == Batch([], []))
    && (forall p :: p in s.place ==> s.place[p] == IsClosed)
  }

  ghost function FinishedIfReleased(limits: Limits): iset<Sys> {
    iset s: Sys | s in Good(limits) && (s.core.released ==> Finished(s))
  }

  lemma NothingToVisit(core: Core, order: seq<nat>)
    requires core.entries == map[] && Enumerates(core, order)
    ensures order == []
  {
    assert core.entries.Values == {};
    assert ToSet(order) == {};
    DistinctSize(order);
  }

  lemma FinishedStays(limits: Limits, s: Sys, step: Step, s': Sys)
    requires Finished(s) && R.Move(s, step, s') in Moves(limits)
    ensures Finished(s')
  {
    if step.CloseDetach? {
      NothingToVisit(s.core, step.order);
    }
  }

  /** The Close call that reports success leaves nothing behind. */
  lemma ReturnFinishes(limits: Limits, s: Sys, k: nat)
    requires Inv(limits, s) && k in s.closers && s.closers[k] == Releasing(Batch([], []))
    ensures Finished(s)
  {
    assert CloserOk(s, k);
    DrainedIsIdle(s);
    NothingMapped(limits, s.core);
    forall p | p in s.place ensures s.place[p] == IsClosed {
      assert Holds(s, p, s.place[p]);
    }
  }

  lemma NothingMapped(limits: Limits, core: Core)
    requires ListOk(limits, core) && core.lru == []
    ensures core.entries == map[]
  {
    assert forall k :: k in core.entries ==> Mapped(core, k);
  }

  lemma ReleaseIsByReturn(limits: Limits, s: Sys, step: Step, s': Sys)
    requires !s.core.released && s'.core.released && R.Move(s, step, s') in Moves(limits)
    ensures step.CloseReturn? && step.closer in s.closers && s.closers[step.closer] == Releasing(Batch([], []))
  {
    if !step.CloseReturn? { OnlyReturnReleases(limits, s, step); }
  }

  /** The system step runs exactly Acquire's second critical section on the core. */
  lemma AdmitRunsOnCore(s: Sys, c: nat, queueFull: bool)
    requires c in s.callers && s.callers[c].Began? && Linked(s.core)
    ensures AdmitNext(s, c, queueFull).core
         == Admit(s.core, s.callers[c].key, s.callers[c].weight, queueFull, s.nextFlight).0
  {
    match Admit(s.core, s.callers[c].key, s.callers[c].weight, queueFull, s.nextFlight).1
    case Refused =>
    case QueueFull =>
    case Hit(e) =>
    case Joined(g) =>
    case Started(_) =>
  }

  lemma AdmitReleasesNothing(s: Sys, c: nat, queueFull: bool)
    requires c in s.callers && s.callers[c].Began? && Linked(s.core)
    ensures AdmitNext(s, c, queueFull).core.released == s.core.released
  {
    AdmitRunsOnCore(s, c, queueFull);
  }

  lemma CompleteReleasesNothing(limits: Limits, s: Sys, f: nat, loadErr: bool)
    requires f in s.loaders && f in s.core.fcells
    ensures CompleteNext(limits, s, f, loadErr).core.released == s.core.released
  {
  }

  lemma OnlyReturnReleases(limits: Limits, s: Sys, step: Step)
    requires Pointers(s) && Enabled(limits, s, step) && !step.CloseReturn?
    ensures Next(limits, s, step).core.released == s.core.released
  {
    match step
    case AdmitStep(c, queueFull) => AdmitReleasesNothing(s, c, queueFull);
    case CompleteStep(f, loadErr) => CompleteReleasesNothing(limits, s, f, loadErr);
    case _ =>
  }

  lemma FinishedIfReleasedIsKept(limits: Limits)
    ensures R.Keeps(Moves(limits), FinishedIfReleased(limits))
  {
    forall m | m in Moves(limits) && m.pre in FinishedIfReleased(limits)
      ensures m.post in FinishedIfReleased(limits)
    {
      assert m == R.Move(m.pre, m.step, m.post);
      MoveInv(limits, m.pre, m.step, m.post);
      if m.post.core.released {
        if !m.pre.core.released {
          ReleaseIsByReturn(limits, m.pre, m.step, m.post);
          ReturnFinishes(limits, m.pre, m.step.closer);
        }
        FinishedStays(limits, m.pre, m.step, m.post);
      }
    }
  }

  /** When Close has reported success, every program ever compiled was closed, each exactly once. */
  lemma SuccessfulCloseClosesAll(limits: Limits, s: Sys)
    requires Reachable(limits, s) && s.core.released
    ensures Distinct(s.closedLog) && forall p :: 0 <= p < s.nextProgram <==> p in s.closedLog
  {
    ClosedAtMostOnce(limits, s);
    InitInv(limits);
    FinishedIfReleasedIsKept(limits);
    R.ReachableIsIn(Init(), Moves(limits), FinishedIfReleased(limits), s);
    AllInLog(limits, s);
  }

  lemma AllInLog(limits: Limits, s: Sys)
    requires Inv(limits, s) && Finished(s)
    ensures forall p :: 0 <= p < s.nextProgram <==> p in s.closedLog
  {
    forall p | 0 <= p < s.nextProgram ensures p in s.closedLog { assert Holds(s, p, s.place[p]); }
    forall p | p in s.closedLog ensures p < s.nextProgram { assert InBatch(p, Batch([], s.closedLog)); }
  }
}
