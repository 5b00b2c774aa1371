/** The close protocol and the whereabouts of every compiled program, step by step. */
module CachePlaces {
  import opened Common
  import opened CacheCore
  import opened CacheSystem
  import opened CacheProofs

  // ---------- close protocol ----------

  /** Calls and goroutines come and go without touching the close protocol. */
  lemma CloseFrame(s: Sys, s': Sys)
    requires CloseOk(s)
    requires s'.closers == s.closers && s'.nextCloser == s.nextCloser
    requires s.core.closing ==> s'.core.closing
    requires s'.core.releasing == s.core.releasing && s'.core.released == s.core.released
    requires s.core.active == 0 ==>
      s'.core.closePending == s.core.closePending && (s'.core.lru == [] <==> s.core.lru == [])
    requires s'.core.active == |s'.callers| + |s'.loaders|
    requires s'.core.drainClosed <==> s'.core.active == 0
    requires s.core.closing ==> s'.core.drainGen == s.core.drainGen && (s.core.active == 0 ==> s'.core.active == 0)
    ensures CloseOk(s')
  {
    forall k | k in s'.closers ensures CloserOk(s', k) { assert CloserOk(s, k); }
  }

  lemma CloseCallClose(s: Sys)
    requires CloseOk(s)
    ensures CloseOk(CloseCallNext(s))
  {
    var s' := CloseCallNext(s);
    forall k | k in s'.closers ensures CloserOk(s', k) {
      assert k in s.closers ==> CloserOk(s, k);
    }
  }

  /** A Close call passes its drain wait only when nothing is active, and nothing ever becomes active again. */
  lemma DrainedMeansIdle(s: Sys, k: nat)
    requires CloseOk(s) && k in s.closers && s.closers[k].AwaitingDrain? && ChannelClosed(s.core, s.closers[k].gen)
    ensures s.core.closing && s.core.active == 0 && s.callers == map[] && s.loaders == map[]
  {
    assert CloserOk(s, k);
  }

  lemma DetachClose(s: Sys, k: nat, order: seq<nat>)
    requires CloseOk(s) && k in s.closers && s.closers[k].AwaitingDrain? && ChannelClosed(s.core, s.closers[k].gen)
    requires forall i :: i in order ==> i in s.core.cells
    ensures CloseOk(DetachNext(s, k, order))
  {
    DrainedMeansIdle(s, k);
    var s' := DetachNext(s, k, order);
    forall l | l in s'.closers ensures CloserOk(s', l) {
      assert CloserOk(s, l);
    }
  }

  lemma CloserCloseClose(s: Sys, k: nat, ok: bool)
    requires CloseOk(s) && k in s.closers && s.closers[k].Releasing? && s.closers[k].batch.todo != []
    ensures CloseOk(CloserCloseNext(s, k, ok))
  {
    var s' := CloserCloseNext(s, k, ok);
    forall l | l in s'.closers ensures CloserOk(s', l) {
      assert CloserOk(s, l) && CloserOk(s, k);
    }
  }

  lemma CloseReturnClose(s: Sys, k: nat)
    requires CloseOk(s) && k in s.closers && s.closers[k].Releasing?
    ensures CloseOk(CloseReturnNext(s, k))
  {
    var s' := CloseReturnNext(s, k);
    assert CloserOk(s, k);
    forall l | l in s'.closers ensures CloserOk(s', l) {
      assert CloserOk(s, l);
    }
  }

  // ---------- programs ----------

  /** Nothing that owns a program changed. */
  lemma PlacedFrame(s: Sys, s': Sys)
    requires Placed(s)
    requires forall e :: e in s'.core.lru <==> e in s.core.lru
    requires SameModules(s.core.cells, s'.core.cells)
    requires s'.core.closePending == s.core.closePending && s'.closers == s.closers
    requires s'.loaders == s.loaders && s'.place == s.place && s'.closedLog == s.closedLog
    requires s'.nextProgram == s.nextProgram
    ensures Placed(s')
  {
    forall p | p in s'.place ensures Holds(s', p, s'.place[p]) { assert Holds(s, p, s.place[p]); }
  }

  lemma StartPlaced(limits: Limits, s: Sys, c: nat)
    requires Placed(s) && c in s.callers && s.callers[c].Began? && s.nextFlight !in s.loaders
    ensures Placed(StartNext(s, c))
  {
    var s' := StartNext(s, c);
    forall p | p in s'.place ensures Holds(s', p, s'.place[p]) { assert Holds(s, p, s.place[p]); }
  }

  lemma CompilePlaced(s: Sys, f: nat)
    requires Placed(s) && f in s.loaders && s.loaders[f].Loading?
    ensures Placed(CompileNext(s, f))
  {
    var s' := CompileNext(s, f);
    forall p | p in s'.place ensures p < s'.nextProgram && Holds(s', p, s'.place[p]) {
      assert p in s.place ==> Holds(s, p, s.place[p]);
    }
  }

  lemma BatchAdvance(place: map<nat, Place>, b: Batch, where: Place, ok: bool)
    requires BatchOk(place, b, where) && b.todo != [] && where != IsClosed
    ensures var p := b.todo[0];
            && p in place && place[p] == where
            && BatchOk(if ok then place[p := IsClosed] else place, CloseOne(b, ok), where)
            && (forall q :: InBatch(q, CloseOne(b, ok)) <==> InBatch(q, b) && !(ok && q == p))
  {
    var p, b' := b.todo[0], CloseOne(b, ok);
    var was, now := b.todo + b.failed, b'.todo + b'.failed;
    assert InBatch(p, b);
    assert was[1..] == b.todo[1..] + b.failed;
    assert now == was[1..] + if ok then [] else [p];
    forall q | q in was[1..] ensures q != p {
      var i :| 0 <= i < |was[1..]| && was[1..][i] == q;
      assert was[i + 1] != was[0];
    }
    DistinctAppend(was[1..], if ok then [] else [p]);
    forall q ensures InBatch(q, b') <==> InBatch(q, b) && !(ok && q == p) {
      assert b.todo == [p] + b.todo[1..];
      assert InBatch(q, b) <==> q == p || q in was[1..];
      assert InBatch(q, b') <==> q in now;
    }
  }

  /** A program whose Close succeeded was open until now. */
  lemma LogClosed(s: Sys, p: nat)
    requires BatchOk(s.place, Batch([], s.closedLog), IsClosed) && p in s.place && s.place[p] != IsClosed
    ensures BatchOk(s.place[p := IsClosed], Batch([], s.closedLog + [p]), IsClosed)
  {
    var log := s.closedLog;
    assert [] + log == log && [] + (log + [p]) == log + [p];
    forall q | q in log ensures q != p { assert InBatch(q, Batch([], log)); }
    DistinctAppend(log, [p]);
    forall q | InBatch(q, Batch([], log + [p]))
      ensures q in s.place[p := IsClosed] && s.place[p := IsClosed][q] == IsClosed
    {
      assert q != p ==> InBatch(q, Batch([], log));
    }
  }

  lemma BatchElsewhere(place: map<nat, Place>, b: Batch, where: Place, p: nat, to: Place)
    requires BatchOk(place, b, where) && p in place && place[p] != where
    ensures BatchOk(place[p := to], b, where)
  {
  }

  lemma LoaderClosePlaced(s: Sys, f: nat, ok: bool)
    requires Placed(s) && f in s.loaders && s.loaders[f].Closing? && s.loaders[f].batch.todo != []
    ensures Placed(LoaderCloseNext(s, f, ok))
  {
    var s', b := LoaderCloseNext(s, f, ok), s.loaders[f].batch;
    var p := b.todo[0];
    BatchAdvance(s.place, b, InLoaderBatch(f), ok);
    if ok {
      LogClosed(s, p);
      BatchElsewhere(s.place, Batch([], s.core.closePending), InPending, p, IsClosed);
      forall g | g in s.loaders && g != f && s.loaders[g].Closing?
        ensures BatchOk(s'.place, s'.loaders[g].batch, InLoaderBatch(g))
      {
        BatchElsewhere(s.place, s.loaders[g].batch, InLoaderBatch(g), p, IsClosed);
      }
      forall k | k in s.closers && s.closers[k].Releasing?
        ensures BatchOk(s'.place, s'.closers[k].batch, InCloserBatch(k))
      {
        BatchElsewhere(s.place, s.closers[k].batch, InCloserBatch(k), p, IsClosed);
      }
    }
    forall q | q in s'.place ensures q < s'.nextProgram && Holds(s', q, s'.place[q]) {
      assert Holds(s, q, s.place[q]);
    }
  }

  lemma CloserClosePlaced(s: Sys, k: nat, ok: bool)
    requires Placed(s) && k in s.closers && s.closers[k].Releasing? && s.closers[k].batch.todo != []
    ensures Placed(CloserCloseNext(s, k, ok))
  {
    var s', b := CloserCloseNext(s, k, ok), s.closers[k].batch;
    var p := b.todo[0];
    BatchAdvance(s.place, b, InCloserBatch(k), ok);
    if ok {
      LogClosed(s, p);
      BatchElsewhere(s.place, Batch([], s.core.closePending), InPending, p, IsClosed);
      forall g | g in s.loaders && s.loaders[g].Closing?
        ensures BatchOk(s'.place, s'.loaders[g].batch, InLoaderBatch(g))
      {
        BatchElsewhere(s.place, s.loaders[g].batch, InLoaderBatch(g), p, IsClosed);
      }
      forall l | l in s.closers && l != k && s.closers[l].Releasing?
        ensures BatchOk(s'.place, s'.closers[l].batch, InCloserBatch(l))
      {
        BatchElsewhere(s.place, s.closers[l].batch, InCloserBatch(l), p, IsClosed);
      }
    }
    forall q | q in s'.place ensures q < s'.nextProgram && Holds(s', q, s'.place[q]) {
      assert Holds(s, q, s.place[q]);
    }
  }

  /** Programs at `from` move to `to`; a batch somewhere else does not notice. */
  lemma MoveElsewhere(place: map<nat, Place>, b: Batch, where: Place, ps: seq<nat>, to: Place)
    requires BatchOk(place, b, where)
    requires forall p :: p in ps ==> p in place && place[p] != where
    ensures BatchOk(Move(place, ps, to), b, where)
  {
  }

  /** ... and the batch that receives them grows by them. */
  lemma MoveHere(place: map<nat, Place>, xs: seq<nat>, ps: seq<nat>, to: Place)
    requires BatchOk(place, Batch([], xs), to)
    requires Distinct(ps) && forall p :: p in ps ==> p in place && place[p] != to
    ensures BatchOk(Move(place, ps, to), Batch([], xs + ps), to)
  {
    assert [] + xs == xs && [] + (xs + ps) == xs + ps;
    forall q | q in xs ensures q !in ps { assert InBatch(q, Batch([], xs)); }
    DistinctAppend(xs, ps);
    forall q | InBatch(q, Batch([], xs + ps)) ensures q in Move(place, ps, to) && Move(place, ps, to)[q] == to {
      assert q in xs ==> InBatch(q, Batch([], xs));
    }
  }

  /** Everything outside the programs `ps`, which all leave place `from`, keeps its owner. */
  lemma OthersOwned(s: Sys, s': Sys, ps: seq<nat>, from: Place, to: Place)
    requires Owned(s) && s'.place == Move(s.place, ps, to)
    requires forall p :: p in ps ==> p in s.place && s.place[p] == from
    ensures forall g :: g in s.loaders && s.loaders[g].Compiled? && from != InLoad(g) ==>
      s.loaders[g].program in s'.place && s'.place[s.loaders[g].program] == InLoad(g)
    ensures forall g :: g in s.loaders && s.loaders[g].Closing? && from != InLoaderBatch(g) ==>
      BatchOk(s'.place, s.loaders[g].batch, InLoaderBatch(g))
    ensures forall k :: k in s.closers && s.closers[k].Releasing? && from != InCloserBatch(k) ==>
      BatchOk(s'.place, s.closers[k].batch, InCloserBatch(k))
    ensures from != InPending ==> BatchOk(s'.place, Batch([], s.core.closePending), InPending)
    ensures from != IsClosed ==> BatchOk(s'.place, Batch([], s.closedLog), IsClosed)
  {
    forall g | g in s.loaders && s.loaders[g].Closing? && from != InLoaderBatch(g)
      ensures BatchOk(s'.place, s.loaders[g].batch, InLoaderBatch(g)) {
      MoveElsewhere(s.place, s.loaders[g].batch, InLoaderBatch(g), ps, to);
    }
    forall k | k in s.closers && s.closers[k].Releasing? && from != InCloserBatch(k)
      ensures BatchOk(s'.place, s.closers[k].batch, InCloserBatch(k)) {
      MoveElsewhere(s.place, s.closers[k].batch, InCloserBatch(k), ps, to);
    }
    if from != InPending { MoveElsewhere(s.place, Batch([], s.core.closePending), InPending, ps, to); }
    if from != IsClosed { MoveElsewhere(s.place, Batch([], s.closedLog), IsClosed, ps, to); }
  }

  lemma FailedOf(place: map<nat, Place>, b: Batch, where: Place)
    requires BatchOk(place, b, where) && b.todo == []
    ensures Distinct(b.failed) && forall p :: p in b.failed ==> p in place && place[p] == where
  {
    assert [] + b.failed == b.failed;
    forall p | p in b.failed ensures p in place && place[p] == where { assert InBatch(p, b); }
  }

  lemma ReportPlaced(s: Sys, f: nat)
    requires Placed(s) && f in s.loaders && s.loaders[f].Closing? && s.loaders[f].batch.todo == []
    ensures Placed(LoaderReportNext(s, f))
  {
    var s', failed := LoaderReportNext(s, f), s.loaders[f].batch.failed;
    FailedOf(s.place, s.loaders[f].batch, InLoaderBatch(f));
    OthersOwned(s, s', failed, InLoaderBatch(f), InPending);
    assert s'.core.closePending == s.core.closePending + failed;
    MoveHere(s.place, s.core.closePending, failed, InPending);
    forall q | q in s'.place ensures q < s'.nextProgram && Holds(s', q, s'.place[q]) {
      assert Holds(s, q, s.place[q]);
    }
  }

  lemma LoaderFinishPlaced(s: Sys, f: nat)
    requires Placed(s) && f in s.loaders && s.loaders[f].LoaderEnding?
    ensures Placed(LoaderFinishNext(s, f))
  {
    var s' := LoaderFinishNext(s, f);
    forall q | q in s'.place ensures q < s'.nextProgram && Holds(s', q, s'.place[q]) {
      assert Holds(s, q, s.place[q]);
    }
  }

  lemma CloseReturnPlaced(s: Sys, k: nat)
    requires Placed(s) && s.core.closePending == []
    requires k in s.closers && s.closers[k].Releasing? && s.closers[k].batch.todo == []
    ensures Placed(CloseReturnNext(s, k))
  {
    var s', failed := CloseReturnNext(s, k), s.closers[k].batch.failed;
    FailedOf(s.place, s.closers[k].batch, InCloserBatch(k));
    OthersOwned(s, s', failed, InCloserBatch(k), InPending);
    assert s'.core.closePending == s.core.closePending + failed;
    MoveHere(s.place, s.core.closePending, failed, InPending);
    forall q | q in s'.place ensures q < s'.nextProgram && Holds(s', q, s'.place[q]) {
      assert Holds(s, q, s.place[q]);
    }
  }

  /** Distinct cached entries hold distinct programs. */
  lemma ProgramsDistinct(s: Sys, ids: seq<nat>)
    requires Owned(s) && Distinct(ids) && forall i :: i in ids ==> i in s.core.lru && i in s.core.cells
    ensures Distinct(ProgramsOf(s.core.cells, ids))
    ensures forall p :: p in ProgramsOf(s.core.cells, ids) ==>
      p in s.place && s.place[p].InCache? && s.place[p].entry in ids
    ensures forall i :: i in ids ==> s.core.cells[i].program in ProgramsOf(s.core.cells, ids)
  {
    var ps := ProgramsOf(s.core.cells, ids);
    forall j | 0 <= j < |ids| ensures ps[j] in s.place && s.place[ps[j]] == InCache(ids[j]) {
      assert ids[j] in ids;
    }
    forall i | i in ids ensures s.core.cells[i].program in ps {
      var j :| 0 <= j < |ids| && ids[j] == i;
      assert ps[j] == s.core.cells[i].program;
    }
  }

  lemma GiveUpPlaced(s: Sys, f: nat)
    requires Placed(s) && f in s.loaders && Busy(s.loaders[f]) && f in s.core.fcells
    ensures Placed(GiveUpNext(s, f, ProgramAt(s, f)))
  {
    var s', program := GiveUpNext(s, f, ProgramAt(s, f)), ProgramAt(s, f);
    HandOver(s, s', f, if program.Some? then [program.value] else []);
  }

  /** A flight goroutine's program goes to its own batch. */
  lemma HandOverOwned(s: Sys, s': Sys, f: nat, gone: seq<nat>)
    requires Owned(s) && f in s.loaders && Busy(s.loaders[f])
    requires gone == if s.loaders[f].Compiled? then [s.loaders[f].program] else []
    requires s'.loaders == s.loaders[f := Closing(Batch(gone, []))] && s'.place == Move(s.place, gone, InLoaderBatch(f))
    requires s'.core.lru == s.core.lru && s'.core.cells == s.core.cells && s'.core.closePending == s.core.closePending
    requires s'.closers == s.closers && s'.closedLog == s.closedLog && s'.nextProgram == s.nextProgram
    ensures Owned(s')
  {
    OthersOwned(s, s', gone, InLoad(f), InLoaderBatch(f));
    assert gone + [] == gone;
  }

  lemma HandOver(s: Sys, s': Sys, f: nat, gone: seq<nat>)
    requires Placed(s) && f in s.loaders && Busy(s.loaders[f])
    requires gone == if s.loaders[f].Compiled? then [s.loaders[f].program] else []
    requires s'.loaders == s.loaders[f := Closing(Batch(gone, []))] && s'.place == Move(s.place, gone, InLoaderBatch(f))
    requires s'.core.lru == s.core.lru && s'.core.cells == s.core.cells && s'.core.closePending == s.core.closePending
    requires s'.closers == s.closers && s'.closedLog == s.closedLog && s'.nextProgram == s.nextProgram
    ensures Placed(s')
  {
    HandOverOwned(s, s', f, gone);
    forall q | q in s'.place ensures q < s'.nextProgram && Holds(s', q, s'.place[q]) {
      assert Holds(s, q, s.place[q]);
    }
  }

  /** The batches that neither lose a victim nor the new program. */
  lemma PublishOthers(s: Sys, f: nat, program: nat, gone: seq<nat>, place: map<nat, Place>, e: nat)
    requires Owned(s) && f in s.loaders && s.loaders[f] == Compiled(program)
    requires forall p :: p in gone ==> p in s.place && s.place[p].InCache?
    requires place == Move(s.place, gone, InLoaderBatch(f))[program := InCache(e)]
    ensures forall g :: g in s.loaders && g != f && s.loaders[g].Closing? ==>
      BatchOk(place, s.loaders[g].batch, InLoaderBatch(g))
    ensures forall k :: k in s.closers && s.closers[k].Releasing? ==>
      BatchOk(place, s.closers[k].batch, InCloserBatch(k))
    ensures BatchOk(place, Batch([], s.core.closePending), InPending)
    ensures BatchOk(place, Batch([], s.closedLog), IsClosed)
  {
    forall g | g in s.loaders && g != f && s.loaders[g].Closing?
      ensures BatchOk(place, s.loaders[g].batch, InLoaderBatch(g))
    {
      assert BatchOk(s.place, s.loaders[g].batch, InLoaderBatch(g));
    }
    forall k | k in s.closers && s.closers[k].Releasing? ensures BatchOk(place, s.closers[k].batch, InCloserBatch(k)) {
      assert BatchOk(s.place, s.closers[k].batch, InCloserBatch(k));
    }
  }

  /** What publishing does to the owners of programs. */
  ghost predicate Published(s: Sys, s': Sys, f: nat, program: nat, victims: seq<nat>) {
    var e := s.nextEntry;
    && f in s.loaders && s.loaders[f] == Compiled(program)
    && Distinct(victims) && (forall i :: i in victims ==> i in s.core.lru && i in s.core.cells)
    && e !in s.core.cells && e in s'.core.cells && s'.core.cells[e].program == program
    && s'.core.cells == s.core.cells[e := s'.core.cells[e]]
    && (forall x :: x in s'.core.lru <==> x == e || (x in s.core.lru && x !in victims))
    && s'.loaders == s.loaders[f := Closing(Batch(ProgramsOf(s.core.cells, victims), []))]
    && s'.place == Move(s.place, ProgramsOf(s.core.cells, victims), InLoaderBatch(f))[program := InCache(e)]
    && s'.closers == s.closers && s'.core.closePending == s.core.closePending
    && s'.closedLog == s.closedLog && s'.nextProgram == s.nextProgram
  }

  lemma PublishIsPublished(s: Sys, f: nat, program: nat, victims: seq<nat>)
    requires f in s.loaders && s.loaders[f] == Compiled(program) && f in s.core.fcells && s.nextEntry !in s.core.cells
    requires Distinct(victims) && forall i :: i in victims ==> i in s.core.lru && i in s.core.cells
    ensures Published(s, PublishNext(s, f, program, victims), f, program, victims)
  {
    var s' := PublishNext(s, f, program, victims);
    assert s'.core.lru == [s.nextEntry] + Without(s.core.lru, ToSetOf(victims));
  }

  /** The listed entries after an eviction still hold their programs. */
  lemma PublishCached(s: Sys, s': Sys, f: nat, program: nat, victims: seq<nat>)
    requires Owned(s) && Published(s, s', f, program, victims)
    ensures forall x :: x in s'.core.lru ==>
              x in s'.core.cells && s'.core.cells[x].program in s'.place && s'.place[s'.core.cells[x].program] == InCache(x)
  {
    ProgramsDistinct(s, victims);
    forall x | x in s'.core.lru ensures x in s'.core.cells && s'.core.cells[x].program in s'.place
        && s'.place[s'.core.cells[x].program] == InCache(x) {
      if x != s.nextEntry {
        assert s.place[s.core.cells[x].program] == InCache(x);
      }
    }
  }

  /** The evicted programs are the batch of the flight goroutine. */
  lemma PublishBatch(s: Sys, s': Sys, f: nat, program: nat, victims: seq<nat>)
    requires Owned(s) && Published(s, s', f, program, victims)
    ensures BatchOk(s'.place, s'.loaders[f].batch, InLoaderBatch(f))
  {
    ProgramsDistinct(s, victims);
    assert s.place[program] == InLoad(f);
    BatchAfterMove(s.place, s'.place, ProgramsOf(s.core.cells, victims), program, InLoaderBatch(f), InCache(s.nextEntry));
  }

  lemma BatchAfterMove(
      place: map<nat, Place>, place': map<nat, Place>, gone: seq<nat>, program: nat, where: Place, other: Place)
    requires Distinct(gone) && program !in gone && place' == Move(place, gone, where)[program := other]
    ensures BatchOk(place', Batch(gone, []), where)
  {
    assert gone + [] == gone;
  }

  /** Programs that other flight goroutines hold stay with them. */
  lemma PublishLoads(s: Sys, s': Sys, f: nat, program: nat, victims: seq<nat>)
    requires Owned(s) && Published(s, s', f, program, victims)
    ensures forall g :: g in s'.loaders && s'.loaders[g].Compiled? ==>
      s'.loaders[g].program in s'.place && s'.place[s'.loaders[g].program] == InLoad(g)
  {
    ProgramsDistinct(s, victims);
    assert s.place[program] == InLoad(f);
    forall g | g in s'.loaders && s'.loaders[g].Compiled?
      ensures s'.loaders[g].program in s'.place && s'.place[s'.loaders[g].program] == InLoad(g)
    {
      assert g != f && s'.loaders[g] == s.loaders[g] && s.place[s.loaders[g].program] == InLoad(g);
    }
  }

  lemma PublishOwned(s: Sys, s': Sys, f: nat, program: nat, victims: seq<nat>)
    requires Owned(s) && Published(s, s', f, program, victims)
    ensures Owned(s')
  {
    PublishCached(s, s', f, program, victims);
    PublishBatch(s, s', f, program, victims);
    PublishLoads(s, s', f, program, victims);
    assert forall p :: p in ProgramsOf(s.core.cells, victims) ==> p in s.place && s.place[p].InCache? by {
      ProgramsDistinct(s, victims);
    }
    PublishOthers(s, f, program, ProgramsOf(s.core.cells, victims), s'.place, s.nextEntry);
  }

  lemma PublishPlaced(s: Sys, s': Sys, f: nat, program: nat, victims: seq<nat>)
    requires Placed(s) && Published(s, s', f, program, victims)
    ensures Placed(s')
  {
    PublishOwned(s, s', f, program, victims);
    PublishFound(s, s', f, program, victims);
  }

  lemma PublishFound(s: Sys, s': Sys, f: nat, program: nat, victims: seq<nat>)
    requires Placed(s) && Published(s, s', f, program, victims)
    ensures Found(s')
  {
    ProgramsDistinct(s, victims);
    var gone := ProgramsOf(s.core.cells, victims);
    forall q | q in s'.place ensures q < s'.nextProgram && Holds(s', q, s'.place[q]) {
      assert q in s.place && Holds(s, q, s.place[q]);
      if q != program && q in gone {
        assert InBatch(q, s'.loaders[f].batch);
      }
    }
  }

  lemma DetachOwned(s: Sys, k: nat, order: seq<nat>)
    requires Owned(s) && s.loaders == map[] && !s.core.releasing
    requires forall l :: l in s.closers ==> !s.closers[l].Releasing?
    requires Distinct(order) && forall i :: i in order ==> i in s.core.lru && i in s.core.cells
    ensures Owned(DetachNext(s, k, order))
  {
    var s' := DetachNext(s, k, order);
    var mods, pend := ProgramsOf(s.core.cells, order), s.core.closePending;
    ProgramsDistinct(s, order);
    FailedOf(s.place, Batch([], pend), InPending);
    DistinctAppend(mods, pend);
    assert (mods + pend) + [] == mods + pend;
    MoveElsewhere(s.place, Batch([], s.closedLog), IsClosed, mods + pend, InCloserBatch(k));
  }

  lemma DetachFound(s: Sys, k: nat, order: seq<nat>)
    requires Placed(s) && s.loaders == map[] && !s.core.releasing
    requires forall l :: l in s.closers ==> !s.closers[l].Releasing?
    requires Distinct(order) && forall i :: i in order <==> i in s.core.lru
    requires forall i :: i in order ==> i in s.core.cells
    ensures Found(DetachNext(s, k, order))
  {
    var s' := DetachNext(s, k, order);
    ProgramsDistinct(s, order);
    forall q | q in s'.place ensures q < s'.nextProgram && Holds(s', q, s'.place[q]) {
      FailedOf(s.place, Batch([], s.core.closePending), InPending);
      assert q in s.place && Holds(s, q, s.place[q]);
    }
  }

  lemma DetachPlaced(limits: Limits, s: Sys, k: nat, order: seq<nat>)
    requires Placed(s) && CloseOk(s) && ListOk(limits, s.core)
    requires k in s.closers && s.closers[k].AwaitingDrain? && ChannelClosed(s.core, s.closers[k].gen)
    requires Enumerates(s.core, order) && forall i :: i in order ==> i in s.core.cells
    ensures Placed(DetachNext(s, k, order))
  {
    var s' := DetachNext(s, k, order);
    if s.core.releasing {
      forall q | q in s'.place ensures Holds(s', q, s'.place[q]) { assert Holds(s, q, s.place[q]); }
    } else {
      DrainedMeansIdle(s, k);
      MapValues(limits, s.core);
      forall l | l in s.closers ensures !s.closers[l].Releasing? { assert CloserOk(s, l); }
      DetachOwned(s, k, order);
      DetachFound(s, k, order);
    }
  }
}
