/** What the operation ledger guarantees over every history, with cutoffs in any order. */
module LedgerHistories {
  import opened Common
  import opened Ledger
  import R = Runs

  datatype Event = Completing(completion: Completion, applied: Option<Code>) | Collecting(cutoff: int)

  function After(cfg: Retention, l: LedgerState, e: Event): LedgerState {
    match e
    case Completing(c, applied) => Complete(cfg, l, c, applied).0
    case Collecting(cutoff) => Collect(cfg, l, cutoff)
  }

  ghost function Moves(cfg: Retention): iset<R.Move<LedgerState, Event>> {
    iset m: R.Move<LedgerState, Event> | m.post == After(cfg, m.pre, m.step)
  }

  ghost predicate IsHistory(cfg: Retention, states: seq<LedgerState>, events: seq<Event>) {
    R.IsRun(NewLedger(), Moves(cfg), states, events)
  }

  lemma OneStep(cfg: Retention, states: seq<LedgerState>, events: seq<Event>, i: nat)
    requires IsHistory(cfg, states, events) && i < |events|
    ensures states[i + 1] == After(cfg, states[i], events[i])
  {
    assert R.Move(states[i], events[i], states[i + 1]) in Moves(cfg);
  }

  /** Event i applies the mutation for this key and inserts this record. */
  predicate AppliedAt(cfg: Retention, states: seq<LedgerState>, events: seq<Event>, i: nat, r: Record)
    requires i < |events| <= |states|
  {
    && events[i].Completing? && events[i].completion.key == r.key
    && Complete(cfg, states[i], events[i].completion, events[i].applied).1 == Applied(r)
  }

  // ---------- single states ----------

  ghost predicate LedgerOk(cfg: Retention, l: LedgerState) {
    && (forall k :: k in l.records ==> k !in l.tombstones && l.records[k].key == k)
    && |l.records| + |l.tombstones| <= cfg.maxOperations
  }

  ghost function GoodLedgers(cfg: Retention): iset<LedgerState> {
    iset l: LedgerState | LedgerOk(cfg, l)
  }

  /** Expiring moves keys, dropping only removes them. */
  lemma CollectCounts(cfg: Retention, l: LedgerState, cutoff: int)
    requires LedgerOk(cfg, l)
    ensures LedgerOk(cfg, Collect(cfg, l, cutoff))
  {
    var m := ExpireRecords(cfg, l, cutoff);
    var n := Collect(cfg, l, cutoff);
    assert |m.records| + |m.tombstones| == |l.records| + |l.tombstones| by { ExpireKeepsCount(cfg, l, cutoff); }
    SubsetKeys(n.tombstones.Keys, m.tombstones.Keys);
    assert n.records == m.records && |n.tombstones| == |n.tombstones.Keys|;
  }

  lemma ExpireKeepsCount(cfg: Retention, l: LedgerState, cutoff: int)
    requires LedgerOk(cfg, l)
    ensures var m := ExpireRecords(cfg, l, cutoff); |m.records| + |m.tombstones| == |l.records| + |l.tombstones|
  {
    var m, gone := ExpireRecords(cfg, l, cutoff), ExpiredKeys(cfg, l, cutoff);
    ExpireMovesKeys(cfg, l, cutoff);
    MoveKeys(l.records.Keys, l.tombstones.Keys, gone);
    KeyCount(l.records);
    KeyCount(m.records);
    KeyCount(l.tombstones);
    KeyCount(m.tombstones);
  }

  lemma ExpireMovesKeys(cfg: Retention, l: LedgerState, cutoff: int)
    ensures ExpireRecords(cfg, l, cutoff).records.Keys == l.records.Keys - ExpiredKeys(cfg, l, cutoff)
    ensures ExpireRecords(cfg, l, cutoff).tombstones.Keys == l.tombstones.Keys + ExpiredKeys(cfg, l, cutoff)
  {
  }

  lemma KeyCount<V>(m: map<Key, V>)
    ensures |m| == |m.Keys|
  {
  }

  lemma MoveKeys(a: set<Key>, b: set<Key>, gone: set<Key>)
    requires gone <= a && forall k :: k in a ==> k !in b
    ensures |a - gone| + |b + gone| == |a| + |b|
  {
    assert |a - gone| == |a| - |gone|;
    assert b * gone == {};
  }

  lemma {:induction false} SubsetKeys(a: set<Key>, b: set<Key>)
    requires a <= b
    ensures |a| <= |b|
  {
    if a != {} {
      var x :| x in a;
      SubsetKeys(a - {x}, b - {x});
    }
  }

  lemma HistoryOk(cfg: Retention, states: seq<LedgerState>, events: seq<Event>, i: nat)
    requires IsHistory(cfg, states, events) && i < |states|
    ensures LedgerOk(cfg, states[i])
  {
    forall m | m in Moves(cfg) && m.pre in GoodLedgers(cfg) ensures m.post in GoodLedgers(cfg) {
      if m.step.Collecting? { CollectCounts(cfg, m.pre, m.step.cutoff); }
    }
    R.StaysFrom(NewLedger(), Moves(cfg), GoodLedgers(cfg), states, events, 0, i);
  }

  // ---------- replays ----------

  lemma RecordsChange(cfg: Retention, l: LedgerState, e: Event, k: Key)
    requires k in After(cfg, l, e).records
    ensures k in l.records ==> After(cfg, l, e).records[k] == l.records[k]
    ensures k !in l.records ==> e.Completing? && e.completion.key == k
    ensures k !in l.records ==> Complete(cfg, l, e.completion, e.applied).1 == Applied(After(cfg, l, e).records[k])
  {
  }

  /** A stored record was inserted by one earlier application and has been there since. */
  lemma {:induction false} FindApplication(
      cfg: Retention, states: seq<LedgerState>, events: seq<Event>, i: nat, k: Key) returns (j: nat)
    requires IsHistory(cfg, states, events) && i < |states| && k in states[i].records
    ensures j < i && AppliedAt(cfg, states, events, j, states[i].records[k])
    ensures forall m :: j < m <= i ==> k in states[m].records && states[m].records[k] == states[i].records[k]
  {
    assert i > 0;
    OneStep(cfg, states, events, i - 1);
    RecordsChange(cfg, states[i - 1], events[i - 1], k);
    if k in states[i - 1].records {
      j := FindApplication(cfg, states, events, i - 1, k);
    } else {
      j := i - 1;
    }
  }

  /** Whatever a completion returns without applying, it is the record of the one application still retained. */
  lemma ReplayReturnsTheApplication(
      cfg: Retention, states: seq<LedgerState>, events: seq<Event>, i: nat) returns (j: nat)
    requires IsHistory(cfg, states, events) && i < |events| && events[i].Completing?
    requires var r := Complete(cfg, states[i], events[i].completion, events[i].applied).1; r.Replay? || r.CredentialNotReplayable?
    ensures var r := Complete(cfg, states[i], events[i].completion, events[i].applied).1;
      && j < i && AppliedAt(cfg, states, events, j, r.record)
      && r.record.key == events[i].completion.key && Some(r.record.digest) == events[i].completion.digest
      && (r.CredentialNotReplayable? <==> r.record.outcome.credentialIssued)
      && states[i + 1] == states[i]
  {
    HistoryOk(cfg, states, events, i);
    OneStep(cfg, states, events, i);
    j := FindApplication(cfg, states, events, i, events[i].completion.key);
  }

  // ---------- exactly once ----------

  /** Some GC strictly between i and m had a cutoff of at least `time`. */
  ghost predicate CollectedAt(events: seq<Event>, i: nat, m: nat, time: int)
    requires m <= |events|
  {
    exists g :: i < g < m && events[g].Collecting? && events[g].cutoff >= time
  }

  /**
   After the application of r at i, and no other of its key, state m holds the record, or a late enough
   tombstone, or was collected.
   */
  ghost predicate Fate(cfg: Retention, states: seq<LedgerState>, events: seq<Event>, i: nat, m: nat, r: Record)
    requires i < m < |states| && |states| == |events| + 1
  {
    var l := states[m];
    || (r.key in l.records && l.records[r.key] == r)
    || (r.key in l.tombstones && l.tombstones[r.key].tombstonedAt >= r.completedAt + cfg.operationTtl)
    || CollectedAt(events, i, m, r.completedAt + cfg.operationTtl + cfg.tombstoneTtl)
  }

  lemma FateStep(cfg: Retention, states: seq<LedgerState>, events: seq<Event>, i: nat, m: nat, r: Record)
    requires IsHistory(cfg, states, events) && i < m < |events| && Fate(cfg, states, events, i, m, r)
    ensures Fate(cfg, states, events, i, m + 1, r)
  {
    OneStep(cfg, states, events, m);
    HistoryOk(cfg, states, events, m);
    if CollectedAt(events, i, m, r.completedAt + cfg.operationTtl + cfg.tombstoneTtl) {
      var g :| i < g < m && events[g].Collecting? && events[g].cutoff >= r.completedAt + cfg.operationTtl + cfg.tombstoneTtl;
      assert i < g < m + 1;
    } else if events[m].Collecting? {
      CollectFate(cfg, states[m], events[m].cutoff, r);
    }
  }

  lemma CollectFate(cfg: Retention, l: LedgerState, cutoff: int, r: Record)
    requires || (r.key in l.records && l.records[r.key] == r)
             || (r.key in l.tombstones && l.tombstones[r.key].tombstonedAt >= r.completedAt + cfg.operationTtl && r.key !in l.records)
    ensures var l' := Collect(cfg, l, cutoff);
      || (r.key in l'.records && l'.records[r.key] == r)
      || (r.key in l'.tombstones && l'.tombstones[r.key].tombstonedAt >= r.completedAt + cfg.operationTtl)
      || cutoff >= r.completedAt + cfg.operationTtl + cfg.tombstoneTtl
  {
  }

  lemma {:induction false} FateHolds(
      cfg: Retention, states: seq<LedgerState>, events: seq<Event>, i: nat, m: nat, r: Record)
    requires IsHistory(cfg, states, events) && i < m < |states| && AppliedAt(cfg, states, events, i, r)
    ensures Fate(cfg, states, events, i, m, r)
    decreases m
  {
    if m == i + 1 {
      OneStep(cfg, states, events, i);
    } else {
      FateHolds(cfg, states, events, i, m - 1, r);
      FateStep(cfg, states, events, i, m - 1, r);
    }
  }

  /**
   Exactly once: a key is applied again only after a GC whose cutoff lies at
   least both retention times after the completion of the earlier application,
   in whatever order the cutoffs come.
   */
  lemma ReapplyNeedsLateCutoff(
      cfg: Retention, states: seq<LedgerState>, events: seq<Event>, i: nat, j: nat, r: Record, q: Record)
    requires IsHistory(cfg, states, events) && i < j < |events|
    requires AppliedAt(cfg, states, events, i, r) && AppliedAt(cfg, states, events, j, q) && q.key == r.key
    ensures exists g :: i < g < j && events[g].Collecting? && events[g].cutoff >= r.completedAt + cfg.operationTtl + cfg.tombstoneTtl
  {
    FateHolds(cfg, states, events, i, j, r);
    assert CollectedAt(events, i, j, r.completedAt + cfg.operationTtl + cfg.tombstoneTtl);
  }

  /**
   A different request under an applied key mutates nothing, whatever its callback would do: it is refused
   while the record is retained and while its tombstone is, up to a GC whose cutoff is late enough.
   */
  lemma DifferentRequestNeverMutates(
      cfg: Retention, states: seq<LedgerState>, events: seq<Event>, i: nat, j: nat, r: Record)
    requires IsHistory(cfg, states, events) && i < j < |events| && AppliedAt(cfg, states, events, i, r)
    requires events[j].Completing? && events[j].completion.key == r.key && events[j].completion.digest != Some(r.digest)
    requires forall g :: i < g < j && events[g].Collecting? ==>
      events[g].cutoff < r.completedAt + cfg.operationTtl + cfg.tombstoneTtl
    ensures !Mutates(cfg, states[j], events[j].completion) && states[j + 1] == states[j]
    ensures Complete(cfg, states[j], events[j].completion, events[j].applied).1.Refused?
  {
    FateHolds(cfg, states, events, i, j, r);
    OneStep(cfg, states, events, j);
  }

  /** Records and tombstones never share a key and never exceed the bound together. */
  lemma LedgerIsBounded(cfg: Retention, states: seq<LedgerState>, events: seq<Event>, i: nat)
    requires IsHistory(cfg, states, events) && i < |states|
    ensures states[i].records.Keys !! states[i].tombstones.Keys
    ensures |states[i].records| + |states[i].tombstones| <= cfg.maxOperations
  {
    HistoryOk(cfg, states, events, i);
  }
}
