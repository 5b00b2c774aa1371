/** The operation ledger as a mutable object; garbage collection loops over its two maps. */
module OperationLedger {
  import opened Common
  import opened Ledger

  /** What the first GC loop has done after visiting `keys`. */
  ghost function ExpiredSoFar(cfg: Retention, l: LedgerState, keys: set<Key>, cutoff: int): LedgerState {
    var gone := ExpiredKeys(cfg, l, cutoff) * keys;
    LedgerState(l.records - gone, l.tombstones + map k | k in gone :: Buried(l.records[k], cutoff))
  }

  /** One round of the first GC loop. */
  function ExpireOne(cfg: Retention, l: LedgerState, k: Key, cutoff: int): LedgerState {
    if k in l.records && RecordExpired(cfg, l.records[k], cutoff)
    then LedgerState(l.records - {k}, l.tombstones[k := Buried(l.records[k], cutoff)]) else l
  }

  lemma ExpireNext(cfg: Retention, l: LedgerState, keys: set<Key>, cutoff: int, k: Key)
    requires k !in keys
    ensures ExpiredSoFar(cfg, l, keys + {k}, cutoff) == ExpireOne(cfg, ExpiredSoFar(cfg, l, keys, cutoff), k, cutoff)
  {
    var gone := ExpiredKeys(cfg, l, cutoff);
    if k in gone {
      assert gone * (keys + {k}) == gone * keys + {k};
    } else {
      assert gone * (keys + {k}) == gone * keys;
    }
  }

  lemma ExpireEnds(cfg: Retention, l: LedgerState, cutoff: int)
    ensures ExpiredSoFar(cfg, l, {}, cutoff) == l
    ensures ExpiredSoFar(cfg, l, l.records.Keys, cutoff) == ExpireRecords(cfg, l, cutoff)
  {
    var gone := ExpiredKeys(cfg, l, cutoff);
    assert gone * {} == {} && gone * l.records.Keys == gone;
  }

  /** The first GC loop; `order` is the order of the range. */
  method ExpireLoop(cfg: Retention, l: LedgerState, order: seq<Key>, cutoff: int) returns (r: LedgerState)
    requires Distinct(order) && ToSet(order) == l.records.Keys
    ensures r == ExpireRecords(cfg, l, cutoff)
  {
    r := l;
    ExpireEnds(cfg, l, cutoff);
    assert ToSet(order[..0]) == {};
    for i := 0 to |order|
      invariant r == ExpiredSoFar(cfg, l, ToSet(order[..i]), cutoff)
    {
      ExpireNext(cfg, l, ToSet(order[..i]), cutoff, order[i]);
      assert ToSet(order[..i + 1]) == ToSet(order[..i]) + {order[i]};
      r := ExpireOne(cfg, r, order[i], cutoff);
    }
    assert order[..|order|] == order;
  }

  ghost function DroppedSoFar(cfg: Retention, l: LedgerState, keys: set<Key>, cutoff: int): LedgerState {
    l.(tombstones := l.tombstones - DeadKeys(cfg, l, cutoff) * keys)
  }

  function DropOne(cfg: Retention, l: LedgerState, k: Key, cutoff: int): LedgerState {
    if k in l.tombstones && TombstoneExpired(cfg, l.tombstones[k], cutoff) then l.(tombstones := l.tombstones - {k}) else l
  }

  lemma DropNext(cfg: Retention, l: LedgerState, keys: set<Key>, cutoff: int, k: Key)
    requires k !in keys
    ensures DroppedSoFar(cfg, l, keys + {k}, cutoff) == DropOne(cfg, DroppedSoFar(cfg, l, keys, cutoff), k, cutoff)
  {
    var dead := DeadKeys(cfg, l, cutoff);
    if k in dead {
      assert dead * (keys + {k}) == dead * keys + {k};
    } else {
      assert dead * (keys + {k}) == dead * keys;
    }
  }

  /** The second GC loop. */
  method DropLoop(cfg: Retention, l: LedgerState, order: seq<Key>, cutoff: int) returns (r: LedgerState)
    requires Distinct(order) && ToSet(order) == l.tombstones.Keys
    ensures r == DropTombstones(cfg, l, cutoff)
  {
    r := l;
    assert ToSet(order[..0]) == {} && DroppedSoFar(cfg, l, {}, cutoff) == l;
    for i := 0 to |order|
      invariant r == DroppedSoFar(cfg, l, ToSet(order[..i]), cutoff)
    {
      DropNext(cfg, l, ToSet(order[..i]), cutoff, order[i]);
      assert ToSet(order[..i + 1]) == ToSet(order[..i]) + {order[i]};
      r := DropOne(cfg, r, order[i], cutoff);
    }
    assert order[..|order|] == order;
    assert DeadKeys(cfg, l, cutoff) * l.tombstones.Keys == DeadKeys(cfg, l, cutoff);
  }

  class LedgerObject {
    const cfg: Retention
    var records: map<Key, Record>
    var tombstones: map<Key, Tombstone>

    function View(): LedgerState
      reads this
    {
      LedgerState(records, tombstones)
    }

    constructor (cfg: Retention)
      ensures this.cfg == cfg && View() == NewLedger()
    {
      this.cfg := cfg;
      records, tombstones := map[], map[];
    }

    /** complete, up to the point where the mutation callback runs. */
    method BeginComplete(c: Completion) returns (early: Option<Result>)
      ensures early.None? <==> Mutates(cfg, View(), c)
      ensures early.Some? ==> forall applied :: Complete(cfg, View(), c, applied) == (View(), early.value)
    {
      if !c.keyValid {
        return Some(Refused(Invalid));
      }
      if c.key in tombstones {
        return Some(Refused(Expired));
      }
      if c.digest.None? {
        return Some(Refused(Invalid));
      }
      if c.key in records {
        var current := records[c.key];
        if current.digest != c.digest.value {
          return Some(Refused(Conflict));
        }
        return Some(if current.outcome.credentialIssued then CredentialNotReplayable(current) else Replay(current));
      }
      if !ValidCompletion(c) {
        return Some(Refused(Invalid));
      }
      if |records| + |tombstones| >= cfg.maxOperations {
        return Some(Refused(Overloaded));
      }
      return None;
    }

    /** complete with the callback's answer. */
    method CompleteAfter(c: Completion, applied: Option<Code>) returns (r: Result)
      modifies this`records
      ensures (View(), r) == Complete(cfg, old(View()), c, applied)
    {
      var early := BeginComplete(c);
      if early.Some? {
        return early.value;
      }
      if applied.Some? {
        return Refused(applied.value);
      }
      records := records[c.key := RecordOf(c)];
      return Applied(RecordOf(c));
    }

    method CollectGarbage(cutoff: int, order: seq<Key>, again: seq<Key>)
      requires Distinct(order) && ToSet(order) == records.Keys
      requires Distinct(again) && ToSet(again) == ExpireRecords(cfg, View(), cutoff).tombstones.Keys
      modifies this
      ensures View() == Collect(cfg, old(View()), cutoff)
    {
      var expired := ExpireLoop(cfg, View(), order, cutoff);
      var dropped := DropLoop(cfg, expired, again, cutoff);
      records, tombstones := dropped.records, dropped.tombstones;
    }
  }
}
