/**
 The control plane's operation ledger: one terminal record per operation key,
 tombstones for expired keys, and garbage collection by a cutoff the Leader
 supplies. A request digest is the canonical request it stands for; None is a
 request that has no digest.
 */
module Ledger {
  import opened Common

  datatype Key = Key(principal: string, namespace: string, operationId: string)

  /** Problem codes that a terminal failure may record. */
  datatype Code = Invalid | NotFound | Conflict | RevisionConflict | StaleGeneration | Overloaded | Expired | Internal

  datatype Status = Succeeded | Failed(code: Code)

  datatype ResourceKey = ResourceKey(kind: string, id: string)

  datatype Revisions = Revisions(resource: Option<nat>, route: Option<nat>)

  datatype Outcome = Outcome(status: Status, affected: map<ResourceKey, Revisions>, credentialIssued: bool)

  datatype Completion = Completion(
    key: Key, keyValid: bool, digest: Option<string>, outcome: Outcome, completedAt: int, appliedIndex: nat)

  datatype Record = Record(key: Key, digest: string, outcome: Outcome, completedAt: int, appliedIndex: nat)

  datatype Tombstone = Tombstone(key: Key, digest: string, tombstonedAt: int)

  datatype Retention = Retention(maxOperations: nat, operationTtl: nat, tombstoneTtl: nat)

  datatype LedgerState = LedgerState(records: map<Key, Record>, tombstones: map<Key, Tombstone>)

  /** What complete returns, and whether it ran the mutation callback. */
  datatype Result =
    | Applied(record: Record)
    | Replay(record: Record)
    | CredentialNotReplayable(record: Record)
    | Refused(code: Code)

  function NewLedger(): LedgerState {
    LedgerState(map[], map[])
  }

  predicate ValidRevisions(r: Revisions) {
    (r.resource.Some? || r.route.Some?) && r.resource != Some(0) && r.route != Some(0)
  }

  /** Outcome.validate. */
  predicate ValidOutcome(o: Outcome) {
    && |o.affected| <= 256
    && (o.credentialIssued ==> o.status == Succeeded && o.affected != map[])
    && forall k :: k in o.affected ==> ValidRevisions(o.affected[k])
  }

  predicate ValidCompletion(c: Completion) {
    ValidOutcome(c.outcome) && c.appliedIndex != 0
  }

  function RecordOf(c: Completion): Record
    requires c.digest.Some?
  {
    Record(c.key, c.digest.value, c.outcome, c.completedAt, c.appliedIndex)
  }

  /** Whether complete gets as far as the mutation callback. */
  predicate Mutates(cfg: Retention, l: LedgerState, c: Completion) {
    && c.keyValid && c.key !in l.tombstones && c.digest.Some? && c.key !in l.records
    && ValidCompletion(c) && |l.records| + |l.tombstones| < cfg.maxOperations
  }

  /** complete; `applied` is the callback's error, None when it succeeded. */
  function Complete(cfg: Retention, l: LedgerState, c: Completion, applied: Option<Code>): (r: (LedgerState, Result))
    ensures r.1.Applied? <==> Mutates(cfg, l, c) && applied.None?
    ensures !r.1.Applied? ==> r.0 == l
  {
    if !c.keyValid then (l, Refused(Invalid))
    else if c.key in l.tombstones then (l, Refused(Expired))
    else if c.digest.None? then (l, Refused(Invalid))
    else if c.key in l.records then
      var current := l.records[c.key];
      if current.digest != c.digest.value then (l, Refused(Conflict))
      else if current.outcome.credentialIssued then (l, CredentialNotReplayable(current))
      else (l, Replay(current))
    else if !ValidCompletion(c) then (l, Refused(Invalid))
    else if |l.records| + |l.tombstones| >= cfg.maxOperations then (l, Refused(Overloaded))
    else if applied.Some? then (l, Refused(applied.value))
    else (l.(records := l.records[c.key := RecordOf(c)]), Applied(RecordOf(c)))
  }

  function LookupRecord(l: LedgerState, key: Key, keyValid: bool): Result {
    if !keyValid then Refused(Invalid)
    else if key in l.tombstones then Refused(Expired)
    else if key !in l.records then Refused(NotFound)
    else Replay(l.records[key])
  }

  predicate RecordExpired(cfg: Retention, r: Record, cutoff: int) {
    r.completedAt + cfg.operationTtl <= cutoff
  }

  predicate TombstoneExpired(cfg: Retention, t: Tombstone, cutoff: int) {
    t.tombstonedAt + cfg.tombstoneTtl <= cutoff
  }

  function Buried(r: Record, cutoff: int): Tombstone {
    Tombstone(r.key, r.digest, cutoff)
  }

  function ExpiredKeys(cfg: Retention, l: LedgerState, cutoff: int): set<Key> {
    set k | k in l.records && RecordExpired(cfg, l.records[k], cutoff)
  }

  /** The first loop of GC: expired records become tombstones stamped with the cutoff. */
  function ExpireRecords(cfg: Retention, l: LedgerState, cutoff: int): LedgerState {
    var gone := ExpiredKeys(cfg, l, cutoff);
    LedgerState(l.records - gone, l.tombstones + map k | k in gone :: Buried(l.records[k], cutoff))
  }

  function DeadKeys(cfg: Retention, l: LedgerState, cutoff: int): set<Key> {
    set k | k in l.tombstones && TombstoneExpired(cfg, l.tombstones[k], cutoff)
  }

  /** The second loop of GC: expired tombstones go. */
  function DropTombstones(cfg: Retention, l: LedgerState, cutoff: int): LedgerState {
    l.(tombstones := l.tombstones - DeadKeys(cfg, l, cutoff))
  }

  function Collect(cfg: Retention, l: LedgerState, cutoff: int): LedgerState {
    DropTombstones(cfg, ExpireRecords(cfg, l, cutoff), cutoff)
  }
}
