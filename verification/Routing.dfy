/**
 The weighted route selector: a length-prefixed preimage is hashed, the first
 64 bits of the hash pick a bucket of 10000, and cumulative weights over the
 sorted targets pick the target. The hash itself is an input.
 */
module Routing {
  import opened Common
  import opened Ordering
  import A = ServingAuth

  newtype byte = x: int | 0 <= x < 256

  datatype Target = Target(versionId: string, generation: U64, admissionEpoch: nat, policyDigest: string, weight: nat)

  const TOTAL := 10_000
  const MAX_TARGETS := 32

  // ---------- targets ----------

  function TotalWeight(targets: seq<Target>): nat {
    if targets == [] then 0 else TotalWeight(targets[..|targets| - 1]) + targets[|targets| - 1].weight
  }

  predicate SameSlot(a: Target, b: Target) {
    a.versionId == b.versionId && a.generation == b.generation
  }

  predicate DistinctSlots(targets: seq<Target>) {
    forall i, j :: 0 <= i < j < |targets| ==> !SameSlot(targets[i], targets[j])
  }

  predicate FitTarget(t: Target) {
    && A.ValidId(t.versionId) && t.admissionEpoch != 0 && t.generation != 0
    && A.ValidDigest(t.policyDigest) && 1 <= t.weight <= TOTAL
  }

  /** What validateRouteTargets accepts. */
  predicate ValidTargets(targets: seq<Target>) {
    && (forall i :: 0 <= i < |targets| ==> FitTarget(targets[i]))
    && DistinctSlots(targets) && (targets != [] ==> TotalWeight(targets) == TOTAL)
  }

  ghost function Slots(targets: seq<Target>): set<(string, U64)> {
    set t | t in targets :: (t.versionId, t.generation)
  }

  /** validateRouteTargets: a running total and a set of slots seen. */
  method ValidateRouteTargets(targets: seq<Target>) returns (ok: bool)
    ensures ok == ValidTargets(targets)
  {
    var total := 0;
    var seen: set<(string, U64)> := {};
    for i := 0 to |targets|
      invariant total == TotalWeight(targets[..i]) && seen == Slots(targets[..i]) && DistinctSlots(targets[..i])
      invariant forall j :: 0 <= j < i ==> FitTarget(targets[j])
    {
      var t := targets[i];
      if !FitTarget(t) {
        return false;
      }
      SlotsNext(targets, i);
      if (t.versionId, t.generation) in seen {
        return false;
      }
      seen := seen + {(t.versionId, t.generation)};
      total := total + t.weight;
    }
    assert targets[..|targets|] == targets;
    return targets == [] || total == TOTAL;
  }

  lemma SlotsNext(targets: seq<Target>, i: nat)
    requires i < |targets| && DistinctSlots(targets[..i])
    ensures Slots(targets[..i + 1]) == Slots(targets[..i]) + {(targets[i].versionId, targets[i].generation)}
    ensures TotalWeight(targets[..i + 1]) == TotalWeight(targets[..i]) + targets[i].weight
    ensures (targets[i].versionId, targets[i].generation) in Slots(targets[..i]) ==> !DistinctSlots(targets)
    ensures (targets[i].versionId, targets[i].generation) !in Slots(targets[..i]) ==> DistinctSlots(targets[..i + 1])
  {
    var shorter, longer := targets[..i], targets[..i + 1];
    assert longer == shorter + [targets[i]] && longer[..i] == shorter;
    if (targets[i].versionId, targets[i].generation) in Slots(shorter) {
      var t :| t in shorter && SameSlot(t, targets[i]);
      var j :| 0 <= j < i && shorter[j] == t;
      assert SameSlot(targets[j], targets[i]);
    } else {
      forall j, k | 0 <= j < k < |longer| ensures !SameSlot(longer[j], longer[k]) {
        assert shorter[j] in shorter;
        if k < i { assert longer[j] == shorter[j] && longer[k] == shorter[k]; }
      }
    }
  }

  /** A 32-bit running total cannot overflow on a route within the target limit. */
  lemma {:induction false} TotalFits(targets: seq<Target>)
    requires forall i :: 0 <= i < |targets| ==> targets[i].weight <= TOTAL
    ensures TotalWeight(targets) <= TOTAL * |targets|
    ensures |targets| <= MAX_TARGETS ==> TotalWeight(targets) < 0x1_0000_0000
  {
    if targets != [] {
      TotalFits(targets[..|targets| - 1]);
    }
  }

  // ---------- buckets ----------

  /** bucketFromHash: the high word of the prefix times 10000. */
  function Bucket(u: U64): (b: int)
    ensures 0 <= b < TOTAL
  {
    u * TOTAL / TWO64
  }

  /** targetForBucket: the first target whose cumulative weight exceeds the bucket. */
  function Pick(targets: seq<Target>, bucket: int, start: int): Option<Target> {
    if targets == [] then None
    else if bucket < start + targets[0].weight then Some(targets[0])
    else Pick(targets[1..], bucket, start + targets[0].weight)
  }

  method TargetForBucket(targets: seq<Target>, bucket: int) returns (r: Option<Target>)
    ensures r == Pick(targets, bucket, 0)
  {
    var cumulative := 0;
    for i := 0 to |targets|
      invariant Pick(targets[i..], bucket, cumulative) == Pick(targets, bucket, 0)
    {
      assert targets[i..][1..] == targets[i + 1..];
      cumulative := cumulative + targets[i].weight;
      if bucket < cumulative {
        return Some(targets[i]);
      }
    }
    return None;
  }

  // ---------- sorting ----------

  /** compareTargets. */
  function Compare(a: Target, b: Target): int {
    Lex(CompareString(a.versionId, b.versionId), CompareInt(a.generation, b.generation))
  }

  /** selectServing, given the first 64 bits of the hash. */
  function Select(targets: seq<Target>, u: U64): Option<Target> {
    Pick(Sort(targets, Compare), Bucket(u), 0)
  }

  // ---------- the preimage ----------

  function BigEndian(n: nat, width: nat): (s: seq<byte>)
    ensures |s| == width
  {
    if width == 0 then [] else BigEndian(n / 256, width - 1) + [(n % 256) as byte]
  }

  function Encode(fields: seq<seq<byte>>): seq<byte> {
    if fields == [] then []
    else Encode(fields[..|fields| - 1]) + BigEndian(|fields[|fields| - 1]|, 4) + fields[|fields| - 1]
  }

  const TWO32 := 0x1_0000_0000

  function HashFields(
      version: seq<byte>, functionId: seq<byte>, revision: U64, salt: seq<byte>, key: seq<byte>): seq<seq<byte>> {
    [version, functionId, BigEndian(revision, 8), salt, key]
  }

  /** The bytes Encode writes. */
  function EncodedSize(fields: seq<seq<byte>>): nat {
    if fields == [] then 0 else EncodedSize(fields[..|fields| - 1]) + 4 + |fields[|fields| - 1]|
  }

  /** A field is too long for its length prefix, or all of them for the platform's int. */
  predicate TooLong(fields: seq<seq<byte>>, maxInt: nat) {
    (exists i :: 0 <= i < |fields| && |fields[i]| >= TWO32) || EncodedSize(fields) > maxInt
  }

  /** hashPreimage. */
  function Preimage(
      maxInt: nat, version: seq<byte>, functionId: seq<byte>, revision: U64, salt: seq<byte>, key: seq<byte>): Option<seq<byte>>
  {
    var fields := HashFields(version, functionId, revision, salt, key);
    if TooLong(fields, maxInt) then None else Some(Encode(fields))
  }

  /** The two loops of hashPreimage. */
  method HashPreimage(fields: seq<seq<byte>>, maxInt: nat) returns (r: Option<seq<byte>>)
    ensures r == if TooLong(fields, maxInt) then None else Some(Encode(fields))
    ensures r.Some? ==> |r.value| == EncodedSize(fields) <= maxInt
  {
    var size := 0;
    for i := 0 to |fields|
      invariant size == EncodedSize(fields[..i]) && forall j :: 0 <= j < i ==> |fields[j]| < TWO32
    {
      assert fields[..i + 1][..i] == fields[..i];
      if |fields[i]| >= TWO32 {
        return None;
      }
      size := size + 4 + |fields[i]|;
    }
    assert fields[..|fields|] == fields;
    if size > maxInt {
      return None;
    }
    var preimage: seq<byte> := [];
    for i := 0 to |fields|
      invariant preimage == Encode(fields[..i]) && |preimage| == EncodedSize(fields[..i])
    {
      assert fields[..i + 1][..i] == fields[..i];
      preimage := preimage + BigEndian(|fields[i]|, 4);
      preimage := preimage + fields[i];
    }
    return Some(preimage);
  }
}
