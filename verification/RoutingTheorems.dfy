/** A target is always found, its share is exact, its choice ignores target order, and preimages are unambiguous. */
module RoutingTheorems {
  import opened Common
  import opened Ordering
  import opened Routing

  // ---------- sorting targets ----------

  function Sorted(ts: seq<Target>): seq<Target> {
    Sort(ts, Compare)
  }

  lemma TargetOrder(a: Target, b: Target, c: Target)
    ensures Consistent(Compare(a, b), Compare(b, c), Compare(a, c))
    ensures Compare(b, a) == -Compare(a, b)
    ensures Compare(a, b) == 0 <==> SameSlot(a, b)
  {
    StringOrder(a.versionId, b.versionId, c.versionId);
    LexConsistent(CompareString(a.versionId, b.versionId), CompareString(b.versionId, c.versionId), CompareString(a.versionId, c.versionId),
                  CompareInt(a.generation, b.generation), CompareInt(b.generation, c.generation), CompareInt(a.generation, c.generation));
  }

  lemma TargetsAreOrdered()
    ensures TotalOrder(Compare)
  {
    forall a: Target, b: Target, c: Target
      ensures Consistent(Compare(a, b), Compare(b, c), Compare(a, c)) && Compare(b, a) == -Compare(a, b)
    {
      TargetOrder(a, b, c);
    }
  }

  lemma DistinctSlotsDoNotTie(ts: seq<Target>)
    requires DistinctSlots(ts)
    ensures NoTies(ts, Compare)
  {
    forall i, j | 0 <= i < j < |ts| ensures Compare(ts[i], ts[j]) != 0 { TargetOrder(ts[i], ts[j], ts[j]); }
  }

  lemma {:induction false} TotalOfCons(t: Target, ts: seq<Target>)
    ensures TotalWeight([t] + ts) == t.weight + TotalWeight(ts)
  {
    if ts == [] {
      assert ([t] + ts)[..0] == [];
    } else {
      var n := |ts| - 1;
      assert ([t] + ts)[..n + 1] == [t] + ts[..n];
      TotalOfCons(t, ts[..n]);
    }
  }

  lemma {:induction false} InsertWeight(t: Target, ts: seq<Target>)
    ensures TotalWeight(Insert(t, ts, Compare)) == TotalWeight(ts) + t.weight
  {
    if ts == [] {
      assert [t][..0] == [];
    } else if Compare(t, ts[0]) <= 0 {
      TotalOfCons(t, ts);
    } else {
      InsertWeight(t, ts[1..]);
      TotalOfCons(ts[0], Insert(t, ts[1..], Compare));
      TotalOfCons(ts[0], ts[1..]);
      assert [ts[0]] + ts[1..] == ts;
    }
  }

  lemma {:induction false} SortWeight(ts: seq<Target>)
    ensures TotalWeight(Sorted(ts)) == TotalWeight(ts)
  {
    if ts != [] {
      SortWeight(ts[1..]);
      InsertWeight(ts[0], Sorted(ts[1..]));
      TotalOfCons(ts[0], ts[1..]);
      assert [ts[0]] + ts[1..] == ts;
    }
  }

  lemma SortedTargets(ts: seq<Target>)
    requires DistinctSlots(ts)
    ensures Increasing(Sorted(ts), Compare) && TotalWeight(Sorted(ts)) == TotalWeight(ts)
    ensures forall x :: x in Sorted(ts) <==> x in ts
  {
    TargetsAreOrdered();
    DistinctSlotsDoNotTie(ts);
    SortSorts(ts, Compare);
    SortWeight(ts);
  }

  // ---------- a target is always found ----------

  /** Weight of the targets before position k. */
  function Before(ts: seq<Target>, k: nat): nat
    requires k <= |ts|
  {
    TotalWeight(ts[..k])
  }

  /** The pick is the target whose cumulative interval holds the bucket. */
  lemma {:induction false} PickAt(ts: seq<Target>, bucket: int, start: int, k: nat)
    requires k < |ts| && start + Before(ts, k) <= bucket < start + Before(ts, k) + ts[k].weight
    ensures Pick(ts, bucket, start) == Some(ts[k])
  {
    if k > 0 {
      assert ts[..k] == [ts[0]] + ts[1..][..k - 1];
      TotalOfCons(ts[0], ts[1..][..k - 1]);
      PickAt(ts[1..], bucket, start + ts[0].weight, k - 1);
    } else {
      assert ts[..0] == [];
    }
  }

  /** Some interval holds each bucket below the total weight. */
  lemma {:induction false} FindInterval(ts: seq<Target>, bucket: nat, n: nat) returns (k: nat)
    requires n <= |ts| && bucket < Before(ts, n)
    ensures k < n && Before(ts, k) <= bucket < Before(ts, k) + ts[k].weight
  {
    assert ts[..n][..n - 1] == ts[..n - 1];
    if bucket >= Before(ts, n - 1) {
      k := n - 1;
    } else {
      k := FindInterval(ts, bucket, n - 1);
    }
  }

  /** For every valid enabled route and every hash a target of the route is selected. */
  lemma TargetAlwaysFound(ts: seq<Target>, u: U64)
    requires ValidTargets(ts) && ts != []
    ensures Select(ts, u).Some? && Select(ts, u).value in ts
  {
    SortedTargets(ts);
    var sorted := Sorted(ts);
    assert sorted[..|sorted|] == sorted;
    var k := FindInterval(sorted, Bucket(u), |sorted|);
    PickAt(sorted, Bucket(u), 0, k);
    assert sorted[k] in ts;
  }

  /** The choice does not depend on the order of the targets. */
  lemma SelectIgnoresOrder(ts: seq<Target>, vs: seq<Target>, u: U64)
    requires DistinctSlots(ts) && DistinctSlots(vs) && forall x :: x in ts <==> x in vs
    ensures Select(ts, u) == Select(vs, u)
  {
    TargetsAreOrdered();
    DistinctSlotsDoNotTie(ts);
    DistinctSlotsDoNotTie(vs);
    SortIgnoresOrder(ts, vs, Compare);
  }

  // ---------- shares ----------

  function CeilDiv(a: nat, n: nat): nat
    requires n > 0
  {
    (a + n - 1) / n
  }

  lemma CeilBounds(a: nat, n: nat)
    requires n > 0
    ensures n * CeilDiv(a, n) >= a && n * CeilDiv(a, n) < a + n
  {
    var q, r := (a + n - 1) / n, (a + n - 1) % n;
    assert a + n - 1 == n * q + r;
  }

  /** The first hash prefix of bucket c. */
  function FirstOf(c: nat): nat {
    CeilDiv(c * TWO64, TOTAL)
  }

  lemma BucketAtLeast(u: U64, c: nat)
    ensures Bucket(u) >= c <==> u >= FirstOf(c)
  {
    CeilBounds(c * TWO64, TOTAL);
    assert u * TOTAL == Bucket(u) * TWO64 + u * TOTAL % TWO64;
    if Bucket(u) >= c {
      assert u * TOTAL >= c * TWO64;
    } else {
      assert u * TOTAL < c * TWO64;
    }
  }

  predicate InRange(u: int, lo: int, hi: int) {
    lo <= u < hi
  }

  ghost function Range(lo: int, hi: int): set<int> {
    set u: int | lo <= u < hi && InRange(u, lo, hi)
  }

  lemma {:induction false} RangeSize(lo: int, hi: int)
    requires lo <= hi
    ensures |Range(lo, hi)| == hi - lo
    decreases hi - lo
  {
    if lo == hi {
      assert Range(lo, hi) == {};
    } else {
      RangeSize(lo, hi - 1);
      forall u ensures u in Range(lo, hi) <==> u in Range(lo, hi - 1) + {hi - 1} {
        assert InRange(u, lo, hi) <==> InRange(u, lo, hi - 1) || u == hi - 1;
      }
      assert Range(lo, hi) == Range(lo, hi - 1) + {hi - 1};
    }
  }

  /** The number of integers between two rounded-up multiples is within one of the exact length. */
  lemma RoundedLength(c: nat, w: nat)
    ensures w * TWO64 / TOTAL <= FirstOf(c + w) - FirstOf(c) <= CeilDiv(w * TWO64, TOTAL)
  {
    CeilBounds(c * TWO64, TOTAL);
    CeilBounds((c + w) * TWO64, TOTAL);
    CeilBounds(w * TWO64, TOTAL);
    assert (c + w) * TWO64 == c * TWO64 + w * TWO64;
    var d := FirstOf(c + w) - FirstOf(c);
    var exact := w * TWO64;
    assert TOTAL * d < exact + TOTAL && TOTAL * d > exact - TOTAL;
    assert exact == TOTAL * (exact / TOTAL) + exact % TOTAL;
  }

  /** The hash prefixes that select the k-th sorted target. */
  ghost function PrefixesOf(ts: seq<Target>, t: Target): set<int> {
    set u: int | 0 <= u < TWO64 && Select(ts, u) == Some(t)
  }

  lemma FirstOfTotal()
    ensures FirstOf(0) == 0 && FirstOf(TOTAL) == TWO64
  {
  }

  lemma {:induction false} IntervalsAreDisjoint(ts: seq<Target>, j: nat, k: nat)
    requires j < k <= |ts|
    ensures Before(ts, j) + ts[j].weight <= Before(ts, k)
    decreases k
  {
    assert ts[..k][..k - 1] == ts[..k - 1];
    if j < k - 1 {
      IntervalsAreDisjoint(ts, j, k - 1);
    }
  }

  lemma PickExactly(ts: seq<Target>, bucket: nat, k: nat)
    requires Increasing(ts, Compare) && k < |ts| && bucket < TotalWeight(ts)
    ensures Pick(ts, bucket, 0) == Some(ts[k]) <==> Before(ts, k) <= bucket < Before(ts, k) + ts[k].weight
  {
    assert ts[..|ts|] == ts;
    var j := FindInterval(ts, bucket, |ts|);
    PickAt(ts, bucket, 0, j);
    if j < k {
      IntervalsAreDisjoint(ts, j, k);
      TargetOrder(ts[j], ts[k], ts[k]);
      TargetOrder(ts[j], ts[j], ts[j]);
    } else if k < j {
      IntervalsAreDisjoint(ts, k, j);
      TargetOrder(ts[k], ts[j], ts[j]);
      TargetOrder(ts[j], ts[j], ts[j]);
    }
  }

  lemma PrefixesAreAnInterval(ts: seq<Target>, k: nat)
    requires ValidTargets(ts) && ts != [] && k < |Sorted(ts)|
    ensures var s := Sorted(ts);
            PrefixesOf(ts, s[k]) == Range(FirstOf(Before(s, k)), FirstOf(Before(s, k) + s[k].weight))
  {
    SortedTargets(ts);
    var s := Sorted(ts);
    var lo, hi := FirstOf(Before(s, k)), FirstOf(Before(s, k) + s[k].weight);
    assert s[..|s|] == s;
    IntervalsAreDisjoint(s, k, |s|);
    FirstOfTotal();
    FirstOfGrows(Before(s, k) + s[k].weight, TOTAL);
    forall u: int | 0 <= u < TWO64 ensures Select(ts, u) == Some(s[k]) <==> lo <= u < hi {
      PickExactly(s, Bucket(u), k);
      BucketAtLeast(u, Before(s, k));
      BucketAtLeast(u, Before(s, k) + s[k].weight);
    }
    forall u: int ensures u in PrefixesOf(ts, s[k]) <==> u in Range(lo, hi) { assert InRange(u, lo, hi) <==> lo <= u < hi; }
  }

  lemma FirstOfGrows(c: nat, d: nat)
    requires c <= d
    ensures FirstOf(c) <= FirstOf(d)
  {
    RoundedLength(c, d - c);
  }

  lemma ShareAt(ts: seq<Target>, k: nat)
    requires ValidTargets(ts) && ts != [] && k < |Sorted(ts)|
    ensures var s := Sorted(ts);
            |PrefixesOf(ts, s[k])| == FirstOf(Before(s, k) + s[k].weight) - FirstOf(Before(s, k))
  {
    var s := Sorted(ts);
    PrefixesAreAnInterval(ts, k);
    FirstOfGrows(Before(s, k), Before(s, k) + s[k].weight);
    RangeSize(FirstOf(Before(s, k)), FirstOf(Before(s, k) + s[k].weight));
  }

  /** The exact share of weight w, rounded down and rounded up. */
  predicate IsShare(n: int, w: nat) {
    w * TWO64 / TOTAL <= n <= CeilDiv(w * TWO64, TOTAL)
  }

  lemma ShareBounds(ts: seq<Target>, k: nat)
    requires ValidTargets(ts) && ts != [] && k < |Sorted(ts)|
    ensures IsShare(|PrefixesOf(ts, Sorted(ts)[k])|, Sorted(ts)[k].weight)
  {
    ShareAt(ts, k);
    RoundedLength(Before(Sorted(ts), k), Sorted(ts)[k].weight);
  }

  lemma SortedIndex(ts: seq<Target>, t: Target) returns (k: nat)
    requires DistinctSlots(ts) && t in ts
    ensures k < |Sorted(ts)| && Sorted(ts)[k] == t
  {
    SortedTargets(ts);
    k :| 0 <= k < |Sorted(ts)| && Sorted(ts)[k] == t;
  }

  /** A target of weight w receives the floor or the ceiling of w * 2^64 / 10000 of the hash prefixes. */
  lemma ShareIsExact(ts: seq<Target>, t: Target)
    requires ValidTargets(ts) && t in ts
    ensures IsShare(|PrefixesOf(ts, t)|, t.weight)
  {
    var k := SortedIndex(ts, t);
    ShareBounds(ts, k);
  }

  // ---------- preimages ----------

  lemma {:induction false} BigEndianInjective(a: nat, b: nat, width: nat)
    requires a < Power256(width) && b < Power256(width) && BigEndian(a, width) == BigEndian(b, width)
    ensures a == b
  {
    if width > 0 {
      var x, y := BigEndian(a, width), BigEndian(b, width);
      assert x[..width - 1] == BigEndian(a / 256, width - 1) && y[..width - 1] == BigEndian(b / 256, width - 1);
      assert x[width - 1] == (a % 256) as byte && y[width - 1] == (b % 256) as byte;
      BigEndianInjective(a / 256, b / 256, width - 1);
    }
  }

  function Power256(width: nat): nat {
    if width == 0 then 1 else 256 * Power256(width - 1)
  }

  predicate Short(fields: seq<seq<byte>>) {
    forall i :: 0 <= i < |fields| ==> |fields[i]| < TWO32
  }

  /** Front-first form of the encoding. */
  lemma {:induction false} EncodeCons(f: seq<byte>, fields: seq<seq<byte>>)
    ensures Encode([f] + fields) == BigEndian(|f|, 4) + f + Encode(fields)
  {
    if fields == [] {
      assert ([f] + fields)[..0] == [];
    } else {
      var n := |fields| - 1;
      assert ([f] + fields)[..n + 1] == [f] + fields[..n];
      EncodeCons(f, fields[..n]);
      assert ([f] + fields)[n + 1] == fields[n];
    }
  }

  /** Length prefixes make the encoding of a list of fields unambiguous. */
  lemma {:induction false} EncodeInjective(fs: seq<seq<byte>>, gs: seq<seq<byte>>)
    requires |fs| == |gs| && Short(fs) && Short(gs) && Encode(fs) == Encode(gs)
    ensures fs == gs
  {
    if fs != [] {
      var f, g := fs[0], gs[0];
      assert fs == [f] + fs[1..] && gs == [g] + gs[1..];
      EncodeCons(f, fs[1..]);
      EncodeCons(g, gs[1..]);
      SplitFirst(f, g, Encode(fs[1..]), Encode(gs[1..]));
      EncodeInjective(fs[1..], gs[1..]);
    }
  }

  lemma SplitAt(a: seq<byte>, b: seq<byte>, x: seq<byte>, y: seq<byte>)
    requires |a| == |b| && a + x == b + y
    ensures a == b && x == y
  {
    assert (a + x)[..|a|] == a && (b + y)[..|a|] == b;
    assert (a + x)[|a|..] == x && (b + y)[|a|..] == y;
  }

  lemma SplitFirst(f: seq<byte>, g: seq<byte>, x: seq<byte>, y: seq<byte>)
    requires |f| < TWO32 && |g| < TWO32 && BigEndian(|f|, 4) + f + x == BigEndian(|g|, 4) + g + y
    ensures f == g && x == y
  {
    Associate(BigEndian(|f|, 4), f, x);
    Associate(BigEndian(|g|, 4), g, y);
    SplitAt(BigEndian(|f|, 4), BigEndian(|g|, 4), f + x, g + y);
    PowerFour();
    BigEndianInjective(|f|, |g|, 4);
    SplitAt(f, g, x, y);
  }

  lemma Associate(a: seq<byte>, b: seq<byte>, c: seq<byte>)
    ensures a + b + c == a + (b + c)
  {
  }

  lemma PowerFour()
    ensures Power256(4) == TWO32 && Power256(8) == TWO64
  {
    assert Power256(4) == 256 * (256 * (256 * (256 * Power256(0))));
    assert Power256(8) == 256 * (256 * (256 * (256 * Power256(4))));
  }

  /** Equal preimages come from equal function id, revision, salt and key. */
  lemma PreimageIsUnambiguous(
      maxInt: nat, v: seq<byte>, f: seq<byte>, r: U64, s: seq<byte>, k: seq<byte>, f': seq<byte>, r': U64, s': seq<byte>, k': seq<byte>)
    requires Preimage(maxInt, v, f, r, s, k).Some?
    requires Preimage(maxInt, v, f, r, s, k) == Preimage(maxInt, v, f', r', s', k')
    ensures f == f' && r == r' && s == s' && k == k'
  {
    var x, y := HashFields(v, f, r, s, k), HashFields(v, f', r', s', k');
    EncodeInjective(x, y);
    assert x[1] == y[1] && x[2] == y[2] && x[3] == y[3] && x[4] == y[4];
    PowerFour();
    BigEndianInjective(r, r', 8);
  }
}
