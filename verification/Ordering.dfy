/** Comparators as the source writes them, and sorting by a strict total order. */
module Ordering {
  /** Comparators return a negative number, zero or a positive number; the first non-zero one decides. */
  function Lex(first: int, second: int): int {
    if first != 0 then first else second
  }

  function CompareInt(a: int, b: int): int {
    if a < b then -1 else if a > b then 1 else 0
  }

  function CompareString(a: string, b: string): int {
    if a == [] then (if b == [] then 0 else -1)
    else if b == [] then 1
    else if a[0] < b[0] then -1
    else if a[0] > b[0] then 1
    else CompareString(a[1..], b[1..])
  }

  /** Three comparisons x?y, y?z and x?z as a total preorder requires. */
  predicate Consistent(xy: int, yz: int, xz: int) {
    xy <= 0 && yz <= 0 ==> xz <= 0 && (xz == 0 <==> xy == 0 && yz == 0)
  }

  lemma LexConsistent(a: int, b: int, c: int, p: int, q: int, r: int)
    requires Consistent(a, b, c) && Consistent(p, q, r)
    ensures Consistent(Lex(a, p), Lex(b, q), Lex(c, r))
  {
  }

  lemma {:induction false} StringOrder(a: string, b: string, c: string)
    ensures Consistent(CompareString(a, b), CompareString(b, c), CompareString(a, c))
    ensures CompareString(b, a) == -CompareString(a, b)
    ensures CompareString(a, b) == 0 <==> a == b
  {
    if a != [] && b != [] && a[0] == b[0] {
      StringOrder(a[1..], b[1..], if c == [] then [] else c[1..]);
      assert a == [a[0]] + a[1..] && b == [b[0]] + b[1..];
    }
  }

  // ---------- sorting ----------

  ghost predicate TotalOrder<T(!new)>(cmp: (T, T) -> int) {
    && (forall a, b, c :: Consistent(cmp(a, b), cmp(b, c), cmp(a, c)))
    && (forall a, b :: cmp(b, a) == -cmp(a, b))
  }

  /** No two elements tie. */
  ghost predicate NoTies<T>(ts: seq<T>, cmp: (T, T) -> int) {
    forall i, j :: 0 <= i < j < |ts| ==> cmp(ts[i], ts[j]) != 0
  }

  ghost predicate Increasing<T>(ts: seq<T>, cmp: (T, T) -> int) {
    forall i, j :: 0 <= i < j < |ts| ==> cmp(ts[i], ts[j]) < 0
  }

  function Insert<T>(t: T, ts: seq<T>, cmp: (T, T) -> int): seq<T> {
    if ts == [] then [t]
    else if cmp(t, ts[0]) <= 0 then [t] + ts
    else [ts[0]] + Insert(t, ts[1..], cmp)
  }

  /** What slices.SortFunc returns when no two elements tie. */
  function Sort<T>(ts: seq<T>, cmp: (T, T) -> int): seq<T> {
    if ts == [] then [] else Insert(ts[0], Sort(ts[1..], cmp), cmp)
  }

  /** An element below the first one goes in front. */
  lemma ConsIncreases<T(!new)>(t: T, ts: seq<T>, cmp: (T, T) -> int)
    requires TotalOrder(cmp) && Increasing(ts, cmp) && (ts != [] ==> cmp(t, ts[0]) < 0)
    ensures Increasing([t] + ts, cmp)
  {
    var r := [t] + ts;
    forall i, j | 0 <= i < j < |r| ensures cmp(r[i], r[j]) < 0 {
      if i == 0 {
        assert j > 1 ==> Consistent(cmp(t, ts[0]), cmp(ts[0], ts[j - 1]), cmp(t, ts[j - 1]));
      }
    }
  }

  lemma {:induction false} InsertKeeps<T(!new)>(t: T, ts: seq<T>, cmp: (T, T) -> int)
    requires TotalOrder(cmp) && Increasing(ts, cmp) && forall x :: x in ts ==> cmp(t, x) != 0
    ensures Increasing(Insert(t, ts, cmp), cmp) && forall x :: x in Insert(t, ts, cmp) <==> x == t || x in ts
  {
    if ts != [] {
      assert cmp(ts[0], t) == -cmp(t, ts[0]) && cmp(t, ts[0]) != 0;
      if cmp(t, ts[0]) <= 0 {
        ConsIncreases(t, ts, cmp);
      } else {
        InsertKeeps(t, ts[1..], cmp);
        var s := Insert(t, ts[1..], cmp);
        assert s[0] == t || s[0] in ts[1..];
        ConsIncreases(ts[0], s, cmp);
        assert forall x :: x in ts <==> x == ts[0] || x in ts[1..];
      }
    }
  }

  lemma {:induction false} SortSorts<T(!new)>(ts: seq<T>, cmp: (T, T) -> int)
    requires TotalOrder(cmp) && NoTies(ts, cmp)
    ensures Increasing(Sort(ts, cmp), cmp) && forall x :: x in Sort(ts, cmp) <==> x in ts
  {
    if ts != [] {
      SortSorts(ts[1..], cmp);
      forall x | x in Sort(ts[1..], cmp) ensures cmp(ts[0], x) != 0 {
        var i :| 0 <= i < |ts[1..]| && ts[1..][i] == x;
        assert ts[i + 1] == x;
      }
      InsertKeeps(ts[0], Sort(ts[1..], cmp), cmp);
      assert forall x :: x in ts <==> x == ts[0] || x in ts[1..];
    }
  }

  lemma EmptyAgree<T(!new)>(a: seq<T>, b: seq<T>)
    requires forall x :: x in a <==> x in b
    ensures a == [] <==> b == []
  {
    assert a != [] ==> a[0] in b;
    assert b != [] ==> b[0] in a;
  }

  lemma HeadsAgree<T(!new)>(a: seq<T>, b: seq<T>, cmp: (T, T) -> int)
    requires TotalOrder(cmp) && a != [] && b != [] && Increasing(a, cmp) && Increasing(b, cmp) && forall x :: x in a <==> x in b
    ensures a[0] == b[0]
  {
    assert a[0] in b && b[0] in a;
    var i :| 0 <= i < |b| && b[i] == a[0];
    var j :| 0 <= j < |a| && a[j] == b[0];
    assert cmp(b[0], a[0]) == -cmp(a[0], b[0]);
    if i > 0 && j > 0 {
      assert false;
    }
  }

  lemma HeadIsNotInTail<T(!new)>(a: seq<T>, cmp: (T, T) -> int)
    requires TotalOrder(cmp) && a != [] && Increasing(a, cmp)
    ensures a[0] !in a[1..]
  {
    forall i | 0 <= i < |a| - 1 ensures a[1..][i] != a[0] {
      assert cmp(a[0], a[i + 1]) < 0 && cmp(a[0], a[0]) == -cmp(a[0], a[0]);
    }
  }

  /** Two increasing arrangements of the same elements are the same. */
  lemma {:induction false} IncreasingIsUnique<T(!new)>(a: seq<T>, b: seq<T>, cmp: (T, T) -> int)
    requires TotalOrder(cmp) && Increasing(a, cmp) && Increasing(b, cmp) && forall x :: x in a <==> x in b
    ensures a == b
  {
    EmptyAgree(a, b);
    if a != [] {
      HeadsAgree(a, b, cmp);
      HeadIsNotInTail(a, cmp);
      HeadIsNotInTail(b, cmp);
      assert forall x :: x in a <==> x == a[0] || x in a[1..];
      assert forall x :: x in b <==> x == b[0] || x in b[1..];
      IncreasingIsUnique(a[1..], b[1..], cmp);
    }
  }

  /** Sorting forgets the order of its input. */
  lemma SortIgnoresOrder<T(!new)>(a: seq<T>, b: seq<T>, cmp: (T, T) -> int)
    requires TotalOrder(cmp) && NoTies(a, cmp) && NoTies(b, cmp) && forall x :: x in a <==> x in b
    ensures Sort(a, cmp) == Sort(b, cmp)
  {
    SortSorts(a, cmp);
    SortSorts(b, cmp);
    IncreasingIsUnique(Sort(a, cmp), Sort(b, cmp), cmp);
  }
}
