/** Small value types and sequence facts shared by every component. */
module Common {
  datatype Option<+T> = None | Some(value: T)

  const TWO64: int := 0x1_0000_0000_0000_0000

  type U64 = n: int | 0 <= n < TWO64

  /** Go's uint64 increment, which wraps to zero. */
  function Succ64(n: int): (r: int)
    requires 0 <= n < TWO64
    ensures 0 <= r < TWO64
    ensures r == 0 <==> n == TWO64 - 1
    ensures r != 0 ==> r == n + 1
  {
    if n == TWO64 - 1 then 0 else n + 1
  }

  /** No element occurs at two positions. */
  ghost predicate Distinct<T>(s: seq<T>) {
    forall i, j :: 0 <= i < j < |s| ==> s[i] != s[j]
  }

  /** The elements of s that are not in drop, in order. */
  function Without<T(==, !new)>(s: seq<T>, drop: set<T>): (r: seq<T>)
    ensures forall x :: x in r <==> x in s && x !in drop
    ensures |r| <= |s|
  {
    if s == [] then []
    else if s[0] in drop then Without(s[1..], drop)
    else [s[0]] + Without(s[1..], drop)
  }

  lemma {:induction false} WithoutDistinct<T(!new)>(s: seq<T>, drop: set<T>)
    requires Distinct(s)
    ensures Distinct(Without(s, drop))
  {
    if s != [] {
      WithoutDistinct(s[1..], drop);
    }
  }

  ghost function ToSet<T(!new)>(s: seq<T>): (r: set<T>)
    ensures forall x :: x in r <==> x in s
  {
    set x | x in s
  }

  lemma {:induction false} DistinctSize<T(!new)>(s: seq<T>)
    requires Distinct(s)
    ensures |ToSet(s)| == |s|
  {
    if s != [] {
      DistinctSize(s[1..]);
      assert ToSet(s) == {s[0]} + ToSet(s[1..]);
      assert s[0] !in s[1..];
    }
  }

  lemma DistinctAppend<T>(a: seq<T>, b: seq<T>)
    requires Distinct(a) && Distinct(b)
    requires forall x :: x in a ==> x !in b
    ensures Distinct(a + b)
  {
    var s := a + b;
    forall i, j | 0 <= i < j < |s| ensures s[i] != s[j] {
      if i < |a| && |a| <= j {
        assert s[i] in a && s[j] in b;
      }
    }
  }
}
