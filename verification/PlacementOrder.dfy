/**
 The ranking of eligible Workers: cache score, spread, slot load, memory load,
 then identity. Loads are compared as 128-bit cross products in two halves.
 */
module PlacementOrder {
  import opened Common
  import opened Ordering
  import opened ServingAuth

  datatype Eligible = Eligible(
    session: Session, cacheScore: nat, spreadScore: nat,
    loadNum: U64, loadDen: U64, memoryNum: U64, memoryDen: U64)

  // ---------- comparators ----------

  /** bits.Mul64: the high and the low 64 bits of a product. */
  function Mul64(a: U64, b: U64): (int, int) {
    (a * b / TWO64, a * b % TWO64)
  }

  /** compareRatio. */
  function CompareRatio(ln: U64, ld: U64, rn: U64, rd: U64): int {
    var (leftHigh, leftLow) := Mul64(ln, rd);
    var (rightHigh, rightLow) := Mul64(rn, ld);
    if leftHigh < rightHigh || (leftHigh == rightHigh && leftLow < rightLow) then -1
    else if leftHigh > rightHigh || (leftHigh == rightHigh && leftLow > rightLow) then 1
    else 0
  }

  function CompareSession(a: Session, b: Session): int {
    Lex(CompareString(a.workerId, b.workerId), Lex(CompareString(a.bootId, b.bootId), CompareInt(a.epoch, b.epoch)))
  }

  /** compareEligible. */
  function CompareEligible(x: Eligible, y: Eligible): int {
    Lex(CompareInt(y.cacheScore, x.cacheScore),
    Lex(CompareInt(y.spreadScore, x.spreadScore),
    Lex(CompareRatio(x.loadNum, x.loadDen, y.loadNum, y.loadDen),
    Lex(CompareRatio(x.memoryNum, x.memoryDen, y.memoryNum, y.memoryDen),
        CompareSession(x.session, y.session)))))
  }

  // ---------- the two halves compare like the exact quotients ----------

  lemma HalvesCompare(p: int, q: int)
    requires p >= 0 && q >= 0
    ensures p < q <==> p / TWO64 < q / TWO64 || (p / TWO64 == q / TWO64 && p % TWO64 < q % TWO64)
    ensures p == q <==> p / TWO64 == q / TWO64 && p % TWO64 == q % TWO64
  {
    assert p == p / TWO64 * TWO64 + p % TWO64 && q == q / TWO64 * TWO64 + q % TWO64;
  }

  function Quotient(num: U64, den: U64): real
    requires den > 0
  {
    num as real / den as real
  }

  lemma CrossMultiply(ln: int, ld: int, rn: int, rd: int)
    requires ld > 0 && rd > 0
    ensures ln * rd < rn * ld <==> ln as real / ld as real < rn as real / rd as real
    ensures ln * rd == rn * ld <==> ln as real / ld as real == rn as real / rd as real
  {
    var a, b, c, d := ln as real, ld as real, rn as real, rd as real;
    assert (ln * rd) as real == a * d && (rn * ld) as real == c * b;
    assert a / b * b == a && c / d * d == c;
    var x, y := a / b, c / d;
    assert a * d == x * (b * d) && c * b == y * (b * d);
    Scale(x, y, b * d);
  }

  lemma Scale(x: real, y: real, k: real)
    requires k > 0.0
    ensures x < y <==> x * k < y * k
    ensures x == y <==> x * k == y * k
  {
    if x < y {
      assert (y - x) * k > 0.0;
    } else if x > y {
      assert (x - y) * k > 0.0;
    }
  }

  function CompareReal(x: real, y: real): int {
    if x < y then -1 else if x > y then 1 else 0
  }

  /** With positive denominators, which eligibility forces, the comparison is that of the exact quotients. */
  lemma RatioIsExact(ln: U64, ld: U64, rn: U64, rd: U64)
    requires ld > 0 && rd > 0
    ensures CompareRatio(ln, ld, rn, rd) == CompareReal(Quotient(ln, ld), Quotient(rn, rd))
  {
    NonNegativeProduct(ln, rd);
    NonNegativeProduct(rn, ld);
    HalvesCompare(ln * rd, rn * ld);
    CrossMultiply(ln, ld, rn, rd);
  }

  lemma NonNegativeProduct(a: int, b: int)
    requires a >= 0 && b >= 0
    ensures a * b >= 0
  {
  }

  // ---------- a strict total order ----------

  lemma SessionOrder(a: Session, b: Session, c: Session)
    ensures Consistent(CompareSession(a, b), CompareSession(b, c), CompareSession(a, c))
    ensures CompareSession(b, a) == -CompareSession(a, b)
    ensures CompareSession(a, b) == 0 <==> a == b
  {
    StringOrder(a.workerId, b.workerId, c.workerId);
    StringOrder(a.bootId, b.bootId, c.bootId);
    LexConsistent(CompareString(a.bootId, b.bootId), CompareString(b.bootId, c.bootId), CompareString(a.bootId, c.bootId),
                  CompareInt(a.epoch, b.epoch), CompareInt(b.epoch, c.epoch), CompareInt(a.epoch, c.epoch));
  }

  predicate Rankable(x: Eligible) {
    x.loadDen > 0 && x.memoryDen > 0
  }

  lemma RatioOrder(an: U64, ad: U64, bn: U64, bd: U64, cn: U64, cd: U64)
    requires ad > 0 && bd > 0 && cd > 0
    ensures Consistent(CompareRatio(an, ad, bn, bd), CompareRatio(bn, bd, cn, cd), CompareRatio(an, ad, cn, cd))
    ensures CompareRatio(bn, bd, an, ad) == -CompareRatio(an, ad, bn, bd)
  {
    RatioIsExact(an, ad, bn, bd);
    RatioIsExact(bn, bd, cn, cd);
    RatioIsExact(an, ad, cn, cd);
    RatioIsExact(bn, bd, an, ad);
  }

  /** compareEligible is transitive and antisymmetric, and ties only a worker session with itself. */
  lemma EligibleOrder(x: Eligible, y: Eligible, z: Eligible)
    requires Rankable(x) && Rankable(y) && Rankable(z)
    ensures CompareEligible(x, y) < 0 && CompareEligible(y, z) < 0 ==> CompareEligible(x, z) < 0
    ensures CompareEligible(y, x) == -CompareEligible(x, y)
    ensures CompareEligible(x, y) == 0 ==> x.session == y.session
  {
    RatioOrder(x.loadNum, x.loadDen, y.loadNum, y.loadDen, z.loadNum, z.loadDen);
    RatioOrder(x.memoryNum, x.memoryDen, y.memoryNum, y.memoryDen, z.memoryNum, z.memoryDen);
    SessionOrder(x.session, y.session, z.session);
    EligibleConsistent(x, y, z);
  }

  lemma EligibleConsistent(x: Eligible, y: Eligible, z: Eligible)
    requires Consistent(CompareRatio(x.loadNum, x.loadDen, y.loadNum, y.loadDen), CompareRatio(y.loadNum, y.loadDen, z.loadNum, z.loadDen),
                        CompareRatio(x.loadNum, x.loadDen, z.loadNum, z.loadDen))
    requires Consistent(CompareRatio(x.memoryNum, x.memoryDen, y.memoryNum, y.memoryDen), CompareRatio(y.memoryNum, y.memoryDen, z.memoryNum, z.memoryDen),
                        CompareRatio(x.memoryNum, x.memoryDen, z.memoryNum, z.memoryDen))
    requires Consistent(CompareSession(x.session, y.session), CompareSession(y.session, z.session), CompareSession(x.session, z.session))
    ensures Consistent(CompareEligible(x, y), CompareEligible(y, z), CompareEligible(x, z))
  {
  }
}
