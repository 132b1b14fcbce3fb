/**
  Whole numbers on their way through JSON. A decoder that makes float64 values and
  one that keeps number literals read the same integer, unless the value is so large
  that the shortest literal naming the float64 value is not its exact expansion.
 */
module Numbers {
  import opened Basics
  import opened Floats

  /** Every integer below 2^53 in magnitude is a float64 value, and no other integer reads as it. */
  const EXACT: nat := 0x20_0000_0000_0000

  /** Where an encoder of float64 values turns to exponent notation: 10^21. */
  const EXPONENT: nat := 1_000_000_000_000_000_000_000

  /** Whether reading the integer `m` as a float64 yields `n`. */
  predicate RoundsTo(m: nat, n: nat) {
    Fl(m as real) == n as real
  }

  function NearestMultiple(n: nat, p: nat): (m: nat)
    requires p >= 1
    ensures n % p == 0 ==> m == n
  {
    NearestOfMultiple(n, p);
    (2 * n + p) / (2 * p) * p
  }

  lemma NearestOfMultiple(n: nat, p: nat)
    requires p >= 1
    ensures n % p == 0 ==> (2 * n + p) / (2 * p) * p == n
    ensures 2 * n < p ==> (2 * n + p) / (2 * p) == 0
  {
    if n % p == 0 {
      var q := n / p;
      assert n == q * p;
      assert 2 * n + p == q * (2 * p) + p;
      QuotientOf(q, 2 * p, p);
    } else if 2 * n < p {
      QuotientOf(0, 2 * p, 2 * n + p);
    }
  }

  lemma QuotientOf(q: nat, d: nat, r: nat)
    requires r < d
    ensures (q * d + r) / d == q
  {
    var x := q * d + r;
    var k := x / d - q;
    assert k * d == x / d * d - q * d;
    assert k * d == r - x % d;
    SmallMultiple(k, d);
  }

  lemma SmallMultiple(k: int, d: nat)
    requires 0 - d < k * d < d
    ensures k == 0
  {
  }

  /** The value with the fewest significant digits that still reads as `n`, given that multiples of `p` can. */
  function ShortestFrom(n: nat, p: nat): nat
    requires p >= 1
    decreases 2 * n - p
  {
    NearestOfMultiple(n, 10 * p);
    if 10 * p <= 2 * n && RoundsTo(NearestMultiple(n, 10 * p), n) then ShortestFrom(n, 10 * p)
        else NearestMultiple(n, p)
  }

  /** The integer a whole float64 value's shortest literal spells. */
  function Spelled(n: int): int {
    if n < 0 then 0 - ShortestFrom(-n, 1) else ShortestFrom(n, 1)
  }

  /** The shortest spelling still names the value it was made from. */
  lemma {:induction false} ShortestReadsBack(n: nat, p: nat)
    requires p >= 1 && RoundsTo(NearestMultiple(n, p), n)
    ensures RoundsTo(ShortestFrom(n, p), n)
    decreases 2 * n - p
  {
    if 10 * p <= 2 * n && RoundsTo(NearestMultiple(n, 10 * p), n) {
      ShortestReadsBack(n, 10 * p);
    }
  }

  lemma {:induction false} ShortestIsExact(n: nat, p: nat)
    requires n < EXACT && p >= 1 && n % p == 0
    ensures ShortestFrom(n, p) == n
    decreases 2 * n - p
  {
    if 10 * p <= 2 * n {
      var q := (2 * n + 10 * p) / (2 * (10 * p));
      if RoundsTo(NearestMultiple(n, 10 * p), n) {
        OnlyItself(NearestMultiple(n, 10 * p), n);
        MultipleOf(q, 10 * p);
        ShortestIsExact(n, 10 * p);
      }
    }
  }

  /** Below 2^53 nothing else reads as `n`. */
  lemma OnlyItself(m: nat, n: nat)
    requires n < EXACT && RoundsTo(m, n)
    ensures m == n
  {
    hide Fl, Pow2;
    ScaleIsPower();
    if m < EXACT {
      FlWhole(m);
    } else {
      FlOrder(EXACT as real, m as real);
      TopIsFixed();
    }
  }

  lemma TopIsFixed()
    ensures Fl(EXACT as real) == EXACT as real
  {
    ScaleIsPower();
    NearestIntFixed(0x10_0000_0000_0000);
    assert Pow2(54) as real == 2.0 * SCALE;
    assert EXACT as real * 0.5 == 0x10_0000_0000_0000 as real;
    MagnitudeScales(EXACT as real, 54, 0.5, DOUBLINGS);
  }

  lemma MultipleOf(q: nat, d: nat)
    requires d >= 1
    ensures q * d % d == 0
  {
    QuotientOf(q, d, 0);
  }

  predicate Safe(n: int) {
    0 - EXACT < n < EXACT
  }

  /** Up to 2^53 the shortest literal is exact. */
  lemma SpelledExactly(n: int)
    requires Safe(n)
    ensures Spelled(n) == n
  {
    ShortestIsExact(if n < 0 then -n else n, 1);
  }

  /** Above, it need not be: 2^60 is written 1152921504606847000. */
  lemma SpelledApart()
    ensures Spelled(0x1000_0000_0000_0000) == 1_152_921_504_606_847_000
  {
    var n := 0x1000_0000_0000_0000;
    var m := 1_152_921_504_606_847_000;
    assert NearestMultiple(n, 10) == 1_152_921_504_606_846_980;
    assert NearestMultiple(n, 100) == m && NearestMultiple(n, 1000) == m;
    assert NearestMultiple(n, 10_000) == 1_152_921_504_606_850_000;
    NearSixty(1_152_921_504_606_846_980, 0x10_0000_0000_0000);
    NearSixty(m, 0x10_0000_0000_0000);
    NearSixty(1_152_921_504_606_850_000, 0x10_0000_0000_000C);
    assert ShortestFrom(n, 1000) == m;
    assert ShortestFrom(n, 100) == m;
    assert ShortestFrom(n, 10) == m;
  }

  lemma SixtyOne()
    ensures Pow2(61) == 0x2000_0000_0000_0000
  {
    ScaleIsPower();
    PowersMultiply(53, 8);
    assert Pow2(8) == 256;
  }

  lemma NearestIs(q: real, k: int)
    requires k as real - 0.5 < q < k as real + 0.5
    ensures NearestInt(q) == k
  {
  }

  /** Between 2^60 and 2^61 float64 values are 256 apart. */
  lemma NearSixty(m: nat, k: nat)
    requires 0x1000_0000_0000_0000 <= m < 0x2000_0000_0000_0000
    requires k * 256 - 128 < m < k * 256 + 128
    ensures Fl(m as real) == (k * 256) as real
  {
    hide NearestInt, RoundMagnitude;
    SixtyOne();
    var s := 0.00390625;
    MagnitudeScales(m as real, 61, s, DOUBLINGS);
    assert k as real - 0.5 < m as real * s < k as real + 0.5;
    NearestIs(m as real * s, k);
    assert k as real / s == (k * 256) as real;
  }

  /** The 64-bit integer a decoded number denotes, as a strict reader takes it. */
  function ReadWhole(r: real, mode: NumberMode): Option<int> {
    if mode.Float? then Whole(r)
    else if r.Floor as real == r && Int64(Spelled(r.Floor)) then Some(Spelled(r.Floor)) else None
  }

  /** A number without a fraction that the two decoders may read apart. */
  predicate Large(r: real) {
    r.Floor as real == r && !Safe(r.Floor)
  }

  lemma ReadersAgree(r: real)
    requires !Large(r)
    ensures ReadWhole(r, Float) == ReadWhole(r, Literal)
  {
    if r.Floor as real == r {
      SpelledExactly(r.Floor);
    }
  }

  /** No argument is so large that the decoders may read it apart. */
  predicate AllSafe(args: Args) {
    forall name | name in args :: args[name].Num? ==> !Large(args[name].n)
  }
}
