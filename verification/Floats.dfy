/** Rounding to float64: the nearest value with a 53-bit significand, ties to the even one. */
module Floats {
  import opened Basics

  const SCALE: real := 9007199254740992.0

  function NearestInt(q: real): int {
    var k := q.Floor;
    var off := q - k as real;
    if off < 0.5 || (off == 0.5 && k % 2 == 0) then k else k + 1
  }

  /** The nearest multiple of 2^-53, which is the spacing of float64 values from one half to one. */
  function Near(x: real): real {
    NearestInt(x * SCALE) as real / SCALE
  }

  /** Other magnitudes are halved or doubled into that range; `k` doublings are left before the smallest exponent. */
  function RoundMagnitude(x: real, k: nat): real
    requires x >= 0.0
    decreases if x >= 1.0 then x.Floor + 1 else 0, k
  {
    if x >= 1.0 then 2.0 * RoundMagnitude(x / 2.0, k)
    else if x >= 0.5 || k == 0 then Near(x)
    else RoundMagnitude(2.0 * x, k - 1) / 2.0
  }

  const DOUBLINGS: nat := 1021

  /** The float64 value of a real number. */
  function Fl(x: real): real {
    if x < 0.0 then 0.0 - RoundMagnitude(0.0 - x, DOUBLINGS) else RoundMagnitude(x, DOUBLINGS)
  }

  lemma NearestIntOrder(q: real, r: real)
    requires q <= r
    ensures NearestInt(q) <= NearestInt(r)
  {
  }

  lemma NearestIntFixed(k: int)
    ensures NearestInt(k as real) == k
  {
  }

  lemma NearOrder(x: real, y: real)
    requires x <= y
    ensures Near(x) <= Near(y)
  {
    NearestIntOrder(x * SCALE, y * SCALE);
  }

  lemma NearFixed(x: real)
    ensures Near(Near(x)) == Near(x)
  {
    NearestIntFixed(NearestInt(x * SCALE));
    assert Near(x) * SCALE == NearestInt(x * SCALE) as real;
  }

  lemma NearMarks()
    ensures Near(0.0) == 0.0 && Near(0.5) == 0.5 && Near(1.0) == 1.0
  {
    NearestIntFixed(0);
    NearestIntFixed(4503599627370496);
    NearestIntFixed(9007199254740992);
  }

  /** Halves and wholes stay on their side. */
  lemma {:induction false} Sides(x: real, k: nat)
    requires x >= 0.0
    ensures RoundMagnitude(x, k) >= 0.0
    ensures x < 1.0 ==> RoundMagnitude(x, k) <= 1.0
    ensures x < 0.5 ==> RoundMagnitude(x, k) <= 0.5
    ensures x >= 1.0 ==> RoundMagnitude(x, k) >= 1.0
    ensures x >= 0.5 ==> RoundMagnitude(x, k) >= 0.5
    decreases if x >= 1.0 then x.Floor + 1 else 0, k
  {
    NearMarks();
    if x >= 1.0 {
      Sides(x / 2.0, k);
    } else if x >= 0.5 || k == 0 {
      NearOrder(0.0, x);
      NearOrder(x, 1.0);
      if x < 0.5 {
        NearOrder(x, 0.5);
      } else {
        NearOrder(0.5, x);
      }
    } else {
      Sides(2.0 * x, k - 1);
    }
  }

  lemma {:induction false} MagnitudeOrder(x: real, y: real, k: nat)
    requires 0.0 <= x <= y
    ensures RoundMagnitude(x, k) <= RoundMagnitude(y, k)
    decreases if y >= 1.0 then y.Floor + 1 else 0, k
  {
    Sides(x, k);
    Sides(y, k);
    if x >= 1.0 {
      MagnitudeOrder(x / 2.0, y / 2.0, k);
    } else if y < 1.0 {
      if x >= 0.5 || k == 0 {
        NearOrder(x, y);
      } else if y < 0.5 {
        MagnitudeOrder(2.0 * x, 2.0 * y, k - 1);
      }
    }
  }

  lemma {:induction false} MagnitudeFixed(x: real, k: nat)
    requires x >= 0.0
    ensures RoundMagnitude(x, k) >= 0.0 && RoundMagnitude(RoundMagnitude(x, k), k) == RoundMagnitude(x, k)
    decreases if x >= 1.0 then x.Floor + 1 else 0, k
  {
    Sides(x, k);
    var r := RoundMagnitude(x, k);
    if x >= 1.0 {
      MagnitudeFixed(x / 2.0, k);
      assert r / 2.0 == RoundMagnitude(x / 2.0, k);
    } else if x >= 0.5 || k == 0 {
      NearFixed(x);
      if r == 1.0 {
        OneIsFixed(k);
      }
    } else {
      MagnitudeFixed(2.0 * x, k - 1);
      if r == 0.5 {
        NearMarks();
      } else {
        assert 2.0 * r == RoundMagnitude(2.0 * x, k - 1);
      }
    }
  }

  lemma OneIsFixed(k: nat)
    ensures RoundMagnitude(1.0, k) == 1.0
  {
    NearMarks();
    assert RoundMagnitude(0.5, k) == 0.5;
  }

  /** Rounding keeps order. */
  lemma FlOrder(x: real, y: real)
    requires x <= y
    ensures Fl(x) <= Fl(y)
  {
    if x >= 0.0 {
      MagnitudeOrder(x, y, DOUBLINGS);
    } else if y < 0.0 {
      MagnitudeOrder(0.0 - y, 0.0 - x, DOUBLINGS);
    } else {
      Sides(0.0 - x, DOUBLINGS);
      Sides(y, DOUBLINGS);
    }
  }

  /** A float64 value is its own rounding. */
  lemma FlFixed(x: real)
    ensures Fl(Fl(x)) == Fl(x)
  {
    MagnitudeFixed(if x < 0.0 then 0.0 - x else x, DOUBLINGS);
    if x < 0.0 && RoundMagnitude(0.0 - x, DOUBLINGS) == 0.0 {
      ZeroIsFixed(DOUBLINGS);
    }
  }

  lemma {:induction false} ZeroIsFixed(k: nat)
    ensures RoundMagnitude(0.0, k) == 0.0
  {
    if k == 0 {
      NearMarks();
    } else {
      ZeroIsFixed(k - 1);
    }
  }

  lemma {:induction false} PowersMultiply(i: nat, j: nat)
    ensures Pow2(i) * Pow2(j) == Pow2(i + j)
  {
    if i > 0 {
      PowersMultiply(i - 1, j);
      assert Pow2(i) * Pow2(j) == 2 * (Pow2(i - 1) * Pow2(j));
    }
  }

  lemma {:induction false} PowersGrow(i: nat, j: nat)
    requires i <= j
    ensures Pow2(i) <= Pow2(j)
  {
    if i < j {
      PowersGrow(i, j - 1);
    }
  }

  lemma ScaleIsPower()
    ensures Pow2(53) as real == SCALE
  {
    assert Pow2(10) == 1024;
    PowersMultiply(10, 10);
    PowersMultiply(20, 20);
    PowersMultiply(40, 10);
    PowersMultiply(50, 3);
  }

  /** Halved into range, a whole number below 2^53 keeps a whole number of units. */
  lemma {:induction false} WholeMagnitude(x: real, n: nat, i: nat, k: nat)
    requires x >= 0.5 && i <= 53 && n < Pow2(53) && x * Pow2(i) as real == n as real
    ensures RoundMagnitude(x, k) == x
    decreases x.Floor
  {
    hide Pow2;
    if x >= 1.0 {
      BelowTop(x, n, i);
      HalfOf(x, n, i);
      WholeMagnitude(x / 2.0, n, i + 1, k);
    } else {
      PowersMultiply(i, 53 - i);
      ScaleIsPower();
      ScaledWhole(x, n, Pow2(i), Pow2(53 - i));
      NearestIntFixed(n * Pow2(53 - i));
    }
  }

  lemma BelowTop(x: real, n: nat, i: nat)
    requires x >= 1.0 && i <= 53 && n < Pow2(53) && x * Pow2(i) as real == n as real
    ensures i < 53
  {
    hide Pow2;
    Larger(x, Pow2(i));
  }

  lemma Larger(x: real, u: nat)
    requires x >= 1.0
    ensures x * u as real >= u as real
  {
  }

  lemma HalfOf(x: real, n: nat, i: nat)
    requires x * Pow2(i) as real == n as real
    ensures x / 2.0 * Pow2(i + 1) as real == n as real
  {
    assert Pow2(i + 1) as real == 2.0 * Pow2(i) as real;
  }

  lemma ScaledWhole(x: real, n: nat, u: nat, rest: nat)
    requires x * u as real == n as real && (u * rest) as real == SCALE
    ensures x * SCALE == (n * rest) as real
  {
    assert (u * rest) as real == u as real * rest as real;
    assert (n * rest) as real == n as real * rest as real;
  }

  /** A count below 2^53 is a float64 value. */
  lemma FlWhole(n: nat)
    requires n < Pow2(53)
    ensures Fl(n as real) == n as real
  {
    hide Pow2;
    if n == 0 {
      ZeroIsFixed(DOUBLINGS);
    } else {
      assert Pow2(0) == 1 by { PowOfZero(); }
      WholeMagnitude(n as real, n, 0, DOUBLINGS);
    }
  }

  lemma PowOfZero()
    ensures Pow2(0) == 1
  {
  }

  /** From 2^(i-1) up to 2^i, where `s` is 2^(53-i), values round to the nearest multiple of 1/s. */
  lemma {:induction false} MagnitudeScales(x: real, i: nat, s: real, k: nat)
    requires s > 0.0 && s * Pow2(i) as real == SCALE && Pow2(i) as real <= 2.0 * x && x < Pow2(i) as real
    ensures x >= 0.0 && RoundMagnitude(x, k) == NearestInt(x * s) as real / s
    decreases i
  {
    hide NearestInt, Pow2;
    if i == 0 {
      PowOfZero();
      Unit(s);
    } else {
      NextPower(i);
      Shift(s, Pow2(i) as real, Pow2(i - 1) as real);
      MagnitudeScales(x / 2.0, i - 1, 2.0 * s, k);
      SameProduct(x, s);
      Halved(NearestInt(x * s) as real, s);
    }
  }

  lemma Unit(s: real)
    requires s * 1.0 == SCALE
    ensures s == SCALE
  {
  }

  lemma NextPower(i: nat)
    requires i > 0
    ensures Pow2(i) == 2 * Pow2(i - 1) && Pow2(i - 1) >= 1
  {
    PowersGrow(0, i - 1);
  }

  lemma Shift(s: real, p: real, q: real)
    requires p == 2.0 * q
    ensures 2.0 * s * q == s * p
  {
  }

  lemma SameProduct(x: real, s: real)
    ensures x / 2.0 * (2.0 * s) == x * s
  {
  }

  lemma Halved(n: real, s: real)
    requires s > 0.0
    ensures 2.0 * (n / (2.0 * s)) == n / s
  {
    assert n / s * s == n;
    assert n / (2.0 * s) * (2.0 * s) == n;
  }

  /** Below one, rounding moves a value by at most half the spacing there. */
  lemma {:induction false} SmallError(x: real, k: nat)
    requires 0.0 <= x < 1.0
    ensures -0.5 <= (RoundMagnitude(x, k) - x) * SCALE <= 0.5
    decreases k
  {
    if x < 0.5 && k > 0 {
      SmallError(2.0 * x, k - 1);
    }
  }

  /** And by ever less as the value gets smaller. */
  lemma SmallerError(x: real)
    requires 0.0 <= x < 0.03125
    ensures -0.03125 <= (Fl(x) - x) * SCALE <= 0.03125
  {
    hide Near;
    SmallError(16.0 * x, DOUBLINGS - 4);
    assert RoundMagnitude(8.0 * x, DOUBLINGS - 3) == RoundMagnitude(2.0 * (8.0 * x), DOUBLINGS - 4) / 2.0;
    assert RoundMagnitude(4.0 * x, DOUBLINGS - 2) == RoundMagnitude(2.0 * (4.0 * x), DOUBLINGS - 3) / 2.0;
    assert RoundMagnitude(2.0 * x, DOUBLINGS - 1) == RoundMagnitude(2.0 * (2.0 * x), DOUBLINGS - 2) / 2.0;
  }

  lemma FlSides(x: real)
    requires x >= 0.0
    ensures Fl(x) >= 0.0 && (x < 0.5 ==> Fl(x) <= 0.5) && (x >= 0.5 ==> Fl(x) >= 0.5)
  {
    Sides(x, DOUBLINGS);
  }

  /** In the range itself, rounding is to the nearest multiple. */
  lemma FlInRange(x: real)
    requires 0.5 <= x < 1.0
    ensures Fl(x) == Near(x)
  {
  }
}
