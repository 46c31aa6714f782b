/**
 * Angle quantization. Every rotation and the MS gate read their angle from two
 * immediates as num * pi / 2**denom. The angle is kept symbolic here, as its
 * exact coefficient of pi, so nothing is rounded.
 */
module Angle {

  /** 2 to the power n. */
  function Pow2(n: nat): (r: nat)
    ensures r >= 1
  {
    if n == 0 then 1 else 2 * Pow2(n - 1)
  }

  /**
   * The coefficient of pi that the immediates (num, denom) denote. Python's
   * 2**denom with a negative denom yields 1/2^|denom|, so a negative
   * denominator multiplies instead of dividing; it is not rejected.
   */
  function Coefficient(num: int, denom: int): (r: real)
    ensures denom >= 0 ==> r * Pow2(denom) as real == num as real
    ensures denom < 0 ==> r / Pow2(-denom) as real == num as real
    ensures r == 0.0 <==> num == 0
    ensures r > 0.0 <==> num > 0
  {
    if denom >= 0 then num as real / Pow2(denom) as real
    else num as real * Pow2(-denom) as real
  }

  /** A zero numerator denotes the zero angle, whatever the denominator. */
  lemma CoefficientOfZero(denom: int)
    ensures Coefficient(0, denom) == 0.0
  {
  }

  /** Over a common denominator, angles add as their numerators do. */
  lemma CoefficientAdd(n1: int, n2: int, denom: int)
    ensures Coefficient(n1, denom) + Coefficient(n2, denom) == Coefficient(n1 + n2, denom)
  {
    if denom >= 0 {
      var p := Pow2(denom) as real;
      assert (n1 as real / p + n2 as real / p) * p == n1 as real + n2 as real;
    } else {
      var p := Pow2(-denom) as real;
      assert n1 as real * p + n2 as real * p == (n1 + n2) as real * p;
    }
  }

  /** Doubling the numerator and bumping the denominator denote the same angle. */
  lemma CoefficientDouble(num: int, denom: int)
    ensures Coefficient(2 * num, denom + 1) == Coefficient(num, denom)
  {
    var r1, r2 := Coefficient(2 * num, denom + 1), Coefficient(num, denom);
    if denom >= 0 {
      var p := Pow2(denom) as real;
      assert Pow2(denom + 1) as real == 2.0 * p;
      assert r1 * (2.0 * p) == 2.0 * num as real;
      assert r2 * p == num as real;
      assert (r1 - r2) * p == 0.0;
    } else if denom == -1 {
      assert Pow2(1) == 2;
    } else {
      var p := Pow2(-denom - 1) as real;
      assert Pow2(-denom) as real == 2.0 * p;
      assert r1 == (2 * num) as real * p;
      assert r2 == num as real * (2.0 * p);
    }
  }

  /** Encodings that differ by a common factor 2^k denote the same angle. */
  lemma {:induction false} CoefficientScale(num: int, denom: int, k: nat)
    ensures Coefficient(num * Pow2(k), denom + k) == Coefficient(num, denom)
  {
    if k > 0 {
      calc {
        Coefficient(num * Pow2(k), denom + k);
        { assert num * Pow2(k) == 2 * (num * Pow2(k - 1)); }
        Coefficient(2 * (num * Pow2(k - 1)), (denom + k - 1) + 1);
        { CoefficientDouble(num * Pow2(k - 1), denom + k - 1); }
        Coefficient(num * Pow2(k - 1), denom + k - 1);
        { CoefficientScale(num, denom, k - 1); }
        Coefficient(num, denom);
      }
    }
  }

  /** Over a common denominator, distinct numerators denote distinct angles. */
  lemma CoefficientInjective(n1: int, n2: int, denom: int)
    ensures Coefficient(n1, denom) == Coefficient(n2, denom) <==> n1 == n2
  {
  }

  /**
   * Two encodings denote the same angle exactly when the one with the larger
   * denominator is the other scaled by the difference of the denominators.
   */
  lemma SameAngle(n1: int, d1: int, n2: int, d2: int)
    requires d1 <= d2
    ensures Coefficient(n1, d1) == Coefficient(n2, d2) <==> n2 == n1 * Pow2(d2 - d1)
  {
    CoefficientScale(n1, d1, d2 - d1);
    CoefficientInjective(n1 * Pow2(d2 - d1), n2, d2);
  }
}
