/**
 * The matrix of rot_x, rot_y and rot_z. Each picks a unit basis axis and the
 * quantized angle and hands both to the rotation-matrix primitive of the
 * quantum-gates utility, which is not part of this model; its application is
 * kept as a symbolic value recording exactly what it is given.
 */
module Rotation {
  import opened Catalog
  import opened Angle

  /** An axis as the three integer components the source writes down. */
  datatype Axis = Axis(x: int, y: int, z: int)

  /** An application of the rotation-matrix primitive to an axis and an angle (as a coefficient of pi). */
  datatype RotationCall = GetRotationMatrix(axis: Axis, angle: real)

  /** The axis is one of the three unit basis vectors. */
  predicate IsBasisAxis(a: Axis) {
    a == Axis(1, 0, 0) || a == Axis(0, 1, 0) || a == Axis(0, 0, 1)
  }

  /** The axis each rotation kind selects. */
  function AxisOf(k: Kind): (a: Axis)
    requires IsRotation(k)
    ensures IsBasisAxis(a)
    ensures a.x == 1 <==> k == RotX
    ensures a.y == 1 <==> k == RotY
    ensures a.z == 1 <==> k == RotZ
  {
    match k
    case RotX => Axis(1, 0, 0)
    case RotY => Axis(0, 1, 0)
    case RotZ => Axis(0, 0, 1)
  }

  /** to_matrix of a rotation instruction with immediates (num, denom). */
  function RotationToMatrix(k: Kind, num: int, denom: int): (call: RotationCall)
    requires IsRotation(k)
    ensures call.axis == AxisOf(k) && IsBasisAxis(call.axis)
    ensures denom >= 0 ==> call.angle * Pow2(denom) as real == num as real
    ensures denom < 0 ==> call.angle / Pow2(-denom) as real == num as real
    ensures call.angle == 0.0 <==> num == 0
    ensures call.angle > 0.0 <==> num > 0
  {
    GetRotationMatrix(AxisOf(k), Coefficient(num, denom))
  }

  /** Distinct rotation kinds select distinct axes. */
  lemma AxesDistinct(k1: Kind, k2: Kind)
    requires IsRotation(k1) && IsRotation(k2)
    ensures AxisOf(k1) == AxisOf(k2) <==> k1 == k2
  {
  }

  /**
   * The primitive sees only the kind's axis and the quantized angle: two
   * encodings of the same angle give the same call, and different angles give
   * different calls.
   */
  lemma RotationDependsOnlyOnAngle(k: Kind, n1: int, d1: int, n2: int, d2: int)
    requires IsRotation(k)
    requires d1 <= d2
    ensures RotationToMatrix(k, n1, d1) == RotationToMatrix(k, n2, d2) <==> n2 == n1 * Pow2(d2 - d1)
    ensures RotationToMatrix(k, n1, d1).axis == AxisOf(k)
  {
    SameAngle(n1, d1, n2, d2);
  }

  /** A zero numerator hands the primitive the zero angle, for every denominator. */
  lemma RotationZeroNumerator(k: Kind, denom: int)
    requires IsRotation(k)
    ensures RotationToMatrix(k, 0, denom) == GetRotationMatrix(AxisOf(k), 0.0)
  {
  }

  /**
   * Composition over a common denominator: the calls for (n1, d) and (n2, d)
   * share the axis and their angles add up to the angle of (n1 + n2, d).
   */
  lemma RotationCompose(k: Kind, n1: int, n2: int, denom: int)
    requires IsRotation(k)
    ensures RotationToMatrix(k, n1, denom).axis == RotationToMatrix(k, n2, denom).axis
    ensures RotationToMatrix(k, n1, denom).angle + RotationToMatrix(k, n2, denom).angle
            == RotationToMatrix(k, n1 + n2, denom).angle
  {
    CoefficientAdd(n1, n2, denom);
  }
}
