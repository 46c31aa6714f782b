/**
 * The Molmer-Sorensen (XX) gate instruction: its named operand roles over the
 * four positional slots of the two-register, two-immediate shape, and the 4x4
 * matrix it implements.
 */
module MolmerSorensen {
  import opened Angle
  import opened Complex

  /** Register files of the instruction set. */
  datatype RegisterName = C | R | Q | M

  /** A register operand: a register file and an index into it. */
  datatype Register = Register(name: RegisterName, index: nat)

  /**
   * An MS instruction: the named roles qreg0, qreg1, angle_num and angle_denom
   * are read and written through the four positional slots reg0, reg1, imm0
   * and imm1 of the two-register, two-immediate shape.
   */
  class MSInstruction {
    var reg0: Register
    var reg1: Register
    var imm0: int
    var imm1: int

    constructor (qreg0: Register, qreg1: Register, angleNum: int, angleDenom: int)
      ensures reg0 == qreg0 && reg1 == qreg1 && imm0 == angleNum && imm1 == angleDenom
    {
      reg0, reg1, imm0, imm1 := qreg0, qreg1, angleNum, angleDenom;
    }

    function QReg0(): Register
      reads this
    {
      reg0
    }

    function QReg1(): Register
      reads this
    {
      reg1
    }

    function AngleNum(): int
      reads this
    {
      imm0
    }

    /**
     * The angle_denom getter as declared: it reads imm1, so it agrees with
     * the live property only when the two angle slots hold the same value.
     */
    function AngleDenom(): (d: int)
      reads this
      ensures d == AngleDenomAsWritten() <==> imm0 == imm1
    {
      imm1
    }

    /**
     * The angle_denom property as it is live: its setter is declared on
     * angle_num's property object, which carries angle_num's getter, so a
     * read of angle_denom returns imm0.
     */
    function AngleDenomAsWritten(): (d: int)
      reads this
      ensures d == AngleNum()
    {
      imm0
    }

    method SetQReg0(v: Register)
      modifies this`reg0
      ensures QReg0() == v
      ensures reg1 == old(reg1) && imm0 == old(imm0) && imm1 == old(imm1)
    {
      reg0 := v;
    }

    method SetQReg1(v: Register)
      modifies this`reg1
      ensures QReg1() == v
      ensures reg0 == old(reg0) && imm0 == old(imm0) && imm1 == old(imm1)
    {
      reg1 := v;
    }

    method SetAngleNum(v: int)
      modifies this`imm0
      ensures AngleNum() == v
      ensures reg0 == old(reg0) && reg1 == old(reg1) && imm1 == old(imm1)
    {
      imm0 := v;
    }

    /**
     * The angle_denom setter writes imm1 only. Read back through the declared
     * getter it returns the value written; read back through the live
     * property it returns the untouched imm0.
     */
    method SetAngleDenom(v: int)
      modifies this`imm1
      ensures AngleDenom() == v
      ensures reg0 == old(reg0) && reg1 == old(reg1) && imm0 == old(imm0)
      ensures AngleDenomAsWritten() == old(AngleDenomAsWritten()) == AngleNum()
    {
      imm1 := v;
    }

    /** The quantized angle, as a coefficient of pi. */
    function Angle(): (a: real)
      reads this
      ensures imm1 >= 0 ==> a * Pow2(imm1) as real == imm0 as real
      ensures imm1 < 0 ==> a / Pow2(-imm1) as real == imm0 as real
      ensures a == 0.0 <==> imm0 == 0
    {
      Coefficient(AngleNum(), AngleDenom())
    }

    /**
     * The angle to_matrix sees when angle_denom is read through the live
     * property: the numerator is read for both immediates.
     */
    function AngleAsWritten(): (a: real)
      reads this
      ensures a == Coefficient(imm0, imm0)
    {
      Coefficient(AngleNum(), AngleDenomAsWritten())
    }

    /** to_matrix: the MS matrix of this instruction's immediates. */
    function ToMatrix(cosPi: real -> real, sinPi: real -> real): (m: Matrix)
      reads this
      ensures m == MsToMatrix(imm0, imm1, cosPi, sinPi)
      ensures IsSquare(m, 4)
    {
      MsMatrix(cosPi(Angle()), sinPi(Angle()))
    }
  }

  /**
   * Regression for the angle_denom property: on ms(num = 1, denom = 2), set
   * angle_denom to 3 and read it back. The declared getter returns 3; the live
   * property returns imm0 = 1, and the angle it feeds to to_matrix is
   * 1/2^1 instead of 1/2^3.
   */
  method AngleDenomRegression() returns (written: int, declared: int, live: int, angle: real, liveAngle: real)
    ensures written == 3 && declared == 3 && live == 1
    ensures angle == Coefficient(1, written) && angle * 8.0 == 1.0
    ensures liveAngle == 0.5 && liveAngle != angle
  {
    var ms := new MSInstruction(Register(Q, 0), Register(Q, 1), 1, 2);
    written := 3;
    ms.SetAngleDenom(written);
    declared, live := ms.AngleDenom(), ms.AngleDenomAsWritten();
    angle, liveAngle := ms.Angle(), ms.AngleAsWritten();
    assert Pow2(3) == 8;
    assert Pow2(1) == 2;
  }

  /**
   * The MS matrix for cosine term c and sine term sn: c on the diagonal and
   * -i*sn coupling |00> with |11> and |01> with |10>.
   */
  function MsMatrix(c: real, sn: real): (m: Matrix)
    ensures IsSquare(m, 4)
  {
    var d := Complex(c, 0.0);
    var s := Complex(0.0, -sn);
    [[d, Zero, Zero, s],
     [Zero, d, s, Zero],
     [Zero, s, d, Zero],
     [s, Zero, Zero, d]]
  }

  /**
   * to_matrix of an MS instruction with immediates (num, denom). The
   * trigonometric functions are parameters: cosPi(x) and sinPi(x) stand for
   * cos and sin of x * pi, where x is the coefficient of pi.
   */
  function MsToMatrix(num: int, denom: int, cosPi: real -> real, sinPi: real -> real): (m: Matrix)
    ensures IsSquare(m, 4)
  {
    var a := Coefficient(num, denom);
    MsMatrix(cosPi(a), sinPi(a))
  }

  /**
   * Sparsity: every diagonal entry is the cosine term, and an off-diagonal
   * entry is nonzero only at (0,3), (3,0), (1,2), (2,1), where it is -i*sn.
   */
  lemma MsSparsity(c: real, sn: real, i: nat, j: nat)
    requires i < 4 && j < 4
    ensures i == j ==> MsMatrix(c, sn)[i][j] == Complex(c, 0.0)
    ensures i != j && i + j == 3 ==> MsMatrix(c, sn)[i][j] == Complex(0.0, -sn)
    ensures i != j ==> (MsMatrix(c, sn)[i][j] != Zero <==> i + j == 3 && sn != 0.0)
  {
  }

  /** The MS matrix equals its transpose. */
  lemma MsSymmetric(c: real, sn: real)
    ensures Transpose(MsMatrix(c, sn), 4) == MsMatrix(c, sn)
  {
    var m := MsMatrix(c, sn);
    var t := Transpose(m, 4);
    forall i | 0 <= i < 4 ensures t[i] == m[i] {
      forall j | 0 <= j < 4 ensures t[i][j] == m[i][j] {
        MsSparsity(c, sn, i, j);
        MsSparsity(c, sn, j, i);
      }
    }
  }

  /** At angle 0 (c = 1, sn = 0) the MS matrix is the identity. */
  lemma MsIdentityAtZero()
    ensures MsMatrix(1.0, 0.0) == Identity(4)
  {
    var m, id := MsMatrix(1.0, 0.0), Identity(4);
    forall i | 0 <= i < 4 ensures m[i] == id[i] {
      forall j | 0 <= j < 4 ensures m[i][j] == id[i][j] {
        MsSparsity(1.0, 0.0, i, j);
      }
    }
  }

  /** One entry of the product of two MS matrices. */
  lemma MsProductEntry(c1: real, sn1: real, c2: real, sn2: real, i: nat, j: nat)
    requires i < 4 && j < 4
    ensures MatMul(MsMatrix(c1, sn1), MsMatrix(c2, sn2), 4)[i][j]
            == MsMatrix(c1 * c2 - sn1 * sn2, sn1 * c2 + c1 * sn2)[i][j]
  {
    if i == 0 {
      if j == 0 {
        MsProductAt00(c1, sn1, c2, sn2);
      } else if j == 1 {
        MsProductAt01(c1, sn1, c2, sn2);
      } else if j == 2 {
        MsProductAt02(c1, sn1, c2, sn2);
      } else {
        MsProductAt03(c1, sn1, c2, sn2);
      }
    } else if i == 1 {
      if j == 0 {
        MsProductAt10(c1, sn1, c2, sn2);
      } else if j == 1 {
        MsProductAt11(c1, sn1, c2, sn2);
      } else if j == 2 {
        MsProductAt12(c1, sn1, c2, sn2);
      } else {
        MsProductAt13(c1, sn1, c2, sn2);
      }
    } else if i == 2 {
      if j == 0 {
        MsProductAt20(c1, sn1, c2, sn2);
      } else if j == 1 {
        MsProductAt21(c1, sn1, c2, sn2);
      } else if j == 2 {
        MsProductAt22(c1, sn1, c2, sn2);
      } else {
        MsProductAt23(c1, sn1, c2, sn2);
      }
    } else {
      if j == 0 {
        MsProductAt30(c1, sn1, c2, sn2);
      } else if j == 1 {
        MsProductAt31(c1, sn1, c2, sn2);
      } else if j == 2 {
        MsProductAt32(c1, sn1, c2, sn2);
      } else {
        MsProductAt33(c1, sn1, c2, sn2);
      }
    }
  }

  // The sixteen entries of the product, one lemma each so that every proof obligation stays small.

  lemma MsProductAt00(c1: real, sn1: real, c2: real, sn2: real)
    ensures MatMul(MsMatrix(c1, sn1), MsMatrix(c2, sn2), 4)[0][0]
            == MsMatrix(c1 * c2 - sn1 * sn2, sn1 * c2 + c1 * sn2)[0][0]
  {
    assert Add(Mul(Complex(c1, 0.0), Complex(c2, 0.0)), Add(Mul(Zero, Zero), Add(Mul(Zero, Zero), Mul(Complex(0.0, -sn1), Complex(0.0, -sn2)))))
           == Complex(c1 * c2 - sn1 * sn2, 0.0);
    assert MsMatrix(c1 * c2 - sn1 * sn2, sn1 * c2 + c1 * sn2)[0][0] == Complex(c1 * c2 - sn1 * sn2, 0.0);
    MatMul4At(MsMatrix(c1, sn1), MsMatrix(c2, sn2), 0, 0,
              [Complex(c1, 0.0), Zero, Zero, Complex(0.0, -sn1)],
              [Complex(c2, 0.0), Zero, Zero, Complex(0.0, -sn2)]);
  }

  lemma MsProductAt01(c1: real, sn1: real, c2: real, sn2: real)
    ensures MatMul(MsMatrix(c1, sn1), MsMatrix(c2, sn2), 4)[0][1]
            == MsMatrix(c1 * c2 - sn1 * sn2, sn1 * c2 + c1 * sn2)[0][1]
  {
    assert Add(Mul(Complex(c1, 0.0), Zero), Add(Mul(Zero, Complex(c2, 0.0)), Add(Mul(Zero, Complex(0.0, -sn2)), Mul(Complex(0.0, -sn1), Zero))))
           == Zero;
    assert MsMatrix(c1 * c2 - sn1 * sn2, sn1 * c2 + c1 * sn2)[0][1] == Zero;
    MatMul4At(MsMatrix(c1, sn1), MsMatrix(c2, sn2), 0, 1,
              [Complex(c1, 0.0), Zero, Zero, Complex(0.0, -sn1)],
              [Zero, Complex(c2, 0.0), Complex(0.0, -sn2), Zero]);
  }

  lemma MsProductAt02(c1: real, sn1: real, c2: real, sn2: real)
    ensures MatMul(MsMatrix(c1, sn1), MsMatrix(c2, sn2), 4)[0][2]
            == MsMatrix(c1 * c2 - sn1 * sn2, sn1 * c2 + c1 * sn2)[0][2]
  {
    assert Add(Mul(Complex(c1, 0.0), Zero), Add(Mul(Zero, Complex(0.0, -sn2)), Add(Mul(Zero, Complex(c2, 0.0)), Mul(Complex(0.0, -sn1), Zero))))
           == Zero;
    assert MsMatrix(c1 * c2 - sn1 * sn2, sn1 * c2 + c1 * sn2)[0][2] == Zero;
    MatMul4At(MsMatrix(c1, sn1), MsMatrix(c2, sn2), 0, 2,
              [Complex(c1, 0.0), Zero, Zero, Complex(0.0, -sn1)],
              [Zero, Complex(0.0, -sn2), Complex(c2, 0.0), Zero]);
  }

  lemma MsProductAt03(c1: real, sn1: real, c2: real, sn2: real)
    ensures MatMul(MsMatrix(c1, sn1), MsMatrix(c2, sn2), 4)[0][3]
            == MsMatrix(c1 * c2 - sn1 * sn2, sn1 * c2 + c1 * sn2)[0][3]
  {
    assert Add(Mul(Complex(c1, 0.0), Complex(0.0, -sn2)), Add(Mul(Zero, Zero), Add(Mul(Zero, Zero), Mul(Complex(0.0, -sn1), Complex(c2, 0.0)))))
           == Complex(0.0, -(sn1 * c2 + c1 * sn2));
    assert MsMatrix(c1 * c2 - sn1 * sn2, sn1 * c2 + c1 * sn2)[0][3] == Complex(0.0, -(sn1 * c2 + c1 * sn2));
    MatMul4At(MsMatrix(c1, sn1), MsMatrix(c2, sn2), 0, 3,
              [Complex(c1, 0.0), Zero, Zero, Complex(0.0, -sn1)],
              [Complex(0.0, -sn2), Zero, Zero, Complex(c2, 0.0)]);
  }

  lemma MsProductAt10(c1: real, sn1: real, c2: real, sn2: real)
    ensures MatMul(MsMatrix(c1, sn1), MsMatrix(c2, sn2), 4)[1][0]
            == MsMatrix(c1 * c2 - sn1 * sn2, sn1 * c2 + c1 * sn2)[1][0]
  {
    assert Add(Mul(Zero, Complex(c2, 0.0)), Add(Mul(Complex(c1, 0.0), Zero), Add(Mul(Complex(0.0, -sn1), Zero), Mul(Zero, Complex(0.0, -sn2)))))
           == Zero;
    assert MsMatrix(c1 * c2 - sn1 * sn2, sn1 * c2 + c1 * sn2)[1][0] == Zero;
    MatMul4At(MsMatrix(c1, sn1), MsMatrix(c2, sn2), 1, 0,
              [Zero, Complex(c1, 0.0), Complex(0.0, -sn1), Zero],
              [Complex(c2, 0.0), Zero, Zero, Complex(0.0, -sn2)]);
  }

  lemma MsProductAt11(c1: real, sn1: real, c2: real, sn2: real)
    ensures MatMul(MsMatrix(c1, sn1), MsMatrix(c2, sn2), 4)[1][1]
            == MsMatrix(c1 * c2 - sn1 * sn2, sn1 * c2 + c1 * sn2)[1][1]
  {
    assert Add(Mul(Zero, Zero), Add(Mul(Complex(c1, 0.0), Complex(c2, 0.0)), Add(Mul(Complex(0.0, -sn1), Complex(0.0, -sn2)), Mul(Zero, Zero))))
           == Complex(c1 * c2 - sn1 * sn2, 0.0);
    assert MsMatrix(c1 * c2 - sn1 * sn2, sn1 * c2 + c1 * sn2)[1][1] == Complex(c1 * c2 - sn1 * sn2, 0.0);
    MatMul4At(MsMatrix(c1, sn1), MsMatrix(c2, sn2), 1, 1,
              [Zero, Complex(c1, 0.0), Complex(0.0, -sn1), Zero],
              [Zero, Complex(c2, 0.0), Complex(0.0, -sn2), Zero]);
  }

  lemma MsProductAt12(c1: real, sn1: real, c2: real, sn2: real)
    ensures MatMul(MsMatrix(c1, sn1), MsMatrix(c2, sn2), 4)[1][2]
            == MsMatrix(c1 * c2 - sn1 * sn2, sn1 * c2 + c1 * sn2)[1][2]
  {
    assert Add(Mul(Zero, Zero), Add(Mul(Complex(c1, 0.0), Complex(0.0, -sn2)), Add(Mul(Complex(0.0, -sn1), Complex(c2, 0.0)), Mul(Zero, Zero))))
           == Complex(0.0, -(sn1 * c2 + c1 * sn2));
    assert MsMatrix(c1 * c2 - sn1 * sn2, sn1 * c2 + c1 * sn2)[1][2] == Complex(0.0, -(sn1 * c2 + c1 * sn2));
    MatMul4At(MsMatrix(c1, sn1), MsMatrix(c2, sn2), 1, 2,
              [Zero, Complex(c1, 0.0), Complex(0.0, -sn1), Zero],
              [Zero, Complex(0.0, -sn2), Complex(c2, 0.0), Zero]);
  }

  lemma MsProductAt13(c1: real, sn1: real, c2: real, sn2: real)
    ensures MatMul(MsMatrix(c1, sn1), MsMatrix(c2, sn2), 4)[1][3]
            == MsMatrix(c1 * c2 - sn1 * sn2, sn1 * c2 + c1 * sn2)[1][3]
  {
    assert Add(Mul(Zero, Complex(0.0, -sn2)), Add(Mul(Complex(c1, 0.0), Zero), Add(Mul(Complex(0.0, -sn1), Zero), Mul(Zero, Complex(c2, 0.0)))))
           == Zero;
    assert MsMatrix(c1 * c2 - sn1 * sn2, sn1 * c2 + c1 * sn2)[1][3] == Zero;
    MatMul4At(MsMatrix(c1, sn1), MsMatrix(c2, sn2), 1, 3,
              [Zero, Complex(c1, 0.0), Complex(0.0, -sn1), Zero],
              [Complex(0.0, -sn2), Zero, Zero, Complex(c2, 0.0)]);
  }

  lemma MsProductAt20(c1: real, sn1: real, c2: real, sn2: real)
    ensures MatMul(MsMatrix(c1, sn1), MsMatrix(c2, sn2), 4)[2][0]
            == MsMatrix(c1 * c2 - sn1 * sn2, sn1 * c2 + c1 * sn2)[2][0]
  {
    assert Add(Mul(Zero, Complex(c2, 0.0)), Add(Mul(Complex(0.0, -sn1), Zero), Add(Mul(Complex(c1, 0.0), Zero), Mul(Zero, Complex(0.0, -sn2)))))
           == Zero;
    assert MsMatrix(c1 * c2 - sn1 * sn2, sn1 * c2 + c1 * sn2)[2][0] == Zero;
    MatMul4At(MsMatrix(c1, sn1), MsMatrix(c2, sn2), 2, 0,
              [Zero, Complex(0.0, -sn1), Complex(c1, 0.0), Zero],
              [Complex(c2, 0.0), Zero, Zero, Complex(0.0, -sn2)]);
  }

  lemma MsProductAt21(c1: real, sn1: real, c2: real, sn2: real)
    ensures MatMul(MsMatrix(c1, sn1), MsMatrix(c2, sn2), 4)[2][1]
            == MsMatrix(c1 * c2 - sn1 * sn2, sn1 * c2 + c1 * sn2)[2][1]
  {
    assert Add(Mul(Zero, Zero), Add(Mul(Complex(0.0, -sn1), Complex(c2, 0.0)), Add(Mul(Complex(c1, 0.0), Complex(0.0, -sn2)), Mul(Zero, Zero))))
           == Complex(0.0, -(sn1 * c2 + c1 * sn2));
    assert MsMatrix(c1 * c2 - sn1 * sn2, sn1 * c2 + c1 * sn2)[2][1] == Complex(0.0, -(sn1 * c2 + c1 * sn2));
    MatMul4At(MsMatrix(c1, sn1), MsMatrix(c2, sn2), 2, 1,
              [Zero, Complex(0.0, -sn1), Complex(c1, 0.0), Zero],
              [Zero, Complex(c2, 0.0), Complex(0.0, -sn2), Zero]);
  }

  lemma MsProductAt22(c1: real, sn1: real, c2: real, sn2: real)
    ensures MatMul(MsMatrix(c1, sn1), MsMatrix(c2, sn2), 4)[2][2]
            == MsMatrix(c1 * c2 - sn1 * sn2, sn1 * c2 + c1 * sn2)[2][2]
  {
    assert Add(Mul(Zero, Zero), Add(Mul(Complex(0.0, -sn1), Complex(0.0, -sn2)), Add(Mul(Complex(c1, 0.0), Complex(c2, 0.0)), Mul(Zero, Zero))))
           == Complex(c1 * c2 - sn1 * sn2, 0.0);
    assert MsMatrix(c1 * c2 - sn1 * sn2, sn1 * c2 + c1 * sn2)[2][2] == Complex(c1 * c2 - sn1 * sn2, 0.0);
    MatMul4At(MsMatrix(c1, sn1), MsMatrix(c2, sn2), 2, 2,
              [Zero, Complex(0.0, -sn1), Complex(c1, 0.0), Zero],
              [Zero, Complex(0.0, -sn2), Complex(c2, 0.0), Zero]);
  }

  lemma MsProductAt23(c1: real, sn1: real, c2: real, sn2: real)
    ensures MatMul(MsMatrix(c1, sn1), MsMatrix(c2, sn2), 4)[2][3]
            == MsMatrix(c1 * c2 - sn1 * sn2, sn1 * c2 + c1 * sn2)[2][3]
  {
    assert Add(Mul(Zero, Complex(0.0, -sn2)), Add(Mul(Complex(0.0, -sn1), Zero), Add(Mul(Complex(c1, 0.0), Zero), Mul(Zero, Complex(c2, 0.0)))))
           == Zero;
    assert MsMatrix(c1 * c2 - sn1 * sn2, sn1 * c2 + c1 * sn2)[2][3] == Zero;
    MatMul4At(MsMatrix(c1, sn1), MsMatrix(c2, sn2), 2, 3,
              [Zero, Complex(0.0, -sn1), Complex(c1, 0.0), Zero],
              [Complex(0.0, -sn2), Zero, Zero, Complex(c2, 0.0)]);
  }

  lemma MsProductAt30(c1: real, sn1: real, c2: real, sn2: real)
    ensures MatMul(MsMatrix(c1, sn1), MsMatrix(c2, sn2), 4)[3][0]
            == MsMatrix(c1 * c2 - sn1 * sn2, sn1 * c2 + c1 * sn2)[3][0]
  {
    assert Add(Mul(Complex(0.0, -sn1), Complex(c2, 0.0)), Add(Mul(Zero, Zero), Add(Mul(Zero, Zero), Mul(Complex(c1, 0.0), Complex(0.0, -sn2)))))
           == Complex(0.0, -(sn1 * c2 + c1 * sn2));
    assert MsMatrix(c1 * c2 - sn1 * sn2, sn1 * c2 + c1 * sn2)[3][0] == Complex(0.0, -(sn1 * c2 + c1 * sn2));
    MatMul4At(MsMatrix(c1, sn1), MsMatrix(c2, sn2), 3, 0,
              [Complex(0.0, -sn1), Zero, Zero, Complex(c1, 0.0)],
              [Complex(c2, 0.0), Zero, Zero, Complex(0.0, -sn2)]);
  }

  lemma MsProductAt31(c1: real, sn1: real, c2: real, sn2: real)
    ensures MatMul(MsMatrix(c1, sn1), MsMatrix(c2, sn2), 4)[3][1]
            == MsMatrix(c1 * c2 - sn1 * sn2, sn1 * c2 + c1 * sn2)[3][1]
  {
    assert Add(Mul(Complex(0.0, -sn1), Zero), Add(Mul(Zero, Complex(c2, 0.0)), Add(Mul(Zero, Complex(0.0, -sn2)), Mul(Complex(c1, 0.0), Zero))))
           == Zero;
    assert MsMatrix(c1 * c2 - sn1 * sn2, sn1 * c2 + c1 * sn2)[3][1] == Zero;
    MatMul4At(MsMatrix(c1, sn1), MsMatrix(c2, sn2), 3, 1,
              [Complex(0.0, -sn1), Zero, Zero, Complex(c1, 0.0)],
              [Zero, Complex(c2, 0.0), Complex(0.0, -sn2), Zero]);
  }

  lemma MsProductAt32(c1: real, sn1: real, c2: real, sn2: real)
    ensures MatMul(MsMatrix(c1, sn1), MsMatrix(c2, sn2), 4)[3][2]
            == MsMatrix(c1 * c2 - sn1 * sn2, sn1 * c2 + c1 * sn2)[3][2]
  {
    assert Add(Mul(Complex(0.0, -sn1), Zero), Add(Mul(Zero, Complex(0.0, -sn2)), Add(Mul(Zero, Complex(c2, 0.0)), Mul(Complex(c1, 0.0), Zero))))
           == Zero;
    assert MsMatrix(c1 * c2 - sn1 * sn2, sn1 * c2 + c1 * sn2)[3][2] == Zero;
    MatMul4At(MsMatrix(c1, sn1), MsMatrix(c2, sn2), 3, 2,
              [Complex(0.0, -sn1), Zero, Zero, Complex(c1, 0.0)],
              [Zero, Complex(0.0, -sn2), Complex(c2, 0.0), Zero]);
  }

  lemma MsProductAt33(c1: real, sn1: real, c2: real, sn2: real)
    ensures MatMul(MsMatrix(c1, sn1), MsMatrix(c2, sn2), 4)[3][3]
            == MsMatrix(c1 * c2 - sn1 * sn2, sn1 * c2 + c1 * sn2)[3][3]
  {
    assert Add(Mul(Complex(0.0, -sn1), Complex(0.0, -sn2)), Add(Mul(Zero, Zero), Add(Mul(Zero, Zero), Mul(Complex(c1, 0.0), Complex(c2, 0.0)))))
           == Complex(c1 * c2 - sn1 * sn2, 0.0);
    assert MsMatrix(c1 * c2 - sn1 * sn2, sn1 * c2 + c1 * sn2)[3][3] == Complex(c1 * c2 - sn1 * sn2, 0.0);
    MatMul4At(MsMatrix(c1, sn1), MsMatrix(c2, sn2), 3, 3,
              [Complex(0.0, -sn1), Zero, Zero, Complex(c1, 0.0)],
              [Complex(0.0, -sn2), Zero, Zero, Complex(c2, 0.0)]);
  }


  /**
   * The product of two MS matrices is the MS matrix whose cosine and sine
   * terms follow the angle-addition formulas.
   */
  lemma MsCompose(c1: real, sn1: real, c2: real, sn2: real)
    ensures MatMul(MsMatrix(c1, sn1), MsMatrix(c2, sn2), 4)
            == MsMatrix(c1 * c2 - sn1 * sn2, sn1 * c2 + c1 * sn2)
  {
    var p := MatMul(MsMatrix(c1, sn1), MsMatrix(c2, sn2), 4);
    var q := MsMatrix(c1 * c2 - sn1 * sn2, sn1 * c2 + c1 * sn2);
    forall i | 0 <= i < 4 ensures p[i] == q[i] {
      forall j | 0 <= j < 4 ensures p[i][j] == q[i][j] {
        MsProductEntry(c1, sn1, c2, sn2, i, j);
      }
    }
  }

  /** The conjugate transpose of the MS matrix is the MS matrix with the sine term negated. */
  lemma MsAdjoint(c: real, sn: real)
    ensures Adjoint(MsMatrix(c, sn), 4) == MsMatrix(c, -sn)
  {
    var a, m := Adjoint(MsMatrix(c, sn), 4), MsMatrix(c, -sn);
    forall i | 0 <= i < 4 ensures a[i] == m[i] {
      forall j | 0 <= j < 4 ensures a[i][j] == m[i][j] {
        MsSparsity(c, sn, j, i);
        MsSparsity(c, -sn, i, j);
      }
    }
  }

  /** The MS matrix is unitary exactly when c^2 + sn^2 = 1. */
  lemma MsUnitary(c: real, sn: real)
    ensures IsUnitary(MsMatrix(c, sn), 4) <==> c * c + sn * sn == 1.0
  {
    var m, t := MsMatrix(c, sn), -sn;
    MsAdjoint(c, sn);
    MsCompose(c, t, c, sn);
    var r := c * c + sn * sn;
    assert c * c - t * sn == r && t * c + c * sn == 0.0;
    assert MatMul(Adjoint(m, 4), m, 4) == MsMatrix(r, 0.0);
    if r == 1.0 {
      MsIdentityAtZero();
    } else {
      assert MsMatrix(r, 0.0)[0][0] != Identity(4)[0][0];
    }
  }

  /** A zero numerator gives the identity, given cos 0 = 1 and sin 0 = 0. */
  lemma MsToMatrixZeroNumerator(denom: int, cosPi: real -> real, sinPi: real -> real)
    requires cosPi(0.0) == 1.0 && sinPi(0.0) == 0.0
    ensures MsToMatrix(0, denom, cosPi, sinPi) == Identity(4)
  {
    MsIdentityAtZero();
  }

  /** Under the Pythagorean identity every MS instruction's matrix is unitary. */
  lemma MsToMatrixUnitary(num: int, denom: int, cosPi: real -> real, sinPi: real -> real)
    requires forall x :: cosPi(x) * cosPi(x) + sinPi(x) * sinPi(x) == 1.0
    ensures IsUnitary(MsToMatrix(num, denom, cosPi, sinPi), 4)
  {
    var a := Coefficient(num, denom);
    MsUnitary(cosPi(a), sinPi(a));
  }

  /**
   * Composition over a common denominator: given the angle-addition formulas
   * at the two angles, applying (n1, d) then (n2, d) is the MS gate for (n1 + n2, d).
   */
  lemma MsToMatrixCompose(n1: int, n2: int, denom: int, cosPi: real -> real, sinPi: real -> real)
    requires
      var a, b := Coefficient(n1, denom), Coefficient(n2, denom);
      cosPi(a + b) == cosPi(a) * cosPi(b) - sinPi(a) * sinPi(b) &&
      sinPi(a + b) == sinPi(a) * cosPi(b) + cosPi(a) * sinPi(b)
    ensures MatMul(MsToMatrix(n1, denom, cosPi, sinPi), MsToMatrix(n2, denom, cosPi, sinPi), 4)
            == MsToMatrix(n1 + n2, denom, cosPi, sinPi)
  {
    var a, b := Coefficient(n1, denom), Coefficient(n2, denom);
    var ca, sa, cb, sb := cosPi(a), sinPi(a), cosPi(b), sinPi(b);
    CoefficientAdd(n1, n2, denom);
    assert cosPi(Coefficient(n1 + n2, denom)) == ca * cb - sa * sb;
    assert sinPi(Coefficient(n1 + n2, denom)) == sa * cb + ca * sb;
    assert MsToMatrix(n1 + n2, denom, cosPi, sinPi) == MsMatrix(cosPi(Coefficient(n1 + n2, denom)), sinPi(Coefficient(n1 + n2, denom)));
    assert MsToMatrix(n1 + n2, denom, cosPi, sinPi) == MsMatrix(ca * cb - sa * sb, sa * cb + ca * sb);
    MsCompose(ca, sa, cb, sb);
  }
}
