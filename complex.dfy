/**
 * Exact complex numbers as pairs of reals, and square complex matrices as
 * sequences of rows: just enough to state unitarity and identity exactly.
 */
module Complex {

  datatype Complex = Complex(re: real, im: real)

  const Zero: Complex := Complex(0.0, 0.0)
  const One: Complex := Complex(1.0, 0.0)

  function Add(a: Complex, b: Complex): Complex {
    Complex(a.re + b.re, a.im + b.im)
  }

  function Mul(a: Complex, b: Complex): Complex {
    Complex(a.re * b.re - a.im * b.im, a.re * b.im + a.im * b.re)
  }

  function Conj(a: Complex): Complex {
    Complex(a.re, -a.im)
  }

  type Matrix = seq<seq<Complex>>

  /** m has n rows of n entries each. */
  predicate IsSquare(m: Matrix, n: nat) {
    |m| == n && forall i :: 0 <= i < n ==> |m[i]| == n
  }

  function Identity(n: nat): (m: Matrix)
    ensures IsSquare(m, n)
  {
    seq(n, i => seq(n, j => if i == j then One else Zero))
  }

  function Transpose(m: Matrix, n: nat): (t: Matrix)
    requires IsSquare(m, n)
    ensures IsSquare(t, n)
  {
    seq(n, i requires 0 <= i < n => seq(n, j requires 0 <= j < n => m[j][i]))
  }

  /** The conjugate transpose, written M-dagger. */
  function Adjoint(m: Matrix, n: nat): (t: Matrix)
    requires IsSquare(m, n)
    ensures IsSquare(t, n)
  {
    seq(n, i requires 0 <= i < n => seq(n, j requires 0 <= j < n => Conj(m[j][i])))
  }

  /** The sum of a row of complex numbers. */
  function Sum(s: seq<Complex>): Complex {
    if s == [] then Zero else Add(s[0], Sum(s[1..]))
  }

  function MatMul(a: Matrix, b: Matrix, n: nat): (m: Matrix)
    requires IsSquare(a, n) && IsSquare(b, n)
    ensures IsSquare(m, n)
  {
    seq(n, i requires 0 <= i < n =>
      seq(n, j requires 0 <= j < n =>
        Sum(seq(n, k requires 0 <= k < n => Mul(a[i][k], b[k][j])))))
  }

  /** M-dagger times M is the identity. */
  predicate IsUnitary(m: Matrix, n: nat)
    requires IsSquare(m, n)
  {
    MatMul(Adjoint(m, n), m, n) == Identity(n)
  }

  /** A row of four terms sums as written out. */
  lemma Sum4(s: seq<Complex>)
    requires |s| == 4
    ensures Sum(s) == Add(s[0], Add(s[1], Add(s[2], s[3])))
  {
    assert Sum(s[3..]) == Add(s[3], Zero);
    assert Sum(s[2..]) == Add(s[2], Sum(s[3..]));
    assert Sum(s[1..]) == Add(s[1], Sum(s[2..]));
  }

  /** An entry of a product of 4x4 matrices, written out. */
  lemma MatMul4(a: Matrix, b: Matrix, i: nat, j: nat)
    requires IsSquare(a, 4) && IsSquare(b, 4) && i < 4 && j < 4
    ensures MatMul(a, b, 4)[i][j]
            == Add(Mul(a[i][0], b[0][j]), Add(Mul(a[i][1], b[1][j]), Add(Mul(a[i][2], b[2][j]), Mul(a[i][3], b[3][j]))))
  {
    Sum4(seq(4, k requires 0 <= k < 4 => Mul(a[i][k], b[k][j])));
  }

  /** An entry of a product of 4x4 matrices whose row and column entries are known. */
  lemma MatMul4At(a: Matrix, b: Matrix, i: nat, j: nat, x: seq<Complex>, y: seq<Complex>)
    requires IsSquare(a, 4) && IsSquare(b, 4) && i < 4 && j < 4
    requires |x| == 4 && |y| == 4
    requires forall k :: 0 <= k < 4 ==> a[i][k] == x[k] && b[k][j] == y[k]
    ensures MatMul(a, b, 4)[i][j]
            == Add(Mul(x[0], y[0]), Add(Mul(x[1], y[1]), Add(Mul(x[2], y[2]), Mul(x[3], y[3]))))
  {
    MatMul4(a, b, i, j);
  }
}
