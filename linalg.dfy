/**
 * Dense real vectors and matrices, and the few BLAS-like operations the
 * interior-point driver and the Hermitian rank-k update are built from.
 * Exact `real` arithmetic stands in for the library's floating point; a
 * vector is a `seq<real>`, a matrix a sequence of rows.
 */
module LinAlg {

  type Vector = seq<real>
  type Matrix = seq<seq<real>>

  /** `M` has `rows` rows, each of length `cols`. */
  predicate IsMatrix(M: Matrix, rows: nat, cols: nat) {
    |M| == rows && forall i | 0 <= i < |M| :: |M[i]| == cols
  }

  /** Inner product u . v, summed from the first entry on. */
  function Dot(u: Vector, v: Vector): real
    requires |u| == |v|
    decreases |u|
  {
    if |u| == 0 then 0.0 else u[0] * v[0] + Dot(u[1..], v[1..])
  }

  /** Squared Euclidean norm: what `Nrm2` squares to. */
  function SumSq(v: Vector): real {
    Dot(v, v)
  }

  /** An all-ones vector of length n (`Ones( d, n, 1 )`). */
  function Ones(n: nat): (r: Vector)
    ensures |r| == n && forall i | 0 <= i < n :: r[i] == 1.0
  {
    seq(n, _ => 1.0)
  }

  /** Every entry of d is 1 (what `Ones` produces). */
  predicate AllOnes(d: Vector) {
    forall i | 0 <= i < |d| :: d[i] == 1.0
  }

  predicate NonZero(d: Vector) {
    forall i | 0 <= i < |d| :: d[i] != 0.0
  }

  /** `v *= a` */
  function Scale(a: real, v: Vector): (r: Vector)
    ensures |r| == |v| && forall i | 0 <= i < |v| :: r[i] == a * v[i]
  {
    seq(|v|, i requires 0 <= i < |v| => a * v[i])
  }

  /** `Axpy( alpha, x, y )`: y := alpha x + y. */
  function Axpy(alpha: real, x: Vector, y: Vector): (r: Vector)
    requires |x| == |y|
    ensures |r| == |y| && forall i | 0 <= i < |y| :: r[i] == y[i] + alpha * x[i]
  {
    seq(|y|, i requires 0 <= i < |y| => y[i] + alpha * x[i])
  }

  /** `Shift( v, c )`: add c to every entry. */
  function Shift(v: Vector, c: real): (r: Vector)
    ensures |r| == |v| && forall i | 0 <= i < |v| :: r[i] == v[i] + c
  {
    seq(|v|, i requires 0 <= i < |v| => v[i] + c)
  }

  /** `DiagonalScale( LEFT, NORMAL, d, v )`: v := diag(d) v. */
  function DiagonalScale(d: Vector, v: Vector): (r: Vector)
    requires |d| == |v|
    ensures |r| == |v| && forall i | 0 <= i < |v| :: r[i] == d[i] * v[i]
  {
    seq(|v|, i requires 0 <= i < |v| => d[i] * v[i])
  }

  /** `DiagonalSolve( LEFT, NORMAL, d, v )`: v := diag(d)^-1 v. */
  function DiagonalSolve(d: Vector, v: Vector): (r: Vector)
    requires |d| == |v| && NonZero(d)
    ensures |r| == |v| && forall i | 0 <= i < |v| :: r[i] == v[i] / d[i]
  {
    seq(|v|, i requires 0 <= i < |v| => v[i] / d[i])
  }

  /** Column j of a matrix with `cols` columns. */
  function Column(A: Matrix, j: nat): (r: Vector)
    requires forall i | 0 <= i < |A| :: j < |A[i]|
    ensures |r| == |A| && forall i | 0 <= i < |A| :: r[i] == A[i][j]
  {
    seq(|A|, i requires 0 <= i < |A| => A[i][j])
  }

  /**
   * `Gemv( NORMAL, alpha, A, x, beta, y )`: y := alpha A x + beta y, and with
   * `transpose` set, y := alpha A^T x + beta y.
   */
  function Gemv(transpose: bool, alpha: real, A: Matrix, rows: nat, cols: nat,
                x: Vector, beta: real, y: Vector): (r: Vector)
    requires IsMatrix(A, rows, cols)
    requires if transpose then |x| == rows && |y| == cols else |x| == cols && |y| == rows
    ensures |r| == |y|
    ensures !transpose ==> forall i | 0 <= i < rows :: r[i] == alpha * Dot(A[i], x) + beta * y[i]
    ensures transpose ==> forall j | 0 <= j < cols :: r[j] == alpha * Dot(Column(A, j), x) + beta * y[j]
  {
    if transpose then
      seq(cols, j requires 0 <= j < cols => alpha * Dot(Column(A, j), x) + beta * y[j])
    else
      seq(rows, i requires 0 <= i < rows => alpha * Dot(A[i], x) + beta * y[i])
  }

  /** The inner product splits over a concatenation. */
  lemma {:induction false} DotAppend(u1: Vector, u2: Vector, v1: Vector, v2: Vector)
    requires |u1| == |v1| && |u2| == |v2|
    ensures Dot(u1 + u2, v1 + v2) == Dot(u1, v1) + Dot(u2, v2)
    decreases |u1|
  {
    if |u1| > 0 {
      assert (u1 + u2)[1..] == u1[1..] + u2;
      assert (v1 + v2)[1..] == v1[1..] + v2;
      DotAppend(u1[1..], u2, v1[1..], v2);
    } else {
      assert u1 + u2 == u2 && v1 + v2 == v2;
    }
  }

  /** The inner product over the first j+w entries is that over the first j plus that over the next w. */
  lemma DotPrefixSplit(u: Vector, v: Vector, j: nat, w: nat)
    requires |u| == |v| && j + w <= |u|
    ensures Dot(u[..j + w], v[..j + w]) == Dot(u[..j], v[..j]) + Dot(u[j..j + w], v[j..j + w])
  {
    assert u[..j + w] == u[..j] + u[j..j + w];
    assert v[..j + w] == v[..j] + v[j..j + w];
    DotAppend(u[..j], u[j..j + w], v[..j], v[j..j + w]);
  }

  /** The inner product of two entrywise-positive vectors is nonnegative, and positive when they are nonempty. */
  lemma {:induction false} DotOfPositives(u: Vector, v: Vector)
    requires |u| == |v|
    requires forall i | 0 <= i < |u| :: u[i] > 0.0 && v[i] > 0.0
    ensures Dot(u, v) >= 0.0
    ensures |u| > 0 ==> Dot(u, v) > 0.0
    decreases |u|
  {
    if |u| > 0 {
      DotOfPositives(u[1..], v[1..]);
      assert u[0] * v[0] > 0.0;
    }
  }

  /** Scaling by nonzero factors is undone by dividing by them, and the other way round. */
  lemma ScaleSolveRoundTrip(d: Vector, v: Vector)
    requires |d| == |v| && NonZero(d)
    ensures DiagonalSolve(d, DiagonalScale(d, v)) == v
    ensures DiagonalScale(d, DiagonalSolve(d, v)) == v
  {
    var a := DiagonalSolve(d, DiagonalScale(d, v));
    var b := DiagonalScale(d, DiagonalSolve(d, v));
    forall i | 0 <= i < |v| ensures a[i] == v[i] && b[i] == v[i] {
      assert a[i] == (d[i] * v[i]) / d[i];
      assert b[i] == d[i] * (v[i] / d[i]);
    }
  }

  /** Scaling by, or dividing by, all-ones factors changes nothing. */
  lemma OnesScaleIdentity(d: Vector, v: Vector)
    requires |d| == |v| && AllOnes(d)
    ensures NonZero(d)
    ensures DiagonalScale(d, v) == v && DiagonalSolve(d, v) == v
  {
    assert DiagonalScale(d, v) == v;
    assert DiagonalSolve(d, v) == v;
  }
}
