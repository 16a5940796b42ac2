/**
 * The Infeasible Path-Following driver for linear programs in affine conic
 * form, `lp::affine::IPF` of src/optimization/solvers/LP/affine/IPM/IPF.cpp:
 *
 *   min c^T x   s.t. A x = b, G x + s = h, s >= 0,
 *   max -b^T y - h^T z   s.t. A^T y + G^T z + c = 0, z >= 0.
 *
 * The four overloads (dense or sparse, sequential or distributed) share one
 * loop; it is modelled once, after the dense sequential body, as the method
 * `IPF` proved against the recursive specification `Solve`/`Run`/`Pass`.
 * The sparse-only set-up (regularisation vectors, the equilibration
 * thresholds, the choice of how to equilibrate the KKT matrix) is modelled by
 * separate members at the end of the module.
 *
 * The numerical collaborators whose bodies are elsewhere (Ruiz
 * equilibration, `Initialize`, the KKT assembly and solve, `ExpandSolution`,
 * `MaxStepInPositiveCone`, `IPFLineSearch`, `Nrm2`) are arrow-typed fields
 * of an `Oracles` value; `Sound` lists the only facts the driver relies on.
 * Thrown errors become the `Status` of the result.
 */
module IPF {
  import opened LinAlg

  /** The fields of `IPFCtrl` the driver reads. */
  datatype Ctrl = Ctrl(targetTol: real, minTol: real, maxIts: int, centering: real,
                       outerEquil: bool, primalInit: bool, dualInit: bool)

  /** The problem data: A is m x n, G is k x n. */
  datatype Problem = Problem(A: Matrix, G: Matrix, b: Vector, c: Vector, h: Vector,
                             m: nat, n: nat, k: nat) {
    predicate Valid() {
      IsMatrix(A, m, n) && IsMatrix(G, k, n) && |b| == m && |c| == n && |h| == k
    }
  }

  /** A primal-dual iterate (x, y, z, s). */
  datatype Point = Point(x: Vector, y: Vector, z: Vector, s: Vector) {
    predicate Fits(lp: Problem) {
      |x| == lp.n && |y| == lp.m && |z| == lp.k && |s| == lp.k
    }
  }

  /** A search direction (dx, dy, dz, ds). */
  datatype Direction = Direction(dx: Vector, dy: Vector, dz: Vector, ds: Vector) {
    predicate Fits(lp: Problem) {
      |dx| == lp.n && |dy| == lp.m && |dz| == lp.k && |ds| == lp.k
    }
  }

  /**
   * What `StackedRuizEquil` leaves behind: the rescaled A and G and the row
   * factors of A and G and the column factors of [A; G].
   */
  datatype Equilibration = Equilibration(A: Matrix, G: Matrix, dRowA: Vector, dRowG: Vector, dCol: Vector) {
    predicate Fits(lp: Problem) {
      IsMatrix(A, lp.m, lp.n) && IsMatrix(G, lp.k, lp.n) &&
      |dRowA| == lp.m && |dRowG| == lp.k && |dCol| == lp.n &&
      NonZero(dRowA) && NonZero(dRowG) && NonZero(dCol)
    }
  }

  /** Why the loop gave up short of `targetTol`. */
  datatype Cause = SolveFailed | ZeroStep | IterationsSpent

  /**
   * How the driver ends: `Converged` and `ToleranceFallback` are normal
   * returns (a `break` or the end of the loop), `LogicError` and
   * `RuntimeError` are the exceptions the source throws.
   */
  datatype Status =
    | Converged
    | ToleranceFallback(cause: Cause)
    | LogicError(sNumNonPos: nat, zNumNonPos: nat)
    | RuntimeError(cause: Cause)
  {
    predicate Normal() {
      Converged? || ToleranceFallback?
    }
  }

  /** The final status, the iterate as it stood, and the value of `numIts` when the loop ended. */
  datatype Outcome = Outcome(status: Status, point: Point, numIts: int)

  /** What one pass of the loop does: stop with a status, or move to the next iterate. */
  datatype Pass = Stop(status: Status, point: Point) | Continue(next: Point, alpha: real, dir: Direction)

  /** The external collaborators of the driver. */
  datatype Oracles = Oracles(
    nrm2: Vector -> real,
    ruiz: Problem -> Equilibration,
    initialize: (Problem, Point, bool, bool) -> Point,
    kkt: (Matrix, Matrix, Vector, Vector) -> Matrix,
    kktRhs: (Vector, Vector, Vector, Vector, Vector) -> Vector,
    symmSolve: (Matrix, Vector) -> Option<Vector>,
    expand: (nat, nat, Vector, Vector, Vector, Vector) -> Direction,
    maxStep: (Vector, Vector, real) -> real,
    lineSearch: (Problem, Point, Direction, real, real, real, real) -> real)

  datatype Option<T> = None | Some(value: T)

  /**
   * The facts the driver's call sites rely on: `Nrm2` is the Euclidean norm
   * (nonnegative, squaring to the sum of squares), Ruiz factors are nonzero
   * and shaped like the problem, `Initialize` and `ExpandSolution` return
   * vectors of the problem's sizes, `MaxStepInPositiveCone` stays within
   * [0, upper bound] and, from a vector inside the cone, never steps past its
   * boundary, and the line search stays within [0, cap].
   */
  ghost predicate Sound(o: Oracles) {
    (forall v :: o.nrm2(v) >= 0.0 && o.nrm2(v) * o.nrm2(v) == SumSq(v)) &&
    (forall lp: Problem | lp.Valid() :: o.ruiz(lp).Fits(lp)) &&
    (forall lp: Problem, pt, primalInit, dualInit | lp.Valid() ::
       o.initialize(lp, pt, primalInit, dualInit).Fits(lp)) &&
    (forall m, n, d, rmu, s, z ::
       var dir := o.expand(m, n, d, rmu, s, z);
       |dir.dx| == n && |dir.dy| == m && |dir.dz| == |s| && |dir.ds| == |s|) &&
    (forall v, dv, upper: real | upper >= 0.0 :: 0.0 <= o.maxStep(v, dv, upper) <= upper) &&
    (forall v: Vector, dv: Vector, upper: real | |v| == |dv| && upper >= 0.0 && Positive(v) ::
       forall i | 0 <= i < |v| :: v[i] + o.maxStep(v, dv, upper) * dv[i] >= 0.0) &&
    (forall lp, pt, dir, cap: real, tb, tc, th | cap >= 0.0 ::
       0.0 <= o.lineSearch(lp, pt, dir, cap, tb, tc, th) <= cap)
  }

  /**
   * `Sound` can be met: any Euclidean norm, together with Ruiz factors and
   * starting points of ones, a zero cone step and a zero line search, makes
   * oracles that satisfy it. (Dafny's reals have no square root to build the
   * norm from, so the norm is the parameter.)
   */
  lemma SoundAttainable(nrm2: Vector -> real) returns (o: Oracles)
    requires forall v :: nrm2(v) >= 0.0 && nrm2(v) * nrm2(v) == SumSq(v)
    ensures o.nrm2 == nrm2 && Sound(o)
  {
    o := Oracles(
      nrm2,
      (lp: Problem) => Equilibration(lp.A, lp.G, Ones(lp.m), Ones(lp.k), Ones(lp.n)),
      (lp: Problem, pt: Point, primalInit: bool, dualInit: bool) =>
        Point(Ones(lp.n), Ones(lp.m), Ones(lp.k), Ones(lp.k)),
      (A: Matrix, G: Matrix, s: Vector, z: Vector) => A,
      (rb: Vector, rc: Vector, rh: Vector, rmu: Vector, s: Vector) => rb,
      (J: Matrix, d: Vector) => None,
      (m: nat, n: nat, d: Vector, rmu: Vector, s: Vector, z: Vector) =>
        Direction(Ones(n), Ones(m), Ones(|s|), Ones(|s|)),
      (v: Vector, dv: Vector, upper: real) => 0.0,
      (lp: Problem, pt: Point, dir: Direction, cap: real, tb: real, tc: real, th: real) => 0.0);
    forall lp: Problem | lp.Valid() ensures o.ruiz(lp).Fits(lp) {
      assert NonZero(Ones(lp.m)) && NonZero(Ones(lp.k)) && NonZero(Ones(lp.n));
    }
    forall lp: Problem, pt, primalInit, dualInit | lp.Valid()
      ensures o.initialize(lp, pt, primalInit, dualInit).Fits(lp)
    {
    }
    forall m, n, d, rmu, s, z
      ensures var dir := o.expand(m, n, d, rmu, s, z);
              |dir.dx| == n && |dir.dy| == m && |dir.dz| == |s| && |dir.ds| == |s|
    {
    }
    forall v, dv, upper: real | upper >= 0.0 ensures 0.0 <= o.maxStep(v, dv, upper) <= upper {
    }
    forall v: Vector, dv: Vector, upper: real | |v| == |dv| && upper >= 0.0 && Positive(v)
      ensures forall i | 0 <= i < |v| :: v[i] + o.maxStep(v, dv, upper) * dv[i] >= 0.0
    {
      assert o.maxStep(v, dv, upper) == 0.0;
    }
    forall lp, pt, dir, cap: real, tb, tc, th | cap >= 0.0
      ensures 0.0 <= o.lineSearch(lp, pt, dir, cap, tb, tc, th) <= cap
    {
    }
  }

  // The collaborators under their own names, applied to the oracles.

  function Nrm2(o: Oracles, v: Vector): real { o.nrm2(v) }

  function StackedRuizEquil(o: Oracles, lp: Problem): Equilibration { o.ruiz(lp) }

  function Initialize(o: Oracles, lp: Problem, pt: Point, primalInit: bool, dualInit: bool): Point {
    o.initialize(lp, pt, primalInit, dualInit)
  }

  function KKT(o: Oracles, A: Matrix, G: Matrix, s: Vector, z: Vector): Matrix { o.kkt(A, G, s, z) }

  function KKTRHS(o: Oracles, rc: Vector, rb: Vector, rh: Vector, rmu: Vector, z: Vector): Vector {
    o.kktRhs(rc, rb, rh, rmu, z)
  }

  function SymmSolve(o: Oracles, J: Matrix, d: Vector): Option<Vector> { o.symmSolve(J, d) }

  function ExpandSolution(o: Oracles, m: nat, n: nat, d: Vector, rmu: Vector, s: Vector, z: Vector): Direction {
    o.expand(m, n, d, rmu, s, z)
  }

  function MaxStepInPositiveCone(o: Oracles, v: Vector, dv: Vector, upper: real): real { o.maxStep(v, dv, upper) }

  function IPFLineSearch(o: Oracles, lp: Problem, pt: Point, dir: Direction, cap: real,
                         tb: real, tc: real, th: real): real {
    o.lineSearch(lp, pt, dir, cap, tb, tc, th)
  }

  function Abs(r: real): (a: real)
    ensures a >= 0.0 && (a == r || a == -r)
  {
    if r < 0.0 then -r else r
  }

  function Max(a: real, b: real): (r: real)
    ensures r >= a && r >= b && (r == a || r == b)
  {
    if a < b then b else a
  }

  function Min(a: real, b: real): (r: real)
    ensures r <= a && r <= b && (r == a || r == b)
  {
    if a < b then a else b
  }

  /** `NumNonPositive`: how many entries are <= 0; zero exactly when v is strictly positive. */
  function NumNonPositive(v: Vector): (r: nat)
    ensures r <= |v|
    ensures r == 0 <==> forall i | 0 <= i < |v| :: v[i] > 0.0
    decreases |v|
  {
    if |v| == 0 then 0
    else
      var rest := NumNonPositive(v[1..]);
      assert forall i | 1 <= i < |v| :: v[i] == v[1..][i - 1];
      (if v[0] <= 0.0 then 1 else 0) + rest
  }

  predicate Positive(v: Vector) {
    forall i | 0 <= i < |v| :: v[i] > 0.0
  }

  /** The duality measure mu = s^T z / k (taken as 0 when k = 0, where the source divides 0 by 0 and never uses the result). */
  function DualityMeasure(s: Vector, z: Vector, k: nat): real
    requires |s| == |z|
  {
    if k == 0 then 0.0 else Dot(s, z) / (k as real)
  }

  /** Inside the cone the duality measure is nonnegative, and positive when there is a cone at all. */
  lemma DualityMeasurePositive(s: Vector, z: Vector)
    requires |s| == |z| && Positive(s) && Positive(z)
    ensures DualityMeasure(s, z, |s|) >= 0.0
    ensures |s| > 0 ==> DualityMeasure(s, z, |s|) > 0.0
  {
    DotOfPositives(s, z);
  }

  /** The three residuals of the scaled problem at an iterate. */
  datatype Residuals = Residuals(rb: Vector, rc: Vector, rh: Vector)

  /** rb = A x - b, rc = A^T y + G^T z + c, rh = G x + s - h. */
  function ResidualsOf(lp: Problem, pt: Point): (r: Residuals)
    requires lp.Valid() && pt.Fits(lp)
    ensures |r.rb| == lp.m && |r.rc| == lp.n && |r.rh| == lp.k
    ensures forall i | 0 <= i < lp.m :: r.rb[i] == Dot(lp.A[i], pt.x) - lp.b[i]
    ensures forall j | 0 <= j < lp.n :: r.rc[j] == Dot(Column(lp.A, j), pt.y) + Dot(Column(lp.G, j), pt.z) + lp.c[j]
    ensures forall i | 0 <= i < lp.k :: r.rh[i] == Dot(lp.G[i], pt.x) + pt.s[i] - lp.h[i]
  {
    var rb := Gemv(false, 1.0, lp.A, lp.m, lp.n, pt.x, 1.0, Scale(-1.0, lp.b));
    var rc := Gemv(true, 1.0, lp.G, lp.k, lp.n, pt.z, 1.0, Gemv(true, 1.0, lp.A, lp.m, lp.n, pt.y, 1.0, lp.c));
    var rh := Axpy(1.0, pt.s, Gemv(false, 1.0, lp.G, lp.k, lp.n, pt.x, 1.0, Scale(-1.0, lp.h)));
    Residuals(rb, rc, rh)
  }

  /** The norms of b, c and h, taken once before the loop. */
  datatype Norms = Norms(b: real, c: real, h: real)

  function NormsOf(lp: Problem, o: Oracles): (r: Norms)
    requires Sound(o)
    ensures r.b >= 0.0 && r.c >= 0.0 && r.h >= 0.0
  {
    Norms(Nrm2(o, lp.b), Nrm2(o, lp.c), Nrm2(o, lp.h))
  }

  /** A residual norm relative to the norm of its right-hand side, ||r|| / (1 + ||rhs||). */
  function Ratio(rNrm2: real, rhsNrm2: real): (q: real)
    requires rNrm2 >= 0.0 && rhsNrm2 >= 0.0
    ensures q >= 0.0 && q <= rNrm2
    ensures q == 0.0 <==> rNrm2 == 0.0
  {
    rNrm2 / (1.0 + rhsNrm2)
  }

  /** The relative duality gap |c^T x - (-b^T y - h^T z)| / (1 + |c^T x|). */
  function ObjConv(lp: Problem, pt: Point): (q: real)
    requires lp.Valid() && pt.Fits(lp)
    ensures q >= 0.0
    ensures q == 0.0 <==> Dot(lp.c, pt.x) == -Dot(lp.b, pt.y) - Dot(lp.h, pt.z)
  {
    var primObj := Dot(lp.c, pt.x);
    var dualObj := -Dot(lp.b, pt.y) - Dot(lp.h, pt.z);
    Abs(primObj - dualObj) / (1.0 + Abs(primObj))
  }

  /** relError: the largest of the four convergence ratios. */
  function RelError(objConv: real, rbConv: real, rcConv: real, rhConv: real): (r: real)
    ensures r >= objConv && r >= rbConv && r >= rcConv && r >= rhConv
    ensures r == objConv || r == rbConv || r == rcConv || r == rhConv
  {
    Max(Max(Max(objConv, rbConv), rcConv), rhConv)
  }

  /** relError is within a tolerance exactly when all four ratios are. */
  lemma RelErrorWithin(objConv: real, rbConv: real, rcConv: real, rhConv: real, tol: real)
    ensures RelError(objConv, rbConv, rcConv, rhConv) <= tol <==>
            objConv <= tol && rbConv <= tol && rcConv <= tol && rhConv <= tol
  {
  }

  /** relError of an iterate of the scaled problem, as the loop computes it. */
  function RelErrorAt(lp: Problem, pt: Point, o: Oracles, norms: Norms): (r: real)
    requires lp.Valid() && pt.Fits(lp) && Sound(o)
    requires norms.b >= 0.0 && norms.c >= 0.0 && norms.h >= 0.0
    ensures r >= 0.0
  {
    var res := ResidualsOf(lp, pt);
    RelError(ObjConv(lp, pt),
             Ratio(Nrm2(o, res.rb), norms.b),
             Ratio(Nrm2(o, res.rc), norms.c),
             Ratio(Nrm2(o, res.rh), norms.h))
  }

  /** r_mu = s o z - sigma mu e. */
  function CenteringResidual(s: Vector, z: Vector, centering: real, mu: real): (rmu: Vector)
    requires |s| == |z|
    ensures |rmu| == |s| && forall i | 0 <= i < |s| :: rmu[i] == s[i] * z[i] - centering * mu
  {
    Shift(DiagonalScale(s, z), -centering * mu)
  }

  /** The line-search cap, 0.99 min(alphaPrimal, alphaDual). */
  function StepCap(alphaPrimal: real, alphaDual: real): (cap: real)
    ensures cap <= 0.99 * alphaPrimal && cap <= 0.99 * alphaDual
    ensures cap == 0.99 * alphaPrimal || cap == 0.99 * alphaDual
  {
    0.99 * Min(alphaPrimal, alphaDual)
  }

  /** The four `Axpy` calls of one step: every part of the iterate moves by the same alpha along its direction. */
  function JointStep(pt: Point, dir: Direction, alpha: real): (r: Point)
    requires |dir.dx| == |pt.x| && |dir.dy| == |pt.y| && |dir.dz| == |pt.z| && |dir.ds| == |pt.s|
    ensures |r.x| == |pt.x| && |r.y| == |pt.y| && |r.z| == |pt.z| && |r.s| == |pt.s|
    ensures forall i | 0 <= i < |pt.x| :: r.x[i] == pt.x[i] + alpha * dir.dx[i]
    ensures forall i | 0 <= i < |pt.y| :: r.y[i] == pt.y[i] + alpha * dir.dy[i]
    ensures forall i | 0 <= i < |pt.z| :: r.z[i] == pt.z[i] + alpha * dir.dz[i]
    ensures forall i | 0 <= i < |pt.s| :: r.s[i] == pt.s[i] + alpha * dir.ds[i]
  {
    Point(Axpy(alpha, dir.dx, pt.x), Axpy(alpha, dir.dy, pt.y), Axpy(alpha, dir.dz, pt.z), Axpy(alpha, dir.ds, pt.s))
  }

  /** A step of length zero leaves the iterate where it was. */
  lemma JointStepZero(pt: Point, dir: Direction)
    requires |dir.dx| == |pt.x| && |dir.dy| == |pt.y| && |dir.dz| == |pt.z| && |dir.ds| == |pt.s|
    ensures JointStep(pt, dir, 0.0) == pt
  {
    var r := JointStep(pt, dir, 0.0);
    assert r.x == pt.x && r.y == pt.y && r.z == pt.z && r.s == pt.s;
  }

  /** The two-tier policy after a failed solve or a zero step: a normal return within `minTol`, an error beyond it. */
  function Tolerate(relError: real, minTol: real, cause: Cause): (st: Status)
    ensures st.Normal() <==> relError <= minTol
    ensures st == ToleranceFallback(cause) || st == RuntimeError(cause)
  {
    if relError <= minTol then ToleranceFallback(cause) else RuntimeError(cause)
  }

  /**
   * The search direction (IPF.cpp:185-205): r_mu, the KKT system and its
   * right-hand side, the symmetric solve and `ExpandSolution`; `None` when
   * the solve throws.
   */
  function SearchDirection(lp: Problem, pt: Point, ctrl: Ctrl, o: Oracles, mu: real, res: Residuals): (r: Option<Direction>)
    requires lp.Valid() && pt.Fits(lp) && Sound(o)
    ensures r.Some? ==> r.value.Fits(lp)
  {
    var rmu := CenteringResidual(pt.s, pt.z, ctrl.centering, mu);
    var J := KKT(o, lp.A, lp.G, pt.s, pt.z);
    var d := KKTRHS(o, res.rc, res.rb, res.rh, rmu, pt.z);
    var sol := SymmSolve(o, J, d);
    if sol.None? then None else Some(ExpandSolution(o, lp.m, lp.n, sol.value, rmu, pt.s, pt.z))
  }

  /** The absolute residual target handed to the line search, targetTol (1 + ||rhs||). */
  function ResidualTarget(targetTol: real, rhsNrm2: real): real {
    targetTol * (1.0 + rhsNrm2)
  }

  /**
   * The step length (IPF.cpp:234-246): the line search, capped at 0.99 times
   * the smaller of the largest steps that keep s and z in the cone.
   */
  function StepLength(lp: Problem, pt: Point, dir: Direction, ctrl: Ctrl, o: Oracles, norms: Norms): (alpha: real)
    requires Sound(o)
    ensures 0.0 <= alpha <= StepCap(MaxStepInPositiveCone(o, pt.s, dir.ds, 1.0), MaxStepInPositiveCone(o, pt.z, dir.dz, 1.0))
    ensures alpha <= 0.99
  {
    var alphaPrimal := MaxStepInPositiveCone(o, pt.s, dir.ds, 1.0);
    var alphaDual := MaxStepInPositiveCone(o, pt.z, dir.dz, 1.0);
    IPFLineSearch(o, lp, pt, dir, StepCap(alphaPrimal, alphaDual), ResidualTarget(ctrl.targetTol, norms.b),
                 ResidualTarget(ctrl.targetTol, norms.c), ResidualTarget(ctrl.targetTol, norms.h))
  }

  /**
   * One pass of the loop at iteration `numIts` (IPF.cpp:109-260): the cone
   * guard, the convergence check, the iteration budget, the direction and the
   * joint step.
   */
  function PassAt(lp: Problem, pt: Point, ctrl: Ctrl, o: Oracles, norms: Norms, numIts: int): (r: Pass)
    requires lp.Valid() && pt.Fits(lp) && Sound(o)
    requires norms.b >= 0.0 && norms.c >= 0.0 && norms.h >= 0.0
    ensures r.Continue? ==> r.next.Fits(lp) && r.dir.Fits(lp)
    ensures r.Stop? ==> r.point.Fits(lp) && r.status != ToleranceFallback(IterationsSpent)
  {
    var sNumNonPos, zNumNonPos := NumNonPositive(pt.s), NumNonPositive(pt.z);
    if sNumNonPos > 0 || zNumNonPos > 0 then Stop(LogicError(sNumNonPos, zNumNonPos), pt)
    else
      var relError := RelErrorAt(lp, pt, o, norms);
      if relError <= ctrl.targetTol then Stop(Converged, pt)
      else if numIts == ctrl.maxIts && relError > ctrl.minTol then Stop(RuntimeError(IterationsSpent), pt)
      else
        match SearchDirection(lp, pt, ctrl, o, DualityMeasure(pt.s, pt.z, lp.k), ResidualsOf(lp, pt))
        case None => Stop(Tolerate(relError, ctrl.minTol, SolveFailed), pt)
        case Some(dir) =>
          var alpha := StepLength(lp, pt, dir, ctrl, o, norms);
          var next := JointStep(pt, dir, alpha);
          if alpha == 0.0 then Stop(Tolerate(relError, ctrl.minTol, ZeroStep), next)
          else Continue(next, alpha, dir)
  }

  /** The loop from iteration `numIts` on: `for( numIts; numIts <= maxIts; ++numIts )`. */
  function Run(lp: Problem, pt: Point, ctrl: Ctrl, o: Oracles, norms: Norms, numIts: int): (r: Outcome)
    requires lp.Valid() && pt.Fits(lp) && Sound(o)
    requires norms.b >= 0.0 && norms.c >= 0.0 && norms.h >= 0.0
    ensures r.point.Fits(lp)
    decreases ctrl.maxIts + 1 - numIts
  {
    if numIts > ctrl.maxIts then Outcome(ToleranceFallback(IterationsSpent), pt, numIts)
    else
      match PassAt(lp, pt, ctrl, o, norms, numIts)
      case Stop(status, p) => Outcome(status, p, numIts)
      case Continue(next, _, _) => Run(lp, next, ctrl, o, norms, numIts + 1)
  }

  /** The factors the driver scales by: Ruiz's when `outerEquil` is set, all ones otherwise. */
  function FactorsOf(lp: Problem, outerEquil: bool, o: Oracles): (f: Equilibration)
    requires lp.Valid() && Sound(o)
    ensures f.Fits(lp)
    ensures !outerEquil ==> f.A == lp.A && f.G == lp.G && AllOnes(f.dRowA) && AllOnes(f.dRowG) && AllOnes(f.dCol)
  {
    if outerEquil then StackedRuizEquil(o, lp)
    else Equilibration(lp.A, lp.G, Ones(lp.m), Ones(lp.k), Ones(lp.n))
  }

  /** The equilibrated problem: rescaled A and G, b / dRowA, h / dRowG, c / dCol. */
  function ScaledProblem(lp: Problem, f: Equilibration): (r: Problem)
    requires lp.Valid() && f.Fits(lp)
    ensures r.Valid() && r.m == lp.m && r.n == lp.n && r.k == lp.k
    ensures forall i | 0 <= i < lp.m :: r.b[i] == lp.b[i] / f.dRowA[i]
    ensures forall i | 0 <= i < lp.k :: r.h[i] == lp.h[i] / f.dRowG[i]
    ensures forall j | 0 <= j < lp.n :: r.c[j] == lp.c[j] / f.dCol[j]
  {
    Problem(f.A, f.G, DiagonalSolve(f.dRowA, lp.b), DiagonalSolve(f.dCol, lp.c), DiagonalSolve(f.dRowG, lp.h),
            lp.m, lp.n, lp.k)
  }

  /** What the caller must supply for the warm starts the driver rescales on entry. */
  predicate WarmStartFits(lp: Problem, warm: Point, ctrl: Ctrl) {
    ctrl.outerEquil ==>
      (ctrl.primalInit ==> |warm.x| == lp.n && |warm.s| == lp.k) &&
      (ctrl.dualInit ==> |warm.y| == lp.m && |warm.z| == lp.k)
  }

  /** The whole iterate into the equilibrated coordinates: x dCol, y dRowA, z dRowG, s / dRowG. */
  function ScaleIterate(f: Equilibration, lp: Problem, pt: Point): (r: Point)
    requires f.Fits(lp) && pt.Fits(lp)
    ensures r.Fits(lp)
  {
    Point(DiagonalScale(f.dCol, pt.x), DiagonalScale(f.dRowA, pt.y),
          DiagonalScale(f.dRowG, pt.z), DiagonalSolve(f.dRowG, pt.s))
  }

  /** The exit rescaling (IPF.cpp:264-270): x / dCol, y / dRowA, z / dRowG, s dRowG. */
  function Unscale(f: Equilibration, lp: Problem, pt: Point): (r: Point)
    requires f.Fits(lp) && pt.Fits(lp)
    ensures r.Fits(lp)
  {
    Point(DiagonalSolve(f.dCol, pt.x), DiagonalSolve(f.dRowA, pt.y),
          DiagonalSolve(f.dRowG, pt.z), DiagonalScale(f.dRowG, pt.s))
  }

  /** The entry rescaling of the warm starts (IPF.cpp:68-91): the primal part if `primalInit`, the dual part if `dualInit`. */
  function ScaleWarmStart(f: Equilibration, lp: Problem, warm: Point, ctrl: Ctrl): (r: Point)
    requires f.Fits(lp) && WarmStartFits(lp, warm, ctrl)
    ensures ctrl.outerEquil && ctrl.primalInit ==>
      r.x == DiagonalScale(f.dCol, warm.x) && r.s == DiagonalSolve(f.dRowG, warm.s)
    ensures ctrl.outerEquil && ctrl.dualInit ==>
      r.y == DiagonalScale(f.dRowA, warm.y) && r.z == DiagonalScale(f.dRowG, warm.z)
    ensures !(ctrl.outerEquil && ctrl.primalInit) ==> r.x == warm.x && r.s == warm.s
    ensures !(ctrl.outerEquil && ctrl.dualInit) ==> r.y == warm.y && r.z == warm.z
  {
    var primal := ctrl.outerEquil && ctrl.primalInit;
    var dual := ctrl.outerEquil && ctrl.dualInit;
    Point(if primal then DiagonalScale(f.dCol, warm.x) else warm.x,
          if dual then DiagonalScale(f.dRowA, warm.y) else warm.y,
          if dual then DiagonalScale(f.dRowG, warm.z) else warm.z,
          if primal then DiagonalSolve(f.dRowG, warm.s) else warm.s)
  }

  /** The exit rescaling undoes the entry rescaling of a full warm start, and the other way round. */
  lemma {:induction false} EquilibrationRoundTrip(f: Equilibration, lp: Problem, pt: Point)
    requires f.Fits(lp) && pt.Fits(lp)
    ensures Unscale(f, lp, ScaleIterate(f, lp, pt)) == pt
    ensures ScaleIterate(f, lp, Unscale(f, lp, pt)) == pt
  {
    ScaleSolveRoundTrip(f.dCol, pt.x);
    ScaleSolveRoundTrip(f.dRowA, pt.y);
    ScaleSolveRoundTrip(f.dRowG, pt.z);
    ScaleSolveRoundTrip(f.dRowG, pt.s);
  }

  /** With all-ones factors (`outerEquil` off) neither rescaling changes the iterate. */
  lemma {:induction false} OnesFactorsChangeNothing(f: Equilibration, lp: Problem, pt: Point)
    requires f.Fits(lp) && pt.Fits(lp)
    requires AllOnes(f.dRowA) && AllOnes(f.dRowG) && AllOnes(f.dCol)
    ensures Unscale(f, lp, pt) == pt && ScaleIterate(f, lp, pt) == pt
  {
    OnesScaleIdentity(f.dCol, pt.x);
    OnesScaleIdentity(f.dRowA, pt.y);
    OnesScaleIdentity(f.dRowG, pt.z);
    OnesScaleIdentity(f.dRowG, pt.s);
  }

  /**
   * The whole driver: equilibrate, initialize, run the loop from numIts = 0,
   * and, on a normal return with `outerEquil` set, undo the scaling. An
   * exception leaves the iterate in the scaled coordinates.
   */
  function Solve(lp: Problem, warm: Point, ctrl: Ctrl, o: Oracles): (r: Outcome)
    requires lp.Valid() && Sound(o) && WarmStartFits(lp, warm, ctrl)
    ensures r.point.Fits(lp)
  {
    var f := FactorsOf(lp, ctrl.outerEquil, o);
    var slp := ScaledProblem(lp, f);
    var start := Initialize(o, slp, ScaleWarmStart(f, lp, warm, ctrl), ctrl.primalInit, ctrl.dualInit);
    var fin := Run(slp, start, ctrl, o, NormsOf(slp, o), 0);
    if ctrl.outerEquil && fin.status.Normal() then fin.(point := Unscale(f, lp, fin.point)) else fin
  }

  /**
   * What a single pass can end in (IPF.cpp:109-260). Outside the cone it
   * stops with a logic error and the counts of offending entries, before any
   * convergence check; every other stop leaves the iterate as it was checked
   * and is decided by that iterate's relError alone; a pass that goes on has
   * relError above `targetTol`, is not the last allowed one with relError
   * above `minTol`, and moves x, y, z and s together by one
   * alpha in (0, 0.99 min(alphaPrimal, alphaDual)].
   */
  lemma PassOutcomes(lp: Problem, pt: Point, ctrl: Ctrl, o: Oracles, norms: Norms, numIts: int)
    requires lp.Valid() && pt.Fits(lp) && Sound(o)
    requires norms.b >= 0.0 && norms.c >= 0.0 && norms.h >= 0.0
    ensures var r := PassAt(lp, pt, ctrl, o, norms, numIts);
            var inCone := Positive(pt.s) && Positive(pt.z);
            var e := RelErrorAt(lp, pt, o, norms);
            (r.Stop? && r.status.LogicError? <==> !inCone) &&
            (!inCone ==> r == Stop(LogicError(NumNonPositive(pt.s), NumNonPositive(pt.z)), pt)) &&
            (r.Stop? && !r.status.LogicError? ==> r.point == pt && inCone) &&
            (r == Stop(Converged, pt) <==> inCone && e <= ctrl.targetTol) &&
            (r.Stop? && r.status.ToleranceFallback? ==>
               r.status.cause != IterationsSpent && ctrl.targetTol < e <= ctrl.minTol) &&
            (r.Stop? && r.status.RuntimeError? ==> ctrl.targetTol < e && ctrl.minTol < e) &&
            (r == Stop(RuntimeError(IterationsSpent), pt) <==>
               inCone && ctrl.targetTol < e && numIts == ctrl.maxIts && ctrl.minTol < e)
  {
    if Positive(pt.s) && Positive(pt.z) {
      var dir := SearchDirection(lp, pt, ctrl, o, DualityMeasure(pt.s, pt.z, lp.k), ResidualsOf(lp, pt));
      if dir.Some? {
        JointStepZero(pt, dir.value);
      }
    }
  }

  /** A pass that goes on starts inside the cone and takes one joint step whose length is positive and within the capped step to the cone's boundary. */
  lemma PassStep(lp: Problem, pt: Point, ctrl: Ctrl, o: Oracles, norms: Norms, numIts: int)
    requires lp.Valid() && pt.Fits(lp) && Sound(o)
    requires norms.b >= 0.0 && norms.c >= 0.0 && norms.h >= 0.0
    ensures var r := PassAt(lp, pt, ctrl, o, norms, numIts);
            r.Continue? ==>
              Positive(pt.s) && Positive(pt.z) && r.dir.Fits(lp) &&
              r.next == JointStep(pt, r.dir, r.alpha) &&
              0.0 < r.alpha <= StepCap(MaxStepInPositiveCone(o, pt.s, r.dir.ds, 1.0), MaxStepInPositiveCone(o, pt.z, r.dir.dz, 1.0)) &&
              r.alpha <= 0.99
  {
  }

  /** The loop ends at most at numIts = maxIts + 1, and runs that far exactly when it ends by exhausting its passes. */
  lemma {:induction false} RunBounds(lp: Problem, pt: Point, ctrl: Ctrl, o: Oracles, norms: Norms, numIts: int)
    requires lp.Valid() && pt.Fits(lp) && Sound(o)
    requires norms.b >= 0.0 && norms.c >= 0.0 && norms.h >= 0.0
    ensures var r := Run(lp, pt, ctrl, o, norms, numIts);
            numIts <= r.numIts &&
            (r.status == ToleranceFallback(IterationsSpent) <==> r.numIts > ctrl.maxIts) &&
            (r.numIts > ctrl.maxIts ==> r.numIts == if numIts > ctrl.maxIts then numIts else ctrl.maxIts + 1)
    decreases ctrl.maxIts + 1 - numIts
  {
    if numIts <= ctrl.maxIts {
      var p := PassAt(lp, pt, ctrl, o, norms, numIts);
      if p.Continue? {
        RunBounds(lp, p.next, ctrl, o, norms, numIts + 1);
      }
    }
  }

  /**
   * How a run ends, in terms of the iterate it returns: a logic error only
   * outside the cone; convergence only on a checked iterate within
   * `targetTol`; a tolerance fallback after a failed solve or a zero step
   * only within `minTol`; a runtime error only beyond `minTol`, and for the
   * iteration budget only at numIts = maxIts.
   */
  lemma {:induction false} RunEnds(lp: Problem, pt: Point, ctrl: Ctrl, o: Oracles, norms: Norms, numIts: int)
    requires lp.Valid() && pt.Fits(lp) && Sound(o)
    requires norms.b >= 0.0 && norms.c >= 0.0 && norms.h >= 0.0
    ensures var r := Run(lp, pt, ctrl, o, norms, numIts);
            var inCone := Positive(r.point.s) && Positive(r.point.z);
            var e := RelErrorAt(lp, r.point, o, norms);
            (r.status.LogicError? ==>
               !inCone && r.status == LogicError(NumNonPositive(r.point.s), NumNonPositive(r.point.z))) &&
            (r.status == Converged ==> inCone && e <= ctrl.targetTol) &&
            (r.status.ToleranceFallback? && r.status.cause != IterationsSpent ==>
               inCone && ctrl.targetTol < e <= ctrl.minTol) &&
            (r.status.RuntimeError? ==> inCone && ctrl.targetTol < e && ctrl.minTol < e) &&
            (r.status == RuntimeError(IterationsSpent) ==> r.numIts == ctrl.maxIts)
    decreases ctrl.maxIts + 1 - numIts
  {
    if numIts <= ctrl.maxIts {
      PassOutcomes(lp, pt, ctrl, o, norms, numIts);
      var p := PassAt(lp, pt, ctrl, o, norms, numIts);
      if p.Continue? {
        RunEnds(lp, p.next, ctrl, o, norms, numIts + 1);
      }
    }
  }

  /** The loop stops, successfully and without computing a direction, at the first checked iterate within `targetTol`. */
  lemma ConvergesAtFirstCheck(lp: Problem, pt: Point, ctrl: Ctrl, o: Oracles, norms: Norms, numIts: int)
    requires lp.Valid() && pt.Fits(lp) && Sound(o)
    requires norms.b >= 0.0 && norms.c >= 0.0 && norms.h >= 0.0
    requires numIts <= ctrl.maxIts && Positive(pt.s) && Positive(pt.z)
    requires RelErrorAt(lp, pt, o, norms) <= ctrl.targetTol
    ensures Run(lp, pt, ctrl, o, norms, numIts) == Outcome(Converged, pt, numIts)
  {
    PassOutcomes(lp, pt, ctrl, o, norms, numIts);
  }

  /** Backing off to 0.99 of a step that at most reaches the boundary keeps a positive entry positive. */
  lemma BackoffKeepsPositive(v: real, dv: real, alphaMax: real, alpha: real)
    requires v > 0.0 && v + alphaMax * dv >= 0.0 && 0.0 <= alpha <= 0.99 * alphaMax
    ensures v + alpha * dv > 0.0
  {
    if dv < 0.0 {
      assert (0.99 * alphaMax - alpha) * dv <= 0.0;
      assert alpha * dv >= 0.99 * (alphaMax * dv);
      assert v + alpha * dv >= 0.01 * v + 0.99 * (v + alphaMax * dv);
    } else {
      assert alpha * dv >= 0.0;
    }
  }

  /** What `Sound` promises of one call of `MaxStepInPositiveCone`: a step in [0, upper] that does not cross the cone's boundary. */
  lemma MaxStepStaysInCone(o: Oracles, v: Vector, dv: Vector, upper: real)
    requires Sound(o) && |v| == |dv| && upper >= 0.0 && Positive(v)
    ensures 0.0 <= MaxStepInPositiveCone(o, v, dv, upper) <= upper
    ensures forall i | 0 <= i < |v| :: v[i] + MaxStepInPositiveCone(o, v, dv, upper) * dv[i] >= 0.0
  {
  }

  /** Moving a positive vector by 0.99 of at most the step to the boundary keeps it positive. */
  lemma AxpyKeepsPositive(v: Vector, dv: Vector, alphaMax: real, alpha: real)
    requires |v| == |dv| && Positive(v) && 0.0 <= alpha <= 0.99 * alphaMax
    requires forall i | 0 <= i < |v| :: v[i] + alphaMax * dv[i] >= 0.0
    ensures Positive(Axpy(alpha, dv, v))
  {
    forall i | 0 <= i < |v| ensures Axpy(alpha, dv, v)[i] > 0.0 {
      BackoffKeepsPositive(v[i], dv[i], alphaMax, alpha);
    }
  }

  /** A joint step of at most 0.99 of each cone step, from inside the cone, stays inside it. */
  lemma StepKeepsCone(o: Oracles, pt: Point, dir: Direction, alpha: real)
    requires Sound(o) && Positive(pt.s) && Positive(pt.z)
    requires |dir.dx| == |pt.x| && |dir.dy| == |pt.y| && |dir.dz| == |pt.z| && |dir.ds| == |pt.s|
    requires 0.0 <= alpha <= StepCap(MaxStepInPositiveCone(o, pt.s, dir.ds, 1.0), MaxStepInPositiveCone(o, pt.z, dir.dz, 1.0))
    ensures Positive(JointStep(pt, dir, alpha).s) && Positive(JointStep(pt, dir, alpha).z)
  {
    var alphaPrimal := MaxStepInPositiveCone(o, pt.s, dir.ds, 1.0);
    var alphaDual := MaxStepInPositiveCone(o, pt.z, dir.dz, 1.0);
    MaxStepStaysInCone(o, pt.s, dir.ds, 1.0);
    MaxStepStaysInCone(o, pt.z, dir.dz, 1.0);
    AxpyKeepsPositive(pt.s, dir.ds, alphaPrimal, alpha);
    AxpyKeepsPositive(pt.z, dir.dz, alphaDual, alpha);
  }

  /** A pass that goes on leaves s and z strictly inside the cone: the 0.99 backoff never reaches its boundary. */
  lemma PassKeepsCone(lp: Problem, pt: Point, ctrl: Ctrl, o: Oracles, norms: Norms, numIts: int)
    requires lp.Valid() && pt.Fits(lp) && Sound(o)
    requires norms.b >= 0.0 && norms.c >= 0.0 && norms.h >= 0.0
    ensures var r := PassAt(lp, pt, ctrl, o, norms, numIts);
            r.Continue? ==> Positive(r.next.s) && Positive(r.next.z)
  {
    var r := PassAt(lp, pt, ctrl, o, norms, numIts);
    if r.Continue? {
      PassStep(lp, pt, ctrl, o, norms, numIts);
      StepKeepsCone(o, pt, r.dir, r.alpha);
    }
  }

  /** From an iterate inside the cone the loop never ends in the logic error of the cone guard. */
  lemma {:induction false} RunStaysInCone(lp: Problem, pt: Point, ctrl: Ctrl, o: Oracles, norms: Norms, numIts: int)
    requires lp.Valid() && pt.Fits(lp) && Sound(o)
    requires norms.b >= 0.0 && norms.c >= 0.0 && norms.h >= 0.0
    requires Positive(pt.s) && Positive(pt.z)
    ensures !Run(lp, pt, ctrl, o, norms, numIts).status.LogicError?
    decreases ctrl.maxIts + 1 - numIts
  {
    if numIts <= ctrl.maxIts {
      var p := PassAt(lp, pt, ctrl, o, norms, numIts);
      PassKeepsCone(lp, pt, ctrl, o, norms, numIts);
      if p.Continue? {
        RunStaysInCone(lp, p.next, ctrl, o, norms, numIts + 1);
      }
    }
  }

  /** A nonnegative value at most a bound has its square at most the bound's square. */
  lemma SquareMonotone(a: real, b: real)
    requires 0.0 <= a <= b
    ensures a * a <= b * b
  {
    assert a * a <= a * b;
    assert a * b <= b * b;
  }

  /** ||r|| / (1 + ||rhs||) <= tol exactly when ||r|| <= tol (1 + ||rhs||). */
  lemma RatioWithin(rNrm2: real, rhsNrm2: real, tol: real)
    requires rNrm2 >= 0.0 && rhsNrm2 >= 0.0
    ensures Ratio(rNrm2, rhsNrm2) <= tol <==> rNrm2 <= ResidualTarget(tol, rhsNrm2)
  {
    var q := Ratio(rNrm2, rhsNrm2);
    var d := 1.0 + rhsNrm2;
    assert rNrm2 == q * d;
    assert ResidualTarget(tol, rhsNrm2) - rNrm2 == (tol - q) * d;
  }

  /** A residual whose relative norm is within tol has its sum of squares within (tol (1 + ||rhs||))^2. */
  lemma NormWithin(rNrm2: real, sumSq: real, rhsNrm2: real, tol: real)
    requires rNrm2 >= 0.0 && rhsNrm2 >= 0.0 && rNrm2 * rNrm2 == sumSq
    requires Ratio(rNrm2, rhsNrm2) <= tol
    ensures sumSq <= ResidualTarget(tol, rhsNrm2) * ResidualTarget(tol, rhsNrm2)
  {
    RatioWithin(rNrm2, rhsNrm2, tol);
    SquareMonotone(rNrm2, ResidualTarget(tol, rhsNrm2));
  }

  /** What `Sound` promises of one call of `Nrm2`: a nonnegative number whose square is the sum of squares. */
  lemma Nrm2IsNorm(o: Oracles, v: Vector)
    requires Sound(o)
    ensures Nrm2(o, v) >= 0.0 && Nrm2(o, v) * Nrm2(o, v) == SumSq(v)
  {
  }

  /** A residual r with ||r|| / (1 + ||rhs||) <= tol has ||r||^2 <= (tol (1 + ||rhs||))^2. */
  lemma ResidualWithin(o: Oracles, r: Vector, rhsNrm2: real, tol: real)
    requires Sound(o) && rhsNrm2 >= 0.0
    requires Ratio(Nrm2(o, r), rhsNrm2) <= tol
    ensures SumSq(r) <= ResidualTarget(tol, rhsNrm2) * ResidualTarget(tol, rhsNrm2)
  {
    Nrm2IsNorm(o, r);
    NormWithin(Nrm2(o, r), SumSq(r), rhsNrm2, tol);
  }

  /** Residuals whose three relative norms are within tol have their sums of squares within the squared absolute targets. */
  lemma ResidualsWithin(o: Oracles, res: Residuals, norms: Norms, tol: real)
    requires Sound(o) && norms.b >= 0.0 && norms.c >= 0.0 && norms.h >= 0.0
    requires Ratio(Nrm2(o, res.rb), norms.b) <= tol
    requires Ratio(Nrm2(o, res.rc), norms.c) <= tol
    requires Ratio(Nrm2(o, res.rh), norms.h) <= tol
    ensures SumSq(res.rb) <= ResidualTarget(tol, norms.b) * ResidualTarget(tol, norms.b)
    ensures SumSq(res.rc) <= ResidualTarget(tol, norms.c) * ResidualTarget(tol, norms.c)
    ensures SumSq(res.rh) <= ResidualTarget(tol, norms.h) * ResidualTarget(tol, norms.h)
  {
    ResidualWithin(o, res.rb, norms.b, tol);
    ResidualWithin(o, res.rc, norms.c, tol);
    ResidualWithin(o, res.rh, norms.h, tol);
  }

  /**
   * The iterate meets tolerance tol in absolute terms: every residual is
   * within tol (1 + ||rhs||) in the Euclidean norm (compared as squares,
   * ||r_b||^2 <= (tol (1 + ||b||))^2 and likewise for r_c and r_h), and the
   * duality gap |c^T x - (-b^T y - h^T z)| is within tol (1 + |c^T x|).
   */
  predicate MeetsTargets(lp: Problem, pt: Point, norms: Norms, tol: real)
    requires lp.Valid() && pt.Fits(lp)
  {
    var res := ResidualsOf(lp, pt);
    var primObj := Dot(lp.c, pt.x);
    SumSq(res.rb) <= ResidualTarget(tol, norms.b) * ResidualTarget(tol, norms.b) &&
    SumSq(res.rc) <= ResidualTarget(tol, norms.c) * ResidualTarget(tol, norms.c) &&
    SumSq(res.rh) <= ResidualTarget(tol, norms.h) * ResidualTarget(tol, norms.h) &&
    Abs(primObj - (-Dot(lp.b, pt.y) - Dot(lp.h, pt.z))) <= ResidualTarget(tol, Abs(primObj))
  }

  /** An iterate that passes the convergence test with tolerance tol meets tol in absolute terms. */
  lemma WithinTolBoundsResiduals(lp: Problem, pt: Point, o: Oracles, norms: Norms, tol: real)
    requires lp.Valid() && pt.Fits(lp) && Sound(o)
    requires norms.b >= 0.0 && norms.c >= 0.0 && norms.h >= 0.0
    requires RelErrorAt(lp, pt, o, norms) <= tol
    ensures MeetsTargets(lp, pt, norms, tol)
  {
    var res := ResidualsOf(lp, pt);
    var primObj := Dot(lp.c, pt.x);
    var gap := Abs(primObj - (-Dot(lp.b, pt.y) - Dot(lp.h, pt.z)));
    var qb, qc, qh := Ratio(Nrm2(o, res.rb), norms.b), Ratio(Nrm2(o, res.rc), norms.c), Ratio(Nrm2(o, res.rh), norms.h);
    assert ObjConv(lp, pt) <= tol && qb <= tol && qc <= tol && qh <= tol by {
      RelErrorWithin(ObjConv(lp, pt), qb, qc, qh, tol);
    }
    ResidualsWithin(o, res, norms, tol);
    assert gap <= ResidualTarget(tol, Abs(primObj)) by {
      assert ObjConv(lp, pt) == Ratio(gap, Abs(primObj));
      RatioWithin(gap, Abs(primObj), tol);
    }
  }

  /** A run that ends in `Converged` returns an iterate that meets targetTol in absolute terms. */
  lemma ConvergedResiduals(lp: Problem, pt: Point, ctrl: Ctrl, o: Oracles, norms: Norms, numIts: int)
    requires lp.Valid() && pt.Fits(lp) && Sound(o)
    requires norms.b >= 0.0 && norms.c >= 0.0 && norms.h >= 0.0
    ensures var r := Run(lp, pt, ctrl, o, norms, numIts);
            r.status == Converged ==> MeetsTargets(lp, r.point, norms, ctrl.targetTol)
  {
    var r := Run(lp, pt, ctrl, o, norms, numIts);
    if r.status == Converged {
      assert RelErrorAt(lp, r.point, o, norms) <= ctrl.targetTol by {
        RunEnds(lp, pt, ctrl, o, norms, numIts);
      }
      WithinTolBoundsResiduals(lp, r.point, o, norms, ctrl.targetTol);
    }
  }


  /**
   * A converged solve returns an iterate whose equilibrated image met
   * `targetTol` in the equilibrated problem: the exit rescaling is exactly
   * undone by the entry rescaling.
   */
  lemma SolveConverged(lp: Problem, warm: Point, ctrl: Ctrl, o: Oracles)
    requires lp.Valid() && Sound(o) && WarmStartFits(lp, warm, ctrl)
    ensures var r := Solve(lp, warm, ctrl, o);
            var f := FactorsOf(lp, ctrl.outerEquil, o);
            var slp := ScaledProblem(lp, f);
            r.status == Converged ==>
              RelErrorAt(slp, ScaleIterate(f, lp, r.point), o, NormsOf(slp, o)) <= ctrl.targetTol
  {
    var f := FactorsOf(lp, ctrl.outerEquil, o);
    var slp := ScaledProblem(lp, f);
    var start := Initialize(o, slp, ScaleWarmStart(f, lp, warm, ctrl), ctrl.primalInit, ctrl.dualInit);
    var fin := Run(slp, start, ctrl, o, NormsOf(slp, o), 0);
    RunEnds(slp, start, ctrl, o, NormsOf(slp, o), 0);
    if ctrl.outerEquil {
      EquilibrationRoundTrip(f, lp, fin.point);
    } else {
      OnesFactorsChangeNothing(f, lp, fin.point);
    }
  }

  /** With `outerEquil` off the driver is the bare loop on the original problem from the initial point. */
  lemma UnequilibratedSolve(lp: Problem, warm: Point, ctrl: Ctrl, o: Oracles)
    requires lp.Valid() && Sound(o) && !ctrl.outerEquil
    ensures Solve(lp, warm, ctrl, o) ==
            Run(lp, Initialize(o, lp, warm, ctrl.primalInit, ctrl.dualInit), ctrl, o, NormsOf(lp, o), 0)
  {
    var f := FactorsOf(lp, false, o);
    OnesScaleIdentity(f.dRowA, lp.b);
    OnesScaleIdentity(f.dRowG, lp.h);
    OnesScaleIdentity(f.dCol, lp.c);
    assert ScaledProblem(lp, f) == lp;
  }

  /**
   * The convergence measurement of one pass (IPF.cpp:118-153): the duality
   * measure, the objectives, the residuals and relError.
   */
  method Measure(lp: Problem, pt: Point, o: Oracles, norms: Norms)
    returns (mu: real, res: Residuals, relError: real)
    requires lp.Valid() && pt.Fits(lp) && Sound(o)
    requires norms.b >= 0.0 && norms.c >= 0.0 && norms.h >= 0.0
    ensures mu == DualityMeasure(pt.s, pt.z, lp.k)
    ensures res == ResidualsOf(lp, pt)
    ensures relError == RelErrorAt(lp, pt, o, norms)
  {
    var A, G, b, c, h := lp.A, lp.G, lp.b, lp.c, lp.h;
    var m, k, n := lp.m, lp.k, lp.n;
    var x, y, z, s := pt.x, pt.y, pt.z, pt.s;
    mu := DualityMeasure(s, z, k);
    var primObj := Dot(c, x);
    var dualObj := -Dot(b, y) - Dot(h, z);
    var objConv := Abs(primObj - dualObj) / (1.0 + Abs(primObj));
    var rb := Scale(-1.0, b);
    rb := Gemv(false, 1.0, A, m, n, x, 1.0, rb);
    var rbConv := Ratio(Nrm2(o, rb), norms.b);
    var rc := Gemv(true, 1.0, A, m, n, y, 1.0, c);
    rc := Gemv(true, 1.0, G, k, n, z, 1.0, rc);
    var rcConv := Ratio(Nrm2(o, rc), norms.c);
    var rh := Scale(-1.0, h);
    rh := Gemv(false, 1.0, G, k, n, x, 1.0, rh);
    rh := Axpy(1.0, s, rh);
    var rhConv := Ratio(Nrm2(o, rh), norms.h);
    res := Residuals(rb, rc, rh);
    relError := RelError(objConv, rbConv, rcConv, rhConv);
  }

  /**
   * The search direction of one pass (IPF.cpp:185-205); `None` stands for
   * the exception the solve throws.
   */
  method ComputeDirection(lp: Problem, pt: Point, ctrl: Ctrl, o: Oracles, mu: real, res: Residuals)
    returns (dir: Option<Direction>)
    requires lp.Valid() && pt.Fits(lp) && Sound(o)
    ensures dir == SearchDirection(lp, pt, ctrl, o, mu, res)
  {
    var rmu := CenteringResidual(pt.s, pt.z, ctrl.centering, mu);
    var J := KKT(o, lp.A, lp.G, pt.s, pt.z);
    var d := KKTRHS(o, res.rc, res.rb, res.rh, rmu, pt.z);
    var sol := SymmSolve(o, J, d);
    if sol.None? {
      return None;
    }
    dir := Some(ExpandSolution(o, lp.m, lp.n, sol.value, rmu, pt.s, pt.z));
  }

  /** The step length of one pass (IPF.cpp:234-246). */
  method ChooseStep(lp: Problem, pt: Point, dir: Direction, ctrl: Ctrl, o: Oracles, norms: Norms)
    returns (alpha: real)
    requires Sound(o)
    ensures alpha == StepLength(lp, pt, dir, ctrl, o, norms)
  {
    var alphaPrimal := MaxStepInPositiveCone(o, pt.s, dir.ds, 1.0);
    var alphaDual := MaxStepInPositiveCone(o, pt.z, dir.dz, 1.0);
    var cap := StepCap(alphaPrimal, alphaDual);
    alpha := IPFLineSearch(o, lp, pt, dir, cap, ResidualTarget(ctrl.targetTol, norms.b),
                          ResidualTarget(ctrl.targetTol, norms.c), ResidualTarget(ctrl.targetTol, norms.h));
  }

  /**
   * The iteration loop of `IPF` (IPF.cpp:107-261) on the equilibrated
   * problem, from the initial iterate; it ends as `Run` says, with the
   * iterate as it stood.
   */
  method Iterate(lp: Problem, start: Point, ctrl: Ctrl, o: Oracles, norms: Norms)
    returns (status: Status, x: Vector, y: Vector, z: Vector, s: Vector)
    requires lp.Valid() && start.Fits(lp) && Sound(o)
    requires norms.b >= 0.0 && norms.c >= 0.0 && norms.h >= 0.0
    ensures var r := Run(lp, start, ctrl, o, norms, 0);
            status == r.status && Point(x, y, z, s) == r.point
  {
    x, y, z, s := start.x, start.y, start.z, start.s;
    ghost var fin := Run(lp, start, ctrl, o, norms, 0);
    status := ToleranceFallback(IterationsSpent);
    var numIts := 0;
    while numIts <= ctrl.maxIts
      invariant Point(x, y, z, s).Fits(lp)
      invariant Run(lp, Point(x, y, z, s), ctrl, o, norms, numIts) == fin
      decreases ctrl.maxIts - numIts
    {
      var pt := Point(x, y, z, s);
      var sNumNonPos, zNumNonPos := NumNonPositive(s), NumNonPositive(z);
      if sNumNonPos > 0 || zNumNonPos > 0 {
        status := LogicError(sNumNonPos, zNumNonPos);
        assert PassAt(lp, pt, ctrl, o, norms, numIts) == Stop(status, pt);
        return;
      }
      var mu, res, relError := Measure(lp, pt, o, norms);
      if relError <= ctrl.targetTol {
        status := Converged;
        assert PassAt(lp, pt, ctrl, o, norms, numIts) == Stop(status, pt);
        break;
      }
      if numIts == ctrl.maxIts && relError > ctrl.minTol {
        status := RuntimeError(IterationsSpent);
        assert PassAt(lp, pt, ctrl, o, norms, numIts) == Stop(status, pt);
        return;
      }
      var dir := ComputeDirection(lp, pt, ctrl, o, mu, res);
      if dir.None? {
        if relError <= ctrl.minTol {
          status := ToleranceFallback(SolveFailed);
          assert PassAt(lp, pt, ctrl, o, norms, numIts) == Stop(status, pt);
          break;
        }
        status := RuntimeError(SolveFailed);
        assert PassAt(lp, pt, ctrl, o, norms, numIts) == Stop(status, pt);
        return;
      }
      var alpha := ChooseStep(lp, pt, dir.value, ctrl, o, norms);
      x := Axpy(alpha, dir.value.dx, x);
      y := Axpy(alpha, dir.value.dy, y);
      z := Axpy(alpha, dir.value.dz, z);
      s := Axpy(alpha, dir.value.ds, s);
      assert Point(x, y, z, s) == JointStep(pt, dir.value, alpha);
      if alpha == 0.0 {
        if relError <= ctrl.minTol {
          status := ToleranceFallback(ZeroStep);
          assert PassAt(lp, pt, ctrl, o, norms, numIts) == Stop(status, Point(x, y, z, s));
          break;
        }
        status := RuntimeError(ZeroStep);
        assert PassAt(lp, pt, ctrl, o, norms, numIts) == Stop(status, Point(x, y, z, s));
        return;
      }
      assert PassAt(lp, pt, ctrl, o, norms, numIts) == Continue(Point(x, y, z, s), alpha, dir.value);
      numIts := numIts + 1;
    }
  }

  /**
   * `IPF`: equilibrate the problem and the warm starts, initialize, run the
   * loop, and on a normal return undo the scaling of the iterate (x, y, z
   * and s are value parameters in and results out); it computes exactly
   * `Solve`.
   */
  method IPF(lp: Problem, x0: Vector, y0: Vector, z0: Vector, s0: Vector, ctrl: Ctrl, o: Oracles)
    returns (status: Status, x: Vector, y: Vector, z: Vector, s: Vector)
    requires lp.Valid() && Sound(o) && WarmStartFits(lp, Point(x0, y0, z0, s0), ctrl)
    ensures var r := Solve(lp, Point(x0, y0, z0, s0), ctrl, o);
            status == r.status && Point(x, y, z, s) == r.point
  {
    x, y, z, s := x0, y0, z0, s0;
    var A, G, b, c, h := lp.A, lp.G, lp.b, lp.c, lp.h;
    var m, k, n := lp.m, lp.k, lp.n;
    var dRowA, dRowG, dCol;
    if ctrl.outerEquil {
      var eq := StackedRuizEquil(o, lp);
      A, G, dRowA, dRowG, dCol := eq.A, eq.G, eq.dRowA, eq.dRowG, eq.dCol;
      b := DiagonalSolve(dRowA, b);
      h := DiagonalSolve(dRowG, h);
      c := DiagonalSolve(dCol, c);
      if ctrl.primalInit {
        x := DiagonalScale(dCol, x);
        s := DiagonalSolve(dRowG, s);
      }
      if ctrl.dualInit {
        y := DiagonalScale(dRowA, y);
        z := DiagonalScale(dRowG, z);
      }
    } else {
      dRowA, dRowG, dCol := Ones(m), Ones(k), Ones(n);
    }
    ghost var f := Equilibration(A, G, dRowA, dRowG, dCol);
    assert f == FactorsOf(lp, ctrl.outerEquil, o);
    var slp := Problem(A, G, b, c, h, m, n, k);
    assert slp == ScaledProblem(lp, f);
    assert Point(x, y, z, s) == ScaleWarmStart(f, lp, Point(x0, y0, z0, s0), ctrl);
    var norms := Norms(Nrm2(o, b), Nrm2(o, c), Nrm2(o, h));
    var start := Initialize(o, slp, Point(x, y, z, s), ctrl.primalInit, ctrl.dualInit);
    status, x, y, z, s := Iterate(slp, start, ctrl, o, norms);
    if ctrl.outerEquil && status.Normal() {
      x := DiagonalSolve(dCol, x);
      y := DiagonalSolve(dRowA, y);
      z := DiagonalSolve(dRowG, z);
      s := DiagonalScale(dRowG, s);
    }
  }

  // The sparse-only set-up (IPF.cpp:555-562, 602-634, 672-673, 747-759).

  /** x^e for a natural exponent. */
  function Power(x: real, e: nat): real
    decreases e
  {
    if e == 0 then 1.0 else x * Power(x, e - 1)
  }

  /** Above 1, each further power is larger, and all of them are at least 1. */
  lemma {:induction false} PowerGrows(x: real, e: nat)
    requires x > 1.0
    ensures 1.0 <= Power(x, e) < Power(x, e + 1)
    decreases e
  {
    if e > 0 {
      PowerGrows(x, e - 1);
    }
    var p := Power(x, e);
    assert Power(x, e + 1) == x * p;
    assert (x - 1.0) * p > 0.0;
  }

  /**
   * Machine epsilon and the two equilibration thresholds, written in terms of
   * epsRoot = eps^(-1/20) so that they are exact: eps = epsRoot^-20,
   * diagEquilTol = eps^-0.15 = epsRoot^3, ruizEquilTol = eps^-0.25 = epsRoot^5.
   */
  function Epsilon(epsRoot: real): real
    requires epsRoot > 1.0
  {
    PowerGrows(epsRoot, 19);
    1.0 / Power(epsRoot, 20)
  }

  function DiagEquilTol(epsRoot: real): real {
    Power(epsRoot, 3)
  }

  function RuizEquilTol(epsRoot: real): real {
    Power(epsRoot, 5)
  }

  /** For any machine epsilon below 1, 0 < eps < 1 < diagEquilTol < ruizEquilTol. */
  lemma EquilTolsOrdered(epsRoot: real)
    requires epsRoot > 1.0
    ensures 0.0 < Epsilon(epsRoot) < 1.0
    ensures 1.0 < DiagEquilTol(epsRoot) < RuizEquilTol(epsRoot)
  {
    PowerGrows(epsRoot, 2);
    PowerGrows(epsRoot, 3);
    PowerGrows(epsRoot, 4);
    PowerGrows(epsRoot, 19);
  }

  /** || w ||_max, the largest absolute entry (0 for an empty vector). */
  function MaxNorm(w: Vector): (r: real)
    ensures r >= 0.0
    ensures forall i | 0 <= i < |w| :: Abs(w[i]) <= r
    ensures |w| > 0 ==> exists i | 0 <= i < |w| :: r == Abs(w[i])
    decreases |w|
  {
    if |w| == 0 then 0.0
    else
      var rest := MaxNorm(w[1..]);
      assert forall i | 1 <= i < |w| :: w[i] == w[1..][i - 1];
      Max(Abs(w[0]), rest)
  }

  /** How the sparse driver equilibrates the regularised KKT matrix J each pass. */
  datatype InnerEquil = SymmetricRuiz | SymmetricDiagonal | NoInnerEquil

  /** The tier chosen from || w ||_max (IPF.cpp:754-759). */
  function EquilTier(wMaxNorm: real, diagEquilTol: real, ruizEquilTol: real): (t: InnerEquil)
    ensures t == SymmetricRuiz <==> wMaxNorm >= ruizEquilTol
    ensures t == SymmetricDiagonal <==> diagEquilTol <= wMaxNorm < ruizEquilTol
    ensures t == NoInnerEquil <==> wMaxNorm < diagEquilTol && wMaxNorm < ruizEquilTol
  {
    if wMaxNorm >= ruizEquilTol then SymmetricRuiz
    else if wMaxNorm >= diagEquilTol then SymmetricDiagonal
    else NoInnerEquil
  }

  function TierRank(t: InnerEquil): nat {
    match t
    case NoInnerEquil => 0
    case SymmetricDiagonal => 1
    case SymmetricRuiz => 2
  }

  /** With ordered thresholds, a larger || w ||_max never selects a weaker equilibration. */
  lemma EquilTierMonotone(w1: real, w2: real, diagEquilTol: real, ruizEquilTol: real)
    requires diagEquilTol < ruizEquilTol && w1 <= w2
    ensures TierRank(EquilTier(w1, diagEquilTol, ruizEquilTol)) <= TierRank(EquilTier(w2, diagEquilTol, ruizEquilTol))
  {
  }

  /**
   * dInner: the scaling `SymmetricRuizEquil` or `SymmetricDiagonalEquil`
   * computed for J, or all ones of J's height when neither runs.
   */
  function InnerScaling(t: InnerEquil, height: nat, ruizScaling: Vector, diagScaling: Vector): (d: Vector)
    ensures t == NoInnerEquil ==> |d| == height && AllOnes(d)
    ensures t == SymmetricRuiz ==> d == ruizScaling
    ensures t == SymmetricDiagonal ==> d == diagScaling
  {
    match t
    case SymmetricRuiz => ruizScaling
    case SymmetricDiagonal => diagScaling
    case NoInnerEquil => Ones(height)
  }

  /** origTwoNormEst = ||A||_2 estimate + ||G||_2 estimate + 1. */
  function NormEstimate(twoNormEstA: real, twoNormEstG: real): (est: real)
    requires twoNormEstA >= 0.0 && twoNormEstG >= 0.0
    ensures est >= 1.0
  {
    twoNormEstA + twoNormEstG + 1.0
  }

  /** Entry i of a regularisation vector before scaling: the primal value on the first n entries, the negated dual value after. */
  function RegEntry(i: nat, n: nat, primal: real, dual: real): real {
    if i < n then primal else -dual
  }

  /**
   * The regularisation vectors of the sparse driver (IPF.cpp:617-634), over
   * the m + n + k unknowns of the KKT system ordered x, y, z: regTmp holds
   * regPrimal on the x block and -regDual elsewhere, regPerm 10 eps and
   * -10 eps, both scaled by the norm estimate. eps is the machine epsilon,
   * `Epsilon(epsRoot)` for the epsRoot of the thresholds; it is passed as a
   * value so that the 20-fold power behind `Epsilon` stays out of the proof.
   */
  method RegularizationVectors(m: nat, n: nat, k: nat, regPrimal: real, regDual: real, eps: real,
                               twoNormEstA: real, twoNormEstG: real)
    returns (regTmp: Vector, regPerm: Vector)
    requires twoNormEstA >= 0.0 && twoNormEstG >= 0.0
    ensures |regTmp| == m + n + k && |regPerm| == m + n + k
    ensures forall i | 0 <= i < m + n + k ::
      regTmp[i] == NormEstimate(twoNormEstA, twoNormEstG) * RegEntry(i, n, regPrimal, regDual)
    ensures forall i | 0 <= i < m + n + k ::
      regPerm[i] == NormEstimate(twoNormEstA, twoNormEstG) * RegEntry(i, n, 10.0 * eps, 10.0 * eps)
  {
    var origTwoNormEst := NormEstimate(twoNormEstA, twoNormEstG);
    var tmp := new real[m + n + k];
    var perm := new real[m + n + k];
    for i := 0 to m + n + k
      invariant forall t | 0 <= t < i :: tmp[t] == RegEntry(t, n, regPrimal, regDual)
      invariant forall t | 0 <= t < i :: perm[t] == RegEntry(t, n, 10.0 * eps, 10.0 * eps)
    {
      if i < n {
        tmp[i] := regPrimal;
        perm[i] := 10.0 * eps;
      } else {
        tmp[i] := -regDual;
        perm[i] := -10.0 * eps;
      }
    }
    regTmp := Scale(origTwoNormEst, tmp[..]);
    regPerm := Scale(origTwoNormEst, perm[..]);
  }

  /**
   * With nonnegative regularisation parameters and a positive epsilon, the
   * vectors have the quasi-semidefinite sign pattern: nonnegative (regPerm:
   * positive) on the x block, nonpositive (negative) on the y and z blocks.
   */
  lemma RegularizationSigns(i: nat, n: nat, regPrimal: real, regDual: real, eps: real, est: real)
    requires regPrimal >= 0.0 && regDual >= 0.0 && eps > 0.0 && est >= 1.0
    ensures i < n ==> est * RegEntry(i, n, regPrimal, regDual) >= 0.0 && est * RegEntry(i, n, 10.0 * eps, 10.0 * eps) > 0.0
    ensures i >= n ==> est * RegEntry(i, n, regPrimal, regDual) <= 0.0 && est * RegEntry(i, n, 10.0 * eps, 10.0 * eps) < 0.0
  {
    if i < n {
      assert est * regPrimal >= 0.0;
      assert est * (10.0 * eps) > 0.0;
    } else {
      assert est * regDual >= 0.0;
      assert est * (10.0 * eps) > 0.0;
    }
  }

  /** `UpdateRealPartOfDiagonal( J, 1, d )`: d is added to J's diagonal, nothing else changes. */
  function AddToDiagonal(J: Matrix, d: Vector): (r: Matrix)
    requires IsMatrix(J, |d|, |d|)
    ensures IsMatrix(r, |d|, |d|)
    ensures forall i, j | 0 <= i < |d| && 0 <= j < |d| :: r[i][j] == if i == j then J[i][j] + d[i] else J[i][j]
  {
    seq(|d|, i requires 0 <= i < |d| => J[i][i := J[i][i] + d[i]])
  }
}
