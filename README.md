# Elemental's affine LP interior-point driver and upper Hermitian rank-k update, in Dafny

This project models two parts of the Elemental distributed linear-algebra library.

**`lp::affine::IPF`** (`src/optimization/solvers/LP/affine/IPM/IPF.cpp`) is the Infeasible Path-Following (IPF) driver. It solves linear programs in affine conic form:

    min c^T x  s.t.  A x = b,  G x + s = h,  s >= 0
    max -b^T y - h^T z  s.t.  A^T y + G^T z + c = 0,  z >= 0

The driver runs in four stages:
- It optionally equilibrates `[A; G]` with Ruiz scaling and rescales `b`, `c`, `h` and the warm starts.
- It initializes the iterate.
- It runs the predictor-free path-following loop. Each pass does the cone guard, the convergence test on `relError`, the iteration budget, the KKT solve, the step to 0.99 of the cone boundary and the line search, and the tolerance fallbacks.
- On a normal return it undoes the scaling.

The four overloads (dense or sparse, sequential or distributed) share one loop. It is modelled once (`ipf.dfy`, module `IPF`), after the dense sequential body:
- The method `IPF.IPF` is proved equal to the recursive specification `IPF.Solve`, which is built on `IPF.Run` and `IPF.PassAt`.
- The lemmas prove how a pass and a run can end.
- The sparse overload's own set-up is modelled by separate members: the regularisation vectors, the equilibration thresholds, the tier of KKT equilibration chosen from `|| w ||_max`, and the diagonal update.

The numerical collaborators whose code lives elsewhere are fields of an `Oracles` value: `StackedRuizEquil`, `Initialize`, `KKT`/`KKTRHS`, the symmetric solve, `ExpandSolution`, `MaxStepInPositiveCone`, `IPFLineSearch` and `Nrm2`. The predicate `IPF.Sound` lists the only facts the driver relies on:
- `Nrm2` is the Euclidean norm: nonnegative, and its square is the sum of squares;
- Ruiz factors are nonzero and shaped like the problem;
- results have the problem's sizes;
- `MaxStepInPositiveCone` returns a step in [0, upper bound] that, from a vector inside the cone, does not cross its boundary, and the line search stays within [0, cap].

`IPF.SoundAttainable` shows these facts can all hold at once: any Euclidean norm, with Ruiz factors and starting points of ones, a zero cone step and a zero line search, meets `Sound`.

Thrown exceptions become the `Status` of the result.

**`HerkUN`** (`src/BLAS/Level3/Herk/HerkUN.cpp`) computes `C := alpha A A^H + beta C` on and above the diagonal, with `HerkUNUpdate` and `HerkUNUpdateKernel` (`herk.dfy`, module `Herk`). C is an `array2<real>` updated in place. The algorithm runs in three layers:
- `HerkUN` scales C and sweeps column panels of A.
- `HerkUNUpdate` recurses on the diagonal quadrants of C until a block is shorter than `2 * gridWidth * Blocksize()`.
- The kernel adds the upper-trapezoidal parts of the diagonal products.

The contracts state the net effect of each layer exactly, including the entries below the diagonal. For `HerkUNUpdate` with `beta != 1`, those depend on which leaf of the recursion an entry falls in.

`linalg.dfy` (module `LinAlg`) holds the vector operations both parts use: `Dot`, `Axpy`, `DiagonalScale`/`DiagonalSolve`, `Gemv` and others.

## Model

| member | source | states |
|---|---|---|
| Herk.HerkUN | src/BLAS/Level3/Herk/HerkUN.cpp:23-87 | succeeds exactly when A is as tall as C and C is square (otherwise C is untouched); then C[i,j] = beta C[i,j] + alpha (A A^T)[i][j] for i <= j and beta C[i,j] below the diagonal, and the panels visited partition A's columns |
| Herk.SweepPanels | src/BLAS/Level3/Herk/HerkUN.cpp:63-83 | the panel loop, with beta = 1 for each update, adds alpha A A^T to the upper triangle and leaves the strictly lower triangle unchanged; the panels start at column 0, are contiguous, are `blocksize` wide except the last, and end at A's width |
| Herk.PanelsExtend | src/BLAS/Level3/Herk/HerkUN.cpp:64-82 | appending the next panel (width 1..blocksize, after a full-width one) keeps the panels a partition of the swept columns |
| Herk.SweepStep | src/BLAS/Level3/Herk/HerkUN.cpp:66-76 | one `HerkUNUpdate` with the panel [k0, k0+nb) and beta = 1 turns the entry after k0 columns into the entry after k0+nb columns (the inner product splits over the panel) |
| Herk.SweptNone | src/BLAS/Level3/Herk/HerkUN.cpp:63 | before the first panel the sweep has added nothing |
| Herk.SweptAll | src/BLAS/Level3/Herk/HerkUN.cpp:64 | once the panels cover all columns, the upper entries have gained alpha (A A^T)[i][j] |
| Herk.HerkUNUpdate | src/BLAS/Level3/Herk/HerkUN.cpp:89-187 | succeeds exactly when the shapes conform (C untouched otherwise); every entry of the block becomes `UpdatedEntry`: beta c + alpha (P Q^T)[i][j] on and above the diagonal; below it, beta c when i and j share a kernel leaf and c otherwise; entries outside the block are unchanged |
| Herk.HerkUNUpdateKernel | src/BLAS/Level3/Herk/HerkUN.cpp:189-294 | succeeds exactly when the shapes conform; the whole block is scaled by beta, and alpha (P Q^T)[i][j] is added on and above the diagonal (the top-right Gemm and the two trapezoidal diagonal products); nothing outside the block changes |
| Herk.AddUpperProduct | src/BLAS/Level3/Herk/HerkUN.cpp:276-288 | Gemm into a fresh D, `MakeTrapezoidal( Left, Upper )`, and `Axpy( 1, D, C' )` add alpha P'Q'^T to exactly the on-or-above-diagonal entries of the diagonal quadrant |
| Herk.GemmNT | src/BLAS/Level3/Herk/HerkUN.cpp:171-175 | the block becomes alpha P'Q'^T + beta times its old value; everything else is unchanged |
| Herk.ScalBlock | src/BLAS/Level3/Herk/HerkUN.cpp:62 | `Scal( beta, C )` on a block: the block is multiplied by beta, the rest is unchanged |
| Herk.MakeUpperTrapezoidal | src/BLAS/Level3/Herk/HerkUN.cpp:280 | zeroes exactly the entries strictly below the diagonal |
| Herk.AxpyBlock | src/BLAS/Level3/Herk/HerkUN.cpp:281 | adds alpha X to the block at (r0, c0) and nothing else |
| Herk.Cutoff | src/BLAS/Level3/Herk/HerkUN.cpp:141 | the kernel cutoff 2 gridWidth blocksize is at least 2 |
| Herk.SplitShrinks | src/BLAS/Level3/Herk/HerkUN.cpp:141-182 | a block at or above the cutoff splits into two nonempty, strictly smaller diagonal quadrants, so the recursion ends |
| Herk.SameLeafDiagonal | src/BLAS/Level3/Herk/HerkUN.cpp:141-182 | every diagonal entry lands in some kernel call |
| Herk.SameLeafNearDiagonal | src/BLAS/Level3/Herk/HerkUN.cpp:141-182 | two entries handled by the same kernel call are fewer than `cutoff` rows apart, so beta reaches only a band below the diagonal |
| Herk.UnitBetaKeepsLower | src/BLAS/Level3/Herk/HerkUN.cpp:75-76 | with beta = 1, as `HerkUN` calls it, the update never changes an entry below the diagonal |
| Herk.UpdatedEntryTop | src/BLAS/Level3/Herk/HerkUN.cpp:162-179 | the recursive update of CTL with AT agrees with the whole block's `UpdatedEntry` on that quadrant |
| Herk.UpdatedEntryBottom | src/BLAS/Level3/Herk/HerkUN.cpp:162-182 | the recursive update of CBR with AB agrees with the whole block's `UpdatedEntry` on that quadrant |
| Herk.ColumnPanel | src/BLAS/Level3/Herk/HerkUN.cpp:66-67 | the panel A1 holds columns [k0, k0+nb) of every row of A |
| Herk.Panel.Top | src/BLAS/Level3/Herk/HerkUN.cpp:162-166 | `LockedPartitionDown`'s top part holds the first `half` rows |
| Herk.Panel.Bottom | src/BLAS/Level3/Herk/HerkUN.cpp:162-166 | the bottom part holds the rows from `half` on |
| IPF.SoundAttainable | src/optimization/solvers/LP/affine/IPM/IPF.cpp:234-246 | the facts assumed of `Nrm2`, `MaxStepInPositiveCone`, the line search and the other collaborators are consistent: for any Euclidean norm there are oracles using it that satisfy `Sound` |
| IPF.IPF | src/optimization/solvers/LP/affine/IPM/IPF.cpp:40-271 | the whole driver (equilibration, warm-start scaling, `Initialize`, the loop, exit unscaling on a normal return) returns exactly `Solve`'s status and iterate |
| IPF.Iterate | src/optimization/solvers/LP/affine/IPM/IPF.cpp:107-261 | the loop's `for`, `break`s and throws end exactly as `Run` from numIts = 0 says, with the iterate as it stood |
| IPF.Measure | src/optimization/solvers/LP/affine/IPM/IPF.cpp:118-153 | mu, the residuals and relError computed step by step with `Gemv`/`Axpy` equal the duality measure, `ResidualsOf` and `RelErrorAt` |
| IPF.ComputeDirection | src/optimization/solvers/LP/affine/IPM/IPF.cpp:185-205 | r_mu, the KKT system, the solve (None when it throws) and `ExpandSolution` give `SearchDirection` |
| IPF.ChooseStep | src/optimization/solvers/LP/affine/IPM/IPF.cpp:234-246 | the step is the line search capped at 0.99 min(alphaPrimal, alphaDual) with targets targetTol (1 + norm), that is `StepLength` |
| IPF.Solve | src/optimization/solvers/LP/affine/IPM/IPF.cpp:58-99 | the returned iterate has the problem's sizes |
| IPF.Run | src/optimization/solvers/LP/affine/IPM/IPF.cpp:107 | the iterate the loop ends with has the problem's sizes |
| IPF.PassAt | src/optimization/solvers/LP/affine/IPM/IPF.cpp:109-260 | a pass that goes on yields an iterate and direction of the problem's sizes; a stop never reports an exhausted budget |
| IPF.PassOutcomes | src/optimization/solvers/LP/affine/IPM/IPF.cpp:111-204 | a logic error (with both nonpositive counts) exactly when s or z leaves the cone, before any other test; every other stop keeps the checked iterate; `Converged` exactly when relError <= targetTol; a fallback only with targetTol < relError <= minTol; a runtime error only beyond minTol; the budget error exactly at numIts = maxIts with relError > minTol |
| IPF.PassStep | src/optimization/solvers/LP/affine/IPM/IPF.cpp:234-260 | a pass that goes on starts inside the cone, produces a direction of the problem's sizes, and moves x, y, z, s by one joint step with 0 < alpha <= 0.99 min(alphaPrimal, alphaDual) |
| IPF.BackoffKeepsPositive | src/optimization/solvers/LP/affine/IPM/IPF.cpp:234-252 | a positive entry moved by alpha <= 0.99 times a step that at most reaches zero stays positive |
| IPF.AxpyKeepsPositive | src/optimization/solvers/LP/affine/IPM/IPF.cpp:249-252 | the same for a whole vector under `Axpy` |
| IPF.MaxStepStaysInCone | src/optimization/solvers/LP/affine/IPM/IPF.cpp:234-235 | the cone step lies in [0, upper] and v + alphaMax dv stays nonnegative |
| IPF.StepKeepsCone | src/optimization/solvers/LP/affine/IPM/IPF.cpp:234-252 | a joint step of length within the 0.99 cap, from inside the cone, leaves s and z strictly positive |
| IPF.PassKeepsCone | src/optimization/solvers/LP/affine/IPM/IPF.cpp:109-260 | a pass that goes on leaves s and z strictly inside the cone |
| IPF.RunStaysInCone | src/optimization/solvers/LP/affine/IPM/IPF.cpp:107-116 | from an iterate inside the cone the loop never ends in the cone guard's logic error |
| IPF.RatioWithin | src/optimization/solvers/LP/affine/IPM/IPF.cpp:135 | norm / (1 + rhs norm) <= tol exactly when the norm is <= tol (1 + rhs norm), the absolute target the line search is given (line 243) |
| IPF.NormWithin | src/optimization/solvers/LP/affine/IPM/IPF.cpp:134-135 | a norm whose ratio is within tol has its square within (tol (1 + rhs norm))^2 |
| IPF.ResidualWithin | src/optimization/solvers/LP/affine/IPM/IPF.cpp:134-135 | a residual vector whose relative `Nrm2` is within tol has sum of squares within (tol (1 + rhs norm))^2 |
| IPF.ResidualsWithin | src/optimization/solvers/LP/affine/IPM/IPF.cpp:131-150 | the same for r_b, r_c and r_h together |
| IPF.WithinTolBoundsResiduals | src/optimization/solvers/LP/affine/IPM/IPF.cpp:126-177 | an iterate whose relError is within tol meets tol in absolute terms (`MeetsTargets`): ||r_b||^2 <= (tol (1 + ||b||))^2, likewise r_c and r_h, and |primal - dual| <= tol (1 + |primal|) |
| IPF.ConvergedResiduals | src/optimization/solvers/LP/affine/IPM/IPF.cpp:107-177 | a run ending in `Converged` returns an iterate meeting targetTol in those absolute terms |
| IPF.RunBounds | src/optimization/solvers/LP/affine/IPM/IPF.cpp:107 | numIts never decreases; the run exhausts its passes exactly when it ends past maxIts, and then at maxIts + 1 (or where it began, if already past) |
| IPF.RunEnds | src/optimization/solvers/LP/affine/IPM/IPF.cpp:107-261 | in terms of the returned iterate: a logic error only outside the cone, with the counts; `Converged` only within targetTol; a fallback after a failed solve or a zero step only within minTol; a runtime error only beyond minTol, and for the budget only at numIts = maxIts |
| IPF.ConvergesAtFirstCheck | src/optimization/solvers/LP/affine/IPM/IPF.cpp:176-177 | an in-cone iterate within targetTol ends the run at once with `Converged` and that iterate |
| IPF.SolveConverged | src/optimization/solvers/LP/affine/IPM/IPF.cpp:264-270 | when the driver converges, the returned (unscaled) iterate, mapped back into the equilibrated coordinates, meets targetTol in the equilibrated problem |
| IPF.UnequilibratedSolve | src/optimization/solvers/LP/affine/IPM/IPF.cpp:86-91 | with `outerEquil` off the driver is the bare loop on the original problem from the initialized point |
| IPF.EquilibrationRoundTrip | src/optimization/solvers/LP/affine/IPM/IPF.cpp:264-270 | the exit rescaling x / dCol, y / dRowA, z / dRowG, s dRowG undoes the entry rescaling of the iterate, and the other way round |
| IPF.OnesFactorsChangeNothing | src/optimization/solvers/LP/affine/IPM/IPF.cpp:86-91 | with all-ones factors neither rescaling changes the iterate |
| IPF.FactorsOf | src/optimization/solvers/LP/affine/IPM/IPF.cpp:67-91 | the factors fit the problem and are nonzero; without `outerEquil`, A and G are kept and all factors are ones |
| IPF.ScaledProblem | src/optimization/solvers/LP/affine/IPM/IPF.cpp:72-74 | b / dRowA, h / dRowG, c / dCol entrywise, with the rescaled A and G |
| IPF.ScaleWarmStart | src/optimization/solvers/LP/affine/IPM/IPF.cpp:75-84 | x dCol and s / dRowG only with `primalInit`, y dRowA and z dRowG only with `dualInit`, the rest untouched |
| IPF.NumNonPositive | src/optimization/solvers/LP/affine/IPM/IPF.cpp:111-116 | at most the length, and zero exactly when every entry is positive |
| IPF.DualityMeasurePositive | src/optimization/solvers/LP/affine/IPM/IPF.cpp:120 | inside the cone mu = s^T z / k is nonnegative, and positive when k > 0 |
| IPF.ResidualsOf | src/optimization/solvers/LP/affine/IPM/IPF.cpp:131-148 | rb = A x - b, rc = A^T y + G^T z + c, rh = G x + s - h entrywise |
| IPF.NormsOf | src/optimization/solvers/LP/affine/IPM/IPF.cpp:93-95 | the three norms are nonnegative |
| IPF.Ratio | src/optimization/solvers/LP/affine/IPM/IPF.cpp:135 | a relative residual is nonnegative, at most the residual norm, and zero exactly when the residual norm is |
| IPF.ObjConv | src/optimization/solvers/LP/affine/IPM/IPF.cpp:126-128 | the relative gap is nonnegative and zero exactly when the primal and dual objectives agree |
| IPF.RelError | src/optimization/solvers/LP/affine/IPM/IPF.cpp:153 | relError bounds the four ratios and equals one of them |
| IPF.RelErrorWithin | src/optimization/solvers/LP/affine/IPM/IPF.cpp:153-177 | relError <= tol exactly when all four ratios are |
| IPF.RelErrorAt | src/optimization/solvers/LP/affine/IPM/IPF.cpp:126-153 | relError of an iterate is nonnegative |
| IPF.CenteringResidual | src/optimization/solvers/LP/affine/IPM/IPF.cpp:187-189 | r_mu[i] = s[i] z[i] - sigma mu |
| IPF.SearchDirection | src/optimization/solvers/LP/affine/IPM/IPF.cpp:185-205 | a direction, when the solve succeeds, has the problem's sizes |
| IPF.StepCap | src/optimization/solvers/LP/affine/IPM/IPF.cpp:234-242 | the cap is 0.99 times the smaller of the two cone steps |
| IPF.StepLength | src/optimization/solvers/LP/affine/IPM/IPF.cpp:234-246 | 0 <= alpha <= 0.99 min(alphaPrimal, alphaDual), and alpha <= 0.99 |
| IPF.JointStep | src/optimization/solvers/LP/affine/IPM/IPF.cpp:249-252 | x, y, z and s each move by the same alpha along their direction |
| IPF.JointStepZero | src/optimization/solvers/LP/affine/IPM/IPF.cpp:249-253 | a zero step leaves the iterate unchanged |
| IPF.Tolerate | src/optimization/solvers/LP/affine/IPM/IPF.cpp:196-204 | after a failed solve or zero step: a normal return exactly when relError <= minTol, a runtime error otherwise, with the cause kept |
| IPF.Unscale | src/optimization/solvers/LP/affine/IPM/IPF.cpp:264-270 | the unscaled iterate keeps the problem's sizes |
| IPF.ScaleIterate | src/optimization/solvers/LP/affine/IPM/IPF.cpp:75-84 | the scaled iterate keeps the problem's sizes |
| IPF.PowerGrows | src/optimization/solvers/LP/affine/IPM/IPF.cpp:561-562 | above 1, powers are at least 1 and strictly increasing |
| IPF.EquilTolsOrdered | src/optimization/solvers/LP/affine/IPM/IPF.cpp:561-562 | for any eps in (0, 1), 1 < diagEquilTol = eps^-0.15 < ruizEquilTol = eps^-0.25 |
| IPF.MaxNorm | src/optimization/solvers/LP/affine/IPM/IPF.cpp:673 | || w ||_max is nonnegative, bounds every |w_i| and equals one of them when w is nonempty |
| IPF.EquilTier | src/optimization/solvers/LP/affine/IPM/IPF.cpp:754-759 | Ruiz exactly when || w ||_max >= ruizEquilTol, diagonal exactly when it lies in [diagEquilTol, ruizEquilTol), none exactly when it is below both |
| IPF.EquilTierMonotone | src/optimization/solvers/LP/affine/IPM/IPF.cpp:754-759 | with ordered thresholds a larger || w ||_max never selects a weaker equilibration |
| IPF.InnerScaling | src/optimization/solvers/LP/affine/IPM/IPF.cpp:754-759 | dInner is the Ruiz or diagonal scaling in those tiers and all ones of J's height otherwise |
| IPF.NormEstimate | src/optimization/solvers/LP/affine/IPM/IPF.cpp:602-604 | origTwoNormEst is at least 1 |
| IPF.RegularizationVectors | src/optimization/solvers/LP/affine/IPM/IPF.cpp:616-634 | both vectors have m+n+k entries: regTmp = est regPrimal on the first n and -est regDual after; regPerm = est 10 eps and -est 10 eps (eps the machine epsilon, a parameter) |
| IPF.RegularizationSigns | src/optimization/solvers/LP/affine/IPM/IPF.cpp:616-634 | with nonnegative parameters and eps > 0 the vectors have the quasi-semidefinite sign pattern: nonnegative (regPerm positive) on x, nonpositive (negative) on y and z |
| IPF.AddToDiagonal | src/optimization/solvers/LP/affine/IPM/IPF.cpp:752 | `UpdateRealPartOfDiagonal( J, 1, regTmp )` adds regTmp to the diagonal and changes nothing else |

On a normal return with `outerEquil` set, the driver divides x by dCol, y by dRowA and z by dRowG, and multiplies s by dRowG (IPF.cpp:264-270, `IPF.Unscale`).

## Left out

- Floating point: the model uses exact `real` arithmetic. Rounding, NaN and infinities are not modelled. `Pow(eps, -0.15)` and `Pow(eps, -0.25)` are modelled exactly through a parameter epsRoot = eps^(-1/20) > 1.
- IPF.DualityMeasure: with k = 0 the source computes 0/0 (NaN), which is then used only to shift an empty vector; the model uses 0.
- Complex scalars and the `ConjugateTranspose` of `HerkUN`: the model is real, so A^H is A^T.
- Distribution: the process grid, `[MC,*]`/`[MR,*]` redistributions, alignments and the grid-equality checks of `HerkUN.cpp` are not modelled. The two copies of a panel are two `Panel` values. Only `gridWidth` survives, through the kernel cutoff.
- Debug-only checks of `HerkUN` (the `#ifndef RELEASE` blocks) are modelled as an `ok` result rather than a thrown exception, and the call-stack bookkeeping is not modelled.
- The collaborators `StackedRuizEquil`, `Initialize`, `KKT`, `KKTRHS`, `symm_solve::Overwrite`, `ExpandSolution`, `MaxStepInPositiveCone`, `IPFLineSearch`, `Nrm2`, `TwoNormEstimate`, `SymmetricRuizEquil` and `SymmetricDiagonalEquil` are not part of this model. They are oracles constrained only by `IPF.Sound`; the two norm estimates are parameters.
- The sparse overload's own steps are left out: the regularised LDL factorization (`LDL`, `reg_qsd_ldl::SolveAfter`), `StaticKKT`/`FinishKKT`, `PositiveNesterovTodd`, nested dissection, `JFront.Pull`, and the distributed variants. Of the sparse set-up, only the regularisation vectors (`IPF.RegularizationVectors`), the equilibration thresholds and tier (`IPF.EquilTier`, `IPF.InnerScaling`) and the diagonal update (`IPF.AddToDiagonal`) are modelled, as separate members outside `IPF.IPF`. The loop they sit in is the one modelled.
- Printing (`ctrl.print`, `Output`, the `checkResiduals` diagnostics) and indentation have no effect on the result and are left out.
- The `lineSearchCtrl`, `qsdCtrl` and `basisSize` settings are passed only to collaborators and are not modelled.
- IPF.Run, IPF.Iterate: when every pass has been used, the source returns normally with no status. The model reports this as `ToleranceFallback(IterationsSpent)`. The model proves nothing about the relError of the iterate returned in that case.
- IPF.PassAt: the oracle for the solve returns `None` in place of any exception that `symm_solve::Overwrite` throws.
- The nested-dissection ordering of the sparse KKT system is not part of this model. The driver computes the ordering of `JStatic` itself only when both warm starts are given (IPF.cpp:641-645); otherwise it uses the ordering `Initialize` returns. Either way every pass pulls J and solves with that ordering.
