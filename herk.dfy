/**
 * The upper/normal Hermitian rank-k update of src/BLAS/Level3/Herk/HerkUN.cpp,
 * over real entries (so A^H is A^T):
 *
 *   C := alpha A A^T + beta C      on and above the diagonal of C.
 *
 * `HerkUN` scales C by beta, then slides a column panel of width `blocksize`
 * across A from left to right and hands each panel to `HerkUNUpdate`, which
 * splits the square block of C it is given into quadrants, updates the
 * top-right one with one matrix product and recurses on the two diagonal
 * ones until a block is shorter than 2 * gridWidth * blocksize; there
 * `HerkUNUpdateKernel` adds only the upper-trapezoidal parts of the diagonal
 * blocks.
 *
 * C is an `array2<real>` updated in place. A quadrant view of C is the pair
 * (off, h): the h x h block whose top-left entry is C[off, off]. The two
 * copies of a panel the source keeps (one per grid direction, A[MC,*] and
 * A[MR,*]) are two `Panel` values; `HerkUN` passes the same panel twice.
 */
module Herk {
  import opened LinAlg

  /** A panel of A: `|rows|` rows of `width` entries each. */
  datatype Panel = Panel(rows: seq<Vector>, width: nat) {
    predicate Valid() {
      forall r | 0 <= r < |rows| :: |rows[r]| == width
    }

    function Height(): nat {
      |rows|
    }

    /** `LockedPartitionDown`, top part: the first `half` rows. */
    function Top(half: nat): (p: Panel)
      requires Valid() && half <= Height()
      ensures p.Valid() && p.Height() == half && p.width == width
      ensures forall r | 0 <= r < half :: p.rows[r] == rows[r]
    {
      Panel(rows[..half], width)
    }

    /** `LockedPartitionDown`, bottom part: the rows from `half` on. */
    function Bottom(half: nat): (p: Panel)
      requires Valid() && half <= Height()
      ensures p.Valid() && p.Height() == Height() - half && p.width == width
      ensures forall r | 0 <= r < Height() - half :: p.rows[r] == rows[half + r]
    {
      Panel(rows[half..], width)
    }
  }

  /** The panel of columns [k0, k0 + nb) of A (`LockedRepartitionRight`). */
  function ColumnPanel(A: Panel, k0: nat, nb: nat): (p: Panel)
    requires A.Valid() && k0 + nb <= A.width
    ensures p.Valid() && p.Height() == A.Height() && p.width == nb
    ensures forall r | 0 <= r < A.Height() :: p.rows[r] == A.rows[r][k0..k0 + nb]
  {
    Panel(seq(A.Height(), r requires 0 <= r < A.Height() => A.rows[r][k0..k0 + nb]), nb)
  }

  /** Entry (i, j) of P Q^T. */
  function Product(P: Panel, Q: Panel, i: nat, j: nat): real
    requires P.Valid() && Q.Valid() && P.width == Q.width
    requires i < P.Height() && j < Q.Height()
  {
    Dot(P.rows[i], Q.rows[j])
  }

  /** The shape check `HerkUNUpdate` and its kernel make before touching C. */
  predicate Conformal(P: Panel, Q: Panel, cHeight: nat, cWidth: nat) {
    P.Height() == cHeight && Q.Height() == cWidth &&
    P.Height() == Q.Height() && P.width == Q.width
  }

  /** (i, j) lies in the rows x cols block whose top-left entry is (r0, c0). */
  predicate InBlock(i: int, j: int, r0: nat, c0: nat, rows: nat, cols: nat) {
    r0 <= i < r0 + rows && c0 <= j < c0 + cols
  }

  /** The height below which `HerkUNUpdate` calls the kernel: 2 * gridWidth * Blocksize(). */
  function Cutoff(gridWidth: nat, blocksize: nat): (c: nat)
    requires gridWidth >= 1 && blocksize >= 1
    ensures c >= 2
  {
    assert gridWidth * blocksize >= 1 by {
      assert gridWidth * blocksize >= 1 * blocksize;
    }
    2 * gridWidth * blocksize
  }

  /** Once a block is too tall for the kernel, both halves of the split are nonempty and strictly smaller. */
  lemma SplitShrinks(h: nat, gridWidth: nat, blocksize: nat)
    requires gridWidth >= 1 && blocksize >= 1
    requires h >= Cutoff(gridWidth, blocksize)
    ensures 1 <= h / 2 < h && 1 <= h - h / 2 < h
  {
  }

  /**
   * Whether local entries i and j of an h x h block end up in the same
   * kernel call once `HerkUNUpdate` has split the block down to blocks
   * shorter than `cutoff`.
   */
  function SameLeaf(h: nat, i: nat, j: nat, cutoff: nat): bool
    requires cutoff >= 2
    decreases h
  {
    if h < cutoff then true
    else
      var half := h / 2;
      if i < half && j < half then SameLeaf(half, i, j, cutoff)
      else if half <= i && half <= j then SameLeaf(h - half, i - half, j - half, cutoff)
      else false
  }

  /** Every diagonal entry falls in some kernel call. */
  lemma {:induction false} SameLeafDiagonal(h: nat, i: nat, cutoff: nat)
    requires cutoff >= 2
    ensures SameLeaf(h, i, i, cutoff)
    decreases h
  {
    if h >= cutoff {
      var half := h / 2;
      if i < half {
        SameLeafDiagonal(half, i, cutoff);
      } else {
        SameLeafDiagonal(h - half, i - half, cutoff);
      }
    }
  }

  /** Two entries of the same kernel call are less than `cutoff` rows apart. */
  lemma {:induction false} SameLeafNearDiagonal(h: nat, i: nat, j: nat, cutoff: nat)
    requires cutoff >= 2 && i < h && j < h
    requires SameLeaf(h, i, j, cutoff)
    ensures i - j < cutoff && j - i < cutoff
    decreases h
  {
    if h >= cutoff {
      var half := h / 2;
      if i < half && j < half {
        SameLeafNearDiagonal(half, i, j, cutoff);
      } else {
        SameLeafNearDiagonal(h - half, i - half, j - half, cutoff);
      }
    }
  }

  /**
   * What `HerkUNUpdate` leaves in local entry (i, j) of its h x h block when
   * that entry held c: on and above the diagonal beta c + alpha (P Q^T)[i][j];
   * below it, beta c where the kernel scaled the whole of its block, and c
   * where the recursion skipped the bottom-left quadrant.
   */
  function UpdatedEntry(alpha: real, beta: real, P: Panel, Q: Panel, cutoff: nat,
                        i: nat, j: nat, c: real): real
    requires cutoff >= 2
    requires P.Valid() && Q.Valid() && Conformal(P, Q, P.Height(), P.Height())
    requires i < P.Height() && j < P.Height()
  {
    if i <= j then beta * c + alpha * Product(P, Q, i, j)
    else if SameLeaf(P.Height(), i, j, cutoff) then beta * c
    else c
  }

  /** With beta = 1, as `HerkUN` calls it, the update never changes an entry below the diagonal. */
  lemma UnitBetaKeepsLower(alpha: real, P: Panel, Q: Panel, cutoff: nat, i: nat, j: nat, c: real)
    requires cutoff >= 2
    requires P.Valid() && Q.Valid() && Conformal(P, Q, P.Height(), P.Height())
    requires j < i < P.Height()
    ensures UpdatedEntry(alpha, 1.0, P, Q, cutoff, i, j, c) == c
  {
  }

  /** `Scal( beta, C )` restricted to a block of C. */
  method ScalBlock(beta: real, C: array2<real>, r0: nat, c0: nat, rows: nat, cols: nat)
    requires r0 + rows <= C.Length0 && c0 + cols <= C.Length1
    modifies C
    ensures forall i, j | 0 <= i < C.Length0 && 0 <= j < C.Length1 ::
      C[i, j] == if InBlock(i, j, r0, c0, rows, cols) then beta * old(C[i, j]) else old(C[i, j])
  {
    forall i, j | r0 <= i < r0 + rows && c0 <= j < c0 + cols {
      C[i, j] := beta * C[i, j];
    }
  }

  /**
   * `Gemm( Normal, ConjugateTranspose, alpha, P', Q', beta, C' )` where P'
   * holds rows [pRow0, pRow0 + rows) of P, Q' rows [qRow0, qRow0 + cols)
   * of Q and C' is the rows x cols block of C at (r0, c0).
   */
  method GemmNT(alpha: real, P: Panel, pRow0: nat, Q: Panel, qRow0: nat, beta: real,
                C: array2<real>, r0: nat, c0: nat, rows: nat, cols: nat)
    requires P.Valid() && Q.Valid() && P.width == Q.width
    requires pRow0 + rows <= P.Height() && qRow0 + cols <= Q.Height()
    requires r0 + rows <= C.Length0 && c0 + cols <= C.Length1
    modifies C
    ensures forall i, j | 0 <= i < C.Length0 && 0 <= j < C.Length1 ::
      C[i, j] == if InBlock(i, j, r0, c0, rows, cols)
                 then alpha * Product(P, Q, pRow0 + (i - r0), qRow0 + (j - c0)) + beta * old(C[i, j])
                 else old(C[i, j])
  {
    forall i, j | r0 <= i < r0 + rows && c0 <= j < c0 + cols {
      C[i, j] := alpha * Product(P, Q, pRow0 + (i - r0), qRow0 + (j - c0)) + beta * C[i, j];
    }
  }

  /** `MakeTrapezoidal( Left, Upper )`: zero every entry strictly below the diagonal. */
  method MakeUpperTrapezoidal(D: array2<real>)
    modifies D
    ensures forall i, j | 0 <= i < D.Length0 && 0 <= j < D.Length1 ::
      D[i, j] == if j < i then 0.0 else old(D[i, j])
  {
    forall i, j | 0 <= i < D.Length0 && 0 <= j < D.Length1 && j < i {
      D[i, j] := 0.0;
    }
  }

  /** `Axpy( alpha, X, C' )` where C' is the block of C at (r0, c0) of X's shape. */
  method AxpyBlock(alpha: real, X: array2<real>, C: array2<real>, r0: nat, c0: nat)
    requires X != C
    requires r0 + X.Length0 <= C.Length0 && c0 + X.Length1 <= C.Length1
    modifies C
    ensures forall i, j | 0 <= i < C.Length0 && 0 <= j < C.Length1 ::
      C[i, j] == if InBlock(i, j, r0, c0, X.Length0, X.Length1)
                 then alpha * X[i - r0, j - c0] + old(C[i, j])
                 else old(C[i, j])
  {
    forall i, j | r0 <= i < r0 + X.Length0 && c0 <= j < c0 + X.Length1 {
      C[i, j] := alpha * X[i - r0, j - c0] + C[i, j];
    }
  }

  /**
   * The kernel's treatment of a diagonal quadrant: `Gemm` alpha P' Q'^T into
   * a fresh h x h matrix D, `MakeTrapezoidal( Left, Upper )` on D, then
   * `Axpy( 1, D, C' )` into the h x h block C' of C at (off, off); P' and Q'
   * are rows [row0, row0 + h) of P and Q.
   */
  method AddUpperProduct(alpha: real, P: Panel, Q: Panel, row0: nat,
                         C: array2<real>, off: nat, h: nat)
    requires P.Valid() && Q.Valid() && P.width == Q.width
    requires row0 + h <= P.Height() && row0 + h <= Q.Height()
    requires off + h <= C.Length0 && off + h <= C.Length1
    modifies C
    ensures forall i, j | 0 <= i < C.Length0 && 0 <= j < C.Length1 ::
      C[i, j] == if InBlock(i, j, off, off, h, h) && i <= j
                 then old(C[i, j]) + alpha * Product(P, Q, row0 + (i - off), row0 + (j - off))
                 else old(C[i, j])
  {
    var D := new real[h, h];
    GemmNT(alpha, P, row0, Q, row0, 0.0, D, 0, 0, h, h);
    MakeUpperTrapezoidal(D);
    AxpyBlock(1.0, D, C, off, off);
  }

  /**
   * `HerkUNUpdateKernel`: after the shape check, scale the whole h x h block
   * at (off, off) by beta, add alpha AT AB^T to its top-right quadrant, and
   * add the upper-trapezoidal parts of alpha AT AT^T and alpha AB AB^T to its
   * two diagonal quadrants.
   */
  method HerkUNUpdateKernel(alpha: real, P: Panel, Q: Panel, beta: real,
                            C: array2<real>, off: nat, h: nat) returns (ok: bool)
    requires P.Valid() && Q.Valid()
    requires off + h <= C.Length0 && off + h <= C.Length1
    modifies C
    ensures ok == Conformal(P, Q, h, h)
    ensures forall i, j | 0 <= i < C.Length0 && 0 <= j < C.Length1 ::
      C[i, j] == if ok && InBlock(i, j, off, off, h, h) then
                   (if i <= j then beta * old(C[i, j]) + alpha * Product(P, Q, i - off, j - off)
                    else beta * old(C[i, j]))
                 else old(C[i, j])
  {
    if P.Height() != h || Q.Height() != h || P.Height() != Q.Height() || P.width != Q.width {
      return false;
    }
    ok := true;
    var half := h / 2;
    ScalBlock(beta, C, off, off, h, h);
    label Scaled:
    GemmNT(alpha, P, 0, Q, half, 1.0, C, off, off + half, half, h - half);
    label TopRight:
    AddUpperProduct(alpha, P, Q, 0, C, off, half);
    label TopLeft:
    AddUpperProduct(alpha, P, Q, half, C, off + half, h - half);
    forall i, j | 0 <= i < C.Length0 && 0 <= j < C.Length1
      ensures C[i, j] == if InBlock(i, j, off, off, h, h) then
                           (if i <= j then beta * old(C[i, j]) + alpha * Product(P, Q, i - off, j - off)
                            else beta * old(C[i, j]))
                         else old(C[i, j])
    {
      var c0, c1, c2, c3 := old(C[i, j]), old@Scaled(C[i, j]), old@TopRight(C[i, j]), old@TopLeft(C[i, j]);
      if InBlock(i, j, off, off, h, h) {
        assert c1 == beta * c0;
        if i < off + half && off + half <= j {
          assert c2 == alpha * Product(P, Q, i - off, j - off) + 1.0 * c1;
          assert C[i, j] == c3 == c2;
        } else if i < off + half {
          assert c2 == c1;
          assert C[i, j] == c3;
        } else if off + half <= j {
          assert c3 == c2 == c1;
        } else {
          assert C[i, j] == c3 == c2 == c1;
        }
      } else {
        assert C[i, j] == c3 == c2 == c1 == c0;
      }
    }
  }

  /** The update of the top-left quadrant, seen from the whole block. */
  lemma UpdatedEntryTop(alpha: real, beta: real, P: Panel, Q: Panel, cutoff: nat, half: nat,
                        i: nat, j: nat, c: real)
    requires cutoff >= 2
    requires P.Valid() && Q.Valid() && Conformal(P, Q, P.Height(), P.Height())
    requires cutoff <= P.Height() && half == P.Height() / 2 && i < half && j < half
    ensures UpdatedEntry(alpha, beta, P.Top(half), Q.Top(half), cutoff, i, j, c)
         == UpdatedEntry(alpha, beta, P, Q, cutoff, i, j, c)
  {
  }

  /** The update of the bottom-right quadrant, seen from the whole block. */
  lemma UpdatedEntryBottom(alpha: real, beta: real, P: Panel, Q: Panel, cutoff: nat, half: nat,
                           i: nat, j: nat, c: real)
    requires cutoff >= 2
    requires P.Valid() && Q.Valid() && Conformal(P, Q, P.Height(), P.Height())
    requires cutoff <= P.Height() && half == P.Height() / 2 && half <= i < P.Height() && half <= j < P.Height()
    ensures UpdatedEntry(alpha, beta, P.Bottom(half), Q.Bottom(half), cutoff, i - half, j - half, c)
         == UpdatedEntry(alpha, beta, P, Q, cutoff, i, j, c)
  {
  }

  /**
   * `HerkUNUpdate`: after the shape check, a block shorter than the cutoff
   * goes to the kernel; a taller one is split at half = h / 2, its top-right
   * quadrant gets alpha AT AB^T + beta CTR, the update recurses on the two
   * diagonal quadrants, and the bottom-left quadrant is left alone.
   */
  method HerkUNUpdate(alpha: real, P: Panel, Q: Panel, beta: real, C: array2<real>,
                      off: nat, h: nat, gridWidth: nat, blocksize: nat) returns (ok: bool)
    requires gridWidth >= 1 && blocksize >= 1
    requires P.Valid() && Q.Valid()
    requires off + h <= C.Length0 && off + h <= C.Length1
    modifies C
    ensures ok == Conformal(P, Q, h, h)
    ensures forall i, j | 0 <= i < C.Length0 && 0 <= j < C.Length1 ::
      C[i, j] == if ok && InBlock(i, j, off, off, h, h)
                 then UpdatedEntry(alpha, beta, P, Q, Cutoff(gridWidth, blocksize), i - off, j - off, old(C[i, j]))
                 else old(C[i, j])
    decreases h
  {
    if P.Height() != h || Q.Height() != h || P.Height() != Q.Height() || P.width != Q.width {
      return false;
    }
    var cutoff := Cutoff(gridWidth, blocksize);
    if h < cutoff {
      ok := HerkUNUpdateKernel(alpha, P, Q, beta, C, off, h);
    } else {
      SplitShrinks(h, gridWidth, blocksize);
      var half := h / 2;
      GemmNT(alpha, P, 0, Q, half, beta, C, off, off + half, half, h - half);
      label TopRight:
      var okTop := HerkUNUpdate(alpha, P.Top(half), Q.Top(half), beta, C, off, half, gridWidth, blocksize);
      label TopLeft:
      var okBottom := HerkUNUpdate(alpha, P.Bottom(half), Q.Bottom(half), beta, C, off + half, h - half,
                                   gridWidth, blocksize);
      ok := true;
      forall i, j | 0 <= i < C.Length0 && 0 <= j < C.Length1
        ensures C[i, j] == if InBlock(i, j, off, off, h, h)
                           then UpdatedEntry(alpha, beta, P, Q, cutoff, i - off, j - off, old(C[i, j]))
                           else old(C[i, j])
      {
        var c0, c1, c2 := old(C[i, j]), old@TopRight(C[i, j]), old@TopLeft(C[i, j]);
        if InBlock(i, j, off, off, h, h) {
          var li, lj := i - off, j - off;
          if li < half && lj < half {
            assert c1 == c0;
            assert C[i, j] == c2;
            UpdatedEntryTop(alpha, beta, P, Q, cutoff, half, li, lj, c0);
          } else if half <= li && half <= lj {
            assert c2 == c1 == c0;
            UpdatedEntryBottom(alpha, beta, P, Q, cutoff, half, li, lj, c0);
          } else if li < half {
            assert C[i, j] == c2 == c1;
          } else {
            assert C[i, j] == c2 == c1 == c0;
          }
        } else {
          assert C[i, j] == c2 == c1 == c0;
        }
      }
    }
  }

  /**
   * The panels `HerkUN` visits, as (first column, width) pairs: they start
   * at column 0, each begins where the previous one ended, all but the last
   * are `blocksize` wide, none is empty or wider than `blocksize`, and the
   * last ends at column `width`. Together they partition A's columns.
   */
  ghost predicate PanelsPartition(panels: seq<(nat, nat)>, width: nat, blocksize: nat) {
    (forall t | 0 <= t < |panels| ::
       1 <= panels[t].1 <= blocksize &&
       panels[t].0 == (if t == 0 then 0 else panels[t - 1].0 + panels[t - 1].1)) &&
    (forall t | 0 <= t < |panels| - 1 :: panels[t].1 == blocksize) &&
    (if |panels| == 0 then width == 0 else panels[|panels| - 1].0 + panels[|panels| - 1].1 == width)
  }

  /** Appending the next panel of the sweep keeps the panels a partition of the columns swept so far. */
  lemma PanelsExtend(panels: seq<(nat, nat)>, k0: nat, nb: nat, width: nat, blocksize: nat)
    requires PanelsPartition(panels, k0, blocksize)
    requires |panels| > 0 ==> panels[|panels| - 1].1 == blocksize
    requires 1 <= nb <= blocksize
    ensures PanelsPartition(panels + [(k0, nb)], k0 + nb, blocksize)
  {
  }

  /** Entry (i, j) of C, which held c, once the panels covering A's first k columns have been added. */
  function SweptEntry(alpha: real, A: Panel, k: nat, i: nat, j: nat, c: real): real
    requires A.Valid() && k <= A.width && i < A.Height() && j < A.Height()
  {
    if i <= j then c + alpha * Dot(A.rows[i][..k], A.rows[j][..k]) else c
  }

  /** One `HerkUNUpdate` with the panel of columns [k0, k0 + nb) and beta = 1 advances the sweep by nb columns. */
  lemma SweepStep(alpha: real, A: Panel, k0: nat, nb: nat, cutoff: nat, i: nat, j: nat, c: real)
    requires cutoff >= 2
    requires A.Valid() && k0 + nb <= A.width && i < A.Height() && j < A.Height()
    ensures UpdatedEntry(alpha, 1.0, ColumnPanel(A, k0, nb), ColumnPanel(A, k0, nb), cutoff, i, j,
                         SweptEntry(alpha, A, k0, i, j, c))
         == SweptEntry(alpha, A, k0 + nb, i, j, c)
  {
    DotPrefixSplit(A.rows[i], A.rows[j], k0, nb);
    if i > j {
      UnitBetaKeepsLower(alpha, ColumnPanel(A, k0, nb), ColumnPanel(A, k0, nb), cutoff, i, j,
                         SweptEntry(alpha, A, k0, i, j, c));
    }
  }

  /** Before the first panel, the sweep has changed nothing. */
  lemma SweptNone(alpha: real, A: Panel, i: nat, j: nat, c: real)
    requires A.Valid() && i < A.Height() && j < A.Height()
    ensures SweptEntry(alpha, A, 0, i, j, c) == c
  {
    assert A.rows[i][..0] == [] && A.rows[j][..0] == [];
  }

  /** Once the panels cover all of A's columns, the sweep has added alpha (A A^T)[i][j] on and above the diagonal. */
  lemma SweptAll(alpha: real, A: Panel, i: nat, j: nat, c: real)
    requires A.Valid() && i < A.Height() && j < A.Height()
    ensures SweptEntry(alpha, A, A.width, i, j, c)
         == if i <= j then c + alpha * Product(A, A, i, j) else c
  {
    assert A.rows[i][..A.width] == A.rows[i] && A.rows[j][..A.width] == A.rows[j];
  }

  /**
   * The panel loop of `HerkUN`: slide a panel of at most `blocksize`
   * columns across A from left to right and hand each to `HerkUNUpdate` with
   * beta = 1; together the updates add alpha A A^T to the upper triangle of
   * C and leave the rest alone, and the panels partition A's columns.
   */
  method SweepPanels(alpha: real, A: Panel, C: array2<real>, gridWidth: nat, blocksize: nat)
    returns (ghost panels: seq<(nat, nat)>)
    requires gridWidth >= 1 && blocksize >= 1
    requires A.Valid() && A.Height() == C.Length0 && A.Height() == C.Length1
    modifies C
    ensures PanelsPartition(panels, A.width, blocksize)
    ensures forall i, j | 0 <= i < C.Length0 && 0 <= j < C.Length1 ::
      C[i, j] == if i <= j then old(C[i, j]) + alpha * Product(A, A, i, j) else old(C[i, j])
  {
    panels := [];
    var n := C.Length0;
    var cutoff := Cutoff(gridWidth, blocksize);
    var k0 := 0;
    forall i, j | 0 <= i < n && 0 <= j < n
      ensures C[i, j] == SweptEntry(alpha, A, 0, i, j, old(C[i, j]))
    {
      SweptNone(alpha, A, i, j, old(C[i, j]));
    }
    while k0 < A.width
      invariant k0 <= A.width
      invariant PanelsPartition(panels, k0, blocksize)
      invariant |panels| > 0 && k0 < A.width ==> panels[|panels| - 1].1 == blocksize
      invariant forall i, j | 0 <= i < n && 0 <= j < n ::
        C[i, j] == SweptEntry(alpha, A, k0, i, j, old(C[i, j]))
      decreases A.width - k0
    {
      var nb := if blocksize < A.width - k0 then blocksize else A.width - k0;
      var A1 := ColumnPanel(A, k0, nb);
      label Before:
      var _ := HerkUNUpdate(alpha, A1, A1, 1.0, C, 0, n, gridWidth, blocksize);
      forall i, j | 0 <= i < n && 0 <= j < n
        ensures C[i, j] == SweptEntry(alpha, A, k0 + nb, i, j, old(C[i, j]))
      {
        assert old@Before(C[i, j]) == SweptEntry(alpha, A, k0, i, j, old(C[i, j]));
        assert C[i, j] == UpdatedEntry(alpha, 1.0, A1, A1, cutoff, i, j, old@Before(C[i, j]));
        SweepStep(alpha, A, k0, nb, cutoff, i, j, old(C[i, j]));
      }
      PanelsExtend(panels, k0, nb, A.width, blocksize);
      panels := panels + [(k0, nb)];
      k0 := k0 + nb;
    }
    forall i, j | 0 <= i < n && 0 <= j < n
      ensures C[i, j] == if i <= j then old(C[i, j]) + alpha * Product(A, A, i, j) else old(C[i, j])
    {
      SweptAll(alpha, A, i, j, old(C[i, j]));
    }
  }

  /**
   * `HerkUN`: after checking that A is as tall as C and C is square, C ends
   * as beta C + alpha A A^T on and above the diagonal and as beta C below it.
   */
  method HerkUN(alpha: real, A: Panel, beta: real, C: array2<real>, gridWidth: nat, blocksize: nat)
    returns (ok: bool, ghost panels: seq<(nat, nat)>)
    requires gridWidth >= 1 && blocksize >= 1
    requires A.Valid()
    modifies C
    ensures ok == (A.Height() == C.Length0 && A.Height() == C.Length1)
    ensures ok ==> PanelsPartition(panels, A.width, blocksize)
    ensures forall i, j | 0 <= i < C.Length0 && 0 <= j < C.Length1 ::
      C[i, j] == if !ok then old(C[i, j])
                 else if i <= j then beta * old(C[i, j]) + alpha * Product(A, A, i, j)
                 else beta * old(C[i, j])
  {
    panels := [];
    if A.Height() != C.Length0 || A.Height() != C.Length1 {
      return false, panels;
    }
    ok := true;
    ScalBlock(beta, C, 0, 0, C.Length0, C.Length1);
    panels := SweepPanels(alpha, A, C, gridWidth, blocksize);
  }
}
