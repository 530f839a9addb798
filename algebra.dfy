/**
 * Direction matrices and their projection.
 *
 * Every constraint direction matrix has `dim` rows and six columns, one per
 * relative direction tx, ty, tz, rx, ry, rz. It is stored column by column
 * with leading dimension `dim` (the `ColMajor{dim}` layout), so entry (r, c)
 * lives at index c * dim + r of a flat buffer of 6 * dim numbers.
 */
module Algebra {

  /** Index c * dim + r is inside a buffer of 6 * dim entries. */
  lemma IndexInBounds(dim: nat, r: nat, c: nat)
    requires r < dim && c < 6
    ensures c * dim + r < 6 * dim
  {
    assert c * dim <= 5 * dim;
  }

  /** Entry (r, c) of a dim-by-6 matrix stored column by column. */
  function At(m: seq<real>, dim: nat, r: nat, c: nat): real
    requires r < dim && c < 6 && |m| == 6 * dim
  {
    IndexInBounds(dim, r, c);
    m[c * dim + r]
  }

  /** The sum over the first k columns of row r of m, each times the matching entry of v. */
  function RowDot(m: seq<real>, dim: nat, r: nat, v: seq<real>, k: nat): real
    requires r < dim && k <= 6 && |m| == 6 * dim && |v| == 6
  {
    if k == 0 then 0.0 else RowDot(m, dim, r, v, k - 1) + At(m, dim, r, k - 1) * v[k - 1]
  }

  /** The matrix-vector product m * v (s_mm with one right-hand column). */
  function Project(m: seq<real>, dim: nat, v: seq<real>): (p: seq<real>)
    requires |m| == 6 * dim && |v| == 6
    ensures |p| == dim
  {
    seq(dim, r requires 0 <= r < dim => RowDot(m, dim, r, v, 6))
  }

  /** The negated product -(m * v) (s_mmi with one right-hand column). */
  function ProjectNeg(m: seq<real>, dim: nat, v: seq<real>): (p: seq<real>)
    requires |m| == 6 * dim && |v| == 6
    ensures |p| == dim
    ensures forall r :: 0 <= r < dim ==> p[r] == -Project(m, dim, v)[r]
  {
    seq(dim, r requires 0 <= r < dim => -RowDot(m, dim, r, v, 6))
  }

  /** v with x added to its entry k, the other entries as they were. */
  function AddAt(v: seq<real>, k: nat, x: real): (w: seq<real>)
    requires k < |v|
    ensures |w| == |v| && w[k] == v[k] + x
    ensures forall i :: 0 <= i < |v| && i != k ==> w[i] == v[i]
  {
    v[k := v[k] + x]
  }

  /** Entrywise sum of two vectors of the same length. */
  function Add(u: seq<real>, v: seq<real>): (w: seq<real>)
    requires |u| == |v|
    ensures |w| == |u|
  {
    seq(|u|, i requires 0 <= i < |u| => u[i] + v[i])
  }

  /** The vector of n zeros. */
  function Zeros(n: nat): (z: seq<real>)
    ensures |z| == n
  {
    seq(n, i => 0.0)
  }

  /**
   * m is a selection matrix: row r has a single 1 at column sel[r] and
   * zeros elsewhere.
   */
  ghost predicate IsSelection(m: seq<real>, dim: nat, sel: seq<nat>)
  {
    && |sel| == dim
    && |m| == 6 * dim
    && (forall r :: 0 <= r < dim ==> sel[r] < 6)
    && (forall r: nat, c: nat :: r < dim && c < 6 ==> At(m, dim, r, c) == if c == sel[r] then 1.0 else 0.0)
  }

  /** The entries of v at the indices listed in sel, in that order. */
  function Select(v: seq<real>, sel: seq<nat>): (w: seq<real>)
    requires forall r :: 0 <= r < |sel| ==> sel[r] < |v|
    ensures |w| == |sel|
  {
    seq(|sel|, r requires 0 <= r < |sel| => v[sel[r]])
  }

  /** Over a selection row, the partial sum up to column k picks v[sel[r]] once k has passed it. */
  lemma {:induction false} RowDotSelection(m: seq<real>, dim: nat, sel: seq<nat>, v: seq<real>, r: nat, k: nat)
    requires IsSelection(m, dim, sel) && |v| == 6 && r < dim && k <= 6
    ensures RowDot(m, dim, r, v, k) == if sel[r] < k then v[sel[r]] else 0.0
  {
    if k > 0 {
      RowDotSelection(m, dim, sel, v, r, k - 1);
      assert At(m, dim, r, k - 1) == if k - 1 == sel[r] then 1.0 else 0.0;
    }
  }

  /** Projecting through a selection matrix picks out the selected entries. */
  lemma ProjectSelection(m: seq<real>, dim: nat, sel: seq<nat>, v: seq<real>)
    requires IsSelection(m, dim, sel) && |v| == 6
    ensures Project(m, dim, v) == Select(v, sel)
  {
    forall r | 0 <= r < dim
      ensures Project(m, dim, v)[r] == v[sel[r]]
    {
      RowDotSelection(m, dim, sel, v, r, 6);
    }
  }

  /** A projected entry written out as the six-term sum of its row. */
  lemma ProjectExpanded(m: seq<real>, dim: nat, v: seq<real>, r: nat)
    requires |m| == 6 * dim && |v| == 6 && r < dim
    ensures Project(m, dim, v)[r]
         == At(m, dim, r, 0) * v[0] + At(m, dim, r, 1) * v[1] + At(m, dim, r, 2) * v[2]
          + At(m, dim, r, 3) * v[3] + At(m, dim, r, 4) * v[4] + At(m, dim, r, 5) * v[5]
  {
    assert RowDot(m, dim, r, v, 1) == At(m, dim, r, 0) * v[0];
    assert RowDot(m, dim, r, v, 2) == RowDot(m, dim, r, v, 1) + At(m, dim, r, 1) * v[1];
    assert RowDot(m, dim, r, v, 3) == RowDot(m, dim, r, v, 2) + At(m, dim, r, 2) * v[2];
    assert RowDot(m, dim, r, v, 4) == RowDot(m, dim, r, v, 3) + At(m, dim, r, 3) * v[3];
    assert RowDot(m, dim, r, v, 5) == RowDot(m, dim, r, v, 4) + At(m, dim, r, 4) * v[4];
  }

  /** The one-row direction matrix with a single 1 at column axis. */
  function UnitRow(axis: nat): (m: seq<real>)
    requires axis < 6
    ensures |m| == 6
  {
    seq(6, c => if c == axis then 1.0 else 0.0)
  }

  /** The unit row at axis selects exactly that axis. */
  lemma UnitRowIsSelection(axis: nat)
    requires axis < 6
    ensures IsSelection(UnitRow(axis), 1, [axis])
  {
  }

  /** The 6 x 6 identity: every relative direction is constrained. */
  function Identity6(): (m: seq<real>)
    ensures |m| == 36
  {
    [1.0, 0.0, 0.0, 0.0, 0.0, 0.0,
     0.0, 1.0, 0.0, 0.0, 0.0, 0.0,
     0.0, 0.0, 1.0, 0.0, 0.0, 0.0,
     0.0, 0.0, 0.0, 1.0, 0.0, 0.0,
     0.0, 0.0, 0.0, 0.0, 1.0, 0.0,
     0.0, 0.0, 0.0, 0.0, 0.0, 1.0]
  }

  /** The identity selects all six directions in order. */
  lemma Identity6IsSelection()
    ensures IsSelection(Identity6(), 6, [0, 1, 2, 3, 4, 5])
  {
    forall r: nat, c: nat | r < 6 && c < 6
      ensures At(Identity6(), 6, r, c) == if c == [0, 1, 2, 3, 4, 5][r] then 1.0 else 0.0
    {
      assert c == 0 || c == 1 || c == 2 || c == 3 || c == 4 || c == 5;
      assert r == 0 || r == 1 || r == 2 || r == 3 || r == 4 || r == 5;
    }
  }

  /** Projecting through the identity returns the vector itself. */
  lemma ProjectIdentity(v: seq<real>)
    requires |v| == 6
    ensures Project(Identity6(), 6, v) == v
  {
    Identity6IsSelection();
    ProjectSelection(Identity6(), 6, [0, 1, 2, 3, 4, 5], v);
  }

  /** Projecting through a unit row yields the single entry at its axis. */
  lemma ProjectUnitRow(axis: nat, v: seq<real>)
    requires axis < 6 && |v| == 6
    ensures Project(UnitRow(axis), 1, v) == [v[axis]]
  {
    UnitRowIsSelection(axis);
    ProjectSelection(UnitRow(axis), 1, [axis], v);
  }

  /** Cross product of two 3-vectors. */
  function Cross(u: seq<real>, v: seq<real>): (w: seq<real>)
    requires |u| == 3 && |v| == 3
    ensures |w| == 3
  {
    [u[1] * v[2] - u[2] * v[1], u[2] * v[0] - u[0] * v[2], u[0] * v[1] - u[1] * v[0]]
  }

  /** Dot product of two 3-vectors (s_vv with n = 3). */
  function Dot3(u: seq<real>, v: seq<real>): real
    requires |u| == 3 && |v| == 3
  {
    u[0] * v[0] + u[1] * v[1] + u[2] * v[2]
  }

  /** The unit z axis of a frame, expressed in that frame. */
  const UnitZ: seq<real> := [0.0, 0.0, 1.0]
}
