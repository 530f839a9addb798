/**
 * The joint variants: their constant direction matrices, their specialised
 * position residuals, and the universal joint's recomputed direction row and
 * acceleration coupling term.
 *
 * A relative pose is a 4 x 4 homogeneous matrix stored row by row (entry
 * (i, k) at index 4 * i + k): the rotation in rows and columns 0..2 and the
 * translation in column 3. A pose-screw and a velocity or acceleration screw
 * are six numbers, translation part first.
 */
module Joints {
  import opened Algebra

  /** Column k (k < 3) of the rotation part of a row-major 4 x 4 pose. */
  function Column(pm: seq<real>, k: nat): (col: seq<real>)
    requires |pm| == 16 && k < 4
    ensures |col| == 3
  {
    [pm[k], pm[4 + k], pm[8 + k]]
  }

  /** The translation column of a row-major 4 x 4 pose: where J's origin lies in I's frame. */
  function Translation(pm: seq<real>): (t: seq<real>)
    requires |pm| == 16
    ensures |t| == 3
  {
    Column(pm, 3)
  }

  /** The pose's z axis: J's z axis expressed in I's frame. */
  function ZAxis(pm: seq<real>): (z: seq<real>)
    requires |pm| == 16
    ensures |z| == 3
  {
    Column(pm, 2)
  }

  // ---------------------------------------------------------------- revolute

  /** Revolute joint: tx, ty, tz, rx, ry constrained; one line per column, as stored. */
  function RevoluteLocCmI(): (m: seq<real>)
    ensures |m| == 30
  {
    [1.0, 0.0, 0.0, 0.0, 0.0,
     0.0, 1.0, 0.0, 0.0, 0.0,
     0.0, 0.0, 1.0, 0.0, 0.0,
     0.0, 0.0, 0.0, 1.0, 0.0,
     0.0, 0.0, 0.0, 0.0, 1.0,
     0.0, 0.0, 0.0, 0.0, 0.0]
  }

  lemma RevoluteLocCmIIsSelection()
    ensures IsSelection(RevoluteLocCmI(), 5, [0, 1, 2, 3, 4])
  {
    forall r: nat, c: nat | r < 5 && c < 6
      ensures At(RevoluteLocCmI(), 5, r, c) == if c == [0, 1, 2, 3, 4][r] then 1.0 else 0.0
    {
      assert c == 0 || c == 1 || c == 2 || c == 3 || c == 4 || c == 5;
      assert r == 0 || r == 1 || r == 2 || r == 3 || r == 4;
    }
  }

  /** The revolute joint's generic velocity and acceleration rows are the first five screw entries; rz is free. */
  lemma RevoluteProjection(v: seq<real>)
    requires |v| == 6
    ensures Project(RevoluteLocCmI(), 5, v) == v[..5]
  {
    RevoluteLocCmIIsSelection();
    ProjectSelection(RevoluteLocCmI(), 5, [0, 1, 2, 3, 4], v);
  }

  /**
   * Revolute position residual from the relative pose of J in I: the
   * translation, then the x and y components of I's z axis crossed with J's.
   */
  function RevoluteCp(pm: seq<real>): (cp: seq<real>)
    requires |pm| == 16
    ensures |cp| == 5
    ensures cp[..3] == Translation(pm)
    ensures cp[3..] == Cross(UnitZ, ZAxis(pm))[..2]
  {
    [pm[3], pm[7], pm[11], -pm[6], pm[2]]
  }

  /** The cross product of I's z axis with any vector has no z component, so the two rows keep all of it. */
  lemma CrossWithUnitZ(z: seq<real>)
    requires |z| == 3
    ensures Cross(UnitZ, z) == [-z[1], z[0], 0.0]
  {
  }

  /**
   * The revolute residual vanishes exactly when the origins coincide and
   * I's z axis crossed with J's z axis is zero.
   */
  lemma RevoluteCpZeroIff(pm: seq<real>)
    requires |pm| == 16
    ensures RevoluteCp(pm) == Zeros(5) <==> Translation(pm) == Zeros(3) && Cross(UnitZ, ZAxis(pm)) == Zeros(3)
  {
    var cp := RevoluteCp(pm);
    CrossWithUnitZ(ZAxis(pm));
    if cp == Zeros(5) {
      assert cp[0] == 0.0 && cp[1] == 0.0 && cp[2] == 0.0 && cp[3] == 0.0 && cp[4] == 0.0;
    }
    if Translation(pm) == Zeros(3) && Cross(UnitZ, ZAxis(pm)) == Zeros(3) {
      assert Translation(pm)[0] == 0.0 && Translation(pm)[1] == 0.0 && Translation(pm)[2] == 0.0;
      assert Cross(UnitZ, ZAxis(pm))[0] == 0.0 && Cross(UnitZ, ZAxis(pm))[1] == 0.0;
    }
  }

  /**
   * For a proper rotation (unit z column), a zero residual means the two z
   * axes are parallel or anti-parallel.
   */
  lemma RevoluteZeroAlignsAxes(pm: seq<real>)
    requires |pm| == 16
    requires pm[2] * pm[2] + pm[6] * pm[6] + pm[10] * pm[10] == 1.0
    requires RevoluteCp(pm) == Zeros(5)
    ensures pm[10] == 1.0 || pm[10] == -1.0
  {
    assert RevoluteCp(pm)[3] == 0.0 && RevoluteCp(pm)[4] == 0.0;
    assert pm[2] == 0.0 && pm[6] == 0.0;
    assert (pm[10] - 1.0) * (pm[10] + 1.0) == 0.0;
  }

  /** J rotated about I's z axis by an angle with cosine c and sine s, origins coincident. */
  function RotationAboutZ(c: real, s: real): (pm: seq<real>)
    ensures |pm| == 16
  {
    [c, -s, 0.0, 0.0,
     s, c, 0.0, 0.0,
     0.0, 0.0, 1.0, 0.0,
     0.0, 0.0, 0.0, 1.0]
  }

  /** Rotation about the shared z axis is the revolute joint's free motion: it leaves the residual at zero. */
  lemma RevoluteFreeRotation(c: real, s: real)
    ensures RevoluteCp(RotationAboutZ(c, s)) == Zeros(5)
  {
  }

  // --------------------------------------------------------------- prismatic

  /** Prismatic joint: tx, ty, rx, ry, rz constrained; column tz is zero. */
  function PrismaticLocCmI(): (m: seq<real>)
    ensures |m| == 30
  {
    [1.0, 0.0, 0.0, 0.0, 0.0,
     0.0, 1.0, 0.0, 0.0, 0.0,
     0.0, 0.0, 0.0, 0.0, 0.0,
     0.0, 0.0, 1.0, 0.0, 0.0,
     0.0, 0.0, 0.0, 1.0, 0.0,
     0.0, 0.0, 0.0, 0.0, 1.0]
  }

  lemma PrismaticLocCmIIsSelection()
    ensures IsSelection(PrismaticLocCmI(), 5, [0, 1, 3, 4, 5])
  {
    forall r: nat, c: nat | r < 5 && c < 6
      ensures At(PrismaticLocCmI(), 5, r, c) == if c == [0, 1, 3, 4, 5][r] then 1.0 else 0.0
    {
      assert c == 0 || c == 1 || c == 2 || c == 3 || c == 4 || c == 5;
      assert r == 0 || r == 1 || r == 2 || r == 3 || r == 4;
    }
  }

  /** Prismatic position residual: the pose-screw without its tz entry. */
  function PrismaticCp(ps: seq<real>): (cp: seq<real>)
    requires |ps| == 6
    ensures |cp| == 5
  {
    ps[..2] + ps[3..]
  }

  /** The specialised prismatic residual is the generic projection of the pose-screw through its matrix. */
  lemma PrismaticCpIsProjection(ps: seq<real>)
    requires |ps| == 6
    ensures PrismaticCp(ps) == Project(PrismaticLocCmI(), 5, ps)
    ensures PrismaticCp(ps) == [ps[0], ps[1], ps[3], ps[4], ps[5]]
  {
    PrismaticLocCmIIsSelection();
    ProjectSelection(PrismaticLocCmI(), 5, [0, 1, 3, 4, 5], ps);
  }

  /** Sliding along the shared z axis is the prismatic joint's free motion: the residual does not see tz. */
  lemma PrismaticFreeSlide(ps: seq<real>, tz: real)
    requires |ps| == 6
    ensures Project(PrismaticLocCmI(), 5, ps[2 := tz]) == Project(PrismaticLocCmI(), 5, ps)
  {
    PrismaticCpIsProjection(ps);
    PrismaticCpIsProjection(ps[2 := tz]);
  }

  // --------------------------------------------------------------- spherical

  /** Spherical joint: only the three translations are constrained. */
  function SphericalLocCmI(): (m: seq<real>)
    ensures |m| == 18
  {
    [1.0, 0.0, 0.0,
     0.0, 1.0, 0.0,
     0.0, 0.0, 1.0,
     0.0, 0.0, 0.0,
     0.0, 0.0, 0.0,
     0.0, 0.0, 0.0]
  }

  lemma SphericalLocCmIIsSelection()
    ensures IsSelection(SphericalLocCmI(), 3, [0, 1, 2])
  {
    forall r: nat, c: nat | r < 3 && c < 6
      ensures At(SphericalLocCmI(), 3, r, c) == if c == [0, 1, 2][r] then 1.0 else 0.0
    {
      assert c == 0 || c == 1 || c == 2 || c == 3 || c == 4 || c == 5;
      assert r == 0 || r == 1 || r == 2;
    }
  }

  /** The spherical joint's generic rows are the translational screw entries; all rotation is free. */
  lemma SphericalProjection(v: seq<real>)
    requires |v| == 6
    ensures Project(SphericalLocCmI(), 3, v) == v[..3]
  {
    SphericalLocCmIIsSelection();
    ProjectSelection(SphericalLocCmI(), 3, [0, 1, 2], v);
  }

  // --------------------------------------------------------------- universal

  /** The universal joint's matrix as built on construction: tx, ty, tz selected, row 3 still zero. */
  function UniversalTemplate(): (m: seq<real>)
    ensures |m| == 24
  {
    [1.0, 0.0, 0.0, 0.0,
     0.0, 1.0, 0.0, 0.0,
     0.0, 0.0, 1.0, 0.0,
     0.0, 0.0, 0.0, 0.0,
     0.0, 0.0, 0.0, 0.0,
     0.0, 0.0, 0.0, 0.0]
  }

  /**
   * J's z axis expressed in marker I's frame, from marker I's pose in its
   * part (row-major 4 x 4) and J's z axis expressed in that part's frame.
   * Its first two entries are the x2 and y2 of the direction row.
   */
  function AxisInI(prtPmI: seq<real>, axisJm: seq<real>): (a: seq<real>)
    requires |prtPmI| == 16 && |axisJm| == 3
    ensures |a| == 3
  {
    [Dot3(Column(prtPmI, 0), axisJm), Dot3(Column(prtPmI, 1), axisJm), Dot3(Column(prtPmI, 2), axisJm)]
  }

  /** n is the length of the projection (x2, y2) of J's z axis on I's x-y plane, and not zero. */
  predicate IsPlanarNorm(x2: real, y2: real, n: real)
  {
    n > 0.0 && n * n == x2 * x2 + y2 * y2
  }

  /** The universal joint's direction matrix with row 3 set to (0, 0, 0, -y2/n, x2/n, 0). */
  function UniversalLocCmI(x2: real, y2: real, n: real): (m: seq<real>)
    requires n > 0.0
    ensures |m| == 24
  {
    UniversalTemplate()[15 := -y2 / n][19 := x2 / n]
  }

  /** Rows 0..2 select tx, ty, tz; row 3 holds the recomputed rotation direction and nothing else. */
  lemma UniversalLocCmIRows(x2: real, y2: real, n: real)
    requires n > 0.0
    ensures forall r: nat, c: nat :: r < 3 && c < 6 ==> At(UniversalLocCmI(x2, y2, n), 4, r, c) == if c == r then 1.0 else 0.0
    ensures forall c: nat :: c < 6 ==> At(UniversalLocCmI(x2, y2, n), 4, 3, c) == [0.0, 0.0, 0.0, -y2 / n, x2 / n, 0.0][c]
  {
    var m := UniversalLocCmI(x2, y2, n);
    forall r: nat, c: nat | r < 4 && c < 6
      ensures At(m, 4, r, c) == if r < 3 then (if c == r then 1.0 else 0.0) else [0.0, 0.0, 0.0, -y2 / n, x2 / n, 0.0][c]
    {
      assert c == 0 || c == 1 || c == 2 || c == 3 || c == 4 || c == 5;
      assert r == 0 || r == 1 || r == 2 || r == 3;
    }
  }

  /** The universal joint's generic rows: the three translations, then the rotation screw along the direction row. */
  lemma UniversalProjection(x2: real, y2: real, n: real, v: seq<real>)
    requires n > 0.0 && |v| == 6
    ensures Project(UniversalLocCmI(x2, y2, n), 4, v) == [v[0], v[1], v[2], (x2 * v[4] - y2 * v[3]) / n]
  {
    var m := UniversalLocCmI(x2, y2, n);
    UniversalLocCmIRows(x2, y2, n);
    ProjectExpanded(m, 4, v, 0);
    ProjectExpanded(m, 4, v, 1);
    ProjectExpanded(m, 4, v, 2);
    ProjectExpanded(m, 4, v, 3);
    var p := Project(m, 4, v);
    assert p[0] == v[0] && p[1] == v[1] && p[2] == v[2];
    assert At(m, 4, 3, 3) == -y2 / n && At(m, 4, 3, 4) == x2 / n;
    assert p[3] == (-y2 / n) * v[3] + (x2 / n) * v[4];
    assert (-y2 / n) * v[3] + (x2 / n) * v[4] == (x2 * v[4] - y2 * v[3]) / n;
  }

  /**
   * The direction row's rotation part is I's z axis crossed with J's z axis,
   * scaled to unit length: it is a unit vector perpendicular to both axes.
   */
  lemma UniversalDirectionIsUnitCross(axis: seq<real>, n: real)
    requires |axis| == 3 && IsPlanarNorm(axis[0], axis[1], n)
    ensures var d := [-axis[1] / n, axis[0] / n, 0.0];
            && d[0] * n == Cross(UnitZ, axis)[0] && d[1] * n == Cross(UnitZ, axis)[1] && d[2] == Cross(UnitZ, axis)[2]
            && Dot3(d, d) == 1.0
            && Dot3(d, UnitZ) == 0.0
            && Dot3(d, axis) == 0.0
  {
    var x2, y2 := axis[0], axis[1];
    calc {
      ((-y2 / n) * (-y2 / n) + (x2 / n) * (x2 / n)) * (n * n);
      ((-y2 / n) * n) * ((-y2 / n) * n) + ((x2 / n) * n) * ((x2 / n) * n);
      y2 * y2 + x2 * x2;
      n * n;
    }
    assert (((-y2 / n) * (-y2 / n) + (x2 / n) * (x2 / n)) - 1.0) * (n * n) == 0.0;
    calc {
      ((-y2 / n) * x2 + (x2 / n) * y2) * n;
      ((-y2 / n) * n) * x2 + ((x2 / n) * n) * y2;
      -y2 * x2 + x2 * y2;
      0.0;
    }
  }

  /**
   * The second-order coupling term of the universal joint's acceleration
   * residual: zi and zj are I's and J's z axes and wm, wn the angular
   * velocities of the two parts, all expressed in I's part frame.
   */
  function UniversalCaCorrection(zi: seq<real>, zj: seq<real>, wm: seq<real>, wn: seq<real>): (c: real)
    requires |zi| == 3 && |zj| == 3 && |wm| == 3 && |wn| == 3
    ensures zi == zj ==> c == -(Dot3(zi, wn) - Dot3(zi, wm)) * (Dot3(zi, wn) - Dot3(zi, wm))
  {
    var iwm := Dot3(zi, wm);
    var jwm := Dot3(zj, wm);
    var iwn := Dot3(zi, wn);
    var jwn := Dot3(zj, wn);
    2.0 * jwm * iwn - jwm * iwm - jwn * iwn
  }

  /** Entrywise difference of two 3-vectors. */
  function Sub3(u: seq<real>, v: seq<real>): (w: seq<real>)
    requires |u| == 3 && |v| == 3
    ensures |w| == 3
  {
    [u[0] - v[0], u[1] - v[1], u[2] - v[2]]
  }

  /**
   * The coupling term is a difference of two products, each of which has
   * one factor that is a component of the relative angular velocity wn - wm.
   */
  lemma UniversalCaCorrectionRelative(zi: seq<real>, zj: seq<real>, wm: seq<real>, wn: seq<real>)
    requires |zi| == 3 && |zj| == 3 && |wm| == 3 && |wn| == 3
    ensures UniversalCaCorrection(zi, zj, wm, wn)
         == Dot3(zj, wm) * Dot3(zi, Sub3(wn, wm)) - Dot3(zi, wn) * Dot3(zj, Sub3(wn, wm))
  {
    var rel := Sub3(wn, wm);
    assert Dot3(zi, rel) == Dot3(zi, wn) - Dot3(zi, wm);
    assert Dot3(zj, rel) == Dot3(zj, wn) - Dot3(zj, wm);
  }

  /** Two bodies turning together, or both at rest, produce no coupling term. */
  lemma UniversalCaCorrectionCommonRotation(zi: seq<real>, zj: seq<real>, w: seq<real>)
    requires |zi| == 3 && |zj| == 3 && |w| == 3
    ensures UniversalCaCorrection(zi, zj, w, w) == 0.0
    ensures UniversalCaCorrection(zi, zj, [0.0, 0.0, 0.0], [0.0, 0.0, 0.0]) == 0.0
  {
    UniversalCaCorrectionRelative(zi, zj, w, w);
    assert Dot3(zi, Sub3(w, w)) == 0.0 && Dot3(zj, Sub3(w, w)) == 0.0;
  }

  /** Universal position residual: translation, then the deviation of the axes' angle from a right angle. */
  function UniversalCp(pm: seq<real>, axesAngle: real, rightAngle: real): (cp: seq<real>)
    requires |pm| == 16
    ensures |cp| == 4 && cp[..3] == Translation(pm)
    ensures cp[3] == 0.0 <==> axesAngle == rightAngle
  {
    Translation(pm) + [-rightAngle + axesAngle]
  }

  /**
   * The universal joint. Its direction matrix is a cached buffer of 24
   * entries whose row 3 is rewritten from the current marker orientations
   * every time the matrix is asked for; everything else keeps the values set
   * on construction.
   */
  class UniversalJoint {
    const loc: array<real>

    ghost predicate Valid()
      reads this, loc
    {
      loc.Length == 24 && forall k :: 0 <= k < 24 && k != 15 && k != 19 ==> loc[k] == UniversalTemplate()[k]
    }

    constructor ()
      ensures Valid() && fresh(loc) && loc[..] == UniversalTemplate()
    {
      var template := UniversalTemplate();
      loc := new real[24](k requires 0 <= k < 24 => template[k]);
    }

    /**
     * Recomputes row 3 from marker I's pose in its part and J's z axis in
     * I's part frame; n is the length of (x2, y2).
     */
    method LocCmI(prtPmI: seq<real>, axisJm: seq<real>, n: real) returns (m: seq<real>)
      requires Valid() && |prtPmI| == 16 && |axisJm| == 3
      requires IsPlanarNorm(AxisInI(prtPmI, axisJm)[0], AxisInI(prtPmI, axisJm)[1], n)
      modifies loc
      ensures Valid() && m == loc[..]
      ensures m == UniversalLocCmI(AxisInI(prtPmI, axisJm)[0], AxisInI(prtPmI, axisJm)[1], n)
    {
      var x2 := prtPmI[0] * axisJm[0] + prtPmI[4] * axisJm[1] + prtPmI[8] * axisJm[2];
      var y2 := prtPmI[1] * axisJm[0] + prtPmI[5] * axisJm[1] + prtPmI[9] * axisJm[2];
      loc[15] := -y2 / n;
      loc[19] := x2 / n;
      m := loc[..];
      assert x2 == AxisInI(prtPmI, axisJm)[0] && y2 == AxisInI(prtPmI, axisJm)[1];
      assert forall k :: 0 <= k < 24 ==> m[k] == UniversalLocCmI(x2, y2, n)[k];
    }

    /**
     * Acceleration residual: the generic one through the freshly recomputed
     * matrix, with the coupling term added to row 3 only.
     */
    method CptCa(tem: seq<real>, prtPmI: seq<real>, axisJm: seq<real>, wm: seq<real>, wn: seq<real>, n: real)
      returns (ca: seq<real>)
      requires Valid() && |tem| == 6 && |prtPmI| == 16 && |axisJm| == 3 && |wm| == 3 && |wn| == 3
      requires IsPlanarNorm(AxisInI(prtPmI, axisJm)[0], AxisInI(prtPmI, axisJm)[1], n)
      modifies loc
      ensures Valid() && loc[..] == UniversalLocCmI(AxisInI(prtPmI, axisJm)[0], AxisInI(prtPmI, axisJm)[1], n)
      ensures ca == AddAt(ProjectNeg(loc[..], 4, tem), 3, UniversalCaCorrection(Column(prtPmI, 2), axisJm, wm, wn))
    {
      var m := LocCmI(prtPmI, axisJm, n);
      ca := ProjectNeg(m, 4, tem);
      var axisIm := [prtPmI[2], prtPmI[6], prtPmI[10]];
      ca := AddAt(ca, 3, UniversalCaCorrection(axisIm, axisJm, wm, wn));
    }
  }
}
