/**
 * The general motion: a six-dimensional constraint that prescribes the
 * whole pose of marker I relative to marker J. Its prescribed pose matrix,
 * velocity screw and acceleration screw are kept in canonical form and
 * written and read by exact copies; its direction matrix is the identity.
 */
module GeneralMotions {
  import opened Wrappers
  import opened Algebra
  import opened Interactions

  /**
   * The spatial transform that expresses a screw given relative to J in the
   * frame of I, for a prescribed pose: supplied by the caller.
   */
  type ScrewTransform = (seq<real>, seq<real>) -> seq<real>

  /**
   * Adding the generic acceleration residual through the identity to a
   * screw leaves it unchanged exactly when the velocity cross product is zero.
   */
  lemma GenericTermVanishesIff(tem: seq<real>, pres: seq<real>)
    requires |tem| == 6 && |pres| == 6
    ensures Add(ProjectNeg(Identity6(), 6, tem), pres) == pres <==> tem == Zeros(6)
  {
    ProjectIdentity(tem);
    var sum := Add(ProjectNeg(Identity6(), 6, tem), pres);
    assert forall k :: 0 <= k < 6 ==> sum[k] == -tem[k] + pres[k];
    if sum == pres {
      assert forall k :: 0 <= k < 6 ==> tem[k] == 0.0 by {
        forall k | 0 <= k < 6 ensures tem[k] == 0.0 {
          assert sum[k] == pres[k];
        }
      }
      assert tem == Zeros(6);
    }
  }

  class GeneralMotion {
    const con: Constraint
    const mpm: array<real>
    const mvs: array<real>
    const mas: array<real>

    ghost predicate Valid()
      reads this, con
    {
      con.Valid() && con.dim == 6 && mpm.Length == 16 && mvs.Length == 6 && mas.Length == 6
      && mpm != mvs && mpm != mas && mvs != mas
      && mpm != con.cf && mvs != con.cf && mas != con.cf
    }

    constructor (makI: Option<MarkerRef>, makJ: Option<MarkerRef>)
      ensures Valid() && fresh(con) && fresh(con.cf) && fresh(mpm) && fresh(mvs) && fresh(mas)
      ensures con.makI == makI && con.makJ == makJ
      ensures mpm[..] == Zeros(16) && mvs[..] == Zeros(6) && mas[..] == Zeros(6) && con.cf[..] == Zeros(6)
    {
      con := new Constraint(6, makI, makJ);
      mpm := new real[16](k => 0.0);
      mvs := new real[6](k => 0.0);
      mas := new real[6](k => 0.0);
    }

    /** The direction matrix: every relative direction is constrained. */
    function LocCmI(): (m: seq<real>)
      ensures |m| == 36 && IsSelection(m, 6, [0, 1, 2, 3, 4, 5])
    {
      Identity6IsSelection();
      Identity6()
    }

    method SetMpm(pm: seq<real>)
      requires Valid() && |pm| == 16
      modifies mpm
      ensures mpm[..] == pm
    {
      forall k | 0 <= k < 16 {
        mpm[k] := pm[k];
      }
    }

    method GetMpm() returns (pm: seq<real>)
      requires Valid()
      ensures |pm| == 16 && forall k :: 0 <= k < 16 ==> pm[k] == mpm[k]
    {
      pm := mpm[..];
    }

    method SetMvs(vs: seq<real>)
      requires Valid() && |vs| == 6
      modifies mvs
      ensures mvs[..] == vs
    {
      forall k | 0 <= k < 6 {
        mvs[k] := vs[k];
      }
    }

    method GetMvs() returns (vs: seq<real>)
      requires Valid()
      ensures |vs| == 6 && forall k :: 0 <= k < 6 ==> vs[k] == mvs[k]
    {
      vs := mvs[..];
    }

    method SetMas(as_: seq<real>)
      requires Valid() && |as_| == 6
      modifies mas
      ensures mas[..] == as_
    {
      forall k | 0 <= k < 6 {
        mas[k] := as_[k];
      }
    }

    method GetMas() returns (as_: seq<real>)
      requires Valid()
      ensures |as_| == 6 && forall k :: 0 <= k < 6 ==> as_[k] == mas[k]
    {
      as_ := mas[..];
    }

    /** The six reaction forces. */
    function Mfs(): (f: seq<real>)
      reads this, con, con.cf
      requires Valid()
      ensures |f| == 6 && f == con.Cf()
    {
      con.cf[..]
    }

    method SetMfs(f: seq<real>)
      requires Valid() && |f| == 6
      modifies con.cf
      ensures Valid() && Mfs() == f
    {
      con.SetCf(f);
    }

    /**
     * Position residual from the pose-screw of the compensating pose (from
     * marker I to where the prescribed pose puts it): a plain copy, which is
     * the generic projection through the identity direction matrix.
     */
    method CptCpFromPm(psC: seq<real>) returns (cp: seq<real>)
      requires |psC| == 6
      ensures cp == Project(LocCmI(), 6, psC)
      ensures cp == psC
    {
      cp := psC;
      ProjectIdentity(psC);
    }

    /**
     * Velocity residual: the generic one for the relative velocity screw in
     * I's frame, plus the prescribed velocity screw transformed by the
     * prescribed pose.
     */
    method CptCv(dvInI: seq<real>, invTv: ScrewTransform) returns (cv: seq<real>)
      requires Valid() && |dvInI| == 6 && |invTv(mpm[..], mvs[..])| == 6
      ensures cv == Add(Project(LocCmI(), 6, dvInI), invTv(mpm[..], mvs[..]))
      ensures forall k :: 0 <= k < 6 ==> cv[k] == dvInI[k] + invTv(mpm[..], mvs[..])[k]
    {
      ProjectIdentity(dvInI);
      cv := Add(Project(LocCmI(), 6, dvInI), invTv(mpm[..], mvs[..]));
    }

    /**
     * Acceleration residual as written: the prescribed acceleration screw
     * transformed by the prescribed pose, and nothing else. Unlike the
     * velocity residual it does not start from the generic residual, so the
     * markers' velocity cross product `tem` (in I's frame) is ignored; the
     * result agrees with the generic-plus-prescribed form exactly when that
     * product is zero.
     */
    method CptCa(tem: seq<real>, invTv: ScrewTransform) returns (ca: seq<real>)
      requires Valid() && |tem| == 6 && |invTv(mpm[..], mas[..])| == 6
      ensures ca == invTv(mpm[..], mas[..])
      ensures ca == Add(ProjectNeg(LocCmI(), 6, tem), invTv(mpm[..], mas[..])) <==> tem == Zeros(6)
    {
      ca := invTv(mpm[..], mas[..]);
      GenericTermVanishesIff(tem, ca);
    }

    /**
     * Acceleration residual in the form the velocity residual has: the
     * generic residual through the identity plus the transformed prescribed
     * acceleration screw.
     */
    method CptCaWithGenericTerm(tem: seq<real>, invTv: ScrewTransform) returns (ca: seq<real>)
      requires Valid() && |tem| == 6 && |invTv(mpm[..], mas[..])| == 6
      ensures ca == Add(ProjectNeg(LocCmI(), 6, tem), invTv(mpm[..], mas[..]))
      ensures forall k :: 0 <= k < 6 ==> ca[k] == -tem[k] + invTv(mpm[..], mas[..])[k]
    {
      ProjectIdentity(tem);
      ca := Add(ProjectNeg(LocCmI(), 6, tem), invTv(mpm[..], mas[..]));
    }
  }
}
