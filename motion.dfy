/**
 * The motion driver: a one-dimensional constraint along one of the six
 * relative directions, with a prescribed position, velocity and
 * acceleration, an actuator-unit conversion for the position, and a
 * three-coefficient friction model on top of the reaction force.
 */
module Motions {
  import opened Wrappers
  import opened Algebra
  import opened Interactions

  /** The sign of x: 1, -1, or 0 at zero. */
  function Sgn(x: real): (s: real)
    ensures s == 1.0 || s == -1.0 || s == 0.0
    ensures s * x >= 0.0 && (s == 0.0 <==> x == 0.0)
  {
    if x > 0.0 then 1.0 else if x < 0.0 then -1.0 else 0.0
  }

  /**
   * Friction force from the velocity and acceleration: a Coulomb part with
   * the velocity's sign, a viscous part and an acceleration-proportional part.
   */
  function FrictionForce(mv: real, ma: real, coe: seq<real>): (f: real)
    requires |coe| == 3
    ensures mv == 0.0 ==> f == ma * coe[2]
    ensures ma == 0.0 && mv > 0.0 && coe[0] >= 0.0 && coe[1] >= 0.0 ==> f >= 0.0
  {
    Sgn(mv) * coe[0] + mv * coe[1] + ma * coe[2]
  }

  /** Reversing the motion reverses the friction force. */
  lemma FrictionOdd(mv: real, ma: real, coe: seq<real>)
    requires |coe| == 3
    ensures FrictionForce(-mv, -ma, coe) == -FrictionForce(mv, ma, coe)
  {
    assert Sgn(-mv) == -Sgn(mv);
  }

  /** At rest with no acceleration there is no friction force. */
  lemma FrictionAtRest(coe: seq<real>)
    requires |coe| == 3
    ensures FrictionForce(0.0, 0.0, coe) == 0.0
  {
  }

  /**
   * With non-negative Coulomb and viscous coefficients and no acceleration,
   * the friction force points along the velocity (it is reported as the
   * force the drive must supply against friction), so its power is never
   * negative.
   */
  lemma FrictionDissipative(mv: real, coe: seq<real>)
    requires |coe| == 3 && coe[0] >= 0.0 && coe[1] >= 0.0
    ensures FrictionForce(mv, 0.0, coe) * mv >= 0.0
  {
    var s := Sgn(mv);
    calc {
      FrictionForce(mv, 0.0, coe) * mv;
      (s * coe[0] + mv * coe[1] + 0.0 * coe[2]) * mv;
      (s * mv) * coe[0] + (mv * mv) * coe[1];
    }
    assert s * mv >= 0.0;
    assert mv * mv >= 0.0;
  }

  /** The internally stored position for an actuator-unit position x. */
  function ScaledMp(x: real, offset: real, factor: real): (stored: real)
    ensures offset == 0.0 && factor == 1.0 ==> stored == x
    ensures factor == 0.0 ==> stored == 0.0
  {
    (x + offset) * factor
  }

  /** The actuator-unit position for an internally stored position. */
  function ActuatorMp(stored: real, offset: real, factor: real): (x: real)
    requires factor != 0.0
    ensures offset == 0.0 && factor == 1.0 ==> x == stored
  {
    stored / factor - offset
  }

  /** Storing and then reading back the position returns it unchanged. */
  lemma ActuatorOfScaled(x: real, offset: real, factor: real)
    requires factor != 0.0
    ensures ActuatorMp(ScaledMp(x, offset, factor), offset, factor) == x
  {
    var y := x + offset;
    var q := (y * factor) / factor;
    assert q * factor == y * factor;
    assert (q - y) * factor == 0.0;
    assert q == y;
    assert ActuatorMp(ScaledMp(x, offset, factor), offset, factor) == q - offset;
  }

  /** Reading the position and storing it again reproduces the stored value. */
  lemma ScaledOfActuator(stored: real, offset: real, factor: real)
    requires factor != 0.0
    ensures ScaledMp(ActuatorMp(stored, offset, factor), offset, factor) == stored
  {
    calc {
      ScaledMp(ActuatorMp(stored, offset, factor), offset, factor);
      (stored / factor - offset + offset) * factor;
      (stored / factor) * factor;
      stored;
    }
  }

  /**
   * Loading stores the `mp` attribute as the internal value, while saving
   * writes the actuator-unit position. Saving and loading again therefore
   * reproduces every position exactly when the offset is 0 and the factor 1.
   */
  lemma LoadedMpReadBack(offset: real, factor: real)
    requires factor != 0.0
    ensures (forall x: real :: ActuatorMp(x, offset, factor) == x) <==> offset == 0.0 && factor == 1.0
  {
    if forall x: real :: ActuatorMp(x, offset, factor) == x {
      assert ActuatorMp(0.0, offset, factor) == 0.0;
      assert offset == 0.0;
      assert ActuatorMp(1.0, offset, factor) == 1.0;
      assert 1.0 / factor == 1.0;
    }
  }

  /** The stored attributes of a motion, already parsed; None where an optional one is absent. */
  datatype MotionAttributes = MotionAttributes(
    component: Option<nat>,
    mpOffset: Option<real>,
    mpFactor: Option<real>,
    mp: Option<real>,
    mv: Option<real>,
    ma: Option<real>,
    frcCoe: Option<seq<real>>,
    cf: Option<seq<real>>)

  /**
   * A motion. The constraint part (markers, reaction force) is `con`, of
   * dimension 1; `loc` is the one-row direction matrix; `mpStored` is the
   * prescribed position in internal units.
   */
  class Motion {
    const con: Constraint
    const loc: array<real>
    var axis: nat
    var frcCoe: seq<real>
    var mpOffset: real
    var mpFactor: real
    var mpStored: real
    var mv: real
    var ma: real

    ghost predicate Valid()
      reads this, con
    {
      con.Valid() && con.dim == 1 && loc.Length == 6 && loc != con.cf && axis < 6 && |frcCoe| == 3
    }

    /** The direction row is the unit row at the current axis. */
    ghost predicate DirectionCurrent()
      reads this, con, loc
    {
      Valid() && loc[..] == UnitRow(axis)
    }

    constructor (axis: nat, frcCoe: Option<seq<real>>, mpOffset: real, mpFactor: real,
                 makI: Option<MarkerRef>, makJ: Option<MarkerRef>)
      requires axis < 6 && (frcCoe.Some? ==> |frcCoe.value| == 3)
      ensures Valid() && DirectionCurrent() && fresh(con) && fresh(con.cf) && fresh(loc)
      ensures this.axis == axis && this.frcCoe == frcCoe.GetOr([0.0, 0.0, 0.0])
      ensures this.mpOffset == mpOffset && this.mpFactor == mpFactor
      ensures mpStored == 0.0 && mv == 0.0 && ma == 0.0
      ensures con.makI == makI && con.makJ == makJ && con.cf[..] == Zeros(6)
    {
      con := new Constraint(1, makI, makJ);
      this.axis := axis;
      this.mpOffset := mpOffset;
      this.mpFactor := mpFactor;
      this.frcCoe := frcCoe.GetOr([0.0, 0.0, 0.0]);
      mpStored, mv, ma := 0.0, 0.0, 0.0;
      var row := new real[6](c => 0.0);
      row[axis] := 1.0;
      loc := row;
      new;
      assert loc[..] == UnitRow(axis);
    }

    /** The prescribed position in actuator units. */
    function Mp(): (x: real)
      reads this
      requires mpFactor != 0.0
      ensures ScaledMp(x, mpOffset, mpFactor) == mpStored
    {
      ScaledOfActuator(mpStored, mpOffset, mpFactor);
      ActuatorMp(mpStored, mpOffset, mpFactor)
    }

    /** Sets the prescribed position from actuator units; only the stored position changes. */
    method SetMp(x: real)
      modifies this`mpStored
      ensures mpStored == ScaledMp(x, mpOffset, mpFactor)
      ensures mpFactor != 0.0 ==> Mp() == x
    {
      mpStored := (x + mpOffset) * mpFactor;
      if mpFactor != 0.0 {
        ActuatorOfScaled(x, mpOffset, mpFactor);
      }
    }

    method SetMv(x: real)
      modifies this`mv
      ensures mv == x
    {
      mv := x;
    }

    method SetMa(x: real)
      modifies this`ma
      ensures ma == x
    {
      ma := x;
    }

    method SetFrcCoe(coe: seq<real>)
      requires |coe| == 3
      modifies this`frcCoe
      ensures frcCoe == coe
    {
      frcCoe := coe;
    }

    /** The friction part of the drive force; it reads the velocity, acceleration and coefficients only. */
    function MfFrc(): (f: real)
      reads this
      requires |frcCoe| == 3
      ensures mv == 0.0 && ma == 0.0 ==> f == 0.0
    {
      FrictionForce(mv, ma, frcCoe)
    }

    /** The dynamic part of the drive force: the constraint's reaction force. */
    function MfDyn(): (f: real)
      reads this, con, con.cf
      requires Valid()
      ensures con.Cf() == [f]
    {
      con.cf[0]
    }

    /** The total drive force: the reaction force plus friction. */
    function Mf(): (f: real)
      reads this, con, con.cf
      requires Valid()
      ensures mv == 0.0 && ma == 0.0 ==> f == MfDyn()
      ensures f - MfFrc() == con.Cf()[0]
    {
      MfDyn() + MfFrc()
    }

    /** Sets the total drive force by storing, as reaction force, what friction does not supply. */
    method SetMf(x: real)
      requires Valid()
      modifies con.cf
      ensures Valid() && Mf() == x && MfDyn() == x - MfFrc()
      ensures con.cf[1..] == old(con.cf[1..])
    {
      con.cf[0] := x - MfFrc();
    }

    method SetMfDyn(y: real)
      requires Valid()
      modifies con.cf
      ensures Valid() && MfDyn() == y
      ensures con.cf[1..] == old(con.cf[1..])
    {
      con.cf[0] := y;
    }

    /**
     * Position residual from the pose-screw of J relative to I: the generic
     * projection with the prescribed position added to its single entry.
     */
    method CptCpFromPm(ps: seq<real>) returns (cp: seq<real>)
      requires Valid() && |ps| == 6 && mpFactor != 0.0
      ensures cp == AddAt(Project(loc[..], 1, ps), 0, Mp())
      ensures DirectionCurrent() ==> cp == [ps[axis] + Mp()]
    {
      cp := Project(loc[..], 1, ps);
      cp := cp[0 := cp[0] + Mp()];
      if DirectionCurrent() {
        ProjectUnitRow(axis, ps);
      }
    }

    /** Velocity residual from the relative velocity screw in I's frame, plus the prescribed velocity. */
    method CptCv(dv: seq<real>) returns (cv: seq<real>)
      requires Valid() && |dv| == 6
      ensures cv == AddAt(Project(loc[..], 1, dv), 0, mv)
      ensures DirectionCurrent() ==> cv == [dv[axis] + mv]
    {
      cv := Project(loc[..], 1, dv);
      cv := cv[0 := cv[0] + mv];
      if DirectionCurrent() {
        ProjectUnitRow(axis, dv);
      }
    }

    /** Acceleration residual from the transformed screw cross product, plus the prescribed acceleration. */
    method CptCa(tem: seq<real>) returns (ca: seq<real>)
      requires Valid() && |tem| == 6
      ensures ca == AddAt(ProjectNeg(loc[..], 1, tem), 0, ma)
      ensures DirectionCurrent() ==> ca == [-tem[axis] + ma]
    {
      ca := ProjectNeg(loc[..], 1, tem);
      ca := ca[0 := ca[0] + ma];
      if DirectionCurrent() {
        ProjectUnitRow(axis, tem);
      }
    }

    /** Re-synchronises the prescribed position to the measured distance along the axis. */
    method UpdMp(axisDistance: real)
      modifies this`mpStored
      ensures mpStored == ScaledMp(axisDistance, mpOffset, mpFactor)
      ensures mpFactor != 0.0 ==> Mp() == axisDistance
    {
      SetMp(axisDistance);
    }

    /** Re-synchronises the prescribed velocity to the measured relative velocity screw's axis entry. */
    method UpdMv(vsI2J: seq<real>)
      requires axis < 6 && |vsI2J| == 6
      modifies this`mv
      ensures mv == vsI2J[axis]
    {
      SetMv(vsI2J[axis]);
    }

    /** Re-synchronises the prescribed acceleration to the measured relative acceleration screw's axis entry. */
    method UpdMa(asI2J: seq<real>)
      requires axis < 6 && |asI2J| == 6
      modifies this`ma
      ensures ma == asI2J[axis]
    {
      SetMa(asI2J[axis]);
    }

    /**
     * Loads a motion. The axis is read first and is required; then the
     * offset, factor, position, velocity and acceleration (each with a
     * default) are written, the position raw as the internal value; then
     * the friction coefficients, which are required; then the constraint.
     * Only if its references resolve is the direction row rebuilt for the
     * new axis. A failure keeps whatever was written before it.
     */
    method LoadXml(attrs: MotionAttributes, pool: Option<PartPool>, refs: RefAttributes) returns (res: Outcome<LoadError>)
      requires Valid()
      requires attrs.component.Some? ==> attrs.component.value < 6
      requires attrs.frcCoe.Some? ==> |attrs.frcCoe.value| == 3
      requires attrs.cf.Some? ==> |attrs.cf.value| == 1
      modifies this, con, con.cf, loc
      ensures Valid()
      ensures attrs.component.None? ==> res == Fail(MissingAttribute("component")) && unchanged(this, con, con.cf, loc)
      ensures attrs.component.Some? ==>
        axis == attrs.component.value
        && mpOffset == attrs.mpOffset.GetOr(0.0) && mpFactor == attrs.mpFactor.GetOr(1.0)
        && mpStored == attrs.mp.GetOr(0.0) && mv == attrs.mv.GetOr(0.0) && ma == attrs.ma.GetOr(0.0)
      ensures attrs.component.Some? && attrs.frcCoe.None? ==>
        res == Fail(MissingAttribute("frc_coe")) && frcCoe == old(frcCoe) && unchanged(con, con.cf, loc)
      ensures attrs.component.Some? && attrs.frcCoe.Some? ==>
        frcCoe == attrs.frcCoe.value
        && (res.Pass? <==> Resolve(pool, refs).Success?)
        && (res.Fail? ==> res.error == Resolve(pool, refs).error)
        && con.makI == (if pool.Some? && Resolvable(pool.value, refs.prtM, refs.makI)
                        then Some(MarkerRef(refs.prtM.value, refs.makI.value)) else old(con.makI))
        && con.makJ == (if res.Pass? then Some(MarkerRef(refs.prtN.value, refs.makJ.value)) else old(con.makJ))
      ensures res.Pass? ==> DirectionCurrent() && con.Cf() == attrs.cf.GetOr([0.0]) && con.cf[1..] == old(con.cf[1..])
      ensures res.Fail? ==> loc[..] == old(loc[..]) && con.cf[..] == old(con.cf[..])
    {
      if attrs.component.None? {
        return Fail(MissingAttribute("component"));
      }
      axis := attrs.component.value;
      mpOffset := attrs.mpOffset.GetOr(0.0);
      mpFactor := attrs.mpFactor.GetOr(1.0);
      mpStored := attrs.mp.GetOr(0.0);
      mv := attrs.mv.GetOr(0.0);
      ma := attrs.ma.GetOr(0.0);
      if attrs.frcCoe.None? {
        return Fail(MissingAttribute("frc_coe"));
      }
      SetFrcCoe(attrs.frcCoe.value);
      res := con.LoadXml(pool, refs, attrs.cf);
      if res.Pass? {
        forall c | 0 <= c < 6 {
          loc[c] := 0.0;
        }
        loc[axis] := 1.0;
        assert loc[..] == UnitRow(axis);
      }
    }
  }
}
