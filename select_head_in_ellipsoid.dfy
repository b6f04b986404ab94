/**
 * ccSelectPolymerTypeHeadInEllipsoid: selects the polymers of one type whose
 * head bead lies inside an ellipsoid. The ellipsoid is given by its centre
 * (fractions of the box), the radius of a bounding sphere, three semi-axes
 * and the polar and azimuthal angles of its major axis.
 *
 * Angles are held in radians. The control file and command groups give them
 * in degrees; the internal constructor takes radians.
 */
module HeadInEllipsoid {

  import opened Streams
  import opened Commands
  import opened Regions

  /** The number of arguments a command group packs into this command. */
  const ArgumentTotal := 11

  datatype Ellipsoid = Ellipsoid(
    xc: real, yc: real, zc: real,
    boundingRadius: real, sma: real, smb: real, smc: real,
    theta: real, phi: real)

  /**
   * Every length is at least minRadius, and the semi-axes are ordered
   * smc <= smb <= sma <= boundingRadius.
   */
  predicate AxesOrdered(minRadius: real, e: Ellipsoid)
  {
    && e.boundingRadius >= minRadius
    && e.sma >= minRadius && e.smb >= minRadius && e.smc >= minRadius
    && e.smb <= e.sma && e.smc <= e.smb && e.sma <= e.boundingRadius
  }

  /** 0 <= theta <= half a turn and 0 <= phi <= a whole turn, in the given unit of half a turn. */
  predicate AnglesInRange(theta: real, phi: real, halfTurn: real)
  {
    0.0 <= theta <= halfTurn && 0.0 <= phi <= 2.0 * halfTurn
  }

  /** The checks of the internal constructor, angles in radians. */
  predicate InternalAccepts(e: Ellipsoid, pi: real)
  {
    CentreInBox(e.xc, e.yc, e.zc) && AxesOrdered(1.0, e) && AnglesInRange(e.theta, e.phi, pi)
  }

  /** The checks of get, angles in degrees: lengths need only be non-negative. */
  predicate GetAccepts(e: Ellipsoid)
  {
    CentreInBox(e.xc, e.yc, e.zc) && AxesOrdered(0.0, e) && AnglesInRange(e.theta, e.phi, 180.0)
  }

  /** The checks of Pack, angles in degrees: the constructor's bounds. */
  predicate PackAccepts(e: Ellipsoid)
  {
    CentreInBox(e.xc, e.yc, e.zc) && AxesOrdered(1.0, e) && AnglesInRange(e.theta, e.phi, 180.0)
  }

  function InRadians(e: Ellipsoid, pi: real): Ellipsoid
  {
    e.(theta := e.theta * pi / 180.0, phi := e.phi * pi / 180.0)
  }

  /** The conversion put applies before writing the angles out. */
  function InDegrees(e: Ellipsoid, pi: real): Ellipsoid
    requires pi > 0.0
  {
    e.(theta := e.theta * 180.0 / pi, phi := e.phi * 180.0 / pi)
  }

  /** The nine numbers get reads, in order. */
  function FromTokens(ts: seq<Value>): Ellipsoid
    requires |ts| >= 9
  {
    Ellipsoid(RealOf(ts[0]), RealOf(ts[1]), RealOf(ts[2]),
              RealOf(ts[3]), RealOf(ts[4]), RealOf(ts[5]), RealOf(ts[6]),
              RealOf(ts[7]), RealOf(ts[8]))
  }

  /** The nine values Pack takes from arguments 2 to 10; an argument that is not a number leaves its field as it was. */
  function FromArguments(args: seq<Value>, e: Ellipsoid): Ellipsoid
    requires |args| == ArgumentTotal
  {
    Ellipsoid(ArgReal(args[2], e.xc), ArgReal(args[3], e.yc), ArgReal(args[4], e.zc),
              ArgReal(args[5], e.boundingRadius), ArgReal(args[6], e.sma),
              ArgReal(args[7], e.smb), ArgReal(args[8], e.smc),
              ArgReal(args[9], e.theta), ArgReal(args[10], e.phi))
  }

  lemma ScaleBack(a: real, pi: real)
    requires pi > 0.0
    ensures a * pi / 180.0 * 180.0 / pi == a
    ensures a * 180.0 / pi * pi / 180.0 == a
  {
    assert a * pi / 180.0 * 180.0 == a * pi;
    assert a * 180.0 / pi * pi == a * 180.0;
  }

  /** Writing an angle read by get gives back the degree value that was read, and conversely. */
  lemma DegreesRoundTrip(e: Ellipsoid, pi: real)
    requires pi > 0.0
    ensures InDegrees(InRadians(e, pi), pi) == e
    ensures InRadians(InDegrees(e, pi), pi) == e
  {
    ScaleBack(e.theta, pi);
    ScaleBack(e.phi, pi);
  }

  lemma ScaleOrder(a: real, b: real, pi: real)
    requires pi > 0.0
    ensures a <= b <==> a * pi / 180.0 <= b * pi / 180.0
  {
    if a <= b {
      assert (b - a) * pi >= 0.0;
    } else {
      assert (a - b) * pi > 0.0;
    }
  }

  /** The angle bounds in degrees are the angle bounds in radians. */
  lemma AngleBoundsAgree(theta: real, phi: real, pi: real)
    requires pi > 0.0
    ensures AnglesInRange(theta, phi, 180.0) <==> AnglesInRange(theta * pi / 180.0, phi * pi / 180.0, pi)
  {
    ScaleOrder(0.0, theta, pi);
    ScaleOrder(theta, 180.0, pi);
    ScaleOrder(0.0, phi, pi);
    ScaleOrder(phi, 360.0, pi);
    assert 180.0 * pi / 180.0 == pi;
    assert 360.0 * pi / 180.0 == 2.0 * pi;
  }

  /**
   * Pack, checking in degrees, accepts exactly the ellipsoids the internal
   * constructor accepts once their angles are in radians.
   */
  lemma PackAgreesWithConstructor(e: Ellipsoid, pi: real)
    requires pi > 0.0
    ensures PackAccepts(e) <==> InternalAccepts(InRadians(e, pi), pi)
  {
    var r := InRadians(e, pi);
    AngleBoundsAgree(e.theta, e.phi, pi);
    assert r == e.(theta := e.theta * pi / 180.0, phi := e.phi * pi / 180.0);
    assert AxesOrdered(1.0, r) == AxesOrdered(1.0, e);
  }

  /** Everything the internal constructor accepts, get accepts once written in degrees. */
  lemma ConstructorStricterThanGet(e: Ellipsoid, pi: real)
    requires pi > 0.0
    ensures InternalAccepts(e, pi) ==> GetAccepts(InDegrees(e, pi))
  {
    DegreesRoundTrip(e, pi);
    PackAgreesWithConstructor(InDegrees(e, pi), pi);
  }

  /** The converse fails: get accepts a semi-axis of half a bead diameter, which Pack refuses. */
  lemma GetLooserThanPack()
    ensures var e := Ellipsoid(0.5, 0.5, 0.5, 2.0, 1.0, 0.5, 0.5, 90.0, 0.0);
      GetAccepts(e) && !PackAccepts(e)
  {
  }

  class SelectPolymerTypeHeadInEllipsoid {
    const executionTime: int
    /** The xxCommand valid flag: once cleared it stays cleared. */
    var valid: bool
    var xc: real
    var yc: real
    var zc: real
    var boundingRadius: real
    var sma: real
    var smb: real
    var smc: real
    var theta: real
    var phi: real

    ghost function Region(): Ellipsoid
      reads this
    {
      Ellipsoid(xc, yc, zc, boundingRadius, sma, smb, smc, theta, phi)
    }

    /** The command as the factory creates it before get fills it in. */
    constructor(executionTime: int)
      ensures this.executionTime == executionTime && valid
      ensures Region() == Ellipsoid(0.0, 0.0, 0.0, 0.0, 0.0, 0.0, 0.0, 0.0, 0.0)
    {
      this.executionTime := executionTime;
      valid := true;
      xc, yc, zc := 0.0, 0.0, 0.0;
      boundingRadius, sma, smb, smc := 0.0, 0.0, 0.0, 0.0;
      theta, phi := 0.0, 0.0;
    }

    /** The constructor for commands made during a run: angles in radians, validated here. */
    constructor Internal(executionTime: int, e: Ellipsoid, pi: real)
      ensures this.executionTime == executionTime && Region() == e
      ensures valid <==> InternalAccepts(e, pi)
    {
      this.executionTime := executionTime;
      valid := true;
      xc, yc, zc := e.xc, e.yc, e.zc;
      boundingRadius, sma, smb, smc := e.boundingRadius, e.sma, e.smb, e.smc;
      theta, phi := e.theta, e.phi;
      new;
      if xc < 0.0 || yc < 0.0 || zc < 0.0 || xc > 1.0 || yc > 1.0 || zc > 1.0 {
        valid := false;
      }
      if boundingRadius < 1.0 || sma < 1.0 || smb < 1.0 || smc < 1.0
         || smb > sma || smc > smb || sma > boundingRadius {
        valid := false;
      }
      if theta < 0.0 || phi < 0.0 || theta > pi || phi > 2.0 * pi {
        valid := false;
      }
    }

    constructor Copy(other: SelectPolymerTypeHeadInEllipsoid)
      ensures executionTime == other.executionTime && valid == other.valid
      ensures Region() == other.Region()
    {
      executionTime := other.executionTime;
      valid := other.valid;
      xc, yc, zc := other.xc, other.yc, other.zc;
      boundingRadius, sma, smb, smc := other.boundingRadius, other.sma, other.smb, other.smc;
      theta, phi := other.theta, other.phi;
    }

    /**
     * Reads centre, bounding radius, semi-axes and angles (in degrees). Each
     * group that fails to read or to pass its check clears the valid flag,
     * and reading goes on. The angles are converted to radians whatever the
     * checks found.
     */
    method Get(input: InStream, pi: real) returns (os: InStream)
      modifies this
      ensures os.ok <==> Fits(input, Reals(9))
      ensures Fits(input, Reals(9)) ==>
        && os.rest == input.rest[9..]
        && Region() == InRadians(FromTokens(input.rest), pi)
        && (valid <==> old(valid) && GetAccepts(FromTokens(input.rest)))
      ensures !Fits(input, Reals(9)) ==> !valid
    {
      var s := input;
      var r := ReadReal(s, xc);
      ReadRealStep(s, xc, 8);
      s, xc := r.0, r.1;
      r := ReadReal(s, yc);
      ReadRealStep(s, yc, 7);
      s, yc := r.0, r.1;
      r := ReadReal(s, zc);
      ReadRealStep(s, zc, 6);
      s, zc := r.0, r.1;
      if !s.ok || !CentreInBox(xc, yc, zc) {
        valid := false;
      }
      os := GetAxes(s, pi);
      assert Fits(input, Reals(9)) ==> os.rest == input.rest[9..] by {
        if Fits(input, Reals(9)) {
          assert input.rest[3..][6..] == input.rest[9..];
        }
      }
    }

    /** The part of get after the centre: bounding radius and semi-axes, then the angles. */
    method GetAxes(input: InStream, pi: real) returns (os: InStream)
      modifies this
      ensures os.ok <==> Fits(input, Reals(6))
      ensures Fits(input, Reals(6)) ==>
        && os.rest == input.rest[6..]
        && Region() == InRadians(old(Region()).(
             boundingRadius := RealOf(input.rest[0]), sma := RealOf(input.rest[1]),
             smb := RealOf(input.rest[2]), smc := RealOf(input.rest[3]),
             theta := RealOf(input.rest[4]), phi := RealOf(input.rest[5])), pi)
        && (valid <==> old(valid) && AxesOrdered(0.0, Region())
                       && AnglesInRange(RealOf(input.rest[4]), RealOf(input.rest[5]), 180.0))
      ensures !Fits(input, Reals(6)) ==> !valid
      ensures xc == old(xc) && yc == old(yc) && zc == old(zc)
    {
      var s := GetLengths(input);
      os := GetAngles(s, pi);
      if Fits(input, Reals(6)) {
        assert input.rest[4..][2..] == input.rest[6..];
      }
    }

    /** Reads the bounding radius and the three semi-axes and checks their order. */
    method GetLengths(input: InStream) returns (os: InStream)
      modifies this
      ensures Fits(input, Reals(6)) <==> os.ok && Fits(os, Reals(2))
      ensures os.ok ==> |input.rest| >= 4 && os.rest == input.rest[4..]
      ensures os.ok ==>
        && boundingRadius == RealOf(input.rest[0]) && sma == RealOf(input.rest[1])
        && smb == RealOf(input.rest[2]) && smc == RealOf(input.rest[3])
        && (valid <==> old(valid) && AxesOrdered(0.0, Region()))
      ensures !os.ok ==> !valid
      ensures xc == old(xc) && yc == old(yc) && zc == old(zc)
      ensures theta == old(theta) && phi == old(phi)
    {
      var s := input;
      var r := ReadReal(s, boundingRadius);
      ReadRealStep(s, boundingRadius, 5);
      s, boundingRadius := r.0, r.1;
      r := ReadReal(s, sma);
      ReadRealStep(s, sma, 4);
      s, sma := r.0, r.1;
      r := ReadReal(s, smb);
      ReadRealStep(s, smb, 3);
      s, smb := r.0, r.1;
      r := ReadReal(s, smc);
      ReadRealStep(s, smc, 2);
      s, smc := r.0, r.1;
      if !s.ok || boundingRadius < 0.0 || sma < 0.0 || smb < 0.0 || smc < 0.0
         || smb > sma || smc > smb || sma > boundingRadius {
        valid := false;
      }
      os := s;
    }

    /** Reads the two angles in degrees, checks them, and converts them to radians in any case. */
    method GetAngles(input: InStream, pi: real) returns (os: InStream)
      modifies this
      ensures os.ok <==> Fits(input, Reals(2))
      ensures os.ok ==>
        && |input.rest| >= 2 && os.rest == input.rest[2..]
        && theta == RealOf(input.rest[0]) * pi / 180.0 && phi == RealOf(input.rest[1]) * pi / 180.0
        && (valid <==> old(valid) && AnglesInRange(RealOf(input.rest[0]), RealOf(input.rest[1]), 180.0))
      ensures !os.ok ==> !valid
      ensures xc == old(xc) && yc == old(yc) && zc == old(zc)
      ensures boundingRadius == old(boundingRadius) && sma == old(sma)
      ensures smb == old(smb) && smc == old(smc)
    {
      var s := input;
      var r := ReadReal(s, theta);
      ReadRealStep(s, theta, 1);
      s, theta := r.0, r.1;
      r := ReadReal(s, phi);
      ReadRealStep(s, phi, 0);
      s, phi := r.0, r.1;
      if !s.ok || theta < 0.0 || phi < 0.0 || theta > 180.0 || phi > 360.0 {
        valid := false;
      }
      theta := theta * pi / 180.0;
      phi := phi * pi / 180.0;
      os := s;
    }

    /**
     * Fills the command from a command group's arguments (angles in
     * degrees). It succeeds iff command groups are enabled, the base class
     * accepts the target and polymer arguments, there are eleven arguments
     * and the values pass the constructor's bounds; only then are the angles
     * converted to radians. The valid flag is not touched.
     */
    method Pack(args: seq<Value>, basePacked: bool, groupsEnabled: bool, pi: real) returns (ok: bool)
      modifies this
      ensures ok <==> groupsEnabled && basePacked && |args| == ArgumentTotal
                      && PackAccepts(FromArguments(args, old(Region())))
      ensures ok ==> Region() == InRadians(FromArguments(args, old(Region())), pi)
      ensures groupsEnabled && basePacked && |args| == ArgumentTotal && !ok ==>
        Region() == FromArguments(args, old(Region()))
      ensures !(groupsEnabled && basePacked && |args| == ArgumentTotal) ==> Region() == old(Region())
      ensures valid == old(valid)
    {
      if !groupsEnabled || !basePacked || |args| != ArgumentTotal {
        return false;
      }
      var e := FromArguments(args, Ellipsoid(xc, yc, zc, boundingRadius, sma, smb, smc, theta, phi));
      xc, yc, zc := e.xc, e.yc, e.zc;
      boundingRadius, sma, smb, smc := e.boundingRadius, e.sma, e.smb, e.smc;
      theta, phi := e.theta, e.phi;
      if !PackAccepts(e) {
        return false;
      }
      theta := theta * pi / 180.0;
      phi := phi * pi / 180.0;
      return true;
    }

    /** The command runs at its execution time and at no other. */
    method Execute(simTime: int) returns (r: bool)
      ensures r <==> IsDue(executionTime, simTime)
    {
      r := simTime == executionTime;
    }
  }
}
