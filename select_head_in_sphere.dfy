/**
 * ccSelectPolymerTypeHeadInSphere: selects the polymers of one type whose
 * head bead lies in a spherical shell, given by its centre (fractions of the
 * box) and its inner and outer radii.
 */
module HeadInSphere {

  import opened Streams
  import opened Commands
  import opened Regions

  /** The number of arguments a command group packs into this command. */
  const ArgumentTotal := 7

  datatype Shell = Shell(xc: real, yc: real, zc: real, innerRadius: real, outerRadius: real)

  /** Both radii are non-negative and the inner one does not exceed the outer one. */
  predicate RadiiOrdered(s: Shell)
  {
    s.innerRadius >= 0.0 && s.outerRadius >= 0.0 && s.innerRadius <= s.outerRadius
  }

  /** The check shared by the internal constructor, get and Pack. */
  predicate Accepts(s: Shell)
  {
    CentreInBox(s.xc, s.yc, s.zc) && RadiiOrdered(s)
  }

  /** The five numbers get reads, in order. */
  function FromTokens(ts: seq<Value>): Shell
    requires |ts| >= 5
  {
    Shell(RealOf(ts[0]), RealOf(ts[1]), RealOf(ts[2]), RealOf(ts[3]), RealOf(ts[4]))
  }

  /** The five values Pack takes from arguments 2 to 6; a non-numeric argument leaves its field as it was. */
  function FromArguments(args: seq<Value>, s: Shell): Shell
    requires |args| == ArgumentTotal
  {
    Shell(ArgReal(args[2], s.xc), ArgReal(args[3], s.yc), ArgReal(args[4], s.zc),
          ArgReal(args[5], s.innerRadius), ArgReal(args[6], s.outerRadius))
  }

  /**
   * A command group whose numeric arguments are the tokens a control file
   * would hold packs a command exactly when get would accept those tokens.
   */
  lemma PackAgreesWithGet(args: seq<Value>, s: Shell)
    requires |args| == ArgumentTotal
    requires forall i :: 2 <= i < ArgumentTotal ==> args[i].asReal.Some?
    ensures FromArguments(args, s) == FromTokens(args[2..])
    ensures Accepts(FromArguments(args, s)) <==> Accepts(FromTokens(args[2..]))
  {
    assert args[2..][0] == args[2] && args[2..][4] == args[6];
  }

  class SelectPolymerTypeHeadInSphere {
    const executionTime: int
    /** The xxCommand valid flag: once cleared it stays cleared. */
    var valid: bool
    var xc: real
    var yc: real
    var zc: real
    var innerRadius: real
    var outerRadius: real

    ghost function Region(): Shell
      reads this
    {
      Shell(xc, yc, zc, innerRadius, outerRadius)
    }

    /** The command as the factory creates it before get fills it in. */
    constructor(executionTime: int)
      ensures this.executionTime == executionTime && valid
      ensures Region() == Shell(0.0, 0.0, 0.0, 0.0, 0.0)
    {
      this.executionTime := executionTime;
      valid := true;
      xc, yc, zc := 0.0, 0.0, 0.0;
      innerRadius, outerRadius := 0.0, 0.0;
    }

    /** The constructor for commands made during a run, validated here. */
    constructor Internal(executionTime: int, s: Shell)
      ensures this.executionTime == executionTime && Region() == s
      ensures valid <==> Accepts(s)
    {
      this.executionTime := executionTime;
      valid := true;
      xc, yc, zc := s.xc, s.yc, s.zc;
      innerRadius, outerRadius := s.innerRadius, s.outerRadius;
      new;
      if xc < 0.0 || yc < 0.0 || zc < 0.0 || xc > 1.0 || yc > 1.0 || zc > 1.0 {
        valid := false;
      }
      if innerRadius < 0.0 || outerRadius < 0.0 || innerRadius > outerRadius {
        valid := false;
      }
    }

    /** The copy keeps the centre and both radii. */
    constructor Copy(other: SelectPolymerTypeHeadInSphere)
      ensures executionTime == other.executionTime && valid == other.valid
      ensures Region() == other.Region()
    {
      executionTime := other.executionTime;
      valid := other.valid;
      xc, yc, zc := other.xc, other.yc, other.zc;
      innerRadius, outerRadius := other.innerRadius, other.outerRadius;
    }

    /**
     * Reads the centre and checks it, then the radii and checks them; a
     * failed read or check clears the valid flag.
     */
    method Get(input: InStream) returns (os: InStream)
      modifies this
      ensures os.ok <==> Fits(input, Reals(5))
      ensures Fits(input, Reals(5)) ==>
        && os.rest == input.rest[5..]
        && Region() == FromTokens(input.rest)
        && (valid <==> old(valid) && Accepts(FromTokens(input.rest)))
      ensures !Fits(input, Reals(5)) ==> !valid
    {
      var s := input;
      var r := ReadReal(s, xc);
      ReadRealStep(s, xc, 4);
      s, xc := r.0, r.1;
      r := ReadReal(s, yc);
      ReadRealStep(s, yc, 3);
      s, yc := r.0, r.1;
      r := ReadReal(s, zc);
      ReadRealStep(s, zc, 2);
      s, zc := r.0, r.1;
      if !s.ok || xc < 0.0 || yc < 0.0 || zc < 0.0 || xc > 1.0 || yc > 1.0 || zc > 1.0 {
        valid := false;
      }
      os := GetRadii(s);
      if Fits(input, Reals(5)) {
        assert input.rest[3..][2..] == input.rest[5..];
      }
    }

    /** Reads the two radii and checks their order. */
    method GetRadii(input: InStream) returns (os: InStream)
      modifies this
      ensures os.ok <==> Fits(input, Reals(2))
      ensures os.ok ==>
        && |input.rest| >= 2 && os.rest == input.rest[2..]
        && innerRadius == RealOf(input.rest[0]) && outerRadius == RealOf(input.rest[1])
        && (valid <==> old(valid) && RadiiOrdered(Region()))
      ensures !os.ok ==> !valid
      ensures xc == old(xc) && yc == old(yc) && zc == old(zc)
    {
      var s := input;
      var r := ReadReal(s, innerRadius);
      ReadRealStep(s, innerRadius, 1);
      s, innerRadius := r.0, r.1;
      r := ReadReal(s, outerRadius);
      ReadRealStep(s, outerRadius, 0);
      s, outerRadius := r.0, r.1;
      if !s.ok || innerRadius < 0.0 || outerRadius < 0.0 || innerRadius > outerRadius {
        valid := false;
      }
      os := s;
    }

    /**
     * Fills the command from a command group's arguments. It succeeds iff
     * command groups are enabled, the base class accepts the target and
     * polymer arguments, there are seven arguments and the shell passes the
     * same check as get. The values are stored even when the check fails.
     */
    method Pack(args: seq<Value>, basePacked: bool, groupsEnabled: bool) returns (ok: bool)
      modifies this
      ensures ok <==> groupsEnabled && basePacked && |args| == ArgumentTotal
                      && Accepts(FromArguments(args, old(Region())))
      ensures groupsEnabled && basePacked && |args| == ArgumentTotal ==>
        Region() == FromArguments(args, old(Region()))
      ensures !(groupsEnabled && basePacked && |args| == ArgumentTotal) ==> Region() == old(Region())
      ensures valid == old(valid)
    {
      if !groupsEnabled || !basePacked || |args| != ArgumentTotal {
        return false;
      }
      xc := ArgReal(args[2], xc);
      yc := ArgReal(args[3], yc);
      zc := ArgReal(args[4], zc);
      innerRadius := ArgReal(args[5], innerRadius);
      outerRadius := ArgReal(args[6], outerRadius);
      if xc < 0.0 || yc < 0.0 || zc < 0.0 || xc > 1.0 || yc > 1.0 || zc > 1.0
         || outerRadius < 0.0 || innerRadius < 0.0 || innerRadius > outerRadius {
        return false;
      }
      return true;
    }

    /** The command runs at its execution time and at no other. */
    method Execute(simTime: int) returns (r: bool)
      ensures r <==> IsDue(executionTime, simTime)
    {
      r := simTime == executionTime;
    }
  }
}
