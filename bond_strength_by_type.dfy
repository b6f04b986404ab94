/**
 * ccSetBondStrengthbyType: changes the Hookean spring constant and the
 * unstretched length of every bond of one bond type.
 */
module BondStrength {

  import opened Streams
  import opened Commands
  import opened Inputs

  /** What get reads: bond type, spring constant, unstretched length. */
  const Layout: seq<Kind> := [Integer, Real, Real]

  datatype Strength = Strength(bondType: int, springConstant: real, unstretchedLength: real)

  /**
   * The only checks that can be made when the command is read: the bond
   * type is not negative and neither is either parameter. Whether the bond
   * type exists is not known until the initial state has been built.
   */
  predicate Accepts(b: Strength)
  {
    b.bondType >= 0 && b.springConstant >= 0.0 && b.unstretchedLength >= 0.0
  }

  function FromTokens(ts: seq<Value>): Strength
    requires |ts| >= 3
  {
    Strength(IntOf(ts[0]), RealOf(ts[1]), RealOf(ts[2]))
  }

  /** A slack bond (zero spring constant, zero length) of any existing type is allowed. */
  lemma SlackBondAccepted(bondType: nat)
    ensures Accepts(Strength(bondType, 0.0, 0.0))
    ensures !Accepts(Strength(bondType, -1.0, 0.0)) && !Accepts(Strength(bondType, 0.0, -1.0))
  {
  }

  class SetBondStrengthByType {
    const executionTime: int
    /** The xxCommand valid flag: once cleared it stays cleared. */
    var valid: bool
    /** A bond name that get never reads; it only travels with copies. */
    var name: string
    var bondType: int
    var springConstant: real
    var unstretchedLength: real

    ghost function State(): Strength
      reads this
    {
      Strength(bondType, springConstant, unstretchedLength)
    }

    /** The factory's command: an "Unknown" name and bond type -1, which get must replace. */
    constructor(executionTime: int)
      ensures this.executionTime == executionTime && valid && name == "Unknown"
      ensures State() == Strength(-1, 0.0, 0.0) && !Accepts(State())
    {
      this.executionTime := executionTime;
      valid := true;
      name := "Unknown";
      bondType, springConstant, unstretchedLength := -1, 0.0, 0.0;
    }

    constructor Copy(other: SetBondStrengthByType)
      ensures executionTime == other.executionTime && valid == other.valid
      ensures name == other.name && State() == other.State()
    {
      executionTime := other.executionTime;
      valid := other.valid;
      name := other.name;
      bondType, springConstant, unstretchedLength := other.bondType, other.springConstant, other.unstretchedLength;
    }

    /** Reads the three values; a failed read or a negative value clears the valid flag. */
    method Get(input: InStream) returns (os: InStream)
      modifies this
      ensures os.ok <==> Fits(input, Layout)
      ensures valid <==> old(valid) && Fits(input, Layout) && Accepts(FromTokens(input.rest))
      ensures Fits(input, Layout) ==> State() == FromTokens(input.rest) && os.rest == input.rest[3..]
      ensures name == old(name)
    {
      var s := input;
      var n := ReadInt(s, bondType);
      ReadIntStep(s, bondType, [Real, Real]);
      s, bondType := n.0, n.1;
      var r := ReadReal(s, springConstant);
      ReadRealThen(s, springConstant, [Real]);
      s, springConstant := r.0, r.1;
      r := ReadReal(s, unstretchedLength);
      ReadRealThen(s, unstretchedLength, []);
      s, unstretchedLength := r.0, r.1;
      if !s.ok || bondType < 0 || springConstant < 0.0 || unstretchedLength < 0.0 {
        valid := false;
      }
      os := s;
      if Fits(input, Layout) {
        assert input.rest[1..][1..][1..] == input.rest[3..];
      }
    }

    /** The command runs at its execution time and at no other. */
    method Execute(simTime: int) returns (r: bool)
      ensures r <==> IsDue(executionTime, simTime)
    {
      r := simTime == executionTime;
    }

    /** Nothing can be checked against the input data: every command passes. */
    function IsDataValid(riData: InputData): (ok: bool)
      ensures ok
    {
      true
    }
  }
}
