/**
 * ccChargeBeadType: gives one bead type a screened charge force
 * F(r) = F(0) exp(-kappa r), with strength F(0) and range 1/kappa.
 */
module ChargeBead {

  import opened Streams
  import opened Commands
  import opened Inputs

  /** What get reads: bead type name, strength, range. */
  const Layout: seq<Kind> := [Word, Real, Real]

  datatype Charge = Charge(name: string, strength: real, range: real)

  /** The check made when the command is read: neither strength nor range is negative. */
  predicate Accepts(c: Charge)
  {
    c.strength >= 0.0 && c.range >= 0.0
  }

  function FromTokens(ts: seq<Value>): Charge
    requires |ts| >= 3
  {
    Charge(ts[0].text, RealOf(ts[1]), RealOf(ts[2]))
  }

  /**
   * What a charge command must satisfy overall: a valid name and
   * non-negative parameters. Whether a bead type of that name exists is not
   * checked, since types created during a run are not in the input data.
   */
  predicate FullyAccepted(c: Charge, nameRule: string -> bool)
  {
    nameRule(c.name) && c.strength >= 0.0 && c.range >= 0.0
  }

  /**
   * Reading a command and then checking it against the input data, as the
   * command reader does: the command survives both checks iff it was valid
   * before, its three values read, and the charge they give is fully accepted.
   */
  method ReadThenValidate(cmd: ChargeBeadType, input: InStream, riData: InputData) returns (ok: bool)
    modifies cmd
    ensures Fits(input, Layout) ==>
      (ok <==> old(cmd.valid) && FullyAccepted(FromTokens(input.rest), riData.isExternalNameValid))
    ensures !Fits(input, Layout) ==> !ok
    ensures ok ==> cmd.State() == FromTokens(input.rest)
  {
    var _ := cmd.Get(input);
    ok := cmd.valid && cmd.IsDataValid(riData);
  }

  class ChargeBeadType {
    const executionTime: int
    /** The xxCommand valid flag: once cleared it stays cleared. */
    var valid: bool
    var name: string
    var strength: real
    var range: real

    ghost function State(): Charge
      reads this
    {
      Charge(name, strength, range)
    }

    constructor(executionTime: int)
      ensures this.executionTime == executionTime && valid
      ensures State() == Charge("", 0.0, 0.0)
    {
      this.executionTime := executionTime;
      valid := true;
      name, strength, range := "", 0.0, 0.0;
    }

    constructor Copy(other: ChargeBeadType)
      ensures executionTime == other.executionTime && valid == other.valid
      ensures State() == other.State()
    {
      executionTime := other.executionTime;
      valid := other.valid;
      name, strength, range := other.name, other.strength, other.range;
    }

    /** Reads the three values; a failed read or a negative strength or range clears the valid flag. */
    method Get(input: InStream) returns (os: InStream)
      modifies this
      ensures os.ok <==> Fits(input, Layout)
      ensures valid <==> old(valid) && Fits(input, Layout) && Accepts(FromTokens(input.rest))
      ensures Fits(input, Layout) ==> State() == FromTokens(input.rest) && os.rest == input.rest[3..]
    {
      var s := input;
      var w := ReadWord(s, name);
      ReadWordStep(s, name, [Real, Real]);
      s, name := w.0, w.1;
      var r := ReadReal(s, strength);
      ReadRealThen(s, strength, [Real]);
      s, strength := r.0, r.1;
      r := ReadReal(s, range);
      ReadRealThen(s, range, []);
      s, range := r.0, r.1;
      if !s.ok || strength < 0.0 || range < 0.0 {
        valid := false;
      }
      os := s;
      if Fits(input, Layout) {
        assert input.rest[1..][1..][1..] == input.rest[3..];
      }
    }

    /** The command runs at its execution time and at no other. */
    method Execute(simTime: int) returns (r: bool)
      ensures r <==> IsDue(executionTime, simTime)
    {
      r := simTime == executionTime;
    }

    /** Accepts the command iff the bead type name is a valid name. */
    function IsDataValid(riData: InputData): (ok: bool)
      reads this
      ensures ok <==> riData.isExternalNameValid(name)
    {
      riData.isExternalNameValid(name)
    }
  }
}
