/**
 * ccSineForce: applies a sinusoidal force of given amplitude and period
 * (in time steps) to the beads of a target. The target and force direction
 * belong to the ccApplyForce base class.
 */
module SineForce {

  import opened Streams
  import opened Commands

  /** What get reads after the base class's data: amplitude, then period. */
  const Layout: seq<Kind> := [Real, Integer]

  /**
   * Neither the amplitude nor the period may be negative. A zero period
   * passes, although the period is read as an integer so as to force a
   * non-zero one.
   */
  predicate Accepts(amplitude: real, period: int)
  {
    amplitude >= 0.0 && period >= 0
  }

  /** The zero period the integer reading was meant to exclude is accepted, with any non-negative amplitude. */
  lemma ZeroPeriodAccepted(amplitude: real)
    requires amplitude >= 0.0
    ensures Accepts(amplitude, 0)
    ensures !Accepts(amplitude, -1) && !Accepts(-amplitude - 1.0, 0)
  {
  }

  class SineForceCommand {
    const executionTime: int
    /** The xxCommand valid flag: once cleared it stays cleared. */
    var valid: bool
    var amplitude: real
    var period: int

    constructor(executionTime: int)
      ensures this.executionTime == executionTime && valid && amplitude == 0.0 && period == 0
    {
      this.executionTime := executionTime;
      valid := true;
      amplitude, period := 0.0, 0;
    }

    constructor Copy(other: SineForceCommand)
      ensures executionTime == other.executionTime && valid == other.valid
      ensures amplitude == other.amplitude && period == other.period
    {
      executionTime := other.executionTime;
      valid := other.valid;
      amplitude, period := other.amplitude, other.period;
    }

    /**
     * Reads amplitude and period from the stream positioned after the base
     * class's data; a failed read or a negative value clears the valid flag.
     */
    method Get(input: InStream) returns (os: InStream)
      modifies this
      ensures os.ok <==> Fits(input, Layout)
      ensures valid <==> old(valid) && Fits(input, Layout) && Accepts(RealOf(input.rest[0]), IntOf(input.rest[1]))
      ensures Fits(input, Layout) ==>
        amplitude == RealOf(input.rest[0]) && period == IntOf(input.rest[1]) && os.rest == input.rest[2..]
    {
      var s := input;
      var r := ReadReal(s, amplitude);
      ReadRealThen(s, amplitude, [Integer]);
      s, amplitude := r.0, r.1;
      var n := ReadInt(s, period);
      ReadIntStep(s, period, []);
      s, period := n.0, n.1;
      if !s.ok || amplitude < 0.0 || period < 0 {
        valid := false;
      }
      os := s;
      if Fits(input, Layout) {
        assert input.rest[1..][1..] == input.rest[2..];
      }
    }

    /** The command runs at its execution time and at no other. */
    method Execute(simTime: int) returns (r: bool)
      ensures r <==> IsDue(executionTime, simTime)
    {
      r := simTime == executionTime;
    }
  }
}
