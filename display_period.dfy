/**
 * mcSetDisplayPeriod: changes the number of time steps between
 * current-state snapshots.
 */
module DisplayPeriod {

  import opened Streams
  import opened Commands
  import opened Inputs

  /** A display period must be a positive number of time steps. */
  predicate PeriodValid(period: int)
  {
    period >= 1
  }

  class SetDisplayPeriod {
    const executionTime: int
    /** The xxCommand valid flag: once cleared it stays cleared. */
    var valid: bool
    /** Whether executing the command is logged. */
    var log: bool
    var period: int

    /** The factory's command, with period 0 and the xxCommand default logging setting. */
    constructor(executionTime: int, defaultLog: bool)
      ensures this.executionTime == executionTime && valid && log == defaultLog && period == 0
    {
      this.executionTime := executionTime;
      valid := true;
      log := defaultLog;
      period := 0;
    }

    /** The constructor for commands made during a run stores the period unchecked. */
    constructor Internal(executionTime: int, log: bool, period: int)
      ensures this.executionTime == executionTime && valid && this.log == log && this.period == period
    {
      this.executionTime := executionTime;
      valid := true;
      this.log := log;
      this.period := period;
    }

    constructor Copy(other: SetDisplayPeriod)
      ensures executionTime == other.executionTime && valid == other.valid
      ensures log == other.log && period == other.period
    {
      executionTime := other.executionTime;
      valid := other.valid;
      log := other.log;
      period := other.period;
    }

    /** Reads the period; a failed read or a period below 1 clears the valid flag. */
    method Get(input: InStream) returns (os: InStream)
      modifies this
      ensures os.ok <==> Fits(input, [Integer])
      ensures valid <==> old(valid) && Fits(input, [Integer]) && PeriodValid(IntOf(input.rest[0]))
      ensures Fits(input, [Integer]) ==> period == IntOf(input.rest[0]) && os.rest == input.rest[1..]
      ensures log == old(log)
    {
      var n := ReadInt(input, period);
      os, period := n.0, n.1;
      if !os.ok || period < 1 {
        valid := false;
      }
    }

    /** The command runs at its execution time and at no other. */
    method Execute(simTime: int) returns (r: bool)
      ensures r <==> IsDue(executionTime, simTime)
    {
      r := simTime == executionTime;
    }

    /** The period was checked when it was read: there is nothing left to check. */
    function IsDataValid(riData: InputData): (ok: bool)
      ensures ok
    {
      true
    }
  }
}
