/**
 * pcBLMVesicleFusionSetStretchDuration: sets, for the running vesicle
 * fusion process with a given id, the number of time steps for which its
 * stretching force is applied.
 */
module StretchDuration {

  import opened Streams
  import opened Commands
  import opened Inputs

  /** What get reads: process id, duration. */
  const Layout: seq<Kind> := [Word, Integer]

  /** What happens when the command is sent to the simulation. */
  datatype Dispatch =
    | NotDue
    /** The process was found and implements the fusion interface: the duration is set. */
    | Applied
    /** The process was found but is not a vesicle fusion process: a warning is logged. */
    | NotAccessible
    /** No modifiable process has this id: a warning is logged. */
    | NotModifiable
    /** Process commands are compiled out. */
    | Disabled

  /** The process id must be non-empty and the duration not negative; zero is allowed. */
  predicate Accepts(pid: string, duration: int)
  {
    pid != "" && duration >= 0
  }

  /**
   * Where a due command ends up, given whether process commands are
   * enabled, whether a modifiable process has the id and whether it is a
   * vesicle fusion process.
   */
  function Route(due: bool, enabled: bool, found: bool, isFusion: bool): (d: Dispatch)
    ensures d == NotDue <==> !due
    ensures d == Applied <==> due && enabled && found && isFusion
  {
    if !due then NotDue
    else if !enabled then Disabled
    else if !found then NotModifiable
    else if !isFusion then NotAccessible
    else Applied
  }

  class SetStretchDuration {
    const executionTime: int
    /** The xxCommand valid flag: once cleared it stays cleared. */
    var valid: bool
    var pid: string
    var duration: int

    constructor(executionTime: int)
      ensures this.executionTime == executionTime && valid && pid == "" && duration == 0
    {
      this.executionTime := executionTime;
      valid := true;
      pid, duration := "", 0;
    }

    constructor Copy(other: SetStretchDuration)
      ensures executionTime == other.executionTime && valid == other.valid
      ensures pid == other.pid && duration == other.duration
    {
      executionTime := other.executionTime;
      valid := other.valid;
      pid, duration := other.pid, other.duration;
    }

    /** Reads the id and the duration; a failed read, an empty id or a negative duration clears the valid flag. */
    method Get(input: InStream) returns (os: InStream)
      modifies this
      ensures os.ok <==> Fits(input, Layout)
      ensures valid <==> old(valid) && Fits(input, Layout) && Accepts(input.rest[0].text, IntOf(input.rest[1]))
      ensures Fits(input, Layout) ==>
        pid == input.rest[0].text && duration == IntOf(input.rest[1]) && os.rest == input.rest[2..]
    {
      var s := input;
      var w := ReadWord(s, pid);
      ReadWordStep(s, pid, [Integer]);
      s, pid := w.0, w.1;
      var n := ReadInt(s, duration);
      ReadIntStep(s, duration, []);
      s, duration := n.0, n.1;
      if !s.ok || pid == "" || duration < 0 {
        valid := false;
      }
      os := s;
      if Fits(input, Layout) {
        assert input.rest[1..][1..] == input.rest[2..];
      }
    }

    /**
     * Reports that the command ran whenever it is due, whether or not the
     * process is found and accepts it.
     */
    method Execute(simTime: int, enabled: bool, found: bool, isFusion: bool) returns (r: bool, d: Dispatch)
      ensures r <==> IsDue(executionTime, simTime)
      ensures d == Route(r, enabled, found, isFusion)
      ensures r <==> d != NotDue
    {
      r := simTime == executionTime;
      d := Route(r, enabled, found, isFusion);
    }

    /** There are no checks against the input data. */
    function IsDataValid(riData: InputData): (ok: bool)
      ensures ok
    {
      true
    }
  }
}
