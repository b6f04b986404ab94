/**
 * acSetFreeActiveBondsInvisible: hides the free bonds of one active cell
 * network from the current-state snapshots.
 */
module FreeBondsInvisible {

  import opened Streams
  import opened Commands
  import opened Inputs

  /** An active cell network as this command sees it. */
  class Network {
    var freeBondsVisible: bool
    var freeBondTotal: int

    constructor(freeBondTotal: int)
      ensures freeBondsVisible && this.freeBondTotal == freeBondTotal
    {
      freeBondsVisible := true;
      this.freeBondTotal := freeBondTotal;
    }

    /** Marks the free bonds invisible, even when there are none yet, so later ones are hidden too. */
    method SetFreeActiveBondsInvisible()
      modifies this
      ensures !freeBondsVisible && freeBondTotal == old(freeBondTotal)
    {
      freeBondsVisible := false;
    }
  }

  class SetFreeActiveBondsInvisible {
    const executionTime: int
    /** The xxCommand valid flag: once cleared it stays cleared. */
    var valid: bool
    /** The network's name (its type, not a bond name). */
    var networkName: string

    constructor(executionTime: int)
      ensures this.executionTime == executionTime && valid && networkName == ""
    {
      this.executionTime := executionTime;
      valid := true;
      networkName := "";
    }

    constructor Copy(other: SetFreeActiveBondsInvisible)
      ensures executionTime == other.executionTime && valid == other.valid
      ensures networkName == other.networkName
    {
      executionTime := other.executionTime;
      valid := other.valid;
      networkName := other.networkName;
    }

    /** Reads the network name; a failed read or an empty name clears the valid flag. */
    method Get(input: InStream) returns (os: InStream)
      modifies this
      ensures os.ok <==> Fits(input, [Word])
      ensures valid <==> old(valid) && Fits(input, [Word]) && input.rest[0].text != ""
      ensures Fits(input, [Word]) ==> networkName == input.rest[0].text && os.rest == input.rest[1..]
    {
      var w := ReadWord(input, networkName);
      os, networkName := w.0, w.1;
      if !os.ok || networkName == "" {
        valid := false;
      }
    }

    /**
     * Reports that the command ran whenever it is due, whether or not a
     * network of that name exists; only a found network is changed, and
     * only when the command is due.
     */
    method Execute(simTime: int, networks: map<string, Network>) returns (r: bool)
      modifies set n | n in networks.Values
      ensures r <==> IsDue(executionTime, simTime)
      ensures r && networkName in networks ==> !networks[networkName].freeBondsVisible
      ensures forall n :: n in networks.Values ==> n.freeBondTotal == old(n.freeBondTotal)
      ensures forall n :: n in networks.Values && (!r || networkName !in networks || n != networks[networkName]) ==>
        n.freeBondsVisible == old(n.freeBondsVisible)
    {
      if simTime != executionTime {
        return false;
      }
      if networkName in networks {
        networks[networkName].SetFreeActiveBondsInvisible();
      }
      return true;
    }

    /** There are no checks against the input data. */
    function IsDataValid(riData: InputData): (ok: bool)
      ensures ok
    {
      true
    }
  }
}
