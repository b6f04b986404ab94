/**
 * pmISRestart: the parallel message that tells the other processors to
 * start from a restart state, identified by the run id and the time step
 * of the saved state. Only its payload is modelled.
 */
module RestartMessage {

  /** The initial-state data a message is built from: a restart state or another kind. */
  datatype InitialState = RestartState(runId: string, stateId: int) | OtherState

  /** The payload check: a named run and a state saved at a positive time step. */
  predicate PayloadValid(runId: string, stateId: int)
  {
    runId != "" && stateId >= 1
  }

  class ISRestartMessage {
    var runId: string
    var stateId: int

    /** A new message has an empty run id and state 0, and does not validate. */
    constructor()
      ensures runId == "" && stateId == 0 && !Validate()
    {
      runId, stateId := "", 0;
    }

    constructor Copy(other: ISRestartMessage)
      ensures runId == other.runId && stateId == other.stateId
    {
      runId, stateId := other.runId, other.stateId;
    }

    /** Copies the run id and state id of a restart state, the only kind the message may be given. */
    method SetMessageData(isd: InitialState)
      requires isd.RestartState?
      modifies this
      ensures runId == isd.runId && stateId == isd.stateId
      ensures Validate() <==> PayloadValid(isd.runId, isd.stateId)
    {
      runId := isd.runId;
      stateId := isd.stateId;
    }

    /** Fails for an empty run id, then for a state id below 1, and passes otherwise. */
    function Validate(): (ok: bool)
      reads this
      ensures runId == "" ==> !ok
      ensures stateId < 1 ==> !ok
      ensures ok <==> PayloadValid(runId, stateId)
    {
      if runId == "" then false
      else if stateId < 1 then false
      else true
    }
  }
}
