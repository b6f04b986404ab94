/**
 * pmSetDisplayPeriod: the parallel message that carries a display-period
 * command to the other processors. Only its payload is modelled.
 */
module DisplayPeriodMessage {

  import opened DisplayPeriod

  /** The command a message is asked to wrap: a display-period command or any other. */
  datatype CommandRef = DisplayPeriodCommand(period: int) | OtherCommand

  /** The period a message takes from a command: 0, an illegal value, for any other kind of command. */
  function PeriodOf(c: CommandRef): int
  {
    if c.DisplayPeriodCommand? then c.period else 0
  }

  /**
   * A message built from a command validates iff the command is a
   * display-period command whose period is itself valid.
   */
  lemma MessageValidIff(c: CommandRef)
    ensures PeriodValid(PeriodOf(c)) <==> c.DisplayPeriodCommand? && PeriodValid(c.period)
  {
    if !c.DisplayPeriodCommand? {
      assert PeriodOf(c) == 0;
    }
  }

  class SetDisplayPeriodMessage {
    var period: int

    /** A new message carries period 0, so it does not validate until it is given a command. */
    constructor()
      ensures period == 0 && !Validate()
    {
      period := 0;
    }

    constructor Copy(other: SetDisplayPeriodMessage)
      ensures period == other.period
    {
      period := other.period;
    }

    /** Copies the period of a display-period command; any other command gives the illegal period 0. */
    method SetMessageData(c: CommandRef)
      modifies this
      ensures c.DisplayPeriodCommand? ==> period == c.period
      ensures !c.DisplayPeriodCommand? ==> period == 0 && !Validate()
    {
      if c.DisplayPeriodCommand? {
        period := c.period;
      } else {
        period := 0;
      }
    }

    /** The payload is valid iff the period is a positive number of steps. */
    predicate Validate(): (ok: bool)
      reads this
      ensures ok <==> period >= 1
    {
      PeriodValid(period)
    }
  }
}
