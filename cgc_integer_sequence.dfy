/**
 * cgcSetArgumentToIntegerSequence: sets one argument of one command in a
 * command group to the integer sequence initial, initial + increment, ...
 * over the group's executions.
 */
module IntegerSequenceArgument {

  import opened Streams
  import opened Commands
  import opened Inputs

  /** The number of arguments a command group packs into this command. */
  const ArgumentTotal := 5

  /** What get reads: group name, command index, argument name, initial value, increment. */
  const Layout: seq<Kind> := [Word, Integer, Word, Integer, Integer]

  datatype IntegerSequence = IntegerSequence(
    groupName: string, commandIndex: int, argName: string, initialValue: int, increment: int)

  function FromTokens(ts: seq<Value>): IntegerSequence
    requires |ts| >= 5
  {
    IntegerSequence(ts[0].text, IntOf(ts[1]), ts[2].text, IntOf(ts[3]), IntOf(ts[4]))
  }

  /** The values Pack takes from its five arguments; a non-integer leaves its field as it was. */
  function FromArguments(args: seq<Value>, c: IntegerSequence): IntegerSequence
    requires |args| == ArgumentTotal
  {
    IntegerSequence(ArgText(args[0]), ArgInt(args[1], c.commandIndex), ArgText(args[2]),
                    ArgInt(args[3], c.initialValue), ArgInt(args[4], c.increment))
  }

  /**
   * The check IsDataValid makes: both names must be valid external names and
   * the command index must be at least 1.
   */
  function DataValid(c: IntegerSequence, nameRule: string -> bool): (ok: bool)
    ensures ok ==> c.commandIndex >= 1
    ensures !nameRule(c.groupName) || !nameRule(c.argName) ==> !ok
    ensures nameRule(c.groupName) && nameRule(c.argName) && c.commandIndex >= 1 ==> ok
  {
    if !nameRule(c.groupName) then false
    else if !nameRule(c.argName) then false
    else c.commandIndex >= 1
  }

  /** The sequence's start and step play no part in validation: any integers, zero or negative, are accepted. */
  lemma ValuesNotChecked(c: IntegerSequence, nameRule: string -> bool, initialValue: int, increment: int)
    ensures DataValid(c.(initialValue := initialValue, increment := increment), nameRule) == DataValid(c, nameRule)
  {
  }

  /**
   * A command group whose arguments are the tokens a control file would hold
   * fills the command in exactly as get would.
   */
  lemma PackAgreesWithGet(args: seq<Value>, c: IntegerSequence)
    requires |args| == ArgumentTotal
    requires args[1].asInt.Some? && args[3].asInt.Some? && args[4].asInt.Some?
    ensures FromArguments(args, c) == FromTokens(args)
  {
  }

  class SetArgumentToIntegerSequence {
    const executionTime: int
    /** The xxCommand valid flag: once cleared it stays cleared. */
    var valid: bool
    var groupName: string
    var commandIndex: int
    var argName: string
    var initialValue: int
    var increment: int

    ghost function State(): IntegerSequence
      reads this
    {
      IntegerSequence(groupName, commandIndex, argName, initialValue, increment)
    }

    constructor(executionTime: int)
      ensures this.executionTime == executionTime && valid
      ensures State() == IntegerSequence("", 0, "", 0, 0)
    {
      this.executionTime := executionTime;
      valid := true;
      groupName, commandIndex, argName, initialValue, increment := "", 0, "", 0, 0;
    }

    /** The constructor for commands made during a run stores its arguments unchecked. */
    constructor Internal(executionTime: int, c: IntegerSequence)
      ensures this.executionTime == executionTime && valid && State() == c
    {
      this.executionTime := executionTime;
      valid := true;
      groupName, commandIndex, argName, initialValue, increment :=
        c.groupName, c.commandIndex, c.argName, c.initialValue, c.increment;
    }

    constructor Copy(other: SetArgumentToIntegerSequence)
      ensures executionTime == other.executionTime && valid == other.valid
      ensures State() == other.State()
    {
      executionTime := other.executionTime;
      valid := other.valid;
      groupName, commandIndex, argName, initialValue, increment :=
        other.groupName, other.commandIndex, other.argName, other.initialValue, other.increment;
    }

    /** Reads the five values in one chain; only a failed read clears the valid flag. */
    method Get(input: InStream) returns (os: InStream)
      modifies this
      ensures valid <==> old(valid) && Fits(input, Layout)
      ensures os.ok <==> Fits(input, Layout)
      ensures Fits(input, Layout) ==> State() == FromTokens(input.rest) && os.rest == input.rest[5..]
    {
      var s := input;
      var w := ReadWord(s, groupName);
      ReadWordStep(s, groupName, [Integer, Word, Integer, Integer]);
      s, groupName := w.0, w.1;
      var n := ReadInt(s, commandIndex);
      ReadIntStep(s, commandIndex, [Word, Integer, Integer]);
      s, commandIndex := n.0, n.1;
      w := ReadWord(s, argName);
      ReadWordStep(s, argName, [Integer, Integer]);
      s, argName := w.0, w.1;
      n := ReadInt(s, initialValue);
      ReadIntStep(s, initialValue, [Integer]);
      s, initialValue := n.0, n.1;
      n := ReadInt(s, increment);
      ReadIntStep(s, increment, []);
      s, increment := n.0, n.1;
      if !s.ok {
        valid := false;
      }
      os := s;
      if Fits(input, Layout) {
        assert input.rest[1..][1..][1..][1..][1..] == input.rest[5..];
      }
    }

    /**
     * The command runs at its execution time and at no other; it hands
     * itself to the simulation only when command groups are enabled.
     */
    method Execute(simTime: int, groupsEnabled: bool) returns (r: bool, dispatched: bool)
      ensures r <==> IsDue(executionTime, simTime)
      ensures dispatched <==> r && groupsEnabled
    {
      r := simTime == executionTime;
      dispatched := r && groupsEnabled;
    }

    function IsDataValid(riData: InputData): (ok: bool)
      reads this
      ensures ok <==> riData.isExternalNameValid(groupName) && riData.isExternalNameValid(argName)
                      && commandIndex >= 1
    {
      DataValid(IntegerSequence(groupName, commandIndex, argName, initialValue, increment), riData.isExternalNameValid)
    }

    /**
     * Takes group name, command index, argument name, initial value and
     * increment from five arguments, in that order; any other number of
     * arguments fails and changes nothing.
     */
    method Pack(args: seq<Value>) returns (ok: bool)
      modifies this
      ensures ok <==> |args| == ArgumentTotal
      ensures ok ==> State() == FromArguments(args, old(State()))
      ensures !ok ==> State() == old(State())
      ensures valid == old(valid)
    {
      if |args| != ArgumentTotal {
        return false;
      }
      groupName := ArgText(args[0]);
      commandIndex := ArgInt(args[1], commandIndex);
      argName := ArgText(args[2]);
      initialValue := ArgInt(args[3], initialValue);
      increment := ArgInt(args[4], increment);
      return true;
    }
  }
}
