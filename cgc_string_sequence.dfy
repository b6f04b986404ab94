/**
 * cgcSetArgumentToStringSequence: sets one argument of one command in a
 * command group to the string sequence root1, root2, ... over the group's
 * executions.
 */
module StringSequenceArgument {

  import opened Streams
  import opened Commands
  import opened Inputs

  /** The number of arguments a command group packs into this command. */
  const ArgumentTotal := 4

  /** What get reads: group name, command index, argument name, root. */
  const Layout: seq<Kind> := [Word, Integer, Word, Word]

  datatype StringSequence = StringSequence(groupName: string, commandIndex: int, argName: string, root: string)

  function FromTokens(ts: seq<Value>): StringSequence
    requires |ts| >= 4
  {
    StringSequence(ts[0].text, IntOf(ts[1]), ts[2].text, ts[3].text)
  }

  /** The values Pack takes from its four arguments; a non-integer index leaves the index as it was. */
  function FromArguments(args: seq<Value>, c: StringSequence): StringSequence
    requires |args| == ArgumentTotal
  {
    StringSequence(ArgText(args[0]), ArgInt(args[1], c.commandIndex), ArgText(args[2]), ArgText(args[3]))
  }

  /**
   * The check IsDataValid makes: a valid group name, a command index of at
   * least 1 and a non-empty root. The argument name is left to the command
   * group that receives the command.
   */
  function DataValid(c: StringSequence, nameRule: string -> bool): (ok: bool)
    ensures ok <==> nameRule(c.groupName) && c.commandIndex >= 1 && |c.root| > 0
  {
    if !nameRule(c.groupName) then false
    else if c.commandIndex < 1 then false
    else c.root != ""
  }

  /** Whatever argument name the command carries, validation gives the same answer. */
  lemma ArgumentNameNotChecked(c: StringSequence, nameRule: string -> bool, argName: string)
    ensures DataValid(c.(argName := argName), nameRule) == DataValid(c, nameRule)
  {
  }

  /** A command made by the factory and never filled in fails validation. */
  lemma DefaultRejected(nameRule: string -> bool)
    ensures !DataValid(StringSequence("", 0, "", ""), nameRule)
  {
  }

  /**
   * A command group whose arguments are the tokens a control file would hold
   * fills the command in exactly as get would.
   */
  lemma PackAgreesWithGet(args: seq<Value>, c: StringSequence)
    requires |args| == ArgumentTotal && args[1].asInt.Some?
    ensures FromArguments(args, c) == FromTokens(args)
  {
  }

  class SetArgumentToStringSequence {
    const executionTime: int
    /** The xxCommand valid flag: once cleared it stays cleared. */
    var valid: bool
    var groupName: string
    var commandIndex: int
    var argName: string
    var root: string

    ghost function State(): StringSequence
      reads this
    {
      StringSequence(groupName, commandIndex, argName, root)
    }

    constructor(executionTime: int)
      ensures this.executionTime == executionTime && valid
      ensures State() == StringSequence("", 0, "", "")
    {
      this.executionTime := executionTime;
      valid := true;
      groupName, commandIndex, argName, root := "", 0, "", "";
    }

    /** The constructor for commands made during a run stores its arguments unchecked. */
    constructor Internal(executionTime: int, c: StringSequence)
      ensures this.executionTime == executionTime && valid && State() == c
    {
      this.executionTime := executionTime;
      valid := true;
      groupName, commandIndex, argName, root := c.groupName, c.commandIndex, c.argName, c.root;
    }

    constructor Copy(other: SetArgumentToStringSequence)
      ensures executionTime == other.executionTime && valid == other.valid
      ensures State() == other.State()
    {
      executionTime := other.executionTime;
      valid := other.valid;
      groupName, commandIndex, argName, root := other.groupName, other.commandIndex, other.argName, other.root;
    }

    /** Reads the four values in one chain; only a failed read clears the valid flag. */
    method Get(input: InStream) returns (os: InStream)
      modifies this
      ensures valid <==> old(valid) && Fits(input, Layout)
      ensures os.ok <==> Fits(input, Layout)
      ensures Fits(input, Layout) ==> State() == FromTokens(input.rest) && os.rest == input.rest[4..]
    {
      var s := input;
      var w := ReadWord(s, groupName);
      ReadWordStep(s, groupName, [Integer, Word, Word]);
      s, groupName := w.0, w.1;
      var n := ReadInt(s, commandIndex);
      ReadIntStep(s, commandIndex, [Word, Word]);
      s, commandIndex := n.0, n.1;
      w := ReadWord(s, argName);
      ReadWordStep(s, argName, [Word]);
      s, argName := w.0, w.1;
      w := ReadWord(s, root);
      ReadWordStep(s, root, []);
      s, root := w.0, w.1;
      if !s.ok {
        valid := false;
      }
      os := s;
      if Fits(input, Layout) {
        assert input.rest[1..][1..][1..][1..] == input.rest[4..];
      }
    }

    /**
     * The command runs at its execution time and at no other; it hands
     * itself to the simulation only when command groups are enabled.
     */
    method Execute(simTime: int, groupsEnabled: bool) returns (r: bool, dispatched: bool)
      ensures r <==> IsDue(executionTime, simTime)
      ensures dispatched <==> r && groupsEnabled
    {
      r := simTime == executionTime;
      dispatched := r && groupsEnabled;
    }

    function IsDataValid(riData: InputData): (ok: bool)
      reads this
      ensures ok <==> riData.isExternalNameValid(groupName) && commandIndex >= 1 && |root| > 0
    {
      DataValid(StringSequence(groupName, commandIndex, argName, root), riData.isExternalNameValid)
    }

    /**
     * Takes group name, command index, argument name and root from four
     * arguments, in that order; any other number of arguments fails and
     * changes nothing.
     */
    method Pack(args: seq<Value>) returns (ok: bool)
      modifies this
      ensures ok <==> |args| == ArgumentTotal
      ensures ok ==> State() == FromArguments(args, old(State()))
      ensures !ok ==> State() == old(State())
      ensures valid == old(valid)
    {
      if |args| != ArgumentTotal {
        return false;
      }
      groupName := ArgText(args[0]);
      commandIndex := ArgInt(args[1], commandIndex);
      argName := ArgText(args[2]);
      root := ArgText(args[3]);
      return true;
    }
  }
}
