/**
 * ctCountBeadTypeInTarget: counts the beads of one type in a command
 * target. The target name belongs to the ctApplyCommand base class.
 */
module CountBeadType {

  import opened Streams
  import opened Commands

  /** The number of arguments a command group packs: the target name and the bead type. */
  const ArgumentTotal := 2

  /** The bead type a command group's arguments set; a non-integer second argument leaves it as it was. */
  function PackedBeadType(args: seq<Value>, prev: int): int
    requires |args| == ArgumentTotal
  {
    ArgInt(args[1], prev)
  }

  /** Packing a well-typed pair of arguments stores the second one, unchecked. */
  lemma PackStoresSecondArgument(args: seq<Value>, prev: int)
    requires |args| == ArgumentTotal && args[1].asInt.Some?
    ensures PackedBeadType(args, prev) == args[1].asInt.value
  {
  }

  class CountBeadTypeInTarget {
    const executionTime: int
    /** The xxCommand valid flag: once cleared it stays cleared. */
    var valid: bool
    /** The target named through the base class. */
    var targetName: string
    var beadType: int

    /** The factory's command, with no target and bead type -1. */
    constructor(executionTime: int)
      ensures this.executionTime == executionTime && valid && targetName == "" && beadType == -1
    {
      this.executionTime := executionTime;
      valid := true;
      targetName := "";
      beadType := -1;
    }

    /** The constructor for commands made during a run: the bead type is still -1. */
    constructor Internal(executionTime: int, target: string)
      ensures this.executionTime == executionTime && valid && targetName == target && beadType == -1
    {
      this.executionTime := executionTime;
      valid := true;
      targetName := target;
      beadType := -1;
    }

    constructor Copy(other: CountBeadTypeInTarget)
      ensures executionTime == other.executionTime && valid == other.valid
      ensures targetName == other.targetName && beadType == other.beadType
    {
      executionTime := other.executionTime;
      valid := other.valid;
      targetName := other.targetName;
      beadType := other.beadType;
    }

    /**
     * Reads the bead type, from the stream positioned after the base class's
     * data; a failed read or a negative type clears the valid flag.
     */
    method Get(input: InStream) returns (os: InStream)
      modifies this
      ensures os.ok <==> Fits(input, [Integer])
      ensures valid <==> old(valid) && Fits(input, [Integer]) && IntOf(input.rest[0]) >= 0
      ensures Fits(input, [Integer]) ==> beadType == IntOf(input.rest[0]) && os.rest == input.rest[1..]
      ensures targetName == old(targetName)
    {
      var n := ReadInt(input, beadType);
      os, beadType := n.0, n.1;
      if !os.ok || beadType < 0 {
        valid := false;
      }
    }

    /** The command runs at its execution time and at no other. */
    method Execute(simTime: int) returns (r: bool)
      ensures r <==> IsDue(executionTime, simTime)
    {
      r := simTime == executionTime;
    }

    /**
     * Succeeds iff there are exactly two arguments, ignoring what the base
     * class's Pack returns. The base class takes the target name from the
     * first argument; the bead type comes from the second.
     */
    method Pack(args: seq<Value>) returns (ok: bool)
      modifies this
      ensures ok <==> |args| == ArgumentTotal
      ensures ok ==> targetName == ArgText(args[0]) && beadType == PackedBeadType(args, old(beadType))
      ensures !ok ==> targetName == old(targetName) && beadType == old(beadType)
      ensures valid == old(valid)
    {
      if |args| == ArgumentTotal {
        targetName := ArgText(args[0]);
        beadType := ArgInt(args[1], beadType);
        return true;
      }
      return false;
    }
  }
}
