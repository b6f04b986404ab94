/**
 * ctCompositeCommandTarget: creates an empty composite command target with a
 * user-given name. Validating the command registers the name, so no two
 * targets of a run can share one.
 */
module CompositeTarget {

  import opened Streams
  import opened Commands
  import opened Inputs

  /** The number of arguments a command group packs into this command. */
  const ArgumentTotal := 1

  /**
   * Registering a target name: it succeeds iff the name is a valid name
   * and not yet registered, and then adds the name; a failure changes
   * nothing.
   */
  function Register(name: string, targets: set<string>, nameRule: string -> bool): (r: (bool, set<string>))
    ensures r.0 <==> nameRule(name) && name !in targets
    ensures r.0 ==> r.1 == targets + {name} && name in r.1
    ensures !r.0 ==> r.1 == targets
  {
    if !nameRule(name) then (false, targets)
    else if name in targets then (false, targets)
    else (true, targets + {name})
  }

  /** A name that has been registered once cannot be registered again. */
  lemma SecondRegistrationFails(name: string, targets: set<string>, nameRule: string -> bool)
    ensures !Register(name, Register(name, targets, nameRule).1, nameRule).0
  {
    var first := Register(name, targets, nameRule);
    if first.0 {
      assert name in first.1;
    } else if nameRule(name) {
      assert name in targets;
    }
  }

  /** Registration never forgets a name. */
  lemma RegistrationKeepsTargets(name: string, targets: set<string>, nameRule: string -> bool)
    ensures targets <= Register(name, targets, nameRule).1
  {
  }

  class CompositeCommandTarget {
    const executionTime: int
    /** The xxCommand valid flag: once cleared it stays cleared. */
    var valid: bool
    var targetLabel: string

    constructor(executionTime: int)
      ensures this.executionTime == executionTime && valid && targetLabel == ""
    {
      this.executionTime := executionTime;
      valid := true;
      targetLabel := "";
    }

    constructor Internal(executionTime: int, target: string)
      ensures this.executionTime == executionTime && valid && targetLabel == target
    {
      this.executionTime := executionTime;
      valid := true;
      targetLabel := target;
    }

    constructor Copy(other: CompositeCommandTarget)
      ensures executionTime == other.executionTime && valid == other.valid
      ensures targetLabel == other.targetLabel
    {
      executionTime := other.executionTime;
      valid := other.valid;
      targetLabel := other.targetLabel;
    }

    /** Reads the name; a failed read clears the valid flag. */
    method Get(input: InStream) returns (os: InStream)
      modifies this
      ensures valid <==> old(valid) && Fits(input, [Word])
      ensures os.ok <==> Fits(input, [Word])
      ensures Fits(input, [Word]) ==> targetLabel == input.rest[0].text && os.rest == input.rest[1..]
      ensures !Fits(input, [Word]) ==> targetLabel == old(targetLabel)
    {
      var r := ReadWord(input, targetLabel);
      os, targetLabel := r.0, r.1;
      if !os.ok {
        valid := false;
      }
    }

    /** The command runs at its execution time and at no other. */
    method Execute(simTime: int) returns (r: bool)
      ensures r <==> IsDue(executionTime, simTime)
    {
      r := simTime == executionTime;
    }

    /**
     * Accepts the name iff it is a valid name not yet used by another
     * target, and then registers it with the input data.
     */
    method IsDataValid(riData: InputData) returns (ok: bool)
      modifies riData
      ensures (ok, riData.commandTargets) ==
        Register(targetLabel, old(riData.commandTargets), riData.isExternalNameValid)
    {
      if !riData.isExternalNameValid(targetLabel) {
        return false;
      } else if riData.IsCommandTargetPresent(targetLabel) {
        return false;
      }
      riData.AddCommandTargetName(targetLabel);
      return true;
    }

    /** Takes the name from the one argument; any other number of arguments fails. */
    method Pack(args: seq<Value>) returns (ok: bool)
      modifies this
      ensures ok <==> |args| == ArgumentTotal
      ensures ok ==> targetLabel == ArgText(args[0])
      ensures !ok ==> targetLabel == old(targetLabel)
      ensures valid == old(valid)
    {
      if |args| == ArgumentTotal {
        targetLabel := ArgText(args[0]);
        return true;
      }
      return false;
    }
  }
}
