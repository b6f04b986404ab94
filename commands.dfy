/**
 * What every command shares: it is stamped with the simulation time at which
 * it runs, and its Execute reports whether that time has come.
 */
module Commands {

  /** The rule every command's Execute applies: it fires only at its own execution time. */
  predicate IsDue(executionTime: int, simTime: int)
  {
    simTime == executionTime
  }

  /** How many of the time steps first, first + 1, ..., last - 1 a command fires at. */
  function DueCount(executionTime: int, first: int, last: int): nat
    decreases last - first
  {
    if first >= last then 0
    else (if IsDue(executionTime, first) then 1 else 0) + DueCount(executionTime, first + 1, last)
  }

  /**
   * Over any run of consecutive time steps, a command fires exactly once if
   * its execution time falls inside the run and never otherwise.
   */
  lemma {:induction false} FiresExactlyOnce(executionTime: int, first: int, last: int)
    requires first <= last
    ensures DueCount(executionTime, first, last) == (if first <= executionTime < last then 1 else 0)
    decreases last - first
  {
    if first < last {
      FiresExactlyOnce(executionTime, first + 1, last);
    }
  }
}

/**
 * The parts of the simulation's input data that command and initial-state
 * validation consult: the rule for external names, the polymer names defined
 * in the control file, and the registry of command-target names.
 */
module Inputs {

  class InputData {
    /** CInputData::IsExternalNameValid: the character rule for names users may give. */
    const isExternalNameValid: string -> bool
    /** CInputData::GetPolymerNamesMap: polymer name to polymer type. */
    const polymerNames: map<string, int>
    /** Command-target names registered so far. */
    var commandTargets: set<string>

    constructor(nameRule: string -> bool, polymers: map<string, int>, targets: set<string>)
      ensures isExternalNameValid == nameRule && polymerNames == polymers
      ensures commandTargets == targets
    {
      isExternalNameValid := nameRule;
      polymerNames := polymers;
      commandTargets := targets;
    }

    predicate IsPolymerInMap(name: string)
    {
      name in polymerNames
    }

    predicate IsCommandTargetPresent(name: string)
      reads this
    {
      name in commandTargets
    }

    /** Registers a command-target name; the names already present stay. */
    method AddCommandTargetName(name: string)
      modifies this
      ensures commandTargets == old(commandTargets) + {name}
    {
      commandTargets := commandTargets + {name};
    }
  }
}

/**
 * What the region-selection commands (ccSelectPolymerTypeInRegion and its
 * descendants) share: a centre given as fractions of the simulation box.
 */
module Regions {

  predicate CentreInBox(xc: real, yc: real, zc: real)
  {
    0.0 <= xc <= 1.0 && 0.0 <= yc <= 1.0 && 0.0 <= zc <= 1.0
  }
}
