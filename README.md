# osprey-dpd: commands, force targets and initial-state data

This project models the input-handling and bookkeeping core of the osprey-dpd
dissipative-particle-dynamics simulator, and proves what each piece promises.
It covers these parts:

- **The column initial state** (`CInitialStateColumn`). Its `get` parser reads:
  - a slab count;
  - the slab widths, which must partition the unit width;
  - one group of polymer names per slab;
  - a normal, which must be a major axis.

  `ValidateData` then looks up each named polymer's type, and `operator=`
  copies a column.
- **Force targets** (`CForceTarget`). Beads are appended region by region and
  de-duplicated by sorting on the bead id. The target's force law pushes them
  until the law's end time.
- **The active event** that grows a polymer at its head
  (`aevBondBindsToPolymerHead`). It searches for a free bond, ramps up a
  transient bond's spring constant, then either releases the bond or
  attaches it as the new head.
- **The commands and their argument rules.** Each command checks the data it
  reads (`get`), the data it is packed with (`Pack`) and the data it is
  validated against (`IsDataValid`):
  - region selection by ellipsoid or spherical shell;
  - a composite command target;
  - argument sequences for command groups;
  - bond strength, bead charge, bead counting;
  - vesicle-fusion stretch duration;
  - the sine force;
  - the display period;
  - hiding free active bonds.
- **Vesicle analysis data** (`CVesicleData`).
- **The two parallel messages** `pmSetDisplayPeriod` and `pmISRestart`.

Input streams are modelled as a sequence of tokens plus the stream's `good()`
flag (module `Streams`). Each token carries:

- its text;
- its conversion to an integer, when the text is one;
- its conversion to a real, when the text is one.

Reading a token of the wrong kind fails the stream. Every `get` is a method
that consumes tokens in the same order as the C++ code. The method is proved
equal to a specification function, or is specified directly by an
if-and-only-if on the token layout it accepts.

The simulation time, the command-group and misc-classes build switches, and
`xxBase::m_globalPI` are parameters. So are the lookups into the simulation
box (the free-bond search, the process lookup, the network map).

Classes model the objects whose fields the source updates in place. Rules
with no state are functions and lemmas:

- the width partition;
- the slab grouping;
- the region bounds;
- the name checks.

## Model

| member | source | states |
|---|---|---|
| Commands.FiresExactlyOnce | src/ctCompositeCommandTarget.cpp:158-167 | Over any run of time steps, a command fires exactly once if its execution time lies in the run, and never otherwise |
| Inputs.InputData.AddCommandTargetName | src/ctCompositeCommandTarget.cpp:183-185 | Registering a target adds its name to the set of command targets and changes nothing else |
| InitialStateColumn.Column.constructor | src/InitialStateColumn.cpp:68-74 | A new column is valid, with no slabs, a zero normal, and no widths, polymers or polymer types |
| InitialStateColumn.Column.Assign | src/InitialStateColumn.cpp:81-95 | Assignment copies the slab count, the normal, the widths, the polymers and the polymer types; self-assignment changes nothing; the valid flag is not copied |
| InitialStateColumn.Column.Get | src/InitialStateColumn.cpp:144-291 | get leaves exactly the state and stream position that the specification function `Read` gives |
| InitialStateColumn.Column.GetWidths | src/InitialStateColumn.cpp:180-217 | The width stage leaves the state and stream that `ReadFromWidths` gives |
| InitialStateColumn.Column.GetSeveralWidths | src/InitialStateColumn.cpp:180-203 | The loop over SlabTotal-1 widths appends exactly the widths `ReadWidths` pushes, including the remainder 1 - sum, and fails exactly when it does |
| InitialStateColumn.Column.GetSlabs | src/InitialStateColumn.cpp:227-287 | The slab stage and the normal leave the state and stream that `ReadFromSlabs` gives |
| InitialStateColumn.Column.GetSlabLines | src/InitialStateColumn.cpp:227-263 | The loop over the slabs appends exactly the (slab, name) entries `ReadSlabs` pushes, and stops where it stops |
| InitialStateColumn.Column.GetSlab | src/InitialStateColumn.cpp:229-262 | One slab: the "Polymers" keyword and its names, as `ReadSlab` gives |
| InitialStateColumn.Column.GetSlabNames | src/InitialStateColumn.cpp:240-258 | The name loop inserts each name under the current slab index until the next keyword, as `ReadNames` gives |
| InitialStateColumn.Column.GetNormal | src/InitialStateColumn.cpp:269-287 | The normal is read and accepted only when it is a major axis, as `ReadNormal` gives |
| InitialStateColumn.Column.ValidateData | src/InitialStateColumn.cpp:325-363 | The nested loops over slabs and entries give the verdict and stored types of `CheckSlabs`; nothing but the polymer types changes |
| InitialStateColumn.HeaderRejected | src/InitialStateColumn.cpp:151-157 | A stream that does not open with "SliceTotal" only clears the valid flag |
| InitialStateColumn.AcceptedColumn | src/InitialStateColumn.cpp:144-291 | If get accepts the input, then: it opened with "SliceTotal" and a count of at least 1; the new widths partition the unit width into SlabTotal parts; a single slab has the width [1.0]; the new entries are grouped by slab, in order, covering every slab but possibly the last; the normal is a major axis; earlier entries and polymer types are untouched; the column was valid before |
| InitialStateColumn.ReadColumnTokens | src/InitialStateColumn.cpp:144-291 | get accepts a column exactly when it was valid before and its tokens follow the column format (`WellFormedColumn`: header, widths, one slab line per slab, "Normal", a major axis). A well-formed column stores the slab count, the written widths plus the rest of the unit width, one (slab, name) entry per polymer name, and the normal; the stream stops just after the normal |
| InitialStateColumn.ReadStopsAtFirstFailure | src/InitialStateColumn.cpp:151-287 | get stops at the first failed check: a bad header leaves widths, entries and normal as they were; bad widths leave the entries and normal; bad slab lines leave the normal |
| InitialStateColumn.HeaderTokens | src/InitialStateColumn.cpp:151-176 | A bad "SliceTotal n Widths" header (n < 1, a missing keyword or number) rejects the column, assigning at most the slab count; a good one hands over to the widths |
| InitialStateColumn.ReadFromWidthsTokens | src/InitialStateColumn.cpp:180-287 | After "Widths", reading succeeds iff the widths and the slab part are well formed. Good widths are stored as `StoredWidths` of their tokens; bad widths assign nothing but widths |
| InitialStateColumn.ReadWidthsTokens | src/InitialStateColumn.cpp:180-203 | The width loop passes iff its tokens are numbers in [0,1] whose sum with the running width stays below 1. It then pushes exactly those numbers and the remainder, and stops just after them |
| InitialStateColumn.ReadFromSlabsTokens | src/InitialStateColumn.cpp:227-287 | The slab part passes iff the slab lines and the normal are well formed. It stores `Entries` of the tokens and the normal's three integers; bad slab lines assign nothing but entries |
| InitialStateColumn.ReadSlabsTokens | src/InitialStateColumn.cpp:227-263 | The slab loop ends on "Normal" with a good stream iff the tokens are SlabTotal slab lines, and then pushes `Entries` of those lines |
| InitialStateColumn.ReadSlabTokens | src/InitialStateColumn.cpp:229-262 | One slab passes iff its tokens are "Polymers", a first token that is neither "Polymers" nor empty, and names up to a keyword; it pushes those names under the slab |
| InitialStateColumn.ReadNamesTokens | src/InitialStateColumn.cpp:240-258 | The name loop takes the run of polymer names in front of it and passes iff a keyword follows the run; an empty token or the end of the stream fails it |
| InitialStateColumn.ReadNormalTokens | src/InitialStateColumn.cpp:269-287 | The normal passes iff it is three integers along a major axis, which are stored |
| InitialStateColumn.AcceptedFromWidths | src/InitialStateColumn.cpp:180-217 | After the width stage succeeds, exactly SlabTotal widths were appended, each in [0,1], summing to 1, with a positive last width |
| InitialStateColumn.WidthsPartition | src/InitialStateColumn.cpp:180-216 | Whatever width reading succeeds partitions the unit width, and a single slab reads as [1.0] |
| InitialStateColumn.ReadWidthsShape | src/InitialStateColumn.cpp:180-203 | The width loop pushes as many widths as it was asked for, each in [0,1], summing to one minus the running width it started from |
| InitialStateColumn.ReadWidthsLast | src/InitialStateColumn.cpp:186-203 | The remainder appended last is strictly positive, because the running sum must stay below 1 |
| InitialStateColumn.WidthsStep | src/InitialStateColumn.cpp:180-203 | Prepending a width in [0,1] to a partition of `left` gives a partition of `w + left` |
| InitialStateColumn.AcceptedFromSlabs | src/InitialStateColumn.cpp:227-287 | After the slab stage succeeds, every appended entry has a slab index below SlabTotal and names a polymer; indices never decrease; every slab before the last has an entry; the normal is a major axis |
| InitialStateColumn.ReadSlabsShape | src/InitialStateColumn.cpp:227-263 | The slab loop tags entries with slab indices in [iw, n) in non-decreasing order, gives each slab before the last an entry, and ends on "Polymers" or "Normal" |
| InitialStateColumn.ReadNamesShape | src/InitialStateColumn.cpp:240-258 | Every name read is tagged with the current slab and is a polymer name; reading stops on "Polymers" or "Normal"; a slab that opens with a name gets at least one entry |
| InitialStateColumn.AcceptedNormal | src/InitialStateColumn.cpp:269-287 | The normal stage assigns only the normal and the flag, and is valid only for a major axis of a column that was valid |
| InitialStateColumn.CheckSlabsVerdict | src/InitialStateColumn.cpp:330-362 | From any point of the loops, ValidateData fails exactly when an entry still to be visited names an undefined polymer |
| InitialStateColumn.CheckSlabsStores | src/InitialStateColumn.cpp:330-362 | Stored types are never overwritten; every new type is the input data's type for that name; on success every entry visited has its type stored |
| InitialStateColumn.ValidatedColumn | src/InitialStateColumn.cpp:325-363 | ValidateData succeeds exactly when every entry of slabs 0..SlabTotal-1 names a defined polymer. Then each such name has its type stored, and no existing type is overwritten |
| InitialStateColumn.EmptyLastSlabAccepted | src/InitialStateColumn.cpp:227-263 | A single slab whose "Polymers" is directly followed by "Normal" is accepted with no polymers |
| InitialStateColumn.TwoSlabColumn | src/InitialStateColumn.cpp:144-291 | A two-slab column with width 0.25 reads as widths [0.25, 0.75] with one polymer in each slab |
| ForceTarget.InsertById | src/ForceTarget.cpp:132 | Inserting a bead into a list sorted by id keeps it sorted and adds exactly that bead |
| ForceTarget.SortById | src/ForceTarget.cpp:132 | Sorting by id gives a sorted permutation of the beads |
| ForceTarget.UniqueAdjacent | src/ForceTarget.cpp:136-140 | Removing adjacent repeats leaves no adjacent repeats, the same set of beads, no longer a list, and a sorted list stays sorted |
| ForceTarget.SortedDistinctIsStrict | src/ForceTarget.cpp:128-142 | With unique ids, a sorted list without adjacent repeats is strictly increasing by id |
| ForceTarget.StrictlySortedIsDetermined | src/ForceTarget.cpp:128-142 | Two lists strictly increasing by id that hold the same beads are equal, so de-duplication is idempotent |
| ForceTarget.StrictlySortedOccursOnce | src/ForceTarget.cpp:128-142 | In a list strictly increasing by id, each bead occurs exactly once |
| ForceTarget.NoElemsIsEmpty | src/ForceTarget.cpp:128-142 | A bead list holds no beads exactly when it is empty |
| ForceTarget.ForceTarget.constructor | src/ForceTarget.cpp:34-39 | A new target holds exactly the given beads, with end time 0 and no force law |
| ForceTarget.ForceTarget.SetForceLaw | src/ForceTarget.cpp:55-63 | The new law replaces any previous one, the end time becomes the law's end time, and the beads are unchanged |
| ForceTarget.ForceTarget.AddBeads | src/ForceTarget.cpp:111-114 | The new beads are appended after the existing ones in order; the law and end time are unchanged |
| ForceTarget.ForceTarget.AddForce | src/ForceTarget.cpp:71-104 | Returns true exactly when simTime is before the end time. With misc classes enabled, each bead gains the law's force once per occurrence in the list (from the time, or from its position for a radial law). With them disabled, no force changes. Positions never change |
| ForceTarget.ForceTarget.RemoveDuplicateBeads | src/ForceTarget.cpp:128-142 | Afterwards the beads are strictly increasing by id, so with no duplicates, and form the same set as before. A list already in that form is left unchanged, so the operation is idempotent |
| ActiveEvents.RampEndsAtFullStrength | src/aevBondBindsToPolymerHead.cpp:288-298 | A ramp of duration d has d steps, starting at k/d and ending at exactly k |
| ActiveEvents.RampStep | src/aevBondBindsToPolymerHead.cpp:295-297 | Step i of the ramp sets the spring constant to k/(d-i) |
| ActiveEvents.RampIncreases | src/aevBondBindsToPolymerHead.cpp:288-298 | For a positive spring constant the ramp is strictly increasing |
| ActiveEvents.BondBindsToPolymerHead.constructor | src/aevBondBindsToPolymerHead.cpp:71-84 | A new event has zero duration, range, spring constant and length, no polymer, no pending bond and a fresh internal bond |
| ActiveEvents.BondBindsToPolymerHead.Copy | src/aevBondBindsToPolymerHead.cpp:91-101 | The copy keeps the parameters, the polymer, the pending bond, the counter and the active flag, and gets a fresh internal bond |
| ActiveEvents.BondBindsToPolymerHead.SetPolymer | src/aevBondBindsToPolymerHead.cpp:162-172 | Only the polymer changes |
| ActiveEvents.BondBindsToPolymerHead.SetDuration | src/aevBondBindsToPolymerHead.cpp:174-180 | The duration changes only for a strictly positive argument; nothing else changes |
| ActiveEvents.BondBindsToPolymerHead.SetRange | src/aevBondBindsToPolymerHead.cpp:182-188 | The range changes only for a strictly positive argument; nothing else changes |
| ActiveEvents.BondBindsToPolymerHead.SetSpringConstant | src/aevBondBindsToPolymerHead.cpp:190-196 | The spring constant changes only for a strictly positive argument; nothing else changes |
| ActiveEvents.BondBindsToPolymerHead.SetLength | src/aevBondBindsToPolymerHead.cpp:198-204 | The length changes only for a strictly positive argument; nothing else changes |
| ActiveEvents.BondBindsToPolymerHead.Search | src/aevBondBindsToPolymerHead.cpp:251-281 | A found bond becomes pending and polymerised and leaves the free pool; the event becomes active with the counter at the duration; the internal bond joins head and bond at the event's length. With no bond found nothing changes. The event stays active exactly while a bond is pending, and a pending bond is never in the pool |
| ActiveEvents.BondBindsToPolymerHead.Ramp | src/aevBondBindsToPolymerHead.cpp:288-298 | The internal spring constant becomes k/counter, that force is applied, and the counter drops by exactly 1 |
| ActiveEvents.BondBindsToPolymerHead.Release | src/aevBondBindsToPolymerHead.cpp:299-311 | The pending bond is depolymerised and returned to the pool; no bond is pending and the event is inactive |
| ActiveEvents.BondBindsToPolymerHead.Attach | src/aevBondBindsToPolymerHead.cpp:312-325 | The pending bond becomes the polymer's head; no bond is pending and the event is inactive; the spring constant is taken from the template event when positive; the pool is unchanged |
| ActiveEvents.BondBindsToPolymerHead.Execute | src/aevBondBindsToPolymerHead.cpp:238-333 | Always returns true. The interface is stored on the first call only. Each phase (search, ramp, release, attach) has the effect stated above, and the pending-bond invariant is kept. The frame is stated per phase: duration, length, range and polymer never change; the spring constant changes only on attach; the polymer's head only on attach; the internal bond only on search and ramp; the active flag is kept by a ramp step; bonds other than the pending one keep their polymerised flag outside the search |
| ActiveEvents.BondBindsToPolymerHead.RunRamp | src/aevBondBindsToPolymerHead.cpp:288-298 | Calling Execute until the counter reaches 0 applies exactly the ramp k/d, ..., k |
| HeadInEllipsoid.DegreesRoundTrip | src/ccSelectPolymerTypeHeadInEllipsoid.cpp:163-164 | Converting degrees to radians and back, or radians to degrees and back, is the identity, so put writes out the angles get read |
| HeadInEllipsoid.AngleBoundsAgree | src/ccSelectPolymerTypeHeadInEllipsoid.cpp:131-135 | The degree bounds [0,180] and [0,360] hold exactly when the radian bounds [0,pi] and [0,2pi] hold for the converted angles |
| HeadInEllipsoid.PackAgreesWithConstructor | src/ccSelectPolymerTypeHeadInEllipsoid.cpp:317-325 | Pack's bounds, on angles in degrees, accept exactly what the internal constructor's bounds accept on the same angles in radians |
| HeadInEllipsoid.ConstructorStricterThanGet | src/ccSelectPolymerTypeHeadInEllipsoid.cpp:207-231 | Whatever the internal constructor accepts, get accepts once the angles are given in degrees |
| HeadInEllipsoid.GetLooserThanPack | src/ccSelectPolymerTypeHeadInEllipsoid.cpp:213-223 | Some region with axes below 1 is accepted by get and rejected by Pack |
| HeadInEllipsoid.SelectPolymerTypeHeadInEllipsoid.constructor | src/ccSelectPolymerTypeHeadInEllipsoid.cpp:72-80 | The default command has a zero region |
| HeadInEllipsoid.SelectPolymerTypeHeadInEllipsoid.Internal | src/ccSelectPolymerTypeHeadInEllipsoid.cpp:103-137 | The command stores the region as given and is valid exactly when the centre is in the unit box, 1 <= SMC <= SMB <= SMA <= BoundingRadius, and the angles are in [0,pi] and [0,2pi] |
| HeadInEllipsoid.SelectPolymerTypeHeadInEllipsoid.Copy | src/ccSelectPolymerTypeHeadInEllipsoid.cpp:82-93 | The copy has the same region, execution time and validity |
| HeadInEllipsoid.SelectPolymerTypeHeadInEllipsoid.Get | src/ccSelectPolymerTypeHeadInEllipsoid.cpp:198-239 | get reads nine reals. It stays valid exactly when they are in range: centre in the unit box, axes at least 0 and ordered, angles within [0,180] and [0,360] degrees. The angles are stored in radians, whatever the check said; a short stream invalidates |
| HeadInEllipsoid.SelectPolymerTypeHeadInEllipsoid.GetAxes | src/ccSelectPolymerTypeHeadInEllipsoid.cpp:213-236 | The axes and angles are read, checked and converted to radians; the centre is unchanged |
| HeadInEllipsoid.SelectPolymerTypeHeadInEllipsoid.GetLengths | src/ccSelectPolymerTypeHeadInEllipsoid.cpp:213-223 | The four lengths are read and the command stays valid only if they are ordered and at least 0 |
| HeadInEllipsoid.SelectPolymerTypeHeadInEllipsoid.GetAngles | src/ccSelectPolymerTypeHeadInEllipsoid.cpp:225-236 | The two angles are checked in degrees and stored in radians even when the check fails |
| HeadInEllipsoid.SelectPolymerTypeHeadInEllipsoid.Pack | src/ccSelectPolymerTypeHeadInEllipsoid.cpp:299-342 | Returns true exactly when command groups are enabled, the base Pack succeeds, there are 11 arguments and the constructor-strength bounds hold in degrees. The angles are converted to radians only on success; the valid flag is untouched |
| HeadInEllipsoid.SelectPolymerTypeHeadInEllipsoid.Execute | src/ccSelectPolymerTypeHeadInEllipsoid.cpp:261-270 | Fires exactly at the execution time |
| HeadInSphere.PackAgreesWithGet | src/ccSelectPolymerTypeHeadInSphere.cpp:247-269 | Pack takes the same five values and applies the same bounds as get |
| HeadInSphere.SelectPolymerTypeHeadInSphere.constructor | src/ccSelectPolymerTypeHeadInSphere.cpp:72-77 | The default command has a zero shell |
| HeadInSphere.SelectPolymerTypeHeadInSphere.Internal | src/ccSelectPolymerTypeHeadInSphere.cpp:93-116 | The command stores the shell and is valid exactly when the centre is in the unit box and 0 <= inner <= outer radius |
| HeadInSphere.SelectPolymerTypeHeadInSphere.Copy | src/ccSelectPolymerTypeHeadInSphere.cpp:79-86 | The copy keeps the centre, both radii, the execution time and the validity |
| HeadInSphere.SelectPolymerTypeHeadInSphere.Get | src/ccSelectPolymerTypeHeadInSphere.cpp:162-184 | get reads five reals and stays valid exactly when the same bounds hold; a short stream invalidates |
| HeadInSphere.SelectPolymerTypeHeadInSphere.GetRadii | src/ccSelectPolymerTypeHeadInSphere.cpp:177-181 | The radii are read and stay valid only when ordered and non-negative |
| HeadInSphere.SelectPolymerTypeHeadInSphere.Pack | src/ccSelectPolymerTypeHeadInSphere.cpp:243-274 | Returns true exactly when command groups are enabled, the base Pack succeeds, there are 7 arguments and the bounds hold |
| HeadInSphere.SelectPolymerTypeHeadInSphere.Execute | src/ccSelectPolymerTypeHeadInSphere.cpp:206-215 | Fires exactly at the execution time |
| VesicleAnalysis.Validate | src/VesicleData.cpp:237-251 | Accepted exactly when both names are valid, known polymers and the shells are in range (ShellTotal >= 1, 0 <= ShellMin < ShellMax <= ShellTotal). The polymer is checked before the solvent, and the shells last |
| VesicleAnalysis.DefaultDataRejected | src/VesicleData.cpp:65-71 | Default-constructed vesicle data never validates |
| VesicleAnalysis.NamesThenShells | src/VesicleData.cpp:113-220 | The six-keyword layout splits into the names part followed by the shells part |
| VesicleAnalysis.VesicleData.constructor | src/VesicleData.cpp:65-71 | New data is empty with zero shells and not valid |
| VesicleAnalysis.VesicleData.Get | src/VesicleData.cpp:113-220 | The data becomes valid exactly when the six keywords come in order, each with a value, and both names are non-empty. The fields are then the values read |
| VesicleAnalysis.VesicleData.GetNames | src/VesicleData.cpp:121-150 | The polymer and solvent are read only after their keywords and must be non-empty |
| VesicleAnalysis.VesicleData.GetShells | src/VesicleData.cpp:153-214 | The stress flag and the three shell values are read after their keywords |
| VesicleAnalysis.VesicleData.GetShellCounts | src/VesicleData.cpp:169-214 | ShellTotal, ShellMin and ShellMax are read after their keywords |
| VesicleAnalysis.VesicleData.ValidateData | src/VesicleData.cpp:237-251 | Valid exactly when both names are known polymers and the shells are in range |
| CompositeTarget.Register | src/ctCompositeCommandTarget.cpp:172-186 | Registration succeeds exactly for a valid name not yet registered. It then adds the name; otherwise the registry is unchanged |
| CompositeTarget.SecondRegistrationFails | src/ctCompositeCommandTarget.cpp:183-185 | Validating the same label twice fails the second time |
| CompositeTarget.RegistrationKeepsTargets | src/ctCompositeCommandTarget.cpp:172-186 | Registration never removes a target |
| CompositeTarget.CompositeCommandTarget.constructor | src/ctCompositeCommandTarget.cpp:73-76 | A new target has an empty label |
| CompositeTarget.CompositeCommandTarget.Internal | src/ctCompositeCommandTarget.cpp:86-90 | The label is the one given |
| CompositeTarget.CompositeCommandTarget.Copy | src/ctCompositeCommandTarget.cpp:78-82 | The copy keeps the label |
| CompositeTarget.CompositeCommandTarget.Get | src/ctCompositeCommandTarget.cpp:128-136 | The command becomes invalid exactly when the label cannot be read |
| CompositeTarget.CompositeCommandTarget.Execute | src/ctCompositeCommandTarget.cpp:158-167 | Fires exactly at the execution time |
| CompositeTarget.CompositeCommandTarget.IsDataValid | src/ctCompositeCommandTarget.cpp:172-186 | The verdict and new registry are those of `Register` for the label |
| CompositeTarget.CompositeCommandTarget.Pack | src/ctCompositeCommandTarget.cpp:201-213 | Returns true exactly for one argument, and then takes the label from it |
| IntegerSequenceArgument.DataValid | src/cgcSetArgumentToIntegerSequence.cpp:187-199 | Valid exactly when the group and argument names are valid and the command index is at least 1 |
| IntegerSequenceArgument.ValuesNotChecked | src/cgcSetArgumentToIntegerSequence.cpp:187-199 | The initial value and increment never affect validity |
| IntegerSequenceArgument.PackAgreesWithGet | src/cgcSetArgumentToIntegerSequence.cpp:222-230 | Pack assigns the five arguments in the order get reads them |
| IntegerSequenceArgument.SetArgumentToIntegerSequence.constructor | src/cgcSetArgumentToIntegerSequence.cpp:72-76 | Empty names and zero index, value and increment |
| IntegerSequenceArgument.SetArgumentToIntegerSequence.Internal | src/cgcSetArgumentToIntegerSequence.cpp:80-86 | The values are stored unchecked |
| IntegerSequenceArgument.SetArgumentToIntegerSequence.Copy | src/cgcSetArgumentToIntegerSequence.cpp:89-96 | The copy keeps all five values |
| IntegerSequenceArgument.SetArgumentToIntegerSequence.Get | src/cgcSetArgumentToIntegerSequence.cpp:139-147 | The command becomes invalid exactly when the stream read fails |
| IntegerSequenceArgument.SetArgumentToIntegerSequence.Execute | src/cgcSetArgumentToIntegerSequence.cpp:168-181 | Fires exactly at the execution time, even with command groups disabled; the group command is dispatched only when enabled |
| IntegerSequenceArgument.SetArgumentToIntegerSequence.IsDataValid | src/cgcSetArgumentToIntegerSequence.cpp:187-199 | Valid exactly when both names are valid and the index is at least 1 |
| IntegerSequenceArgument.SetArgumentToIntegerSequence.Pack | src/cgcSetArgumentToIntegerSequence.cpp:218-238 | Returns true exactly for five arguments, assigned group, index, argument, initial value, increment |
| StringSequenceArgument.DataValid | src/cgcSetArgumentToStringSequence.cpp:184-196 | Valid exactly when the group name is valid, the index is at least 1 and the root is non-empty |
| StringSequenceArgument.ArgumentNameNotChecked | src/cgcSetArgumentToStringSequence.cpp:184-196 | The argument name never affects validity |
| StringSequenceArgument.DefaultRejected | src/cgcSetArgumentToStringSequence.cpp:72-76 | The default command never validates |
| StringSequenceArgument.PackAgreesWithGet | src/cgcSetArgumentToStringSequence.cpp:218-226 | Pack assigns the four arguments in the order get reads them |
| StringSequenceArgument.SetArgumentToStringSequence.constructor | src/cgcSetArgumentToStringSequence.cpp:72-76 | Empty names and root, zero index |
| StringSequenceArgument.SetArgumentToStringSequence.Internal | src/cgcSetArgumentToStringSequence.cpp:80-86 | The values are stored unchecked |
| StringSequenceArgument.SetArgumentToStringSequence.Copy | src/cgcSetArgumentToStringSequence.cpp:89-95 | The copy keeps all four values |
| StringSequenceArgument.SetArgumentToStringSequence.Get | src/cgcSetArgumentToStringSequence.cpp:136-144 | The command becomes invalid exactly when the stream read fails |
| StringSequenceArgument.SetArgumentToStringSequence.Execute | src/cgcSetArgumentToStringSequence.cpp:165-178 | Fires exactly at the execution time; dispatched only when command groups are enabled |
| StringSequenceArgument.SetArgumentToStringSequence.IsDataValid | src/cgcSetArgumentToStringSequence.cpp:184-196 | Valid exactly when the group name is valid, the index is at least 1 and the root is non-empty |
| StringSequenceArgument.SetArgumentToStringSequence.Pack | src/cgcSetArgumentToStringSequence.cpp:214-233 | Returns true exactly for four arguments, assigned group, index, argument, root |
| BondStrength.SlackBondAccepted | src/ccSetBondStrengthbyType.cpp:113-124 | A zero spring constant and a zero length are accepted; negative ones are not |
| BondStrength.SetBondStrengthByType.constructor | src/ccSetBondStrengthbyType.cpp:62-66 | The defaults are bond type -1 and zero spring constant and length, which `get` would reject |
| BondStrength.SetBondStrengthByType.Copy | src/ccSetBondStrengthbyType.cpp:68-73 | The copy keeps all fields |
| BondStrength.SetBondStrengthByType.Get | src/ccSetBondStrengthbyType.cpp:111-127 | Stays valid exactly when the three values read and bond type, spring constant and length are all >= 0 |
| BondStrength.SetBondStrengthByType.Execute | src/ccSetBondStrengthbyType.cpp:149-158 | Fires exactly at the execution time |
| BondStrength.SetBondStrengthByType.IsDataValid | src/ccSetBondStrengthbyType.cpp:163-173 | Always valid |
| ChargeBead.ReadThenValidate | src/ccChargeBeadType.cpp:111-171 | A command read by get and then checked by IsDataValid survives both exactly when it was valid, its three values read, its name is a valid external name and strength and range are >= 0; a read that fails always rejects it |
| ChargeBead.ChargeBeadType.constructor | src/ccChargeBeadType.cpp:62-66 | Empty name, zero strength and range |
| ChargeBead.ChargeBeadType.Copy | src/ccChargeBeadType.cpp:68-73 | The copy keeps name, strength and range |
| ChargeBead.ChargeBeadType.Get | src/ccChargeBeadType.cpp:111-125 | Stays valid exactly when the three values read and strength and range are >= 0 |
| ChargeBead.ChargeBeadType.Execute | src/ccChargeBeadType.cpp:147-156 | Fires exactly at the execution time |
| ChargeBead.ChargeBeadType.IsDataValid | src/ccChargeBeadType.cpp:163-171 | Valid exactly when the bead-type name is a valid external name; its existence is not checked |
| CountBeadType.PackStoresSecondArgument | src/ctCountBeadTypeInTarget.cpp:199-204 | Pack takes the bead type from argument 1 |
| CountBeadType.CountBeadTypeInTarget.constructor | src/ctCountBeadTypeInTarget.cpp:73-76 | The bead type defaults to -1 |
| CountBeadType.CountBeadTypeInTarget.Internal | src/ctCountBeadTypeInTarget.cpp:85-88 | The bead type defaults to -1 and the target is the one given |
| CountBeadType.CountBeadTypeInTarget.Copy | src/ctCountBeadTypeInTarget.cpp:78-81 | The copy keeps the target and bead type |
| CountBeadType.CountBeadTypeInTarget.Get | src/ctCountBeadTypeInTarget.cpp:130-142 | Stays valid exactly when a bead type >= 0 is read |
| CountBeadType.CountBeadTypeInTarget.Execute | src/ctCountBeadTypeInTarget.cpp:164-173 | Fires exactly at the execution time |
| CountBeadType.CountBeadTypeInTarget.Pack | src/ctCountBeadTypeInTarget.cpp:197-210 | Returns true exactly for two arguments, whatever the base Pack returned; then the target name is argument 0 and the bead type argument 1, otherwise neither changes |
| StretchDuration.Route | src/pcBLMVesicleFusionSetStretchDuration.cpp:150-179 | The stretch duration is applied exactly when the command is due, the feature is enabled, the process exists and it is a vesicle-fusion process |
| StretchDuration.SetStretchDuration.constructor | src/pcBLMVesicleFusionSetStretchDuration.cpp:67-70 | Empty pid and zero duration |
| StretchDuration.SetStretchDuration.Copy | src/pcBLMVesicleFusionSetStretchDuration.cpp:72-76 | The copy keeps pid and duration |
| StretchDuration.SetStretchDuration.Get | src/pcBLMVesicleFusionSetStretchDuration.cpp:112-122 | Stays valid exactly when a non-empty pid and a duration >= 0 are read |
| StretchDuration.SetStretchDuration.Execute | src/pcBLMVesicleFusionSetStretchDuration.cpp:150-179 | Returns true exactly at the execution time, whether or not the process lookup or interface query succeeds |
| StretchDuration.SetStretchDuration.IsDataValid | src/pcBLMVesicleFusionSetStretchDuration.cpp:183-186 | Always valid |
| SineForce.ZeroPeriodAccepted | src/ccSineForce.cpp:126-129 | A zero period is accepted; a negative period or amplitude is not |
| SineForce.SineForceCommand.constructor | src/ccSineForce.cpp:61-64 | Zero amplitude and period |
| SineForce.SineForceCommand.Copy | src/ccSineForce.cpp:66-70 | The copy keeps amplitude and period |
| SineForce.SineForceCommand.Get | src/ccSineForce.cpp:118-132 | Stays valid exactly when an amplitude >= 0 and a period >= 0 are read |
| SineForce.SineForceCommand.Execute | src/ccSineForce.cpp:142-151 | Fires exactly at the execution time |
| DisplayPeriod.SetDisplayPeriod.constructor | src/mcSetDisplayPeriod.cpp:61-64 | Zero period |
| DisplayPeriod.SetDisplayPeriod.Internal | src/mcSetDisplayPeriod.cpp:71-74 | Period and log flag stored unchecked |
| DisplayPeriod.SetDisplayPeriod.Copy | src/mcSetDisplayPeriod.cpp:66-69 | The copy keeps the period and log flag |
| DisplayPeriod.SetDisplayPeriod.Get | src/mcSetDisplayPeriod.cpp:109-117 | Stays valid exactly when a period >= 1 is read |
| DisplayPeriod.SetDisplayPeriod.Execute | src/mcSetDisplayPeriod.cpp:139-148 | Fires exactly at the execution time |
| DisplayPeriod.SetDisplayPeriod.IsDataValid | src/mcSetDisplayPeriod.cpp:153-157 | Always valid |
| DisplayPeriodMessage.MessageValidIff | src/pmSetDisplayPeriod.cpp:122-151 | A message validates exactly when it was built from a display-period command whose period is at least 1; any other command never validates |
| DisplayPeriodMessage.SetDisplayPeriodMessage.constructor | src/pmSetDisplayPeriod.cpp:58-60 | Period 0, which does not validate |
| DisplayPeriodMessage.SetDisplayPeriodMessage.Copy | src/pmSetDisplayPeriod.cpp:62-65 | The copy keeps the period |
| DisplayPeriodMessage.SetDisplayPeriodMessage.Validate | src/pmSetDisplayPeriod.cpp:139-151 | The payload validates exactly when the period is at least one step |
| DisplayPeriodMessage.SetDisplayPeriodMessage.SetMessageData | src/pmSetDisplayPeriod.cpp:122-134 | Copies the period from a display-period command, and sets it to 0 (not validating) for any other command |
| RestartMessage.ISRestartMessage.Validate | src/pmISRestart.cpp:140-154 | Fails for an empty run id or a state id below 1, and succeeds otherwise |
| RestartMessage.ISRestartMessage.constructor | src/pmISRestart.cpp:60-62 | Empty run id and state id 0, which does not validate |
| RestartMessage.ISRestartMessage.Copy | src/pmISRestart.cpp:64-68 | The copy keeps run id and state id |
| RestartMessage.ISRestartMessage.SetMessageData | src/pmISRestart.cpp:125-133 | Copies the run id and state id of the restart data, and validates exactly when they are acceptable |
| FreeBondsInvisible.Network.SetFreeActiveBondsInvisible | src/acSetFreeActiveBondsInvisible.cpp:164 | The network's free bonds become invisible; the bond count is unchanged |
| FreeBondsInvisible.SetFreeActiveBondsInvisible.constructor | src/acSetFreeActiveBondsInvisible.cpp:68-71 | Empty network name |
| FreeBondsInvisible.SetFreeActiveBondsInvisible.Copy | src/acSetFreeActiveBondsInvisible.cpp:73-77 | The copy keeps the network name |
| FreeBondsInvisible.SetFreeActiveBondsInvisible.Get | src/acSetFreeActiveBondsInvisible.cpp:116-127 | Stays valid exactly when a non-empty network name is read |
| FreeBondsInvisible.SetFreeActiveBondsInvisible.Execute | src/acSetFreeActiveBondsInvisible.cpp:149-183 | Returns true exactly at the execution time, whether or not the network is found. When it is found, its free bonds become invisible, and no other network changes |
| FreeBondsInvisible.SetFreeActiveBondsInvisible.IsDataValid | src/acSetFreeActiveBondsInvisible.cpp:189-192 | Always valid |

## Left out

- Base-class data of `get`, `Pack` and `IsDataValid` is not part of this model. This covers `ccSelectPolymerTypeInRegion`, `ctApplyCommand`, `ccApplyForce`, `xxCommand` and `CAnalysisData`:
  - each `Get` takes the stream positioned after the base part;
  - each `Pack` takes the base class's verdict as the parameter `basePacked`, except `ctCountBeadTypeInTarget::Pack`, which ignores it;
  - `ctApplyCommand::Pack` is taken to store argument 0 as the target name, the slot the command's argument layout gives it;
  - each command starts valid.
- Stream extraction is modelled at token level. The `eofbit` case, where the last token has no trailing whitespace and `good()` turns false after a successful read, is not modelled. A token that is not a number, where one is expected, fails the stream and stores 0; a bool target given an integer other than 0 or 1 fails the stream and stores true; a read from a stream that has already failed leaves its target unchanged. Whether a token such as `12abc` reads partly as a number is decided by the token's own integer and real readings, not modelled from its text.
- `put` serialisers, the MPI transport (`SendAllP`, `Receive`, `BuildDerivedType`), logging and factory self-registration are not modelled: they only format output, move messages between processors or register class names.
- Doubles are modelled as mathematical reals: IEEE rounding in the width sum and the degree/radian conversions is not modelled. C++ `long` is modelled as an unbounded integer.
- The multimap of column polymers is a sequence of (slab, name) pairs in insertion order; only the order within one slab is observable in the source, so nothing is lost.
- InitialStateColumn.Column.ValidateData: the source reads the map entry at InitialStateColumn.cpp:340 before checking at line 342 that it exists; the model checks first, which is what happens whenever the name is defined.
- InitialStateColumn.AcceptedColumn: the last slab may name no polymers ("Polymers" followed directly by "Normal"). The first-name check rejects only "Polymers" and an empty name, and for an earlier slab a "Normal" there fails only at the next slab's keyword check. The format as documented asks for at least one polymer in every slab; the model follows the code, so the contract guarantees entries for every slab except the last (see `EmptyLastSlabAccepted`).
- ForceTarget.ForceTarget.AddForce: requires a force law when misc classes are enabled and the target has beads, because the source calls the law through a pointer that is null until `SetForceLaw`. Each bead's force is the law's force at the given time or at the bead's position, and the law itself is a parameter.
- ForceTarget.ForceTarget.RemoveDuplicateBeads: requires that distinct beads have distinct ids, which is how the source orders them ("unique" ids); beads are compared by identity, as the source compares pointers.
- ActiveEvents.BondBindsToPolymerHead.Execute: requires the pointers the source dereferences to be non-null. With a contra event active and no pending bond, the source's else-branch dereferences a null bond; the model excludes that. The free-bond search, the bond length and the contra-event state are parameters, and the template event's spring constant is passed in.
- ActiveEvents.BondBindsToPolymerHead.Copy: the source leaves the interface pointer uninitialised; the model sets it to null.
- `aeActivePolymer::AddHeadBond` is not part of this model: it is modelled as replacing the head bond.
- IntegerSequenceArgument.SetArgumentToIntegerSequence.Pack and StringSequenceArgument.SetArgumentToStringSequence.Pack model the build with command groups enabled only; with them disabled the source returns no value.
- RestartMessage.ISRestartMessage.SetMessageData: requires restart initial-state data, because the source dereferences the result of its `dynamic_cast` without a check.
- DisplayPeriodMessage.SetDisplayPeriodMessage.SetMessageData: the `dynamic_cast` of the command is modelled as the `CommandRef` datatype, which is either a display-period command or any other command.
- The default log flag of `mcSetDisplayPeriod`'s default constructor comes from `xxCommand`, which is not part of this model; it is a constructor parameter.
- `ccSineForce::IsDataValid` only delegates to its base class, which is not part of this model.
- `CVesicleData` is constructed with `CAnalysisData(false)`; the model reads that flag as "not yet valid" until `get` succeeds.
- Thin dispatchers, `*Impl.cpp` glue and stubs, which only forward to the simulation box, write files or draw random numbers, are not modelled, and neither is the spatial engine (cells, pair forces, integration).
