# Dirty-qubit mapper and carrier annotation (ProjectQ, early dirty-qubit work)

This project models two pieces of bookkeeping from ProjectQ's first attempt at
dirty-qubit support, and proves what they promise.

- **`DirtyQubitMapper`** (projectq/cengines/_dirtymapper.py) is a compiler engine.
  - It keeps two parallel lists. One holds qubit IDs; the other holds, for each ID, the commands buffered for that qubit.
  - A command that acts on a tracked qubit, or that allocates a dirty qubit, is buffered. Any other command is sent on at once.
  - Take a tracked qubit whose first buffered command is a dirty allocation and whose last is a deallocation. The engine may move that qubit's operations onto another qubit. It drops the allocation and the deallocation, rewrites the qubit ID inside the remaining commands, and relabels or splices the entry.
  - A flush sends every buffered command.
- **`DirtyQubitTag`** and **`CarrierIndicator`** (projectq/meta/_dirtyqubit.py).
  - A tag holds a set of preferred carrier IDs and compares by that set.
  - The indicator adds its carriers to the tags of every dirty allocation it sees. It tracks which dirty qubits are still open, forwards every command in order, and raises `DirtyQubitManagementError` from `end_targetting` while a dirty qubit is open.

How the model is built:

- **Shared commands.** A buffered command is one object shared by the lists of all its qubits, and the ID rewrite changes it in place. The model therefore keeps commands in an *arena* (`arena: seq<Command>`). The per-qubit lists hold arena indices, so one rewrite is seen from every list that holds the command.
- **Proofs on values.** Module `MapperState` states every step of the mapper as a function on a value `Cache(arena, involved, cached)`. Its invariant `Valid` says four things:
  - the lists have the same length;
  - the IDs are distinct;
  - no list is empty;
  - every cached command acts on the qubit whose list holds it.
- **The engine itself.** Class `DirtyMapper.DirtyQubitMapper` is the imperative engine, with in-place list surgery and the delete-while-iterating loop. Each of its methods is proved to reach exactly the state that the matching `MapperState` function computes.
- **Lemmas.** Module `MapperProperties` proves the promised behaviour of those functions.
- **Target choice.** `_find_remap_qubitID` is a stub in the source. It is modelled as an oracle: a function from qubit ID to `Option<QubitId>`. The engine holds it as a constant and requires that it never names the qubit itself. `DirtyMapper.StubChooser` is the stub as shipped.

## Model

| member | source | states |
|---|---|---|
| DirtyQubitTags.NewDirtyQubitTag | projectq/meta/_dirtyqubit.py:38-43 | The new tag is a DirtyQubitTag whose carrier set holds exactly the given IDs. |
| DirtyQubitTags.SameCarriersEqualTags | projectq/meta/_dirtyqubit.py:43-50 | Two carrier lists build equal tags iff they hold the same IDs, whatever their order and repeats. |
| DirtyQubitTags.Equals | projectq/meta/_dirtyqubit.py:45-50 | `==` on a DirtyQubitTag holds iff the other tag is a DirtyQubitTag with the same carrier set, i.e. iff the two values are equal. |
| DirtyQubitTags.NotEquals | projectq/meta/_dirtyqubit.py:52-53 | `!=` is exactly the negation of `==`. |
| DirtyQubitTags.NeverEqualsOtherClass | projectq/meta/_dirtyqubit.py:49-50 | A DirtyQubitTag never equals a tag of another class, and `!=` holds between them. |
| DirtyQubitTags.DefaultTagsCompare | projectq/meta/_dirtyqubit_test.py:37-43 | Two default tags are equal and not unequal, and a default tag is not equal to a ComputeTag. |
| CarrierIndicators.Annotate | projectq/meta/_dirtyqubit.py:69-73 | Annotation keeps the gate, the qubits and the number and kinds of tags. It changes nothing but dirty allocations. On a dirty allocation, each DirtyQubitTag's carriers become exactly its old carriers united with the indicator's, and every other tag is unchanged. |
| CarrierIndicators.IsDirtyAllocation | projectq/meta/_dirtyqubit.py:69-70 | The indicator's test: an `AllocateQubitGate` with some DirtyQubitTag among its tags. |
| CarrierIndicators.Enrich | projectq/meta/_dirtyqubit.py:72-73 | A DirtyQubitTag gains the carriers; any other tag is left as it is. |
| CarrierIndicators.EnrichAll | projectq/meta/_dirtyqubit.py:71-73 | Every tag of a command is enriched, and the number of tags is kept. |
| CarrierIndicators.Track | projectq/meta/_dirtyqubit.py:69-76 | A dirty allocation adds its qubit to the active set, a deallocation discards its qubit, and any other command leaves the set alone. |
| CarrierIndicators.TrackAll | projectq/meta/_dirtyqubit.py:67-77 | The active set after a command list is the tracking step applied to each command in arrival order. |
| CarrierIndicators.AnnotateKeepsKind | projectq/meta/_dirtyqubit.py:69-73 | A command is a dirty allocation after annotation iff it was one before. |
| CarrierIndicators.AnnotateIdempotent | projectq/meta/_dirtyqubit.py:73 | Annotating twice with the same carriers is the same as annotating once. |
| CarrierIndicators.Forwarded | projectq/meta/_dirtyqubit.py:67-77 | The indicator forwards exactly as many commands as it receives. |
| CarrierIndicators.ForwardedAt | projectq/meta/_dirtyqubit.py:67-77 | The j-th forwarded command is the j-th received command, annotated: the order is kept and nothing is dropped or added. |
| CarrierIndicators.OpenedStaysActive | projectq/meta/_dirtyqubit.py:69-76 | A qubit whose dirty allocation is not followed by its deallocation is in the active set afterwards. |
| CarrierIndicators.ClosedNotActive | projectq/meta/_dirtyqubit.py:75-76 | A qubit deallocated after its last dirty allocation is not in the active set, including when it was never active (discard of an absent ID). |
| CarrierIndicators.UntouchedKeepsMembership | projectq/meta/_dirtyqubit.py:67-77 | Clean allocations, other gates and commands on other qubits leave a qubit's membership in the active set as it was. |
| CarrierIndicators.SectionScenarios | projectq/meta/_dirtyqubit_test.py:76-88 | A clean qubit left open leaves the active set empty, and a dirty qubit left open is active. |
| CarrierIndicators.EnrichTags | projectq/meta/_dirtyqubit.py:71-73 | The loop over a command's tags yields every tag enriched with the carriers. |
| CarrierIndicators.CarrierIndicator.constructor | projectq/meta/_dirtyqubit.py:63-65 | The carrier set is the set of the given qubits' IDs; the active set and the output are empty. |
| CarrierIndicators.CarrierIndicator.Receive | projectq/meta/_dirtyqubit.py:67-77 | The output grows by the received commands, annotated and in order; the active set is updated by allocations and deallocations as the tracking function says. |
| CarrierIndicators.CarrierIndicator.EndTargetting | projectq/meta/_dirtyqubit.py:79-83 | `end_targetting` fails with DirtyQubitManagementError iff the active set is non-empty. |
| Commands.Relabel | projectq/cengines/_dirtymapper.py:81-85 | Rewriting `from` to `to` keeps the length and every other ID. It leaves no `from`, and the IDs present afterwards are the old ones except `from`, plus `to` if `from` was present. |
| Commands.RelabelIdempotent | projectq/cengines/_dirtymapper.py:84-85 | A second rewrite of the same ID changes nothing. |
| Commands.RelabelQubits | projectq/cengines/_dirtymapper.py:82-85 | The loop over a command's qubits performs exactly that rewrite. |
| MapperState.Position | projectq/cengines/_dirtymapper.py:152 | `list.index` returns the first position holding the ID. |
| MapperState.Interior | projectq/cengines/_dirtymapper.py:78 | `l[1:-1]` is the list without its first and last element (empty for lists shorter than 2). |
| MapperState.InvolvedIn | projectq/cengines/_dirtymapper.py:156-164 | A command is involved iff one of its qubit IDs has a cached list. |
| MapperState.IsDirtyAllocAsWritten | projectq/cengines/_dirtymapper.py:166-174 | `_is_dirty_alloc` as written: a tag equal to a default DirtyQubitTag (no carriers) on an `AllocateQubitGate`, or an `AllocateDirtyQubitGate`, with `and` binding tighter than `or`. |
| MapperState.IsDirtyAlloc | projectq/cengines/_dirtymapper.py:166-174 | `_is_dirty_alloc` as intended: any DirtyQubitTag on an `AllocateQubitGate`, or an `AllocateDirtyQubitGate`. |
| MapperState.AddCmd | projectq/cengines/_dirtymapper.py:148-152 | One iteration of `_cache_cmd`'s loop gives the ID an entry and leaves the arena and the equal lengths as they were. |
| MapperState.CacheAll | projectq/cengines/_dirtymapper.py:147-152 | `_cache_cmd`'s loop gives every ID of the list an entry and leaves the arena as it was. |
| MapperState.Cached | projectq/cengines/_dirtymapper.py:142-152 | `_cache_cmd` adds exactly the new command to the arena, and every qubit of the command has an entry afterwards. |
| MapperState.CacheAllEffect | projectq/cengines/_dirtymapper.py:147-152 | After caching arena entry k for a list of IDs, the IDs stay distinct and the old IDs stay a prefix. Every ID of the list has an entry, and new entries come only from the list. The new entries stand in the order their IDs first occur in the list (line 150 appends each unseen ID as the loop reaches it). Each entry's list is its old list followed by k once per occurrence of its ID. |
| MapperState.CachedValid | projectq/cengines/_dirtymapper.py:142-152 | `_cache_cmd` keeps the four invariants, and the arena gains exactly the new command. |
| MapperState.RelabelCommands | projectq/cengines/_dirtymapper.py:81-85 | Rewriting the commands at the given indices keeps every gate and tag, and leaves every other command as it was. |
| MapperState.Remap | projectq/cengines/_dirtymapper.py:58-108 | A remap never grows the lists and keeps them of equal length. |
| MapperState.RemapValid | projectq/cengines/_dirtymapper.py:88-103 | Both remap branches, including the deletion of an emptied entry, keep the four invariants. The arena changes in qubit IDs only. |
| MapperState.StartsWithDirtyAlloc | projectq/cengines/_dirtymapper.py:72 | The first cached command of an entry is a dirty allocation. |
| MapperState.RemapDue | projectq/cengines/_dirtymapper.py:124-125 | The remap condition: the entry's first cached command is a dirty allocation and its last a deallocation. |
| MapperState.Step | projectq/cengines/_dirtymapper.py:120-127 | One iteration of `_check_and_send` keeps the invariants, never grows the lists, and changes qubit IDs only. |
| MapperState.Sweep | projectq/cengines/_dirtymapper.py:117-127 | The whole delete-while-iterating loop keeps the invariants and changes qubit IDs only. |
| MapperState.Row | projectq/cengines/_dirtymapper.py:190-191 | The commands of one list, in list order, one per entry. |
| MapperState.Gather | projectq/cengines/_dirtymapper.py:189-191 | The naive flush: the rows of all lists, in list order. |
| MapperState.ReceiveOne | projectq/cengines/_dirtymapper.py:186-198 | Handling one command keeps the invariants. |
| MapperState.ReceiveAll | projectq/cengines/_dirtymapper.py:181-198 | `receive` on a command list keeps the invariants. |
| DirtyMapper.IsMetaTagHandler | projectq/cengines/_dirtymapper.py:38-42 | The mapper handles a tag class iff it is DirtyQubitTag. |
| DirtyMapper.HandlesExactlyDirtyQubitTags | projectq/cengines/_dirtymapper.py:38-42 | A tag's class is handled iff the tag is a DirtyQubitTag. |
| DirtyMapper.StubChooser | projectq/cengines/_dirtymapper.py:56 | `_find_remap_qubitID` as shipped: no target for any qubit. |
| DirtyMapper.StubChooserNeverSelf | projectq/cengines/_dirtymapper.py:47-56 | The shipped `_find_remap_qubitID` (always None) satisfies the oracle's requirement of never naming the qubit itself. |
| DirtyMapper.DirtyQubitMapper.constructor | projectq/cengines/_dirtymapper.py:28-36 | A new mapper has empty lists, satisfies the invariants, and uses the given target chooser. |
| DirtyMapper.DirtyQubitMapper.IndexOf | projectq/cengines/_dirtymapper.py:67-70 | The search loop finds a position holding the ID, and no earlier position holds it. The source loop has no `break` and keeps the last match; under the invariant the IDs are distinct, so the last match is the first. |
| DirtyMapper.DirtyQubitMapper.IsInvolved | projectq/cengines/_dirtymapper.py:156-164 | `_is_involved` is true iff some qubit of the command has a cached list. |
| DirtyMapper.DirtyQubitMapper.CacheCmd | projectq/cengines/_dirtymapper.py:142-152 | `_cache_cmd` keeps the invariants and takes the state to the cache function's result. |
| DirtyMapper.DirtyQubitMapper.AppendToList | projectq/cengines/_dirtymapper.py:148-152 | One iteration creates the entry if the ID is new, then appends the command to that ID's list. |
| DirtyMapper.DirtyQubitMapper.RemapDqubit | projectq/cengines/_dirtymapper.py:58-108 | `_remap_dqubit` keeps the invariants, returns the chooser's answer, and takes the state to the remap function's result. |
| DirtyMapper.DirtyQubitMapper.RelabelRest | projectq/cengines/_dirtymapper.py:80-85 | The in-place rewrite of the shared commands rewrites exactly the commands between the first and last. |
| DirtyMapper.DirtyQubitMapper.SpliceInto | projectq/cengines/_dirtymapper.py:99-103 | The splice loop appends the rest to the target's list and deletes the remapped entry. |
| DirtyMapper.DirtyQubitMapper.CheckAndSend | projectq/cengines/_dirtymapper.py:110-140 | `_check_and_send` keeps the invariants and takes the state to the sweep function's result, skip-after-delete included. |
| DirtyMapper.DirtyQubitMapper.SendCached | projectq/cengines/_dirtymapper.py:187-191 | The naive flush appends every cached command to the output, list by list, and changes nothing else. |
| DirtyMapper.DirtyQubitMapper.Receive | projectq/cengines/_dirtymapper.py:176-198 | `receive` keeps the invariants, and its cache and output are what the receive function computes for the command list. |
| MapperProperties.CachedEffect | projectq/cengines/_dirtymapper.py:142-152 | `_cache_cmd` keeps every old entry in place. Previously unseen IDs get entries at the end, in the order they first occur among the command's qubits, and only IDs of the command get new entries. The command ends the list of every qubit it acts on, and lists of other qubits are unchanged. |
| MapperProperties.RemapWithoutTarget | projectq/cengines/_dirtymapper.py:74-76 | When the chooser yields None, `_remap_dqubit` changes nothing. |
| MapperProperties.RemapMembership | projectq/cengines/_dirtymapper.py:88-103 | After a remap onto t, the remapped ID has no entry. t has one iff it had one or some command was moved to it. Every other ID keeps its entry. Splicing onto an involved t removes exactly one entry. |
| MapperProperties.RemapOrder | projectq/cengines/_dirtymapper.py:88-103 | After a remap onto t, t takes the slot of the remapped qubit when it had no entry and some command moves to it (line 92). Otherwise the remapped qubit's entry is deleted and every other entry keeps its order (lines 95-96, 102-103). |
| MapperProperties.RemapLists | projectq/cengines/_dirtymapper.py:78-103 | After a remap onto t, t's list is its old list (or nothing) followed by the remapped qubit's commands minus the first and last. Every other list is unchanged. Where each entry stands is stated by MapperProperties.RemapOrder. |
| MapperProperties.RemapArena | projectq/cengines/_dirtymapper.py:78-85 | Each moved command is its old self with every reference to the remapped qubit replaced by t, so it acts on t and no longer on the remapped qubit. Every other command is untouched. |
| MapperProperties.SweepWithoutRemap | projectq/cengines/_dirtymapper.py:117-127 | `_check_and_send` changes the cache only through entries that start with a dirty allocation and end with a deallocation, and only when the chooser gives a target. |
| MapperProperties.SweepUnderStub | projectq/cengines/_dirtymapper.py:110-140 | With the shipped chooser, `_check_and_send` leaves the cache unchanged. |
| MapperProperties.ReceiveForwardsUninvolved | projectq/cengines/_dirtymapper.py:196-198 | A non-flush command that is neither involved nor a dirty allocation is sent on at once, and the cache is unchanged. |
| MapperProperties.ReceiveCachesSilently | projectq/cengines/_dirtymapper.py:192-195 | Any other non-flush command is cached and nothing is sent on, whatever the chooser does. The command takes the next arena entry, and its index ends the list of every qubit it acts on. `_check_and_send` then runs on that cache. |
| MapperProperties.ReceiveUnderStub | projectq/cengines/_dirtymapper.py:192-195 | With the shipped chooser, a cached command gets a new arena entry, every qubit it acts on has an entry, and the command ends each of those lists. |
| MapperProperties.ReceiveKeepsEveryCommand | projectq/cengines/_dirtymapper.py:181-198 | A non-flush command is either sent on once with the cache unchanged, or sent nothing and given exactly one new arena entry with its own gate and tags. Older arena entries change only in qubit IDs. |
| MapperProperties.GatherLength | projectq/cengines/_dirtymapper.py:189-191 | A flush sends one command per cached entry. |
| MapperProperties.GatherAt | projectq/cengines/_dirtymapper.py:189-191 | Entry j of list i is sent at position (entries of the earlier lists) + j: list order first, then per-list order. |
| MapperProperties.SharedCommandSentTwice | projectq/cengines/_dirtymapper.py:189-191 | A command cached in two lists is sent at least twice by a flush. |
| MapperProperties.ReceiveFlush | projectq/cengines/_dirtymapper.py:187-191 | A flush keeps the cache and sends exactly one command per cached entry; the flush command itself is not sent on. |
| MapperProperties.FlushOrder | projectq/cengines/_dirtymapper.py:187-191 | After what was sent before, a flush sends entry j of list i at position (entries of the earlier lists) + j. |
| MapperProperties.FlushTwiceSendsTwice | projectq/cengines/_dirtymapper.py:187-191 | Two flushes in a row send the cache twice, because the flush does not empty it. |
| MapperProperties.AnnotatedAllocationMissed | projectq/cengines/_dirtymapper.py:170-172 | Counterexample: an allocation with a default DirtyQubitTag passes `_is_dirty_alloc` as written, and the same allocation after carrier annotation does not. The intended check accepts both. |
| MapperProperties.AnnotationKeepsDirtyAlloc | projectq/cengines/_dirtymapper.py:166-174 | The corrected check gives the same answer before and after carrier annotation. |
| MapperProperties.AsWrittenAgreesWithoutCarriers | projectq/cengines/_dirtymapper.py:170-172 | While no tag carries carriers, the check as written and the corrected check agree. |

## Left out

- `print` calls and `print_state` (projectq/cengines/_dirtymapper.py:64, 91, 98, 105-106, 116, 126, 139, 154, 184-185, 188, 193, 197, 200-210): debug output with no effect on state.
- **Sending.** `BasicEngine.send` and the downstream engine are modelled as an output sequence field (`sent`) that grows.
- **Target selection.** `_find_remap_qubitID` is an oracle given at construction; no selection rule is invented. Its result is required to differ from the remapped qubit.
- `is_available` is not modelled; it always returns True and the mapper never calls it.
- **Fast-forwarding branch.** The FastForwardingGate branch of `_check_and_send` (projectq/cengines/_dirtymapper.py:129-140) only prints; the model treats it as doing nothing.
- **Flush test.** The flush test `cmd.gate == FlushGate` (projectq/cengines/_dirtymapper.py:187) compares a gate object with the FlushGate class. Its outcome depends on `BasicGate.__eq__`, and projectq/ops is not part of this model. The model reads the test as "the gate is a flush".
- **Qubit groups.** A command's qubit groups are flattened into one ID list, controls first, as the mapper flattens `all_qubits` (projectq/cengines/_dirtymapper.py:82, 122, 147, 160). The indicator reads `cmd.qubits[0][0]`, the first target qubit (projectq/meta/_dirtyqubit.py:74, 76). The model takes the first ID of the flat list there. The two agree on allocations and deallocations, which carry no control qubits, and those are the only commands the indicator reads.
- **Gate kinds.** `AllocateDirtyQubitGate` is treated as a gate kind of its own. The class hierarchy of projectq/ops is not part of this model.
- **Tag identity.** Tag objects and their in-place update (`tag.carrier_IDs.update`) are modelled as values. The indicator's output holds the annotated commands, but the model does not capture other references to the same tag object being changed.
- MapperState.ReceiveOne: routes with the corrected dirty-allocation check (`IsDirtyAlloc`), not the one written at projectq/cengines/_dirtymapper.py:170. As written, an allocation whose DirtyQubitTag has carriers and acts on no cached qubit is sent on at once; the model caches it (see Findings).
- MapperState.ReceiveAll: follows the corrected dirty-allocation check, as ReceiveOne does.
- MapperState.Step: decides a remap with the corrected dirty-allocation check. As written, an entry whose first command carries a DirtyQubitTag with carriers is never remapped.
- MapperState.Sweep: follows the corrected dirty-allocation check, as Step does.
- DirtyMapper.DirtyQubitMapper.Receive: follows the corrected dirty-allocation check, as MapperState.ReceiveOne does.
- DirtyMapper.DirtyQubitMapper.CheckAndSend: follows the corrected dirty-allocation check, as MapperState.Step does.
- MapperProperties.ReceiveKeepsEveryCommand: does not promise that a cached command reaches a later flush. A dirty allocation with no qubits takes an arena entry but joins no list, so no flush sends it; the source does the same, because the loop at projectq/cengines/_dirtymapper.py:148 runs over no IDs. A command held by several lists is sent once per list by a flush (MapperProperties.SharedCommandSentTwice).
- **Aliasing after a flush.** A flush sends the cached command objects and keeps them cached (projectq/cengines/_dirtymapper.py:189-191). A later remap rewrites `qubit.id` in those same objects (line 85), so commands the next engine already holds change too. The model's output keeps the commands as they were when sent, and does not capture that change.
- CarrierIndicators.CarrierIndicator.Receive: requires every dirty allocation and every deallocation to name a qubit. The source reads `cmd.qubits[0][0]` for exactly those commands (projectq/meta/_dirtyqubit.py:74, 76) and would fail with an IndexError on one without a qubit. The engines never build such a command. Clean allocations and other commands are not restricted.
- MapperState.StartsWithDirtyAlloc: uses the corrected dirty-allocation check, not `_is_dirty_alloc` as written at projectq/cengines/_dirtymapper.py:72 (see Findings).
- MapperState.RemapDue: uses the corrected dirty-allocation check. As written, line 124 skips an entry whose first command is an allocation whose DirtyQubitTag has carriers; the model remaps it when the chooser gives a target.
- DirtyMapper.DirtyQubitMapper.RemapDqubit: its requires uses the corrected dirty-allocation check where projectq/cengines/_dirtymapper.py:72 asserts the check as written. The model drops the AssertionError that line 72 raises on an entry that starts with a carrier-annotated allocation.
- `CarrierQubits` (projectq/meta/_dirtyqubit.py:86-135) is engine-list plumbing through `insert_engine`/`drop_engine_after`, which are not part of this model.
- projectq/libs/math/_dirtyconstantmath.py and projectq/cengines/_dirtyreplacer.py are not part of this model. The first builds circuits that only a simulator gives meaning to, and the second is an unfinished pass-through.
- **Not in the code.** Load or cost accounting, cache limits, interference analysis and cascading sends do not exist in this code, so they are not modelled.

## Findings

| source | as written | input that shows it | evidently intended | confidence | as-written member | corrected member |
|---|---|---|---|---|---|---|
| projectq/cengines/_dirtymapper.py:170 | `DirtyQubitTag() in cmd.tags` compares with `__eq__`, which compares carrier sets, so only a tag with no carriers matches | An `AllocateQubitGate` command on qubit 1 whose DirtyQubitTag has carriers {0}, as the carrier indicator leaves it (`MapperProperties.AnnotatedAllocationMissed`) | Any DirtyQubitTag among the tags marks a dirty allocation, whatever its carriers | medium, not executed | MapperState.IsDirtyAllocAsWritten | MapperState.IsDirtyAlloc |
