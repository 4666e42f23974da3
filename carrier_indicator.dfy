/**
 * The CarrierIndicator engine of projectq/meta/_dirtyqubit.py: inside a
 * carrier section it adds the section's carrier IDs to the DirtyQubitTag of
 * every dirty allocation, remembers which dirty qubits are still open, and
 * reports an error at the end of the section if one of them is.
 */
module CarrierIndicators {
  import opened Wrappers
  import opened DirtyQubitTags
  import opened Commands

  /** Raised by `end_targetting`. */
  datatype DirtyQubitManagementError = DirtyQubitManagementError(message: string)

  /** The commands whose qubit the indicator reads (`cmd.qubits[0][0]`), dirty
   *  allocations and deallocations, name one. */
  predicate WellFormed(cmd: Command)
  {
    (IsDirtyAllocation(cmd) || cmd.gate.DeallocateQubitGate?) ==> |cmd.qubits| > 0
  }

  /** Some tag of the list is a DirtyQubitTag. */
  predicate HasDirtyTag(tags: seq<Tag>)
  {
    exists i :: 0 <= i < |tags| && tags[i].DirtyQubitTag?
  }

  /** The allocation of a dirty qubit, as the indicator recognises it. */
  predicate IsDirtyAllocation(cmd: Command)
  {
    cmd.gate.AllocateQubitGate? && HasDirtyTag(cmd.tags)
  }

  /** `tag.carrier_IDs.update(carriers)` for a DirtyQubitTag; other tags are untouched. */
  function Enrich(tag: Tag, carriers: set<QubitId>): Tag
  {
    if tag.DirtyQubitTag? then DirtyQubitTag(tag.carrierIds + carriers) else tag
  }

  /** Every tag of a list, enriched. */
  function EnrichAll(tags: seq<Tag>, carriers: set<QubitId>): (r: seq<Tag>)
    ensures |r| == |tags|
  {
    seq(|tags|, i requires 0 <= i < |tags| => Enrich(tags[i], carriers))
  }

  /** The command as the indicator forwards it. */
  function Annotate(cmd: Command, carriers: set<QubitId>): (r: Command)
    ensures r.gate == cmd.gate && r.qubits == cmd.qubits && |r.tags| == |cmd.tags|
    ensures !IsDirtyAllocation(cmd) ==> r == cmd
    ensures forall i :: 0 <= i < |r.tags| ==>
      (r.tags[i].DirtyQubitTag? <==> cmd.tags[i].DirtyQubitTag?)
    ensures IsDirtyAllocation(cmd) ==> forall i :: 0 <= i < |r.tags| ==>
      r.tags[i] == (if cmd.tags[i].DirtyQubitTag? then DirtyQubitTag(cmd.tags[i].carrierIds + carriers) else cmd.tags[i])
  {
    if IsDirtyAllocation(cmd) then cmd.(tags := EnrichAll(cmd.tags, carriers)) else cmd
  }

  /** Annotating keeps a command a dirty allocation, or not one. */
  lemma AnnotateKeepsKind(cmd: Command, carriers: set<QubitId>)
    ensures IsDirtyAllocation(Annotate(cmd, carriers)) == IsDirtyAllocation(cmd)
  {
    if IsDirtyAllocation(cmd) {
      var i :| 0 <= i < |cmd.tags| && cmd.tags[i].DirtyQubitTag?;
      assert Annotate(cmd, carriers).tags[i].DirtyQubitTag?;
    }
  }

  /** Annotating twice with the same carriers is annotating once. */
  lemma AnnotateIdempotent(cmd: Command, carriers: set<QubitId>)
    ensures Annotate(Annotate(cmd, carriers), carriers) == Annotate(cmd, carriers)
  {
    AnnotateKeepsKind(cmd, carriers);
    if IsDirtyAllocation(cmd) {
      var once := Annotate(cmd, carriers);
      assert EnrichAll(once.tags, carriers) == once.tags;
    }
  }

  /** The commands forwarded for a list of received commands, in order. */
  function Forwarded(cmds: seq<Command>, carriers: set<QubitId>): (r: seq<Command>)
    ensures |r| == |cmds|
  {
    if cmds == [] then []
    else Forwarded(cmds[..|cmds| - 1], carriers) + [Annotate(cmds[|cmds| - 1], carriers)]
  }

  /** Each received command is forwarded once, at its own position. */
  lemma {:induction false} ForwardedAt(cmds: seq<Command>, carriers: set<QubitId>, j: nat)
    requires j < |cmds|
    ensures Forwarded(cmds, carriers)[j] == Annotate(cmds[j], carriers)
  {
    if j < |cmds| - 1 {
      ForwardedAt(cmds[..|cmds| - 1], carriers, j);
    }
  }

  /** The effect of one command on the set of open dirty qubits. */
  function Track(active: set<QubitId>, cmd: Command): set<QubitId>
    requires WellFormed(cmd)
  {
    if IsDirtyAllocation(cmd) then active + {cmd.qubits[0]}
    else if cmd.gate.DeallocateQubitGate? then active - {cmd.qubits[0]}
    else active
  }

  /** The open dirty qubits after a list of commands. */
  function TrackAll(active: set<QubitId>, cmds: seq<Command>): set<QubitId>
    requires forall j :: 0 <= j < |cmds| ==> WellFormed(cmds[j])
  {
    if cmds == [] then active
    else Track(TrackAll(active, cmds[..|cmds| - 1]), cmds[|cmds| - 1])
  }

  /** The commands that open (dirty allocation) or close (deallocation) qubit `q`. */
  predicate Opens(cmd: Command, q: QubitId)
  {
    IsDirtyAllocation(cmd) && |cmd.qubits| > 0 && cmd.qubits[0] == q
  }

  predicate Closes(cmd: Command, q: QubitId)
  {
    cmd.gate.DeallocateQubitGate? && |cmd.qubits| > 0 && cmd.qubits[0] == q
  }

  /** A dirty qubit opened and not closed afterwards is still open. */
  lemma {:induction false} OpenedStaysActive(active: set<QubitId>, cmds: seq<Command>, j: nat, q: QubitId)
    requires forall m :: 0 <= m < |cmds| ==> WellFormed(cmds[m])
    requires j < |cmds| && Opens(cmds[j], q)
    requires forall m :: j < m < |cmds| ==> !Closes(cmds[m], q)
    ensures q in TrackAll(active, cmds)
  {
    if j < |cmds| - 1 {
      OpenedStaysActive(active, cmds[..|cmds| - 1], j, q);
    }
  }

  /** A qubit closed and not opened again afterwards is not open. */
  lemma {:induction false} ClosedNotActive(active: set<QubitId>, cmds: seq<Command>, j: nat, q: QubitId)
    requires forall m :: 0 <= m < |cmds| ==> WellFormed(cmds[m])
    requires j < |cmds| && Closes(cmds[j], q)
    requires forall m :: j < m < |cmds| ==> !Opens(cmds[m], q)
    ensures q !in TrackAll(active, cmds)
  {
    if j < |cmds| - 1 {
      ClosedNotActive(active, cmds[..|cmds| - 1], j, q);
    }
  }

  /** Commands that neither open nor close `q` (clean allocations, other gates,
   *  commands on other qubits) leave its membership alone. */
  lemma {:induction false} UntouchedKeepsMembership(active: set<QubitId>, cmds: seq<Command>, q: QubitId)
    requires forall m :: 0 <= m < |cmds| ==> WellFormed(cmds[m])
    requires forall m :: 0 <= m < |cmds| ==> !Opens(cmds[m], q) && !Closes(cmds[m], q)
    ensures q in TrackAll(active, cmds) <==> q in active
  {
    if cmds != [] {
      UntouchedKeepsMembership(active, cmds[..|cmds| - 1], q);
    }
  }

  /** The scenarios of test_error_missing_deallocate_dqubitsection: a clean
   *  qubit left open leaves nothing active, a dirty one stays active. */
  lemma SectionScenarios(q: QubitId)
    ensures TrackAll({}, [Command(AllocateQubitGate, [q], [])]) == {}
    ensures TrackAll({}, [Command(AllocateQubitGate, [q], [NewDirtyQubitTag([])])]) == {q}
  {
    var clean := [Command(AllocateQubitGate, [q], [])];
    assert clean[..0] == [];
    var dirty := [Command(AllocateQubitGate, [q], [NewDirtyQubitTag([])])];
    assert dirty[..0] == [];
    assert dirty[0].tags[0].DirtyQubitTag?;
  }

  /** The tag loop of `receive`: every DirtyQubitTag gains the carriers. */
  method EnrichTags(tags: seq<Tag>, carriers: set<QubitId>) returns (r: seq<Tag>)
    ensures r == EnrichAll(tags, carriers)
  {
    r := tags;
    var i := 0;
    while i < |r|
      invariant 0 <= i <= |r| == |tags|
      invariant forall m :: 0 <= m < i ==> r[m] == Enrich(tags[m], carriers)
      invariant forall m :: i <= m < |r| ==> r[m] == tags[m]
    {
      if r[i].DirtyQubitTag? {
        r := r[i := DirtyQubitTag(r[i].carrierIds + carriers)];
      }
      i := i + 1;
    }
  }

  class CarrierIndicator {
    const carrierIds: set<QubitId>
    var activeDqubits: set<QubitId>
    /** The commands handed to the next engine, oldest first. */
    var sent: seq<Command>

    /** `CarrierIndicator(carrier_qubits)`: carriers are the qubits' IDs, nothing open. */
    constructor (carrierQubits: seq<QubitId>)
      ensures carrierIds == Elements(carrierQubits)
      ensures activeDqubits == {} && sent == []
    {
      carrierIds := Elements(carrierQubits);
      activeDqubits := {};
      sent := [];
    }

    /** `receive`: annotate dirty allocations, track open dirty qubits, forward everything. */
    method Receive(cmdList: seq<Command>)
      requires forall j :: 0 <= j < |cmdList| ==> WellFormed(cmdList[j])
      modifies this
      ensures sent == old(sent) + Forwarded(cmdList, carrierIds)
      ensures activeDqubits == TrackAll(old(activeDqubits), cmdList)
    {
      var n := 0;
      while n < |cmdList|
        invariant 0 <= n <= |cmdList|
        invariant sent == old(sent) + Forwarded(cmdList[..n], carrierIds)
        invariant activeDqubits == TrackAll(old(activeDqubits), cmdList[..n])
      {
        var cmd := cmdList[n];
        if cmd.gate.AllocateQubitGate? && HasDirtyTag(cmd.tags) {
          var tags := EnrichTags(cmd.tags, carrierIds);
          cmd := cmd.(tags := tags);
          activeDqubits := activeDqubits + {cmd.qubits[0]};
        } else if cmd.gate.DeallocateQubitGate? {
          activeDqubits := activeDqubits - {cmd.qubits[0]};
        }
        sent := sent + [cmd];
        assert cmdList[..n + 1][..n] == cmdList[..n];
        n := n + 1;
      }
      assert cmdList[..n] == cmdList;
    }

    /** `end_targetting`: an error iff a dirty qubit opened in the section is still open. */
    method EndTargetting() returns (r: Outcome<DirtyQubitManagementError>)
      ensures r.Fail? <==> activeDqubits != {}
    {
      if activeDqubits != {} {
        r := Fail(DirtyQubitManagementError(
          "A dirty qubit allocated in this 'with DirtyQubits'-section has not been deallocated within the section"));
      } else {
        r := Pass;
      }
    }
  }
}
