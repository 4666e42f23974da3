/**
 * The command representation the dirty-qubit engines consume: a gate, the IDs
 * of the qubits it acts on (all qubit groups flattened, in order) and its tags.
 */
module Commands {
  import opened DirtyQubitTags

  /** The gate classes the engines distinguish with `isinstance` or `==`. */
  datatype Gate =
    | AllocateQubitGate
    | AllocateDirtyQubitGate
    | DeallocateQubitGate
    | FlushGate
    | OtherGate(name: string)

  datatype Command = Command(gate: Gate, qubits: seq<QubitId>, tags: seq<Tag>)

  /** The qubit IDs after every reference to `from` is rewritten to `to`. */
  function Relabel(ids: seq<QubitId>, from: QubitId, to: QubitId): (r: seq<QubitId>)
    ensures |r| == |ids|
    ensures from != to ==> from !in r
    ensures forall x :: x in r <==> (x in ids && x != from) || (x == to && from in ids)
    ensures forall j :: 0 <= j < |ids| ==> r[j] == (if ids[j] == from then to else ids[j])
  {
    if ids == [] then []
    else [if ids[0] == from then to else ids[0]] + Relabel(ids[1..], from, to)
  }

  /** Rewriting twice is rewriting once. */
  lemma RelabelIdempotent(ids: seq<QubitId>, from: QubitId, to: QubitId)
    requires from != to
    ensures Relabel(Relabel(ids, from, to), from, to) == Relabel(ids, from, to)
  {
  }

  /** The command with its qubit references to `from` rewritten to `to`. */
  function RelabelCommand(cmd: Command, from: QubitId, to: QubitId): Command
  {
    cmd.(qubits := Relabel(cmd.qubits, from, to))
  }

  /** The rewrite loop over one command's qubits (`qubit.id = new_ID`). */
  method RelabelQubits(ids: seq<QubitId>, from: QubitId, to: QubitId) returns (r: seq<QubitId>)
    ensures r == Relabel(ids, from, to)
  {
    r := ids;
    var j := 0;
    while j < |r|
      invariant 0 <= j <= |r| == |ids|
      invariant forall m :: 0 <= m < j ==> r[m] == (if ids[m] == from then to else ids[m])
      invariant forall m :: j <= m < |r| ==> r[m] == ids[m]
    {
      if r[j] == from {
        r := r[j := to];
      }
      j := j + 1;
    }
  }
}
