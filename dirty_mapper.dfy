/**
 * The DirtyQubitMapper engine of projectq/cengines/_dirtymapper.py: it keeps,
 * for every qubit it is tracking, the commands it has buffered for that qubit,
 * and when a dirty qubit's whole lifetime is buffered it moves the qubit's
 * operations onto another qubit chosen by `_find_remap_qubitID`.
 *
 * Each method is proved to take the state to the one the matching function
 * of MapperState computes; the properties are proved of those functions.
 */
module DirtyMapper {
  import opened Wrappers
  import opened DirtyQubitTags
  import opened Commands
  import opened MapperState

  /** `is_meta_tag_handler`: the mapper handles exactly the DirtyQubitTag class. */
  function IsMetaTagHandler(tag: TagClass): (r: bool)
    ensures r <==> tag == DirtyQubitTagClass
  {
    if tag == DirtyQubitTagClass then true else false
  }

  /** The mapper handles a tag value exactly when it is a DirtyQubitTag. */
  lemma HandlesExactlyDirtyQubitTags(t: Tag)
    ensures IsMetaTagHandler(ClassOf(t)) <==> t.DirtyQubitTag?
  {
  }

  /** `_find_remap_qubitID` as the source ships it: never a target. */
  function StubChooser(): Chooser
  {
    x => None
  }

  lemma StubChooserNeverSelf()
    ensures NoSelfTarget(StubChooser())
  {
  }

  class DirtyQubitMapper {
    /** The cached command objects; `cachedCmds` holds indices into it. */
    var arena: seq<Command>
    /** `_involved_qubits` */
    var involvedQubits: seq<QubitId>
    /** `_cached_cmds` */
    var cachedCmds: seq<seq<nat>>
    /** The commands sent on to the next engine, oldest first. */
    var sent: seq<Command>
    /** `_find_remap_qubitID` */
    const findRemapTarget: Chooser

    function State(): Cache
      reads this
    {
      Cache(arena, involvedQubits, cachedCmds)
    }

    function Snapshot(): Engine
      reads this
    {
      Engine(State(), sent)
    }

    ghost predicate Valid()
      reads this
    {
      MapperState.Valid(State()) && NoSelfTarget(findRemapTarget)
    }

    /** `DirtyQubitMapper()`: nothing cached, nothing sent. */
    constructor (chooser: Chooser)
      requires NoSelfTarget(chooser)
      ensures Valid()
      ensures arena == [] && involvedQubits == [] && cachedCmds == [] && sent == []
      ensures findRemapTarget == chooser
    {
      arena, involvedQubits, cachedCmds, sent := [], [], [], [];
      findRemapTarget := chooser;
    }

    /** `_involved_qubits.index(id)`, and the search loop of `_remap_dqubit`. */
    method IndexOf(id: QubitId) returns (k: nat)
      requires id in involvedQubits
      ensures k < |involvedQubits| && involvedQubits[k] == id && id !in involvedQubits[..k]
      ensures k == Position(involvedQubits, id)
    {
      k := 0;
      while involvedQubits[k] != id
        invariant k < |involvedQubits| && id !in involvedQubits[..k]
        invariant id in involvedQubits[k..]
        decreases |involvedQubits| - k
      {
        assert involvedQubits[..k + 1] == involvedQubits[..k] + [involvedQubits[k]];
        k := k + 1;
      }
    }

    /** `_is_involved(cmd)`: some qubit of `cmd` has a cached list. */
    method IsInvolved(cmd: Command) returns (b: bool)
      ensures b <==> exists j :: 0 <= j < |cmd.qubits| && cmd.qubits[j] in involvedQubits
    {
      var j := 0;
      while j < |cmd.qubits|
        invariant 0 <= j <= |cmd.qubits|
        invariant forall m :: 0 <= m < j ==> cmd.qubits[m] !in involvedQubits
      {
        if cmd.qubits[j] in involvedQubits {
          return true;
        }
        j := j + 1;
      }
      return false;
    }

    /** `_cache_cmd(cmd)`. */
    method CacheCmd(cmd: Command)
      requires Valid()
      modifies this`arena, this`involvedQubits, this`cachedCmds
      ensures Valid()
      ensures State() == Cached(old(State()), cmd)
    {
      ghost var c0 := State();
      arena := arena + [cmd];
      var k := |arena| - 1;
      ghost var c1 := State();
      var ids := cmd.qubits;
      var j := 0;
      while j < |ids|
        invariant 0 <= j <= |ids|
        invariant |involvedQubits| == |cachedCmds|
        invariant State() == CacheAll(c1, ids[..j], k)
      {
        AppendToList(ids[j], k);
        assert ids[..j + 1][..j] == ids[..j];
        j := j + 1;
      }
      assert ids[..j] == ids;
      CachedValid(c0, cmd);
    }

    /** One iteration of `_cache_cmd`'s loop: give `id` a list if it has none,
     *  then append arena index `k` to it. */
    method AppendToList(id: QubitId, k: nat)
      requires |involvedQubits| == |cachedCmds|
      modifies this`involvedQubits, this`cachedCmds
      ensures State() == AddCmd(old(State()), id, k)
    {
      if id !in involvedQubits {
        involvedQubits := involvedQubits + [id];
        cachedCmds := cachedCmds + [[]];
      }
      var p := IndexOf(id);
      if id !in old(involvedQubits) {
        assert p == |old(involvedQubits)| && cachedCmds[p] == [];
      }
      cachedCmds := cachedCmds[p := cachedCmds[p] + [k]];
      if id !in old(involvedQubits) {
        assert [] + [k] == [k];
        assert |cachedCmds| == |old(cachedCmds) + [[k]]|;
        assert forall m :: 0 <= m < |cachedCmds| ==> cachedCmds[m] == (old(cachedCmds) + [[k]])[m];
      }
    }

    /** `_remap_dqubit(rmpId)`: returns the target `_find_remap_qubitID` chose. */
    method RemapDqubit(rmpId: QubitId) returns (newId: Option<QubitId>)
      requires Valid()
      requires rmpId in involvedQubits
      requires StartsWithDirtyAlloc(State(), Position(involvedQubits, rmpId))
      modifies this`arena, this`involvedQubits, this`cachedCmds
      ensures Valid()
      ensures newId == findRemapTarget(rmpId)
      ensures State() == Remap(old(State()), rmpId, newId)
    {
      ghost var c0 := State();
      var p := IndexOf(rmpId);
      newId := findRemapTarget(rmpId);
      if newId.Some? {
        var t := newId.value;
        var rest := Interior(cachedCmds[p]);
        forall j | 0 <= j < |rest| ensures rest[j] < |arena| {
          assert rest[j] in rest;
        }
        cachedCmds := cachedCmds[p := rest];
        RelabelRest(rest, rmpId, t);
        if t !in involvedQubits {
          involvedQubits := involvedQubits[p := t];
          if cachedCmds[p] == [] {
            involvedQubits := RemoveAt(involvedQubits, p);
            cachedCmds := RemoveAt(cachedCmds, p);
          }
        } else {
          SpliceInto(t, p);
        }
      }
      RemapValid(c0, rmpId, newId);
    }

    /** The rewrite loop of `_remap_dqubit` over the commands of `rest`. */
    method RelabelRest(rest: seq<nat>, from: QubitId, to: QubitId)
      requires forall j :: 0 <= j < |rest| ==> rest[j] < |arena|
      requires from != to
      modifies this`arena
      ensures arena == RelabelCommands(old(arena), rest, from, to)
    {
      var j := 0;
      while j < |rest|
        invariant 0 <= j <= |rest|
        invariant |arena| == |old(arena)|
        invariant arena == RelabelCommands(old(arena), rest[..j], from, to)
      {
        var k := rest[j];
        var ids := RelabelQubits(arena[k].qubits, from, to);
        ghost var before := arena;
        arena := arena[k := arena[k].(qubits := ids)];
        forall i | 0 <= i < |arena|
          ensures arena[i] == RelabelCommands(old(arena), rest[..j + 1], from, to)[i]
        {
          if i == k && k in rest[..j] {
            RelabelIdempotent(old(arena)[k].qubits, from, to);
          }
        }
        j := j + 1;
      }
      assert rest[..j] == rest;
    }

    /** The splice loop of `_remap_dqubit`: the entry of `t` gains the list at
     *  `p`, and the entry at `p` is deleted while the loop still runs over the
     *  list. */
    method SpliceInto(t: QubitId, p: nat)
      requires |involvedQubits| == |cachedCmds| && Distinct(involvedQubits)
      requires p < |involvedQubits| && t in involvedQubits && involvedQubits[p] != t
      modifies this`involvedQubits, this`cachedCmds
      ensures var q := Position(old(involvedQubits), t);
        && involvedQubits == RemoveAt(old(involvedQubits), p)
        && cachedCmds == RemoveAt(old(cachedCmds)[q := old(cachedCmds)[q] + old(cachedCmds)[p]], p)
    {
      ghost var inv0, cached0 := involvedQubits, cachedCmds;
      ghost var q := Position(inv0, t);
      ghost var done := false;
      var i := 0;
      while i < |involvedQubits|
        invariant |involvedQubits| == |cachedCmds|
        invariant !done ==> i <= |inv0|
        invariant !done ==> involvedQubits == inv0 && cachedCmds == cached0 && t !in inv0[..i]
        invariant done ==> involvedQubits == RemoveAt(inv0, p)
        invariant done ==> cachedCmds == RemoveAt(cached0[q := cached0[q] + cached0[p]], p)
        invariant done ==> forall j :: i <= j < |involvedQubits| ==> involvedQubits[j] != t
      {
        if involvedQubits[i] == t {
          PositionOf(inv0, i);
          cachedCmds := cachedCmds[i := cachedCmds[i] + cachedCmds[p]];
          involvedQubits := RemoveAt(involvedQubits, p);
          cachedCmds := RemoveAt(cachedCmds, p);
          done := true;
        } else if !done {
          assert inv0[..i + 1] == inv0[..i] + [inv0[i]];
        }
        i := i + 1;
      }
    }

    /** `_check_and_send`: the send calls of the source are commented out, so
     *  nothing is sent; due entries are remapped. */
    method CheckAndSend()
      requires Valid()
      modifies this`arena, this`involvedQubits, this`cachedCmds
      ensures Valid()
      ensures State() == Sweep(old(State()), findRemapTarget, 0)
    {
      var i := 0;
      while i < |involvedQubits|
        invariant Valid()
        invariant Sweep(State(), findRemapTarget, i) == Sweep(old(State()), findRemapTarget, 0)
        decreases |involvedQubits| - i
      {
        var id := involvedQubits[i];
        var l := cachedCmds[i];
        assert l[0] in l && l[|l| - 1] in l;
        var lastCmd := arena[l[|l| - 1]];
        assert id in lastCmd.qubits;
        ghost var before := State();
        if IsDirtyAlloc(arena[l[0]]) && lastCmd.gate.DeallocateQubitGate? {
          PositionOf(involvedQubits, i);
          var mappedInto := RemapDqubit(id);
        }
        assert State() == Step(before, findRemapTarget, i);
        i := i + 1;
      }
    }

    /** The naive flush of `receive`: every cached command, list by list. */
    method SendCached()
      requires Valid()
      modifies this`sent
      ensures Valid()
      ensures InArena(arena, cachedCmds)
      ensures sent == old(sent) + Gather(arena, cachedCmds)
    {
      ValidInArena(State());
      var i := 0;
      while i < |cachedCmds|
        invariant 0 <= i <= |cachedCmds|
        invariant sent == old(sent) + Gather(arena, cachedCmds[..i])
      {
        var cmds := cachedCmds[i];
        ghost var base := sent;
        var j := 0;
        while j < |cmds|
          invariant 0 <= j <= |cmds|
          invariant sent == base + Row(arena, cmds[..j])
        {
          sent := sent + [arena[cmds[j]]];
          j := j + 1;
        }
        assert cmds[..j] == cmds;
        assert cachedCmds[..i + 1][..i] == cachedCmds[..i];
        i := i + 1;
      }
      assert cachedCmds[..i] == cachedCmds;
    }

    /** `receive(command_list)`. */
    method Receive(commandList: seq<Command>)
      requires Valid()
      modifies this
      ensures Valid()
      ensures Snapshot() == ReceiveAll(old(Snapshot()), commandList, findRemapTarget)
    {
      var n := 0;
      while n < |commandList|
        invariant 0 <= n <= |commandList|
        invariant Valid()
        invariant Snapshot() == ReceiveAll(old(Snapshot()), commandList[..n], findRemapTarget)
      {
        var cmd := commandList[n];
        ghost var before := Snapshot();
        if cmd.gate.FlushGate? {
          SendCached();
        } else {
          var involved := IsInvolved(cmd);
          if involved || IsDirtyAlloc(cmd) {
            CacheCmd(cmd);
            CheckAndSend();
          } else {
            sent := sent + [cmd];
          }
        }
        assert Snapshot() == ReceiveOne(before, cmd, findRemapTarget);
        assert commandList[..n + 1][..n] == commandList[..n];
        n := n + 1;
      }
      assert commandList[..n] == commandList;
    }
  }
}
