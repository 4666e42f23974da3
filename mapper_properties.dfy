/**
 * What the DirtyQubitMapper promises, proved of the functions of MapperState
 * that its methods are proved to follow.
 */
module MapperProperties {
  import opened Wrappers
  import opened DirtyQubitTags
  import opened Commands
  import opened MapperState
  import CarrierIndicators

  /** The cached list of qubit `x`. */
  function ListOf(c: Cache, x: QubitId): seq<nat>
    requires |c.involved| == |c.cached| && x in c.involved
  {
    c.cached[Position(c.involved, x)]
  }

  lemma ListOfAt(c: Cache, i: nat)
    requires |c.involved| == |c.cached| && Distinct(c.involved) && i < |c.involved|
    ensures ListOf(c, c.involved[i]) == c.cached[i]
  {
    PositionOf(c.involved, i);
  }

  // ---------------------------------------------------------------------------
  // _cache_cmd

  /** `_cache_cmd(cmd)` keeps every old entry in place, adds an entry at the
   *  end for each qubit of `cmd` that had none, in the order those qubits
   *  first occur in `cmd.qubits`, appends `cmd` to the end of
   *  the list of every qubit it acts on, and leaves every other list alone. */
  lemma CachedEffect(c: Cache, cmd: Command)
    requires Valid(c)
    ensures var r := Cached(c, cmd);
      && r.arena == c.arena + [cmd]
      && |c.involved| <= |r.involved| && r.involved[..|c.involved|] == c.involved
      && (forall x :: x in r.involved <==> x in c.involved || x in cmd.qubits)
      && (forall i :: 0 <= i < |c.involved| && c.involved[i] !in cmd.qubits ==> r.cached[i] == c.cached[i])
      && (forall i :: |c.involved| <= i < |r.involved| ==> r.involved[i] in cmd.qubits)
      && (forall i, j :: |c.involved| <= i < j < |r.involved| ==>
            r.involved[i] in cmd.qubits && r.involved[j] in cmd.qubits &&
            Position(cmd.qubits, r.involved[i]) < Position(cmd.qubits, r.involved[j]))
      && (forall i :: 0 <= i < |r.involved| && r.involved[i] in cmd.qubits ==>
            r.cached[i] != [] && r.cached[i][|r.cached[i]| - 1] == |c.arena|)
  {
    var c1 := c.(arena := c.arena + [cmd]);
    var k := |c.arena|;
    CacheAllEffect(c1, cmd.qubits, k);
    var r := Cached(c, cmd);
    forall i | 0 <= i < |r.involved|
      ensures c.involved[..] == c.involved
      ensures i < |c.involved| && r.involved[i] !in cmd.qubits ==> r.cached[i] == c.cached[i]
      ensures r.involved[i] in cmd.qubits ==> r.cached[i] != [] && r.cached[i][|r.cached[i]| - 1] == k
    {
      var n := Count(cmd.qubits, r.involved[i]);
      if r.involved[i] in cmd.qubits {
        assert n > 0;
      } else {
        assert n == 0;
      }
      if i < |c.involved| {
        assert r.involved[i] == c.involved[i];
      }
    }
  }

  // ---------------------------------------------------------------------------
  // _remap_dqubit

  /** When `_find_remap_qubitID` yields None, `_remap_dqubit` changes nothing. */
  lemma RemapWithoutTarget(c: Cache, rmp: QubitId)
    requires Valid(c) && rmp in c.involved
    ensures Remap(c, rmp, None) == c
  {
  }

  /** Who keeps an entry after `_remap_dqubit(rmp)` with target `t`: `rmp`
   *  loses its entry, `t` has one exactly when it had one before or some
   *  command between the first and last of `rmp` moves to it, and every
   *  other qubit keeps its entry. Merging into an existing list deletes one
   *  entry. */
  lemma RemapMembership(c: Cache, rmp: QubitId, t: QubitId)
    requires Valid(c) && rmp in c.involved && t != rmp
    ensures var r := Remap(c, rmp, Some(t));
      && Valid(r)
      && rmp !in r.involved
      && (t in r.involved <==> t in c.involved || Interior(ListOf(c, rmp)) != [])
      && (forall x :: x != rmp && x != t ==> (x in r.involved <==> x in c.involved))
      && (t in c.involved ==> |r.involved| == |c.involved| - 1)
  {
    var r := Remap(c, rmp, Some(t));
    RemapValid(c, rmp, Some(t));
    var p := Position(c.involved, rmp);
    var rest := Interior(c.cached[p]);
    if t in c.involved || rest == [] {
      forall i | 0 <= i < |r.involved| ensures r.involved[i] != rmp && r.involved[i] in c.involved {
        var j := if i < p then i else i + 1;
        assert r.involved[i] == c.involved[j];
      }
      forall x | x in c.involved && x != rmp ensures x in r.involved {
        var j := Position(c.involved, x);
        assert r.involved[if j < p then j else j - 1] == x;
      }
    } else {
      assert r.involved[p] == t;
      forall x | x in c.involved && x != rmp ensures x in r.involved {
        var j := Position(c.involved, x);
        assert r.involved[j] == x;
      }
    }
  }

  /** Where the entries stand after `_remap_dqubit(rmp)` with target `t`: `t`
   *  takes the slot of `rmp` when it had no entry and some command moves to
   *  it; otherwise the entry of `rmp` is deleted and the others keep their
   *  order. */
  lemma RemapOrder(c: Cache, rmp: QubitId, t: QubitId)
    requires Valid(c) && rmp in c.involved && t != rmp
    ensures var p := Position(c.involved, rmp);
      Remap(c, rmp, Some(t)).involved ==
        (if t !in c.involved && Interior(c.cached[p]) != [] then c.involved[p := t]
         else RemoveAt(c.involved, p))
  {
  }

  /** Whose list changes after `_remap_dqubit(rmp)` with target `t`: the
   *  commands between the first and last cached command of `rmp` end the list
   *  of `t`, after what `t` had cached (if anything); every other qubit keeps
   *  its list. */
  lemma RemapLists(c: Cache, rmp: QubitId, t: QubitId)
    requires Valid(c) && rmp in c.involved && t != rmp
    ensures var r := Remap(c, rmp, Some(t));
      && |r.involved| == |r.cached|
      && (forall x :: x in r.involved && x != t ==> x in c.involved && ListOf(r, x) == ListOf(c, x))
      && (t in r.involved ==>
            ListOf(r, t) == (if t in c.involved then ListOf(c, t) else []) + Interior(ListOf(c, rmp)))
  {
    var r := Remap(c, rmp, Some(t));
    RemapValid(c, rmp, Some(t));
    var p := Position(c.involved, rmp);
    var rest := Interior(c.cached[p]);
    forall i | 0 <= i < |r.involved|
      ensures r.involved[i] != t ==> r.involved[i] in c.involved && ListOf(r, r.involved[i]) == ListOf(c, r.involved[i])
      ensures r.involved[i] == t && t in c.involved ==> ListOf(r, t) == ListOf(c, t) + rest
    {
      ListOfAt(r, i);
      if t in c.involved || rest == [] {
        var j := if i < p then i else i + 1;
        assert r.involved[i] == c.involved[j] && j != p;
        ListOfAt(c, j);
        if t in c.involved {
          var q := Position(c.involved, t);
          assert r.cached[i] == c.cached[q := c.cached[q] + rest][j];
          if r.involved[i] == t {
            PositionOf(c.involved, j);
          } else {
            assert j != q;
          }
        }
      } else if i != p {
        assert r.involved[i] == c.involved[i];
        ListOfAt(c, i);
      }
    }
    if t !in c.involved && rest != [] {
      assert r.involved[p] == t;
      ListOfAt(r, p);
      assert [] + rest == rest;
    } else if t in c.involved {
      var q := Position(c.involved, t);
      assert r.involved[if q < p then q else q - 1] == t;
    }
  }

  /** What `_remap_dqubit(rmp)` with target `t` does to the commands: those
   *  between the first and last cached command of `rmp` act on `t` and no
   *  longer on `rmp`; every other command is untouched. */
  lemma RemapArena(c: Cache, rmp: QubitId, t: QubitId)
    requires Valid(c) && rmp in c.involved && t != rmp
    ensures var r := Remap(c, rmp, Some(t));
      && |r.arena| == |c.arena|
      && (forall k :: k in Interior(ListOf(c, rmp)) ==>
            k < |c.arena| && t in r.arena[k].qubits && rmp !in r.arena[k].qubits)
      && (forall k :: k in Interior(ListOf(c, rmp)) ==>
            k < |c.arena| && r.arena[k] == c.arena[k].(qubits := Relabel(c.arena[k].qubits, rmp, t)))
      && (forall k :: 0 <= k < |c.arena| && k !in Interior(ListOf(c, rmp)) ==> r.arena[k] == c.arena[k])
  {
    var p := Position(c.involved, rmp);
    var rest := Interior(c.cached[p]);
    forall k | k in rest ensures Touches(c.arena, rmp, k) {
      assert k in c.cached[p];
    }
  }

  // ---------------------------------------------------------------------------
  // _check_and_send

  /** `_check_and_send` remaps only entries whose first cached command is a
   *  dirty allocation and whose last is a deallocation: when no such entry
   *  from `i` on gets a target, the cache is left exactly as it was. */
  lemma {:induction false} SweepWithoutRemap(c: Cache, choose: Chooser, i: nat)
    requires Valid(c) && NoSelfTarget(choose)
    requires forall m :: i <= m < |c.involved| && RemapDue(c, m) ==> choose(c.involved[m]) == None
    ensures Sweep(c, choose, i) == c
    decreases |c.involved| - i
  {
    if i < |c.involved| {
      assert Step(c, choose, i) == c;
      SweepWithoutRemap(c, choose, i + 1);
    }
  }

  /** With the chooser the source ships (always None), `_check_and_send`
   *  leaves the cache exactly as it found it. */
  lemma SweepUnderStub(c: Cache, choose: Chooser)
    requires Valid(c) && forall x :: choose(x) == None
    ensures Sweep(c, choose, 0) == c
  {
    forall m | 0 <= m < |c.involved| ensures choose(c.involved[m]) == None {
      var x := c.involved[m];
      assert choose(x) == None;
    }
    SweepWithoutRemap(c, choose, 0);
  }

  // ---------------------------------------------------------------------------
  // receive

  /** A command that is not a flush, acts on no cached qubit and is not a
   *  dirty allocation is sent on at once, and the cache is unchanged. */
  lemma ReceiveForwardsUninvolved(e: Engine, cmd: Command, choose: Chooser)
    requires Valid(e.cache) && NoSelfTarget(choose)
    requires !cmd.gate.FlushGate? && !InvolvedIn(e.cache.involved, cmd) && !IsDirtyAlloc(cmd)
    ensures ReceiveOne(e, cmd, choose) == Engine(e.cache, e.sent + [cmd])
  {
  }

  /** Any other non-flush command is cached and nothing is sent on, whatever
   *  the chooser does: it takes the next arena entry, its index ends the list
   *  of every qubit it acts on, and `_check_and_send` then runs on that cache. */
  lemma ReceiveCachesSilently(e: Engine, cmd: Command, choose: Chooser)
    requires Valid(e.cache) && NoSelfTarget(choose)
    requires !cmd.gate.FlushGate? && (InvolvedIn(e.cache.involved, cmd) || IsDirtyAlloc(cmd))
    ensures ReceiveOne(e, cmd, choose).sent == e.sent
    ensures |ReceiveOne(e, cmd, choose).cache.arena| == |e.cache.arena| + 1
    ensures Valid(Cached(e.cache, cmd)) && Cached(e.cache, cmd).arena == e.cache.arena + [cmd]
    ensures forall x :: x in cmd.qubits ==>
      var l := ListOf(Cached(e.cache, cmd), x);
      l != [] && l[|l| - 1] == |e.cache.arena|
    ensures ReceiveOne(e, cmd, choose).cache == Sweep(Cached(e.cache, cmd), choose, 0)
  {
    CachedValid(e.cache, cmd);
    CachedEffect(e.cache, cmd);
    var r := Cached(e.cache, cmd);
    forall x | x in cmd.qubits
      ensures ListOf(r, x) != [] && ListOf(r, x)[|ListOf(r, x)| - 1] == |e.cache.arena|
    {
      ListOfAt(r, Position(r.involved, x));
    }
  }

  /** With the shipped chooser a cached command sits at the end of the list
   *  of every qubit it acts on. */
  lemma ReceiveUnderStub(e: Engine, cmd: Command, choose: Chooser)
    requires Valid(e.cache) && forall x :: choose(x) == None
    requires !cmd.gate.FlushGate? && (InvolvedIn(e.cache.involved, cmd) || IsDirtyAlloc(cmd))
    ensures ReceiveOne(e, cmd, choose) == Engine(Cached(e.cache, cmd), e.sent)
    ensures forall x :: x in cmd.qubits ==> x in ReceiveOne(e, cmd, choose).cache.involved
    ensures |ReceiveOne(e, cmd, choose).cache.arena| == |e.cache.arena| + 1
    ensures ReceiveOne(e, cmd, choose).cache.arena[|e.cache.arena|] == cmd
    ensures forall x :: x in cmd.qubits ==>
      var l := ListOf(ReceiveOne(e, cmd, choose).cache, x);
      l != [] && l[|l| - 1] == |e.cache.arena|
  {
    CachedValid(e.cache, cmd);
    SweepUnderStub(Cached(e.cache, cmd), choose);
    CachedEffect(e.cache, cmd);
    var r := Cached(e.cache, cmd);
    forall x | x in cmd.qubits
      ensures x in r.involved
      ensures ListOf(r, x) != [] && ListOf(r, x)[|ListOf(r, x)| - 1] == |e.cache.arena|
    {
      var i := Position(r.involved, x);
      ListOfAt(r, i);
    }
  }

  /** A non-flush command is either sent on at once with the cache unchanged,
   *  or nothing is sent and the command takes one new arena entry, the arena
   *  changing only in qubit IDs. */
  lemma ReceiveKeepsEveryCommand(e: Engine, cmd: Command, choose: Chooser)
    requires Valid(e.cache) && NoSelfTarget(choose) && !cmd.gate.FlushGate?
    ensures var r := ReceiveOne(e, cmd, choose);
      || (r.sent == e.sent + [cmd] && r.cache == e.cache)
      || (r.sent == e.sent && SameOps(e.cache.arena + [cmd], r.cache.arena))
  {
    if InvolvedIn(e.cache.involved, cmd) || IsDirtyAlloc(cmd) {
      CachedValid(e.cache, cmd);
      var c1 := Cached(e.cache, cmd);
      var r := Sweep(c1, choose, 0);
      assert SameOps(c1.arena, r.arena);
    }
  }

  // ---------------------------------------------------------------------------
  // The naive flush

  /** The number of cached entries over all lists. */
  function TotalLength(lists: seq<seq<nat>>): nat
  {
    if lists == [] then 0 else TotalLength(lists[..|lists| - 1]) + |lists[|lists| - 1]|
  }

  lemma {:induction false} TotalLengthPrefix(lists: seq<seq<nat>>, i: nat, j: nat)
    requires i < j <= |lists|
    ensures TotalLength(lists[..i]) + |lists[i]| <= TotalLength(lists[..j])
    decreases j
  {
    assert lists[..j][..j - 1] == lists[..j - 1];
    if i < j - 1 {
      TotalLengthPrefix(lists, i, j - 1);
    } else {
      assert lists[..j][j - 1] == lists[i];
    }
  }

  /** A flush sends entry `j` of list `i` at position (entries of the lists
   *  before `i`) + `j`: list by list, each list in its own order. */
  lemma {:induction false} GatherAt(arena: seq<Command>, lists: seq<seq<nat>>, i: nat, j: nat)
    requires InArena(arena, lists) && i < |lists| && j < |lists[i]|
    ensures |Gather(arena, lists)| == TotalLength(lists)
    ensures TotalLength(lists[..i]) + j < |Gather(arena, lists)|
    ensures Gather(arena, lists)[TotalLength(lists[..i]) + j] == arena[lists[i][j]]
  {
    GatherLength(arena, lists);
    var n := |lists|;
    var init := lists[..n - 1];
    assert lists[..i] == init[..i];
    if i < n - 1 {
      GatherAt(arena, init, i, j);
      TotalLengthPrefix(lists, i, n - 1);
    } else {
      assert init == lists[..i];
      GatherLength(arena, init);
    }
  }

  lemma {:induction false} GatherLength(arena: seq<Command>, lists: seq<seq<nat>>)
    requires InArena(arena, lists)
    ensures |Gather(arena, lists)| == TotalLength(lists)
  {
    if lists != [] {
      GatherLength(arena, lists[..|lists| - 1]);
    }
  }

  lemma TwoOccurrences<T>(s: seq<T>, a: nat, b: nat)
    requires a < b < |s| && s[a] == s[b]
    ensures multiset(s)[s[a]] >= 2
  {
    assert s == s[..b] + s[b..];
    assert s[..b][a] == s[a];
    assert s[b..][0] == s[a];
    assert multiset(s) == multiset(s[..b]) + multiset(s[b..]);
  }

  /** A command cached for two qubits is sent twice by a flush. */
  lemma SharedCommandSentTwice(arena: seq<Command>, lists: seq<seq<nat>>, i1: nat, j1: nat, i2: nat, j2: nat)
    requires InArena(arena, lists)
    requires i1 < i2 < |lists| && j1 < |lists[i1]| && j2 < |lists[i2]| && lists[i1][j1] == lists[i2][j2]
    ensures multiset(Gather(arena, lists))[arena[lists[i1][j1]]] >= 2
  {
    GatherAt(arena, lists, i1, j1);
    GatherAt(arena, lists, i2, j2);
    TotalLengthPrefix(lists, i1, i2);
    TwoOccurrences(Gather(arena, lists), TotalLength(lists[..i1]) + j1, TotalLength(lists[..i2]) + j2);
  }

  /** A flush keeps the cache and sends one command per cached entry; the
   *  flush command itself is not sent on. */
  lemma ReceiveFlush(e: Engine, cmd: Command, choose: Chooser)
    requires Valid(e.cache) && NoSelfTarget(choose) && cmd.gate.FlushGate?
    ensures ReceiveOne(e, cmd, choose).cache == e.cache
    ensures |ReceiveOne(e, cmd, choose).sent| == |e.sent| + TotalLength(e.cache.cached)
  {
    ValidInArena(e.cache);
    GatherLength(e.cache.arena, e.cache.cached);
  }

  /** Entry `j` of list `i` is sent by a flush at position (entries of the
   *  lists before `i`) + `j` after what was sent before. */
  lemma FlushOrder(e: Engine, cmd: Command, choose: Chooser, i: nat, j: nat)
    requires Valid(e.cache) && NoSelfTarget(choose) && cmd.gate.FlushGate?
    requires i < |e.cache.cached| && j < |e.cache.cached[i]|
    ensures |e.sent| + TotalLength(e.cache.cached[..i]) + j < |ReceiveOne(e, cmd, choose).sent|
    ensures e.cache.cached[i][j] < |e.cache.arena|
    ensures ReceiveOne(e, cmd, choose).sent[|e.sent| + TotalLength(e.cache.cached[..i]) + j]
      == e.cache.arena[e.cache.cached[i][j]]
  {
    ValidInArena(e.cache);
    GatherAt(e.cache.arena, e.cache.cached, i, j);
    var g := Gather(e.cache.arena, e.cache.cached);
    assert ReceiveOne(e, cmd, choose).sent == e.sent + g;
  }

  /** Two flushes in a row send the cache twice: the flush does not empty it. */
  lemma FlushTwiceSendsTwice(e: Engine, f: Command, choose: Chooser)
    requires Valid(e.cache) && NoSelfTarget(choose) && f.gate.FlushGate?
    ensures InArena(e.cache.arena, e.cache.cached)
    ensures ReceiveAll(e, [f, f], choose).sent
      == e.sent + Gather(e.cache.arena, e.cache.cached) + Gather(e.cache.arena, e.cache.cached)
  {
    ValidInArena(e.cache);
    var e1 := ReceiveOne(e, f, choose);
    assert [f][..0] == [];
    assert ReceiveAll(e, [f], choose) == e1;
    assert [f, f][..1] == [f];
    assert ReceiveAll(e, [f, f], choose) == ReceiveOne(e1, f, choose);
  }

  // ---------------------------------------------------------------------------
  // _is_dirty_alloc

  /** A dirty allocation annotated by a carrier section: as written,
   *  `_is_dirty_alloc` no longer recognises it. */
  lemma AnnotatedAllocationMissed()
    ensures var plain := Command(AllocateQubitGate, [1], [NewDirtyQubitTag([])]);
      var annotated := CarrierIndicators.Annotate(plain, {0});
      && IsDirtyAllocAsWritten(plain) && IsDirtyAlloc(plain)
      && !IsDirtyAllocAsWritten(annotated) && IsDirtyAlloc(annotated)
  {
    assert Elements([]) == {};
    var plain := Command(AllocateQubitGate, [1], [NewDirtyQubitTag([])]);
    assert plain.tags[0] == DirtyQubitTag({});
    var annotated := CarrierIndicators.Annotate(plain, {0});
    assert CarrierIndicators.IsDirtyAllocation(plain);
    assert annotated.tags[0] == DirtyQubitTag({0});
    assert annotated.tags == [DirtyQubitTag({0})];
  }

  /** The intended check is not disturbed by carrier annotation. */
  lemma AnnotationKeepsDirtyAlloc(cmd: Command, carriers: set<QubitId>)
    ensures IsDirtyAlloc(CarrierIndicators.Annotate(cmd, carriers)) == IsDirtyAlloc(cmd)
  {
    CarrierIndicators.AnnotateKeepsKind(cmd, carriers);
  }

  /** As long as no tag carries carriers, the written and the intended check agree. */
  lemma AsWrittenAgreesWithoutCarriers(cmd: Command)
    requires forall i :: 0 <= i < |cmd.tags| && cmd.tags[i].DirtyQubitTag? ==> cmd.tags[i].carrierIds == {}
    ensures IsDirtyAllocAsWritten(cmd) == IsDirtyAlloc(cmd)
  {
    if CarrierIndicators.HasDirtyTag(cmd.tags) {
      var i :| 0 <= i < |cmd.tags| && cmd.tags[i].DirtyQubitTag?;
      assert cmd.tags[i] == DirtyQubitTag({});
    }
  }
}
