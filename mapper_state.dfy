/**
 * The state of the DirtyQubitMapper of projectq/cengines/_dirtymapper.py as a
 * value, and every step the engine takes on it as a function of that value.
 *
 * Commands are shared by reference in the engine: one command object sits in
 * the list of every qubit it acts on, and rewriting a qubit ID inside it is
 * seen from every list. Here the commands live in an arena (`arena`) and the
 * per-qubit lists (`cached`) hold arena indices, so a rewrite of `arena[k]`
 * is seen from every list that holds `k`.
 */
module MapperState {
  import opened Wrappers
  import opened DirtyQubitTags
  import opened Commands
  import CarrierIndicators

  /** `_find_remap_qubitID`: the remap target chosen for a dirty qubit, if any. */
  type Chooser = QubitId -> Option<QubitId>

  /** A chooser never proposes the dirty qubit itself. */
  ghost predicate NoSelfTarget(choose: Chooser)
  {
    forall x :: choose(x) != Some(x)
  }

  /** `_involved_qubits` and `_cached_cmds`, over the arena of cached commands. */
  datatype Cache = Cache(arena: seq<Command>, involved: seq<QubitId>, cached: seq<seq<nat>>)

  /** The mapper's whole state: its cache and what it has sent on so far. */
  datatype Engine = Engine(cache: Cache, sent: seq<Command>)

  ghost predicate Distinct(s: seq<QubitId>)
  {
    forall i, j :: 0 <= i < j < |s| ==> s[i] != s[j]
  }

  /** Arena entry `k` exists and acts on qubit `id`. */
  ghost predicate Touches(arena: seq<Command>, id: QubitId, k: nat)
  {
    k < |arena| && id in arena[k].qubits
  }

  /** The invariant of the two parallel lists: same length, distinct IDs, no
   *  empty list, and every cached command acts on the qubit whose list holds it. */
  ghost predicate Valid(c: Cache)
  {
    && |c.involved| == |c.cached|
    && Distinct(c.involved)
    && (forall i :: 0 <= i < |c.cached| ==> c.cached[i] != [])
    && (forall i, k :: 0 <= i < |c.cached| && k in c.cached[i] ==> Touches(c.arena, c.involved[i], k))
  }

  /** Only qubit IDs differ between two arenas: same commands, gates and tags. */
  ghost predicate SameOps(a: seq<Command>, b: seq<Command>)
  {
    |a| == |b| && forall k :: 0 <= k < |a| ==> a[k].gate == b[k].gate && a[k].tags == b[k].tags
  }

  /** `list.index(x)`: the first position of `x`. */
  function Position(s: seq<QubitId>, x: QubitId): (p: nat)
    requires x in s
    ensures p < |s| && s[p] == x && x !in s[..p]
  {
    if s[0] == x then 0 else 1 + Position(s[1..], x)
  }

  /** In a list without duplicates the position of an element is where it stands. */
  lemma PositionOf(s: seq<QubitId>, i: nat)
    requires Distinct(s) && i < |s|
    ensures Position(s, s[i]) == i
  {
  }

  /** Appending an element does not move the first position of one already present. */
  lemma {:induction false} PositionAppendKnown(s: seq<QubitId>, x: QubitId, y: QubitId)
    requires y in s
    ensures Position(s + [x], y) == Position(s, y)
  {
    if s[0] != y {
      assert (s + [x])[1..] == s[1..] + [x];
      PositionAppendKnown(s[1..], x, y);
    }
  }

  /** An element appended to a list that lacked it stands at the end. */
  lemma PositionAppendFresh(s: seq<QubitId>, x: QubitId)
    requires x !in s
    ensures Position(s + [x], x) == |s|
  {
  }

  /** `del s[p]`. */
  function RemoveAt<T>(s: seq<T>, p: nat): (r: seq<T>)
    requires p < |s|
    ensures |r| == |s| - 1
    ensures forall i :: 0 <= i < |r| ==> r[i] == s[if i < p then i else i + 1]
  {
    s[..p] + s[p + 1..]
  }

  lemma RemoveAtDistinct(s: seq<QubitId>, p: nat)
    requires Distinct(s) && p < |s|
    ensures Distinct(RemoveAt(s, p))
    ensures forall x :: x in RemoveAt(s, p) <==> x in s && x != s[p]
  {
    var r := RemoveAt(s, p);
    forall x | x in s && x != s[p] ensures x in r {
      var j :| 0 <= j < |s| && s[j] == x;
      assert r[if j < p then j else j - 1] == x;
    }
  }

  /** Python's `l[1:-1]`: everything but the first and the last element. */
  function Interior(l: seq<nat>): (r: seq<nat>)
    ensures forall k :: k in r ==> k in l
    ensures |l| >= 2 ==> l == [l[0]] + r + [l[|l| - 1]]
    ensures |l| < 2 ==> r == []
  {
    if |l| >= 2 then l[1..|l| - 1] else []
  }

  // ---------------------------------------------------------------------------
  // _is_involved, _is_dirty_alloc

  /** `_is_involved`: the command acts on a qubit that has a cached list. */
  predicate InvolvedIn(involved: seq<QubitId>, cmd: Command)
  {
    exists j :: 0 <= j < |cmd.qubits| && cmd.qubits[j] in involved
  }

  /** `_is_dirty_alloc` as written: `DirtyQubitTag() in cmd.tags` compares each
   *  tag with a tag whose carrier set is EMPTY. */
  predicate IsDirtyAllocAsWritten(cmd: Command)
  {
    (DirtyQubitTag({}) in cmd.tags && cmd.gate.AllocateQubitGate?) || cmd.gate.AllocateDirtyQubitGate?
  }

  /** `_is_dirty_alloc` as intended, and as the model uses it: some tag is a
   *  DirtyQubitTag, whatever its carriers. Python's `and` binds tighter than `or`. */
  predicate IsDirtyAlloc(cmd: Command)
  {
    (CarrierIndicators.HasDirtyTag(cmd.tags) && cmd.gate.AllocateQubitGate?) || cmd.gate.AllocateDirtyQubitGate?
  }

  // ---------------------------------------------------------------------------
  // _cache_cmd

  /** One iteration of `_cache_cmd`'s loop: make sure `x` has a list, then
   *  append arena index `k` to it. */
  function AddCmd(c: Cache, x: QubitId, k: nat): (r: Cache)
    requires |c.involved| == |c.cached|
    ensures |r.involved| == |r.cached|
    ensures r.arena == c.arena && x in r.involved
  {
    if x in c.involved then
      var p := Position(c.involved, x);
      c.(cached := c.cached[p := c.cached[p] + [k]])
    else
      c.(involved := c.involved + [x], cached := c.cached + [[k]])
  }

  /** `_cache_cmd`'s loop over the qubit IDs `ids` of the command at arena index `k`. */
  function CacheAll(c: Cache, ids: seq<QubitId>, k: nat): (r: Cache)
    requires |c.involved| == |c.cached|
    ensures |r.involved| == |r.cached|
    ensures r.arena == c.arena
    ensures forall x :: x in ids ==> x in r.involved
    decreases |ids|
  {
    if ids == [] then c
    else AddCmd(CacheAll(c, ids[..|ids| - 1], k), ids[|ids| - 1], k)
  }

  /** `_cache_cmd(cmd)`: the command gets the next arena index and is appended
   *  to the list of each qubit it acts on. */
  function Cached(c: Cache, cmd: Command): (r: Cache)
    requires |c.involved| == |c.cached|
    ensures |r.involved| == |r.cached|
    ensures r.arena == c.arena + [cmd]
    ensures forall x :: x in cmd.qubits ==> x in r.involved
  {
    CacheAll(c.(arena := c.arena + [cmd]), cmd.qubits, |c.arena|)
  }

  function Repeat(k: nat, n: nat): (r: seq<nat>)
    ensures |r| == n && forall j :: 0 <= j < n ==> r[j] == k
  {
    seq(n, _ => k)
  }

  /** How often `x` occurs in `ids`. */
  function Count(ids: seq<QubitId>, x: QubitId): nat
  {
    multiset(ids)[x]
  }

  /** What `_cache_cmd`'s loop has done once it has handled `ids`: old IDs
   *  keep their place and new ones follow them, in the order they first
   *  occur in `ids`; each list has gained `k` once
   *  per occurrence of its ID in `ids`. */
  ghost predicate CacheShape(c: Cache, ids: seq<QubitId>, k: nat, r: Cache)
    requires |c.involved| == |c.cached| && |r.involved| == |r.cached|
  {
    && r.arena == c.arena
    && Distinct(r.involved)
    && |c.involved| <= |r.involved| && r.involved[..|c.involved|] == c.involved
    && (forall x :: x in r.involved <==> x in c.involved || x in ids)
    && (forall i :: |c.involved| <= i < |r.involved| ==> r.involved[i] in ids)
    && (forall i, j :: |c.involved| <= i < j < |r.involved| ==>
          r.involved[i] in ids && r.involved[j] in ids && Position(ids, r.involved[i]) < Position(ids, r.involved[j]))
    && (forall i :: 0 <= i < |r.involved| ==>
          r.cached[i] == (if i < |c.involved| then c.cached[i] else []) + Repeat(k, Count(ids, r.involved[i])))
  }

  /** One more ID handled, when it already has a list. */
  lemma AddCmdKnown(c: Cache, ids: seq<QubitId>, x: QubitId, k: nat, m: Cache)
    requires |c.involved| == |c.cached| && |m.involved| == |m.cached|
    requires CacheShape(c, ids, k, m) && x in m.involved
    ensures CacheShape(c, ids + [x], k, AddCmd(m, x, k))
  {
    var r := AddCmd(m, x, k);
    var ids' := ids + [x];
    var p := Position(m.involved, x);
    forall i, j | |c.involved| <= i < j < |r.involved|
      ensures Position(ids', r.involved[i]) < Position(ids', r.involved[j])
    {
      PositionAppendKnown(ids, x, r.involved[i]);
      PositionAppendKnown(ids, x, r.involved[j]);
    }
    forall i | 0 <= i < |r.involved|
      ensures r.cached[i] == (if i < |c.involved| then c.cached[i] else []) + Repeat(k, Count(ids', r.involved[i]))
    {
      if i == p {
        assert Count(ids', x) == Count(ids, x) + 1;
        assert Repeat(k, Count(ids, x) + 1) == Repeat(k, Count(ids, x)) + [k];
      } else {
        assert m.involved[i] != x;
        assert Count(ids', m.involved[i]) == Count(ids, m.involved[i]);
      }
    }
  }

  /** One more ID handled, when it gets a fresh list at the end. */
  lemma AddCmdFresh(c: Cache, ids: seq<QubitId>, x: QubitId, k: nat, m: Cache)
    requires |c.involved| == |c.cached| && |m.involved| == |m.cached|
    requires CacheShape(c, ids, k, m) && x !in m.involved
    ensures CacheShape(c, ids + [x], k, AddCmd(m, x, k))
  {
    var r := AddCmd(m, x, k);
    var ids' := ids + [x];
    var n := |m.involved|;
    assert x !in ids;
    assert Count(ids', x) == 1;
    assert Repeat(k, 1) == [k];
    forall i | 0 <= i < n
      ensures r.cached[i] == (if i < |c.involved| then c.cached[i] else []) + Repeat(k, Count(ids', r.involved[i]))
    {
      assert m.involved[i] != x;
      assert Count(ids', m.involved[i]) == Count(ids, m.involved[i]);
    }
    assert r.involved[..|c.involved|] == m.involved[..|c.involved|];
    FreshOrder(m.involved, |c.involved|, ids, x);
  }

  /** Appending a fresh ID to both the entries and the handled IDs keeps the
   *  new entries in first-occurrence order. */
  lemma FreshOrder(s: seq<QubitId>, n0: nat, ids: seq<QubitId>, x: QubitId)
    requires n0 <= |s| && x !in ids
    requires forall i :: n0 <= i < |s| ==> s[i] in ids
    requires forall i, j :: n0 <= i < j < |s| ==>
      s[i] in ids && s[j] in ids && Position(ids, s[i]) < Position(ids, s[j])
    ensures forall i, j :: n0 <= i < j < |s + [x]| ==>
      (s + [x])[i] in ids + [x] && (s + [x])[j] in ids + [x] &&
      Position(ids + [x], (s + [x])[i]) < Position(ids + [x], (s + [x])[j])
  {
    var s', ids' := s + [x], ids + [x];
    PositionAppendFresh(ids, x);
    forall i, j | n0 <= i < j < |s'|
      ensures s'[i] in ids' && s'[j] in ids' && Position(ids', s'[i]) < Position(ids', s'[j])
    {
      assert s'[i] == s[i] && s[i] in ids;
      PositionAppendKnown(ids, x, s[i]);
      if j < |s| {
        assert s'[j] == s[j];
        PositionAppendKnown(ids, x, s[j]);
      }
    }
  }

  /** What `_cache_cmd`'s loop does, for any list of IDs. */
  lemma {:induction false} CacheAllEffect(c: Cache, ids: seq<QubitId>, k: nat)
    requires |c.involved| == |c.cached| && Distinct(c.involved)
    ensures CacheShape(c, ids, k, CacheAll(c, ids, k))
  {
    if ids == [] {
      assert c.involved[..|c.involved|] == c.involved;
    } else {
      var init, x := ids[..|ids| - 1], ids[|ids| - 1];
      assert ids == init + [x];
      CacheAllEffect(c, init, k);
      var m := CacheAll(c, init, k);
      if x in m.involved {
        AddCmdKnown(c, init, x, k, m);
      } else {
        AddCmdFresh(c, init, x, k, m);
      }
    }
  }

  /** Caching a command keeps the invariant, and appends the command to the
   *  end of the list of each of its qubits. */
  lemma CachedValid(c: Cache, cmd: Command)
    requires Valid(c)
    ensures Valid(Cached(c, cmd))
    ensures Cached(c, cmd).arena == c.arena + [cmd]
    ensures SameOps(c.arena + [cmd], Cached(c, cmd).arena)
  {
    var c1 := c.(arena := c.arena + [cmd]);
    var k := |c.arena|;
    CacheAllEffect(c1, cmd.qubits, k);
    var r := Cached(c, cmd);
    forall i | 0 <= i < |r.cached|
      ensures r.cached[i] != []
      ensures forall j :: j in r.cached[i] ==> Touches(r.arena, r.involved[i], j)
    {
      var n := Count(cmd.qubits, r.involved[i]);
      if i < |c.involved| {
        assert r.involved[i] == c.involved[i];
        assert c.cached[i] != [];
        forall j | j in r.cached[i] ensures Touches(r.arena, r.involved[i], j) {
          if j !in c.cached[i] {
            assert j in Repeat(k, n);
            assert r.involved[i] in cmd.qubits;
          }
        }
      } else {
        assert r.involved[i] in cmd.qubits;
        assert n > 0;
        assert Repeat(k, n)[0] == k;
      }
    }
  }

  // ---------------------------------------------------------------------------
  // _remap_dqubit

  /** The arena after every command at an index of `ks` has its references to
   *  `from` rewritten to `to` (`qubit.id = new_ID` on the shared objects). */
  function RelabelCommands(arena: seq<Command>, ks: seq<nat>, from: QubitId, to: QubitId): (r: seq<Command>)
    ensures |r| == |arena|
    ensures forall k :: 0 <= k < |arena| ==> r[k].gate == arena[k].gate && r[k].tags == arena[k].tags
    ensures forall k :: 0 <= k < |arena| && k !in ks ==> r[k] == arena[k]
  {
    seq(|arena|, i requires 0 <= i < |arena| => if i in ks then RelabelCommand(arena[i], from, to) else arena[i])
  }

  /** `_remap_dqubit(rmp)` with the chooser's answer `choice`: drop the first
   *  and last cached command of `rmp`, rewrite `rmp` to the target in the
   *  rest, and relabel the entry (deleting it if nothing is left) when the
   *  target has no list, or append the rest to the target's list and delete
   *  the entry of `rmp` when it has one. */
  function Remap(c: Cache, rmp: QubitId, choice: Option<QubitId>): (r: Cache)
    requires |c.involved| == |c.cached| && rmp in c.involved
    ensures |r.involved| == |r.cached| && |r.involved| <= |c.involved|
  {
    match choice
    case None => c
    case Some(t) =>
      var p := Position(c.involved, rmp);
      var rest := Interior(c.cached[p]);
      var arena := RelabelCommands(c.arena, rest, rmp, t);
      if t !in c.involved then
        if rest == [] then Cache(arena, RemoveAt(c.involved, p), RemoveAt(c.cached, p))
        else Cache(arena, c.involved[p := t], c.cached[p := rest])
      else
        var q := Position(c.involved, t);
        Cache(arena, RemoveAt(c.involved, p), RemoveAt(c.cached[q := c.cached[q] + rest], p))
  }

  /** The rewrite keeps every reference except those to `from`, and the
   *  rewritten commands act on `to`. */
  lemma RelabelCommandsTouches(arena: seq<Command>, ks: seq<nat>, from: QubitId, to: QubitId)
    ensures SameOps(arena, RelabelCommands(arena, ks, from, to))
    ensures forall x, k :: x != from && Touches(arena, x, k) ==> Touches(RelabelCommands(arena, ks, from, to), x, k)
    ensures forall k :: k in ks && Touches(arena, from, k) ==> Touches(RelabelCommands(arena, ks, from, to), to, k)
  {
  }

  /** Remapping keeps the invariant and changes nothing but qubit IDs in the arena. */
  lemma RemapValid(c: Cache, rmp: QubitId, choice: Option<QubitId>)
    requires Valid(c) && rmp in c.involved && choice != Some(rmp)
    ensures Valid(Remap(c, rmp, choice))
    ensures SameOps(c.arena, Remap(c, rmp, choice).arena)
  {
    if choice.Some? {
      var t := choice.value;
      var p := Position(c.involved, rmp);
      var rest := Interior(c.cached[p]);
      var arena := RelabelCommands(c.arena, rest, rmp, t);
      RelabelCommandsTouches(c.arena, rest, rmp, t);
      var r := Remap(c, rmp, choice);
      assert forall k :: k in rest ==> Touches(arena, t, k);
      // every list other than that of rmp still touches its own qubit
      assert forall j, k :: 0 <= j < |c.cached| && j != p && k in c.cached[j] ==> Touches(arena, c.involved[j], k);
      if t !in c.involved {
        if rest == [] {
          RemoveAtDistinct(c.involved, p);
        } else {
          forall i, j | 0 <= i < j < |r.involved| ensures r.involved[i] != r.involved[j] {
            assert i != p ==> c.involved[i] != t;
            assert j != p ==> c.involved[j] != t;
          }
        }
      } else {
        var q := Position(c.involved, t);
        var cached2 := c.cached[q := c.cached[q] + rest];
        RemoveAtDistinct(c.involved, p);
        forall i, k | 0 <= i < |r.cached| && k in r.cached[i]
          ensures Touches(r.arena, r.involved[i], k)
        {
          var j := if i < p then i else i + 1;
          assert r.cached[i] == cached2[j] && r.involved[i] == c.involved[j];
          if j == q && k !in c.cached[q] {
            assert k in rest;
          }
        }
      }
    }
  }

  // ---------------------------------------------------------------------------
  // _check_and_send

  /** The first cached command of entry `i` is a dirty allocation (asserted
   *  by `_remap_dqubit`). */
  predicate StartsWithDirtyAlloc(c: Cache, i: nat)
    requires Valid(c) && i < |c.involved|
  {
    var l := c.cached[i];
    assert l[0] in l;
    IsDirtyAlloc(c.arena[l[0]])
  }

  /** The condition of `_check_and_send` for entry `i`: its first cached
   *  command is a dirty allocation and its last a deallocation. */
  predicate RemapDue(c: Cache, i: nat)
    requires Valid(c) && i < |c.involved|
  {
    var l := c.cached[i];
    assert l[|l| - 1] in l;
    StartsWithDirtyAlloc(c, i) && c.arena[l[|l| - 1]].gate.DeallocateQubitGate?
  }

  /** One iteration of `_check_and_send`'s loop, at entry `i` of the live lists. */
  function Step(c: Cache, choose: Chooser, i: nat): (r: Cache)
    requires Valid(c) && NoSelfTarget(choose) && i < |c.involved|
    ensures Valid(r) && |r.involved| <= |c.involved| && SameOps(c.arena, r.arena)
  {
    if RemapDue(c, i) then
      var rmp := c.involved[i];
      RemapValid(c, rmp, choose(rmp));
      Remap(c, rmp, choose(rmp))
    else c
  }

  /** `_check_and_send` from entry `i` on. Python's `enumerate` reads the live
   *  list, so after an entry is deleted the entry that moves into its place is
   *  skipped. */
  function Sweep(c: Cache, choose: Chooser, i: nat): (r: Cache)
    requires Valid(c) && NoSelfTarget(choose)
    ensures Valid(r) && SameOps(c.arena, r.arena)
    decreases |c.involved| - i
  {
    if i >= |c.involved| then c
    else Sweep(Step(c, choose, i), choose, i + 1)
  }

  // ---------------------------------------------------------------------------
  // receive

  /** Every cached index names an arena entry. */
  ghost predicate InArena(arena: seq<Command>, lists: seq<seq<nat>>)
  {
    forall i, j :: 0 <= i < |lists| && 0 <= j < |lists[i]| ==> lists[i][j] < |arena|
  }

  lemma ValidInArena(c: Cache)
    requires Valid(c)
    ensures InArena(c.arena, c.cached)
  {
    forall i, j | 0 <= i < |c.cached| && 0 <= j < |c.cached[i]| ensures c.cached[i][j] < |c.arena| {
      assert c.cached[i][j] in c.cached[i];
    }
  }

  /** The commands of one list, in list order. */
  function Row(arena: seq<Command>, l: seq<nat>): (r: seq<Command>)
    requires forall j :: 0 <= j < |l| ==> l[j] < |arena|
    ensures |r| == |l|
  {
    seq(|l|, j requires 0 <= j < |l| => arena[l[j]])
  }

  /** The naive flush: every list in order, each in its own order. */
  function Gather(arena: seq<Command>, lists: seq<seq<nat>>): seq<Command>
    requires InArena(arena, lists)
  {
    if lists == [] then []
    else Gather(arena, lists[..|lists| - 1]) + Row(arena, lists[|lists| - 1])
  }

  /** One command arriving at `receive`. */
  function ReceiveOne(e: Engine, cmd: Command, choose: Chooser): (r: Engine)
    requires Valid(e.cache) && NoSelfTarget(choose)
    ensures Valid(r.cache)
  {
    if cmd.gate.FlushGate? then
      ValidInArena(e.cache);
      Engine(e.cache, e.sent + Gather(e.cache.arena, e.cache.cached))
    else if InvolvedIn(e.cache.involved, cmd) || IsDirtyAlloc(cmd) then
      CachedValid(e.cache, cmd);
      Engine(Sweep(Cached(e.cache, cmd), choose, 0), e.sent)
    else
      Engine(e.cache, e.sent + [cmd])
  }

  /** `receive(command_list)`. */
  function ReceiveAll(e: Engine, cmds: seq<Command>, choose: Chooser): (r: Engine)
    requires Valid(e.cache) && NoSelfTarget(choose)
    ensures Valid(r.cache)
    decreases |cmds|
  {
    if cmds == [] then e
    else ReceiveOne(ReceiveAll(e, cmds[..|cmds| - 1], choose), cmds[|cmds| - 1], choose)
  }
}
