/** The allocator of 16-bit packet identifiers: a counter, a stack of released ids, a bitset of used ones. */
module PacketIdPools {

  /** The bitset has the indices 0..65534, so 65535 can neither be given out nor released. */
  const POOL_SIZE := 65535

  datatype Pool = Pool(next: nat, free: seq<nat>, used: set<nat>) {

    predicate CanGet() {
      free != [] || next < POOL_SIZE
    }

    function Flip(id: nat): set<nat> {
      if id in used then used - {id} else used + {id}
    }

    /** The last id released, or else a new one. */
    function Get(): (r: (nat, Pool))
      requires CanGet()
    {
      if free != [] then
        var id := free[|free| - 1];
        (id, Pool(next, free[..|free| - 1], Flip(id)))
      else
        (next, Pool(next + 1, free, Flip(next)))
    }

    function Release(id: nat): Pool {
      if id == 0 || id !in used then this
      else Pool(next, free + [id], used - {id})
    }

    /** The ids below the counter split exactly into used and free ones, no id twice on the stack. */
    ghost predicate Valid() {
      && 1 <= next <= POOL_SIZE
      && (forall i, j :: 0 <= i < j < |free| ==> free[i] != free[j])
      && (forall id :: id in free ==> id !in used)
      && (forall id :: 1 <= id < next <==> id in used || id in free)
    }
  }

  const NewPool := Pool(1, [], {})

  class PacketIdPool {
    var nextId: nat
    var availableIds: seq<nat>
    const usedIds: array<bool>

    function State(): Pool
      reads this, usedIds
    {
      Pool(nextId, availableIds, set id | 0 <= id < usedIds.Length && usedIds[id])
    }

    ghost predicate Valid()
      reads this, usedIds
    {
      usedIds.Length == POOL_SIZE && State().Valid()
    }

    constructor ()
      ensures Valid() && fresh(usedIds) && State() == NewPool
    {
      nextId := 1;
      availableIds := [];
      usedIds := new bool[POOL_SIZE](_ => false);
    }

    method GetId() returns (id: nat)
      requires Valid() && State().CanGet()
      modifies this`nextId, this`availableIds, usedIds
      ensures Valid() && (id, State()) == old(State()).Get()
      ensures id !in old(State()).used && 1 <= id < POOL_SIZE
    {
      ghost var before := State();
      GetKeepsValid(before);
      if availableIds != [] {
        id := availableIds[|availableIds| - 1];
        assert id in before.free;
        availableIds := availableIds[..|availableIds| - 1];
        usedIds[id] := !usedIds[id];
      } else {
        id := nextId;
        usedIds[nextId] := !usedIds[nextId];
        nextId := nextId + 1;
      }
      assert State().used == before.Flip(id);
    }

    method ReleaseId(id: nat)
      requires Valid() && id < POOL_SIZE
      modifies this`availableIds, usedIds
      ensures Valid() && State() == old(State()).Release(id)
    {
      ghost var before := State();
      ReleaseKeepsValid(before, id);
      if id == 0 {
        return;
      }
      if !usedIds[id] {
        return;
      }
      availableIds := availableIds + [id];
      usedIds[id] := false;
    }
  }

  // ---------------------------------------------------------------- one call

  lemma GetKeepsValid(p: Pool)
    requires p.Valid() && p.CanGet()
    ensures var (id, p') := p.Get();
            && p'.Valid() && 1 <= id < POOL_SIZE
            && id !in p.used && p'.used == p.used + {id}
  {
    if p.free != [] {
      var last := p.free[|p.free| - 1];
      assert last in p.free;
      var rest := p.free[..|p.free| - 1];
      assert p.free == rest + [last];
    }
  }

  lemma ReleaseKeepsValid(p: Pool, id: nat)
    requires p.Valid()
    ensures p.Release(id).Valid() && p.Release(id).used == p.used - {id}
  {
    assert 0 !in p.used;
  }

  /** Releasing is idempotent, and a released id is the next one given out. */
  lemma ReleaseTwiceThenGet(p: Pool, id: nat)
    requires p.Valid()
    ensures p.Release(id).Release(id) == p.Release(id)
    ensures id in p.used ==> p.Release(id).CanGet() && p.Release(id).Get() == (id, p)
  {
    if id in p.used {
      assert id != 0;
      assert (p.free + [id])[..|p.free|] == p.free;
      assert p.used - {id} + {id} == p.used;
    }
  }

  lemma {:induction false} DistinctCount(s: seq<nat>, ids: set<nat>)
    requires forall i, j :: 0 <= i < j < |s| ==> s[i] != s[j]
    requires forall id :: id in ids <==> id in s
    ensures |ids| == |s|
  {
    if s != [] {
      var last := s[|s| - 1];
      var rest := s[..|s| - 1];
      assert s == rest + [last];
      DistinctCount(rest, ids - {last});
    } else {
      assert ids == {};
    }
  }

  lemma {:induction false} CountBelow(n: nat, ids: set<nat>)
    requires n >= 1 && forall id :: id in ids <==> 1 <= id < n
    ensures |ids| == n - 1
  {
    if n == 1 {
      assert ids == {};
    } else {
      CountBelow(n - 1, ids - {n - 1});
    }
  }

  lemma PoolCount(p: Pool)
    requires p.Valid()
    ensures |p.used| + |p.free| == p.next - 1
  {
    var stacked := set id | id in p.free;
    DistinctCount(p.free, stacked);
    CountBelow(p.next, p.used + stacked);
    assert p.used !! stacked;
  }

  /** The pool is exhausted exactly when all of the ids 1..65534 are held. */
  lemma ExhaustedExactly(p: Pool)
    requires p.Valid()
    ensures p.CanGet() <==> |p.used| < POOL_SIZE - 1
  {
    PoolCount(p);
  }

  // ---------------------------------------------------------------- whole runs

  datatype Op = GetId | ReleaseId(id: nat)

  /** The pool after a run; a get on an exhausted pool ends the program, so it changes nothing here. */
  function After(ops: seq<Op>): Pool {
    if ops == [] then NewPool
    else
      var before := After(ops[..|ops| - 1]);
      match ops[|ops| - 1]
      case GetId => if before.CanGet() then before.Get().1 else before
      case ReleaseId(id) => before.Release(id)
  }

  /** The largest number of ids ever held at once. */
  function Peak(ops: seq<Op>): nat
  {
    if ops == [] then 0
    else if |After(ops).used| > Peak(ops[..|ops| - 1]) then |After(ops).used|
    else Peak(ops[..|ops| - 1])
  }

  /** Over any run of gets and releases, in any order and of any ids: used and free ids split the ids
      below the counter, and the counter has advanced exactly as far as the most ids ever held at once. */
  lemma {:induction false} CounterIsPeak(ops: seq<Op>)
    ensures After(ops).Valid() && After(ops).next - 1 == Peak(ops)
  {
    if ops != [] {
      var before, p := After(ops[..|ops| - 1]), After(ops);
      CounterIsPeak(ops[..|ops| - 1]);
      PoolCount(before);
      match ops[|ops| - 1]
      case GetId =>
        if before.CanGet() {
          GetKeepsValid(before);
          PoolCount(p);
        }
      case ReleaseId(id) => ReleaseKeepsValid(before, id); PoolCount(p);
    }
  }
}
