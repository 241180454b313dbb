/**
 The in-flight registry: which agent IDs have an operation running in this process.
 */
module Registry {
  import opened Agents

  class OpRegistry {
    var refs: map<Id, nat>
    ghost var holders: multiset<Id>     // one entry per reference taken and not yet released

    /** The map counts the holders and keeps no zero entry. */
    ghost predicate Valid()
      reads this
    {
      && (forall id :: id in refs <==> id in holders)
      && (forall id | id in refs :: refs[id] == holders[id])
    }

    constructor ()
      ensures Valid() && holders == multiset{}
    {
      refs, holders := map[], multiset{};
    }

    function Count(id: Id): (n: nat)
      requires Valid()
      reads this
      ensures n == holders[id]
    {
      if id in refs then refs[id] else 0
    }

    method Begin(id: Id)
      requires Valid()
      modifies this
      ensures Valid() && holders == old(holders) + multiset{id}
    {
      refs := refs[id := Count(id) + 1];
      holders := holders + multiset{id};
    }

    method TryBegin(id: Id) returns (ok: bool)
      requires Valid()
      modifies this
      ensures Valid() && ok == (id !in old(holders))
      ensures holders == if ok then old(holders) + multiset{id} else old(holders)
      ensures ok ==> holders[id] == 1
    {
      if Count(id) > 0 {
        return false;
      }
      refs := refs[id := 1];
      holders := holders + multiset{id};
      return true;
    }

    /** A release with no outstanding reference is a no-op. */
    method Release(id: Id)
      requires Valid()
      modifies this
      ensures Valid() && holders == old(holders) - multiset{id}
    {
      var n := Count(id);
      if n == 1 {
        refs := refs - {id};
      } else if n > 1 {
        refs := refs[id := n - 1];
      }
      holders := holders - multiset{id};
    }

    method Busy(id: Id) returns (b: bool)
      requires Valid()
      ensures b == (id in holders)
    {
      b := Count(id) > 0;
    }
  }

  // ---------------------------------------------------------------- any sequence of calls

  datatype Call = Begin(id: Id) | TryBegin(id: Id) | Release(id: Id)

  function Apply(h: multiset<Id>, c: Call): multiset<Id> {
    match c
    case Begin(id) => h + multiset{id}
    case TryBegin(id) => if id in h then h else h + multiset{id}
    case Release(id) => h - multiset{id}
  }

  function ApplyAll(h: multiset<Id>, calls: seq<Call>): multiset<Id>
    decreases |calls|
  {
    if calls == [] then h else Apply(ApplyAll(h, calls[..|calls| - 1]), calls[|calls| - 1])
  }

  /** How many nested references to `id` the calls take and have not given back. */
  function Nested(calls: seq<Call>, id: Id): int {
    if calls == [] then 0
    else Nested(calls[..|calls| - 1], id) +
         (match calls[|calls| - 1]
          case Begin(x) => if x == id then 1 else 0
          case TryBegin(_) => 0
          case Release(x) => if x == id then -1 else 0)
  }

  /** Nobody releases a reference to `id` that these calls did not take. */
  ghost predicate OnlyOwnReleases(calls: seq<Call>, id: Id) {
    forall k | 0 <= k <= |calls| :: Nested(calls[..k], id) >= 0
  }

  /**
   A held ID stays held, and every TryBegin on it is refused, for as long as nobody releases
   more than it took: a nested begin and release never frees the outer holder's entry.
   */
  lemma {:induction false} HeldUntilItsOwnRelease(h: multiset<Id>, calls: seq<Call>, id: Id)
    requires id in h && OnlyOwnReleases(calls, id)
    ensures ApplyAll(h, calls)[id] == h[id] + Nested(calls, id) >= h[id]
    decreases |calls|
  {
    assert calls[..|calls|] == calls;
    if calls != [] {
      var n := |calls| - 1;
      var init := calls[..n];
      forall k | 0 <= k <= n ensures Nested(init[..k], id) >= 0 { assert init[..k] == calls[..k]; }
      HeldUntilItsOwnRelease(h, init, id);
    }
  }
}
