/**
  The id allocator of bflib/src/db.rs: `GroupId` and `UnitId` each draw from
  a process-wide `AtomicU64` counter. `new` hands out the counter and bumps
  it (a `fetch_add`, which wraps at 2^64); `update_max`, replayed over every
  id of a loaded save, lifts the counter above that id. The host is single
  threaded, so the relaxed atomics behave as a plain variable; each counter
  is one `IdAllocator` object, threaded explicitly instead of a global.
  Both database generations draw their ids this way; the module also
  describes the ids a run of draws yields, the names derived from them,
  and the ascending order in which the ordered collections hand them out.
*/
module Ids {
  import Decimal

  const U64_MODULUS: nat := 0x1_0000_0000_0000_0000

  /** The counter after `new`: `fetch_add(1)` wraps around at 2^64. */
  function Bump(counter: nat): (next: nat)
    requires counter < U64_MODULUS
    ensures next < U64_MODULUS
    ensures counter + 1 < U64_MODULUS ==> next == counter + 1
    ensures counter + 1 == U64_MODULUS ==> next == 0
  {
    (counter + 1) % U64_MODULUS
  }

  /**
    The counter after `update_max(id)`: raised to `id + 1` when `id` is not
    below it, kept otherwise. `id + 1` wraps for the largest u64 (a release
    build does not check the overflow).
  */
  function Observe(counter: nat, id: nat): (next: nat)
    requires counter < U64_MODULUS && id < U64_MODULUS
    ensures next < U64_MODULUS
  {
    if id >= counter then (id + 1) % U64_MODULUS else counter
  }

  /** Below the wrap-around point, observing never lowers the counter and leaves it above the id. */
  lemma ObserveRaises(counter: nat, id: nat)
    requires counter < U64_MODULUS && id + 1 < U64_MODULUS
    ensures Observe(counter, id) >= counter
    ensures Observe(counter, id) > id
    ensures Observe(counter, id) == counter || Observe(counter, id) == id + 1
  {
  }

  /** Replaying an id twice changes nothing the first replay did not. */
  lemma ObserveIdempotent(counter: nat, id: nat)
    requires counter < U64_MODULUS && id + 1 < U64_MODULUS
    ensures Observe(Observe(counter, id), id) == Observe(counter, id)
  {
  }

  /**
    The floor reached after replaying a set of ids: at least the start, above
    every id, and equal to the start or to one past some id. These three
    facts pin the floor down to max(start, max(ids) + 1).
  */
  ghost predicate FloorAfter(start: nat, ids: set<nat>, floor: nat) {
    && floor >= start
    && (forall id :: id in ids ==> id < floor)
    && (floor == start || exists id :: id in ids && floor == id + 1)
  }

  lemma FloorAfterUnique(start: nat, ids: set<nat>, f1: nat, f2: nat)
    requires FloorAfter(start, ids, f1) && FloorAfter(start, ids, f2)
    ensures f1 == f2
  {
  }

  class IdAllocator {
    /** The value the next `new` hands out. */
    var next: nat

    ghost predicate Valid()
      reads this
    {
      next < U64_MODULUS
    }

    /** `AtomicU64::new(0)` */
    constructor ()
      ensures Valid() && next == 0
    {
      next := 0;
    }

    /** `new`: the current counter, then the counter bumped. */
    method New() returns (id: nat)
      requires Valid()
      modifies this
      ensures Valid()
      ensures id == old(next) && next == Bump(old(next))
    {
      id := next;
      next := (next + 1) % U64_MODULUS;
    }

    /** `update_max` */
    method UpdateMax(id: nat)
      requires Valid() && id < U64_MODULUS
      modifies this
      ensures Valid()
      ensures next == Observe(old(next), id)
    {
      if id >= next {
        next := (id + 1) % U64_MODULUS;
      }
    }
  }

  /** Two ids drawn one after the other increase strictly while the counter has not wrapped. */
  method TwoIdsIncrease(a: IdAllocator) returns (first: nat, second: nat)
    requires a.Valid() && a.next + 2 < U64_MODULUS
    modifies a
    ensures first < second && second < a.next
  {
    first := a.New();
    second := a.New();
  }

  /** The `i`-th id drawn from a counter at `first`: `new` wraps at 2^64. */
  function Nth(first: nat, i: nat): nat {
    (first + i) % U64_MODULUS
  }

  /** Below the wrap-around point the `i`-th drawn id is `first + i`. */
  lemma NthNoWrap(first: nat, i: nat)
    requires first + i < U64_MODULUS
    ensures Nth(first, i) == first + i
  {
  }

  /** Drawing the next id moves the counter from `Nth(first, i)` to `Nth(first, i + 1)`. */
  lemma NthStep(first: nat, i: nat)
    requires first < U64_MODULUS
    ensures Nth(first, i) < U64_MODULUS
    ensures Bump(Nth(first, i)) == Nth(first, i + 1)
  {
    var q := (first + i) % U64_MODULUS;
    var k := (first + i) / U64_MODULUS;
    assert first + i + 1 == k * U64_MODULUS + (q + 1);
    if q + 1 == U64_MODULUS {
      assert first + i + 1 == (k + 1) * U64_MODULUS;
    }
  }

  /** The ids of the first `n` draws from a counter at `first`. */
  function Drawn(first: nat, n: nat): set<nat> {
    if n == 0 then {} else Drawn(first, n - 1) + {Nth(first, n - 1)}
  }

  /** Below the wrap-around point the drawn ids are exactly `first .. first + n - 1`. */
  lemma {:induction false} DrawnRange(first: nat, n: nat)
    requires first + n <= U64_MODULUS
    ensures forall u :: u in Drawn(first, n) <==> first <= u < first + n
  {
    if n > 0 {
      DrawnRange(first, n - 1);
      NthNoWrap(first, n - 1);
    }
  }

  /** Below the wrap-around point the next draw is none of the earlier ones. */
  lemma NthFresh(first: nat, n: nat)
    requires first + n < U64_MODULUS
    ensures Nth(first, n) !in Drawn(first, n)
  {
    DrawnRange(first, n);
    NthNoWrap(first, n);
  }

  /** A name index for the first `n` ids drawn from `first`: each id under `"{prefix}-{id}"`. */
  function SuffixedNames(prefix: string, first: nat, n: nat): map<string, nat> {
    if n == 0 then map[]
    else
      var uid := Nth(first, n - 1);
      SuffixedNames(prefix, first, n - 1)[Decimal.Suffixed(prefix, uid) := uid]
  }

  /** The indexed names are exactly `"{prefix}-{id}"` for the drawn ids, each naming its id. */
  lemma {:induction false} SuffixedNamesShape(prefix: string, first: nat, n: nat)
    ensures forall nm :: nm in SuffixedNames(prefix, first, n) ==>
      SuffixedNames(prefix, first, n)[nm] in Drawn(first, n) && nm == Decimal.Suffixed(prefix, SuffixedNames(prefix, first, n)[nm])
    ensures forall u :: u in Drawn(first, n) ==> Decimal.Suffixed(prefix, u) in SuffixedNames(prefix, first, n)
  {
    if n > 0 {
      SuffixedNamesShape(prefix, first, n - 1);
    }
  }

  /** A largest member of a non-empty id set, found by removing one member and recursing. */
  lemma {:induction false} Largest(ids: set<nat>) returns (m: nat)
    requires ids != {}
    ensures m in ids && forall u :: u in ids ==> u <= m
    decreases ids
  {
    var x :| x in ids;
    if ids == {x} {
      m := x;
    } else {
      var below := Largest(ids - {x});
      m := if x > below then x else below;
      forall u | u in ids ensures u <= m {
        if u != x {
          assert u in ids - {x};
        }
      }
    }
  }

  lemma MaxExists(ids: set<nat>)
    requires ids != {}
    ensures exists m :: m in ids && forall u :: u in ids ==> u <= m
  {
    var m := Largest(ids);
  }

  /** The largest member of a non-empty id set (the last one an ascending walk visits). */
  function MaxOf(ids: set<nat>): (m: nat)
    requires ids != {}
    ensures m in ids && forall u :: u in ids ==> u <= m
  {
    MaxExists(ids);
    var m :| m in ids && forall u :: u in ids ==> u <= m;
    m
  }

  /** The order in which an ordered map or set hands out its ids: ascending. */
  function Ascending(ids: set<nat>): seq<nat>
    decreases ids
  {
    if ids == {} then [] else Ascending(ids - {MaxOf(ids)}) + [MaxOf(ids)]
  }

  /** The walk visits every id of the set, nothing else, each once and in increasing order. */
  lemma {:induction false} AscendingIds(ids: set<nat>)
    ensures forall i :: 0 <= i < |Ascending(ids)| ==> Ascending(ids)[i] in ids
    ensures forall x :: x in ids ==> x in Ascending(ids)
    ensures forall i, j :: 0 <= i < j < |Ascending(ids)| ==> Ascending(ids)[i] < Ascending(ids)[j]
    decreases ids
  {
    if ids != {} {
      var m := MaxOf(ids);
      var rest := Ascending(ids - {m});
      AscendingIds(ids - {m});
      assert Ascending(ids) == rest + [m];
      forall x | x in ids ensures x in Ascending(ids) {
        if x != m {
          assert x in rest;
        }
      }
      forall i, j | 0 <= i < j < |Ascending(ids)| ensures Ascending(ids)[i] < Ascending(ids)[j] {
        if j == |rest| {
          assert rest[i] in ids - {m};
        }
      }
    }
  }
}
