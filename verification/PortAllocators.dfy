/** The pool of media ports: the lowest free one is handed out, and can be given back. */
module PortAllocators {
  import opened Wrappers

  /** The port handed out next, of the count ports from base on. */
  function Lowest(inUse: set<int>, base: int, count: nat): Option<int>
    decreases count
  {
    if count == 0 then None
    else if base !in inUse then Some(base)
    else Lowest(inUse, base + 1, count - 1)
  }

  lemma {:induction false} LowestIs(inUse: set<int>, base: int, count: nat, p: int)
    ensures Lowest(inUse, base, count) == Some(p)
      <==> base <= p < base + count && p !in inUse && forall q :: base <= q < p ==> q in inUse
    decreases count
  {
    if count > 0 && base in inUse {
      LowestIs(inUse, base + 1, count - 1, p);
    }
  }

  /** A port handed out and given back leaves the pool as it was, and is the next one handed out again;
      giving it back twice changes nothing more. */
  lemma AllocThenFree(inUse: set<int>, base: int, count: nat, p: int)
    requires Lowest(inUse, base, count) == Some(p)
    ensures p !in inUse
    ensures var freed := (inUse + {p}) - {p};
      freed == inUse && Lowest(freed, base, count) == Some(p) && freed - {p} == freed
  {
    LowestIs(inUse, base, count, p);
    assert (inUse + {p}) - {p} == inUse;
  }

  /** A port given back is the next one handed out exactly if every lower one is in use; otherwise what
      was next stays next. */
  lemma FreedIsNext(inUse: set<int>, base: int, count: nat, p: int)
    requires base <= p < base + count
    ensures var next := Lowest(inUse - {p}, base, count);
      if forall q :: base <= q < p ==> q in inUse then next == Some(p) else next == Lowest(inUse, base, count)
  {
    LowestIs(inUse - {p}, base, count, p);
    if q :| base <= q < p && q !in inUse {
      var l := LowestBelow(inUse, base, count, q);
      LowestIs(inUse - {p}, base, count, l);
    }
  }

  lemma {:induction false} LowestBelow(inUse: set<int>, base: int, count: nat, q: int) returns (l: int)
    requires base <= q < base + count && q !in inUse
    ensures l <= q && Lowest(inUse, base, count) == Some(l)
    ensures base <= l && l !in inUse && forall r :: base <= r < l ==> r in inUse
    decreases count
  {
    if base !in inUse {
      l := base;
    } else {
      l := LowestBelow(inUse, base + 1, count - 1, q);
    }
  }

  /** Hands out the ports base, base + 1, ... */
  class PortAllocator {
    const base: int
    const count: nat
    var inUse: set<int>

    ghost predicate Valid()
      reads this
    {
      forall p :: p in inUse ==> base <= p < base + count
    }

    constructor (base: int, count: nat)
      ensures Valid() && inUse == {} && this.base == base && this.count == count
    {
      this.base, this.count, inUse := base, count, {};
    }

    /** The lowest free port, or none if every port is in use: the first the loop finds. */
    method Alloc() returns (port: Option<int>)
      requires Valid()
      modifies this
      ensures Valid()
      ensures match port
        case None => inUse == old(inUse) && forall p :: base <= p < base + count ==> p in inUse
        case Some(p) =>
          && base <= p < base + count && p !in old(inUse) && inUse == old(inUse) + {p}
          && forall q :: base <= q < p ==> q in old(inUse)
      ensures port == Lowest(old(inUse), base, count)
    {
      var i := 0;
      while i < count
        invariant i <= count && inUse == old(inUse)
        invariant forall q :: base <= q < base + i ==> q in inUse
        invariant Lowest(inUse, base, count) == Lowest(inUse, base + i, count - i)
      {
        if base + i !in inUse {
          inUse := inUse + {base + i};
          return Some(base + i);
        }
        i := i + 1;
      }
      return None;
    }

    method Free(port: int)
      requires Valid()
      modifies this
      ensures Valid() && inUse == old(inUse) - {port}
    {
      inUse := inUse - {port};
    }

    method InUse() returns (n: nat)
      requires Valid()
      ensures n == |inUse| && n <= count
    {
      n := |inUse|;
      RangeHolds(inUse, base, count);
    }
  }

  lemma {:induction false} RangeHolds(s: set<int>, base: int, count: nat)
    requires forall p :: p in s ==> base <= p < base + count
    ensures |s| <= count
    decreases count
  {
    if count == 0 {
      assert forall p :: p !in s;
      assert s == {};
    } else {
      var last := base + count - 1;
      RangeHolds(s - {last}, base, count - 1);
      if last in s {
        assert s == (s - {last}) + {last};
      }
    }
  }
}
