/** 16-bit RTP sequence numbers, compared as serial numbers (section 3.2 of RFC 1982,
    section 5.1 of RFC 3550), and the ring slot `seq % size` the jitter buffer puts
    each of them in. */
module SerialNumbers {

  const MODULUS: int := 65536

  type Seq16 = x: int | 0 <= x < MODULUS witness 0

  /** `s + n` in 16-bit arithmetic. */
  function Add(s: Seq16, n: int): Seq16 {
    (s + n) % MODULUS
  }

  /** The signed circular distance `int16(a - b)`: at least 0 when `a` is at or ahead of `b`. */
  function Diff(a: Seq16, b: Seq16): (d: int)
    ensures -32768 <= d < 32768
    ensures Add(b, d) == a
  {
    var d := (a - b) % MODULUS;
    if d < 32768 then d else d - MODULUS
  }

  /** `s` is one of the `size` numbers starting at `expected`. */
  predicate InWindow(s: Seq16, expected: Seq16, size: nat) {
    0 <= Diff(s, expected) < size
  }

  lemma DiffAdd(b: Seq16, n: int)
    requires -32768 <= n < 32768
    ensures Diff(Add(b, n), b) == n
  {
  }

  lemma AddAdd(s: Seq16, m: int, n: int)
    ensures Add(Add(s, m), n) == Add(s, m + n)
  {
  }

  /** Both ends of the distance move together. */
  lemma DiffShift(a: Seq16, b: Seq16, m: int, n: int)
    requires -32768 <= Diff(a, b) + m - n < 32768
    ensures Diff(Add(a, m), Add(b, n)) == Diff(a, b) + m - n
  {
    var d := Diff(a, b);
    calc {
      Add(a, m);
      Add(Add(b, d), m);
      { AddAdd(b, d, m); }
      Add(b, d + m);
      { AddAdd(b, n, d + m - n); }
      Add(Add(b, n), d + m - n);
    }
    DiffAdd(Add(b, n), d + m - n);
  }

  // ---- ring slots ---------------------------------------------------------

  function Slot(s: Seq16, size: nat): (i: nat)
    requires 1 <= size
    ensures i < size
  {
    s % size
  }

  /** The window starting at `expected` uses every slot at most once. */
  ghost predicate SlotsDistinct(expected: Seq16, size: nat)
    requires 1 <= size < 32768
  {
    forall a: Seq16, b: Seq16 {:trigger InWindow(a, expected, size), InWindow(b, expected, size)} ::
      InWindow(a, expected, size) && InWindow(b, expected, size) && Slot(a, size) == Slot(b, size) ==> a == b
  }

  /** What decides it: the ring divides the number space, or the window does not cross 65535 -> 0. */
  predicate CleanWindow(expected: Seq16, size: nat)
    requires 1 <= size
  {
    MODULUS % size == 0 || expected + size <= MODULUS
  }

  lemma ModStep(x: int, k: int, size: int)
    requires size > 0
    ensures (x + k * size) % size == x % size
  {
    var q, r := x / size, x % size;
    assert x + k * size == (q + k) * size + r;
    ModUnique(x + k * size, q + k, r, size);
  }

  lemma ModUnique(x: int, q: int, r: int, size: int)
    requires size > 0 && 0 <= r < size && x == q * size + r
    ensures x % size == r && x / size == q
  {
    var q', r' := x / size, x % size;
    assert (q - q') * size == r' - r;
    Multiple(q - q', size);
  }

  /** A multiple of `size` strictly between -size and size is 0. */
  lemma Multiple(k: int, size: int)
    requires size > 0
    ensures k >= 1 ==> k * size >= size
    ensures k <= -1 ==> k * size <= -size
  {
  }

  /** Numbers less than `size` apart share a slot only when they are equal. */
  lemma NearSlotsDiffer(x: int, y: int, size: int)
    requires size > 0 && x <= y < x + size && x % size == y % size
    ensures x == y
  {
    var d := y / size - x / size;
    assert y - x == d * size;
    Multiple(d, size);
  }

  lemma UnwrapKeepsSlot(u: int, size: nat)
    requires 1 <= size && MODULUS % size == 0
    ensures u % MODULUS % size == u % size
  {
    var k := MODULUS / size;
    assert MODULUS == k * size;
    var w := u / MODULUS;
    assert u == u % MODULUS + w * MODULUS;
    assert w * MODULUS == (w * k) * size by {
      assert w * (k * size) == (w * k) * size;
    }
    ModStep(u % MODULUS, w * k, size);
  }

  /** The slots of a clean window are those of its numbers without wrapping. */
  lemma SlotOfOffset(expected: Seq16, d: nat, size: nat)
    requires 1 <= size && d < size && CleanWindow(expected, size)
    ensures Slot(Add(expected, d), size) == (expected + d) % size
  {
    if MODULUS % size == 0 {
      UnwrapKeepsSlot(expected + d, size);
    } else {
      assert Add(expected, d) == expected + d;
    }
  }

  lemma SameSlotSameOffset(expected: Seq16, d: nat, d': nat, size: nat)
    requires 1 <= size && d < size && d' < size && CleanWindow(expected, size)
    requires Slot(Add(expected, d), size) == Slot(Add(expected, d'), size)
    ensures d == d'
  {
    hide Slot, Add;
    SlotOfOffset(expected, d, size);
    SlotOfOffset(expected, d', size);
    NearSlotsDiffer(expected + if d <= d' then d else d', expected + if d <= d' then d' else d, size);
  }

  lemma CleanIsDistinct(expected: Seq16, size: nat)
    requires 1 <= size < 32768 && CleanWindow(expected, size)
    ensures SlotsDistinct(expected, size)
  {
    hide Diff, Slot, Add, CleanWindow;
    forall a: Seq16, b: Seq16 |
      InWindow(a, expected, size) && InWindow(b, expected, size) && Slot(a, size) == Slot(b, size)
      ensures a == b
    {
      SameSlotSameOffset(expected, Diff(a, expected), Diff(b, expected), size);
    }
  }

  /** The numbers on either side of the wrap that lie in a window crossing it. */
  lemma InCrossingWindow(expected: Seq16, size: nat, back: nat, b: nat)
    requires 1 <= size < 32768 && expected + size > MODULUS
    requires 1 <= back <= MODULUS - expected && b < expected + size - MODULUS
    ensures InWindow(MODULUS - back, expected, size) && InWindow(b, expected, size)
  {
  }

  /** Two numbers of a window that crosses the wrap, in one slot. */
  lemma Collision(expected: Seq16, size: nat) returns (a: Seq16, b: Seq16)
    requires 1 <= size < 32768 && !CleanWindow(expected, size)
    ensures a != b && InWindow(a, expected, size) && InWindow(b, expected, size)
    ensures Slot(a, size) == Slot(b, size)
  {
    var back;
    back, b := Colliding(expected + size - MODULUS, MODULUS % size, size);
    a := MODULUS - back;
    InCrossingWindow(expected, size, back, b);
    SlotNearWrap(back, size);
    SmallSlot(b, size);
  }

  /** With r numbers after the wrap and m = 65536 % size: how far before the wrap the first of
      the two colliding numbers is, and the second. */
  lemma Colliding(r: nat, m: nat, size: nat) returns (back: nat, b: nat)
    requires 0 < r < size && 0 < m < size
    ensures 1 <= back <= size - r && back < size && b < r
    ensures b == if back <= m then m - back else m - back + size
  {
    if m - 1 < r {
      back, b := 1, m - 1;
    } else if r + m <= size {
      back, b := m, 0;
    } else {
      back, b := size - r, r + m - size;
    }
  }

  lemma SmallSlot(b: int, size: nat)
    requires 0 <= b < size
    ensures b % size == b
  {
    ModUnique(b, 0, b, size);
  }

  /** The slot of the number `back` before the wrap. */
  lemma SlotNearWrap(back: nat, size: nat)
    requires 1 <= size < 32768 && back < size
    ensures var m := MODULUS % size;
            (MODULUS - back) % size == if back <= m then m - back else m - back + size
  {
    var q, m := MODULUS / size, MODULUS % size;
    assert MODULUS == q * size + m;
    if back <= m {
      ModUnique(MODULUS - back, q, m - back, size);
    } else {
      assert (q - 1) * size == q * size - size;
      ModUnique(MODULUS - back, q - 1, m - back + size, size);
    }
  }

  /** The ring is sound on a window exactly when the window is clean. */
  lemma SlotsDistinctExactlyWhenClean(expected: Seq16, size: nat)
    requires 1 <= size < 32768
    ensures SlotsDistinct(expected, size) <==> CleanWindow(expected, size)
  {
    if CleanWindow(expected, size) {
      CleanIsDistinct(expected, size);
    } else {
      var a, b := Collision(expected, size);
    }
  }

  /** Every window is sound exactly when the ring's size divides 65536. */
  lemma RingSoundExactlyWhenSizeDivides(size: nat)
    requires 1 <= size < 32768
    ensures (forall e: Seq16 :: SlotsDistinct(e, size)) <==> MODULUS % size == 0
  {
    forall e: Seq16 ensures SlotsDistinct(e, size) <==> CleanWindow(e, size) {
      SlotsDistinctExactlyWhenClean(e, size);
    }
    if MODULUS % size != 0 {
      assert size != 1;
      assert !SlotsDistinct(65535, size);
    }
  }
}
