/** Every slot ring, whatever happened to it, is a map from sequence numbers to frames as long as its
    window is clean. */
module JitterMaps {
  import opened Wrappers
  import opened SerialNumbers
  import opened JitterSpec
  import opened JitterRefinement

  /** What holds of the ring after any operations at all. */
  ghost predicate RingInv(size: Size, r: Ring) {
    && |r.slots| == size
    && (!r.control.started ==> r == InitRing(size))
    && (r.control.phase == Active ==> r.control.misses < STARVE_FREEZE_THRESHOLD)
    && (r.control.phase == Waiting ==> r.control.priming < MAX_PRIMING_TICKS_FACTOR * size)
  }

  lemma InitRingInv(size: Size)
    ensures RingInv(size, InitRing(size))
  {
  }

  lemma PushKeepsRingInv(size: Size, r: Ring, s: Seq16, ssrc: int, f: Frame)
    requires RingInv(size, r)
    ensures RingInv(size, PushRing(size, r, s, ssrc, f).ring)
  {
    hide Diff, Buffered, Slot;
  }

  lemma ReleaseKeepsRingInv(size: Size, r: Ring)
    requires RingInv(size, r)
    ensures RingInv(size, ReleaseRing(size, r).0)
  {
    hide Depth;
  }

  lemma {:induction false} RunKeepsRingInv(size: Size, r: Ring, ops: seq<Op>)
    requires RingInv(size, r)
    ensures RingInv(size, AfterRing(size, r, ops))
    decreases |ops|
  {
    hide PushRing, ReleaseRing;
    if ops != [] {
      match ops[0] {
        case Push(s, ssrc, f) => PushKeepsRingInv(size, r, s, ssrc, f);
        case Release => ReleaseKeepsRingInv(size, r);
      }
      RunKeepsRingInv(size, StepRing(size, r, ops[0]).0, ops[1..]);
    }
  }

  // ---- the map ------------------------------------------------------------------------------

  /** The numbers of the window whose slots are full, each with its slot's frame. */
  ghost function MapOf(size: Size, r: Ring): Ref
    requires |r.slots| == size
  {
    var e := r.control.expected;
    Ref(r.control,
        map n: Seq16 | 0 <= n < MODULUS && InWindow(n, e, size) && r.slots[Slot(n, size)].Some?
        :: r.slots[Slot(n, size)].value)
  }

  /** From e on, every remainder comes up within `size` numbers. */
  lemma OffsetOf(e: nat, i: nat, size: nat) returns (d: nat)
    requires i < size
    ensures d < size && (e + d) % size == i
  {
    var q := (i - e) / size;
    d := (i - e) % size;
    assert i == (e + d) + q * size;
    ModStep(e + d, q, size);
    ModUnique(i, 0, i, size);
  }

  /** Every slot is the slot of some number of a clean window. */
  lemma SlotsCovered(e: Seq16, size: Size, i: nat) returns (n: Seq16)
    requires CleanWindow(e, size) && i < size
    ensures InWindow(n, e, size) && Slot(n, size) == i
  {
    hide Slot, Add, Diff, CleanWindow;
    var d := OffsetOf(e, i, size);
    n := Add(e, d);
    DiffAdd(e, d);
    SlotOfOffset(e, d, size);
  }

  lemma AnyRingIsAMap(size: Size, r: Ring)
    requires RingInv(size, r) && CleanWindow(r.control.expected, size)
    ensures Implements(size, r, MapOf(size, r)) && RefInv(size, MapOf(size, r))
  {
    hide Diff, Slot;
    var buf := MapOf(size, r).buf;
    CleanIsDistinct(r.control.expected, size);
    forall i | 0 <= i < size && r.slots[i].Some? ensures exists k :: k in buf && Slot(k, size) == i {
      var n := SlotsCovered(r.control.expected, size, i);
      assert n in buf;
    }
    if !r.control.started {
      assert buf == map[];
    }
  }
}
