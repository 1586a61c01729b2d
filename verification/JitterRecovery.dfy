/** The jitter buffer past the wrap: whatever its size loses there, and in whatever state it is, it soon
    plays the stream in order again, until the numbers wrap the next time. */
module JitterRecovery {
  import opened Wrappers
  import opened SerialNumbers
  import opened JitterSpec
  import opened JitterRefinement
  import opened JitterMaps
  import opened JitterHealing
  import opened JitterSelfHealing
  import opened JitterWrap

  // ---- a stream that does not wrap opens clean windows ----------------------------------------

  /** Tuned to the stream, whose next packet is q, and at most one window behind it. */
  predicate Follows(size: Size, c: Control, q: nat, ssrc: int) {
    c.started && c.ssrc == ssrc && c.expected <= q <= c.expected + size
  }

  lemma FollowsPush(size: Size, r: Ref, q: Seq16, ssrc: int, f: Frame)
    requires Follows(size, r.control, q, ssrc)
    ensures var r1 := PushRef(size, r, q, ssrc, f).0;
      Follows(size, r1.control, q, ssrc) && r1.control.expected == Opens(size, r, q, ssrc)
      && r1.control.phase != Frozen && (r1.control.phase == Waiting ==> q < r1.control.expected + size)
  {
  }

  lemma FollowsRelease(size: Size, r: Ref, q: Seq16, ssrc: int)
    requires Follows(size, r.control, q, ssrc) && q + 1 < MODULUS && r.control.phase != Frozen
    requires r.control.phase == Waiting ==> q < r.control.expected + size
    ensures Follows(size, ReleaseRef(size, r).0.control, q + 1, ssrc)
  {
  }

  lemma FollowsTick(size: Size, r: Ref, q: Seq16, ssrc: int, f: Frame)
    requires Follows(size, r.control, q, ssrc) && q + 1 < MODULUS
    ensures Opens(size, r, q, ssrc) <= q && Follows(size, TickRef(size, r, q, ssrc, f).control, q + 1, ssrc)
  {
    hide PushRef, ReleaseRef, Opens;
    FollowsPush(size, r, q, ssrc, f);
    FollowsRelease(size, PushRef(size, r, q, ssrc, f).0, q, ssrc);
  }

  lemma {:induction false} FollowersAreClean(size: Size, r: Ref, s: Seq16, ssrc: int, f: nat -> Frame, k: nat, n: nat)
    requires Follows(size, r.control, s + k, ssrc) && s + k + n + size <= MODULUS
    ensures CleanTicks(size, r, s, ssrc, f, k, n)
    decreases n
  {
    hide TickRef, Opens, Follows;
    if n > 0 {
      assert Add(s, k) == s + k;
      FollowsTick(size, r, Add(s, k), ssrc, f(k));
      if n > 1 {
        FollowersAreClean(size, TickRef(size, r, Add(s, k), ssrc, f(k)), s, ssrc, f, k + 1, n - 1);
      }
    }
  }

  // ---- catching up ----------------------------------------------------------------------------

  /** Tuned to the stream, whose next packet is q, and at most one window behind it, wherever the numbers
      wrap. */
  predicate Near(size: Size, c: Control, q: Seq16, ssrc: int) {
    c.started && c.ssrc == ssrc && 0 <= Diff(q, c.expected) <= size
  }

  /** The packet tunes the buffer in, or it is near already. */
  predicate TunesIn(size: Size, c: Control, q: Seq16, ssrc: int) {
    Near(size, c, q, ssrc) || !c.started || c.ssrc != ssrc || (Diff(q, c.expected) >= 0 && c.phase != Active)
  }

  lemma PushTunesIn(size: Size, ring: Ring, q: Seq16, ssrc: int, f: Frame)
    requires |ring.slots| == size && TunesIn(size, ring.control, q, ssrc)
    ensures var c := PushRing(size, ring, q, ssrc, f).ring.control;
      Near(size, c, q, ssrc) && c.phase != Frozen && (c.phase == Waiting ==> Diff(q, c.expected) < size)
  {
    hide Slot, Buffered, Add;
    assert Diff(q, q) == 0;
  }

  lemma ReleaseStaysNear(size: Size, ring: Ring, q: Seq16, ssrc: int)
    requires |ring.slots| == size && Near(size, ring.control, q, ssrc) && ring.control.phase != Frozen
    requires ring.control.phase == Waiting ==> Diff(q, ring.control.expected) < size
    ensures Near(size, ReleaseRing(size, ring).0.control, Add(q, 1), ssrc)
  {
    hide Slot, Depth, Diff, Add;
    GapKept(q, ring.control.expected);
    if ring.control.phase == Waiting {
      GapGrows(q, ring.control.expected);
    }
  }

  lemma NearTick(size: Size, ring: Ring, q: Seq16, ssrc: int, f: Frame)
    requires |ring.slots| == size && TunesIn(size, ring.control, q, ssrc)
    ensures Near(size, TickRing(size, ring, q, ssrc, f).control, Add(q, 1), ssrc)
  {
    hide PushRing, ReleaseRing, TunesIn, Diff, Add;
    PushTunesIn(size, ring, q, ssrc, f);
    ReleaseStaysNear(size, PushRing(size, ring, q, ssrc, f).ring, q, ssrc);
  }

  lemma {:induction false} NearTicks(size: Size, ring: Ring, s: Seq16, ssrc: int, f: nat -> Frame, k: nat, n: nat)
    requires |ring.slots| == size && Near(size, ring.control, Add(s, k), ssrc)
    ensures Near(size, TicksRing(size, ring, s, ssrc, f, k, n).control, Add(s, k + n), ssrc)
    decreases n
  {
    hide TickRing, Add, Near;
    if n > 0 {
      NearTick(size, ring, Add(s, k), ssrc, f(k));
      AddAdd(s, k, 1);
      NearTicks(size, TickRing(size, ring, Add(s, k), ssrc, f(k)), s, ssrc, f, k + 1, n - 1);
    }
  }

  /** A packet that does not tune it in is late or out of the window, and changes nothing. */
  lemma PushIsIgnored(size: Size, ring: Ring, q: Seq16, ssrc: int, f: Frame)
    requires |ring.slots| == size && !TunesIn(size, ring.control, q, ssrc)
    ensures PushRing(size, ring, q, ssrc, f).ring == ring
  {
    hide Slot, Buffered, Diff;
  }

  function Behind(gap: int): nat {
    if gap < 0 then -gap else 0
  }

  /** What is left of it before it tunes in: priming, frames to play or to skip, misses, and the packets
      it is ahead of the stream. */
  function Left(size: Size, ring: Ring, gap: int): int {
    var c, depth := ring.control, Depth(ring.slots);
    match c.phase
    case Waiting => MAX_PRIMING_TICKS_FACTOR * size - c.priming + 3 * depth + STARVE_FREEZE_THRESHOLD + Behind(gap)
    case Active => 3 * depth + STARVE_FREEZE_THRESHOLD - c.misses + Behind(gap)
    case Frozen => depth + Behind(gap)
  }

  lemma TakenOut(size: Size, slots: seq<Option<Frame>>, i: nat)
    requires |slots| == size && i < size && slots[i].Some?
    ensures Depth(slots[i := None]) == Depth(slots) - 1
  {
    Differ(slots, slots[i := None], i, 0);
  }

  lemma {:induction false} DepthBound(slots: seq<Option<Frame>>)
    ensures Depth(slots) <= |slots|
  {
    if slots != [] {
      DepthBound(slots[..|slots| - 1]);
    }
  }

  /** A tick on which the packet does not tune it in brings the next one nearer; a stream that was behind
      is behind or near after it. */
  lemma ReleaseBringsNearer(size: Size, ring: Ring, q: Seq16, ssrc: int)
    requires RingInv(size, ring) && !TunesIn(size, ring.control, q, ssrc)
    ensures var ring', gap := ReleaseRing(size, ring).0, Diff(q, ring.control.expected);
      var gap' := Diff(Add(q, 1), ring'.control.expected);
      && ring'.control.started && ring'.control.ssrc == ssrc
      && 0 <= Left(size, ring', gap') < Left(size, ring, gap)
      && (gap < 0 ==> gap' <= 0) && (gap >= 0 ==> gap' == gap)
  {
    hide Slot, Depth, Diff, Add, Buffered;
    var c := ring.control;
    var slot := Slot(Gate(size, c, Depth(ring.slots)).0.expected, size);
    GapKept(q, c.expected);
    if Diff(q, c.expected) < 0 {
      GapGrows(q, c.expected);
    }
    if ring.slots[slot].Some? {
      TakenOut(size, ring.slots, slot);
    }
  }

  lemma TickBringsNearer(size: Size, ring: Ring, q: Seq16, ssrc: int, f: Frame)
    requires RingInv(size, ring) && !TunesIn(size, ring.control, q, ssrc)
    ensures var ring', gap := TickRing(size, ring, q, ssrc, f), Diff(q, ring.control.expected);
      var gap' := Diff(Add(q, 1), ring'.control.expected);
      && RingInv(size, ring') && ring'.control.started && ring'.control.ssrc == ssrc
      && 0 <= Left(size, ring', gap') < Left(size, ring, gap)
      && (gap < 0 ==> gap' <= 0) && (gap >= 0 ==> gap' == gap)
  {
    hide PushRing, ReleaseRing, TunesIn, Diff, Add, Left;
    PushIsIgnored(size, ring, q, ssrc, f);
    ReleaseBringsNearer(size, ring, q, ssrc);
    ReleaseKeepsRingInv(size, ring);
  }

  /** How many ticks it takes at most. */
  function ToCatchUp(size: Size, ring: Ring, q: Seq16, ssrc: int): int {
    var gap := Diff(q, ring.control.expected);
    if Near(size, ring.control, q, ssrc) then 0
    else if TunesIn(size, ring.control, q, ssrc) then 1
    else Left(size, ring, gap) + if gap < 0 then 0 else 1
  }

  lemma OneTickLess(size: Size, ring: Ring, q: Seq16, ssrc: int, f: Frame)
    requires RingInv(size, ring) && !TunesIn(size, ring.control, q, ssrc)
    ensures var ring' := TickRing(size, ring, q, ssrc, f);
      && RingInv(size, ring')
      && 0 <= ToCatchUp(size, ring', Add(q, 1), ssrc) < ToCatchUp(size, ring, q, ssrc)
  {
    hide TickRing, Left, RingInv, Diff, Add;
    TickBringsNearer(size, ring, q, ssrc, f);
  }

  lemma {:induction false} CatchesUp(size: Size, ring: Ring, s: Seq16, ssrc: int, f: nat -> Frame, k: nat)
    returns (n: nat)
    requires RingInv(size, ring)
    ensures n <= ToCatchUp(size, ring, Add(s, k), ssrc)
    ensures Near(size, TicksRing(size, ring, s, ssrc, f, k, n).control, Add(s, k + n), ssrc)
    decreases ToCatchUp(size, ring, Add(s, k), ssrc)
  {
    hide TickRing, Add, Diff, Left;
    var q := Add(s, k);
    if Near(size, ring.control, q, ssrc) {
      n := 0;
    } else {
      var ring1 := TickRing(size, ring, q, ssrc, f(k));
      AddAdd(s, k, 1);
      if TunesIn(size, ring.control, q, ssrc) {
        NearTick(size, ring, q, ssrc, f(k));
        n := 1;
        assert TicksRing(size, ring1, s, ssrc, f, k + 1, 0) == ring1;
      } else {
        OneTickLess(size, ring, q, ssrc, f(k));
        n := CatchesUp(size, ring1, s, ssrc, f, k + 1);
        n := n + 1;
      }
    }
  }

  /** Within the healing bound, for a stream that starts at most b behind. */
  lemma CatchUpBound(size: Size, ring: Ring, s: Seq16, ssrc: int, b: nat)
    requires RingInv(size, ring)
    requires var c := ring.control; c.started && c.ssrc == ssrc ==> Diff(s, c.expected) + b >= 0
    ensures ToCatchUp(size, ring, s, ssrc) <= HealingBound(size, b)
  {
    hide Depth, Diff;
    DepthBound(ring.slots);
  }

  /** Past the wrap by a window, near is near without wrapping. */
  lemma NearFollows(size: Size, c: Control, q: Seq16, ssrc: int)
    requires Near(size, c, q, ssrc) && q >= size
    ensures Follows(size, c, q, ssrc)
  {
  }

  // ---- in order again -------------------------------------------------------------------------

  lemma {:induction false} TicksKeepRingInv(size: Size, ring: Ring, s: Seq16, ssrc: int, f: nat -> Frame, k: nat,
      n: nat)
    requires RingInv(size, ring)
    ensures RingInv(size, TicksRing(size, ring, s, ssrc, f, k, n))
    decreases n
  {
    hide PushRing, ReleaseRing, Add;
    if n > 0 {
      PushKeepsRingInv(size, ring, Add(s, k), ssrc, f(k));
      ReleaseKeepsRingInv(size, PushRing(size, ring, Add(s, k), ssrc, f(k)).ring);
      TicksKeepRingInv(size, TickRing(size, ring, Add(s, k), ssrc, f(k)), s, ssrc, f, k + 1, n - 1);
    }
  }

  /** The stream from its packet t on. */
  function From(f: nat -> Frame, t: nat): nat -> Frame {
    (i: nat) => f(t + i)
  }

  lemma {:induction false} TicksFrom(size: Size, ring: Ring, s: Seq16, ssrc: int, f: nat -> Frame, t: nat, i: nat,
      n: nat)
    requires |ring.slots| == size
    ensures TicksRing(size, ring, s, ssrc, f, t + i, n) == TicksRing(size, ring, Add(s, t), ssrc, From(f, t), i, n)
    decreases n
  {
    hide TickRing, Add;
    if n > 0 {
      AddAdd(s, t, i);
      TicksFrom(size, TickRing(size, ring, Add(s, t + i), ssrc, f(t + i)), s, ssrc, f, t, i + 1, n - 1);
    }
  }

  /** What is played in order from tick t on, is played in order. */
  lemma InOrderFromThen(size: Size, ring: Ring, s: Seq16, ssrc: int, f: nat -> Frame, t: nat, j: nat, lag: nat)
    requires |ring.slots| == size
    requires RingPlaysInOrder(size, TicksRing(size, ring, s, ssrc, f, 0, t), Add(s, t), ssrc, From(f, t), j, lag)
    ensures RingPlaysInOrder(size, ring, s, ssrc, f, t + j, lag)
  {
    hide PlaysRing, Add, TicksRing;
    AddAdd(s, t, j);
    TicksSplit(size, ring, s, ssrc, f, 0, t, j);
    TicksFrom(size, TicksRing(size, ring, s, ssrc, f, 0, t), s, ssrc, f, t, 0, j);
  }

  lemma SameControl(size: Size, ring: Ring)
    requires |ring.slots| == size
    ensures MapOf(size, ring).control == ring.control
  {
  }

  /** Near the stream a window past the wrap: the buffer heals from there. */
  lemma HealsOnceNear(size: Size, ring: Ring, s: Seq16, ssrc: int, f: nat -> Frame, t: nat) returns (lag: nat)
    requires RingInv(size, ring) && Add(s, t) >= size
    requires Near(size, TicksRing(size, ring, s, ssrc, f, 0, t).control, Add(s, t), ssrc)
    ensures lag < size
    ensures forall k: nat :: t + HealingBound(size, 0) <= k && Add(s, t) + (k - t) + size < MODULUS ==>
      RingPlaysInOrder(size, ring, s, ssrc, f, k, lag)
  {
    hide RingPlaysInOrder, CleanTicks, MapOf, TicksRing, Add, Diff;
    var q, caught := Add(s, t), TicksRing(size, ring, s, ssrc, f, 0, t);
    TicksKeepRingInv(size, ring, s, ssrc, f, 0, t);
    NearFollows(size, caught.control, q, ssrc);
    if q + size < MODULUS {
      NotBehind(size, caught.control, q, ssrc);
      lag := AnyRingHeals(size, caught, q, ssrc, From(f, t), 0);
    } else {
      lag := 0;
    }
    forall k: nat | t + HealingBound(size, 0) <= k && q + (k - t) + size < MODULUS
      ensures RingPlaysInOrder(size, ring, s, ssrc, f, k, lag)
    {
      SameControl(size, caught);
      FollowersAreClean(size, MapOf(size, caught), q, ssrc, From(f, t), 0, k - t + 1);
      InOrderFromThen(size, ring, s, ssrc, f, t, k - t, lag);
    }
  }

  lemma NotBehind(size: Size, c: Control, q: Seq16, ssrc: int)
    requires Follows(size, c, q, ssrc) && q + size < MODULUS
    ensures CleanWindow(c.expected, size) && Diff(q, c.expected) >= 0
  {
  }

  // ---- the theorems ---------------------------------------------------------------------------

  /** A ring in any state, of any size, whatever its window crosses and its slots hold: once the stream had
      the healing bound to be caught up with, and is a window past the wrap, the healing bound later every
      tick plays in order, until the window is about to wrap again. */
  lemma AnyRingRecovers(size: Size, ring: Ring, s: Seq16, ssrc: int, f: nat -> Frame, b: nat, t: nat)
    returns (lag: nat)
    requires RingInv(size, ring)
    requires var c := ring.control; c.started && c.ssrc == ssrc ==> Diff(s, c.expected) + b >= 0
    requires t >= HealingBound(size, b) && Add(s, t) >= size
    ensures lag < size
    ensures forall k: nat :: t + HealingBound(size, 0) <= k && Add(s, t) + (k - t) + size < MODULUS ==>
      RingPlaysInOrder(size, ring, s, ssrc, f, k, lag)
  {
    hide RingPlaysInOrder, TicksRing, Add, Diff, ToCatchUp, Near;
    AddZero(s);
    var n := CatchesUp(size, ring, s, ssrc, f, 0);
    CatchUpBound(size, ring, s, ssrc, b);
    StaysNear(size, ring, s, ssrc, f, n, t);
    lag := HealsOnceNear(size, ring, s, ssrc, f, t);
  }

  lemma StaysNear(size: Size, ring: Ring, s: Seq16, ssrc: int, f: nat -> Frame, n: nat, t: nat)
    requires |ring.slots| == size && n <= t
    requires Near(size, TicksRing(size, ring, s, ssrc, f, 0, n).control, Add(s, n), ssrc)
    ensures Near(size, TicksRing(size, ring, s, ssrc, f, 0, t).control, Add(s, t), ssrc)
  {
    hide TicksRing, Near, Add;
    TicksSplit(size, ring, s, ssrc, f, 0, n, t - n);
    NearTicks(size, TicksRing(size, ring, s, ssrc, f, 0, n), s, ssrc, f, n, t - n);
  }

  /** The buffer itself, of any size, after any operations at all, the wrap not excepted. */
  lemma RingRecovers(size: Size, ops: seq<Op>, s: Seq16, ssrc: int, f: nat -> Frame, b: nat, t: nat) returns (lag: nat)
    requires var c := AfterRing(size, InitRing(size), ops).control;
      c.started && c.ssrc == ssrc ==> Diff(s, c.expected) + b >= 0
    requires t >= HealingBound(size, b) && Add(s, t) >= size
    ensures lag < size
    ensures forall k: nat :: t + HealingBound(size, 0) <= k && Add(s, t) + (k - t) + size < MODULUS ==>
      RingPlaysInOrder(size, AfterRing(size, InitRing(size), ops), s, ssrc, f, k, lag)
  {
    hide RingPlaysInOrder, Diff, Add, AfterRing;
    InitRingInv(size);
    RunKeepsRingInv(size, InitRing(size), ops);
    lag := AnyRingRecovers(size, AfterRing(size, InitRing(size), ops), s, ssrc, f, b, t);
  }

  /** A lossless in-order stream into a fresh buffer of any size, past the wrap where the buffer may have
      lost packets: t is at most a window past it, and from the healing bound after t on every tick plays
      in order, until the window is about to wrap again. */
  lemma HealsAfterTheWrap(size: Size, s: Seq16, ssrc: int, f: nat -> Frame) returns (t: nat, lag: nat)
    ensures var w := MODULUS - s;
      && w <= t <= w + size && lag < size
      && forall k: nat :: t + HealingBound(size, 0) <= k && k - w + size < MODULUS ==>
        RingPlaysInOrder(size, InitRing(size), s, ssrc, f, k, lag)
  {
    hide RingPlaysInOrder, TicksRing, ToCatchUp;
    var w := MODULUS - s;
    t := w + size;
    InitRingInv(size);
    AddZero(s);
    var n := CatchesUp(size, InitRing(size), s, ssrc, f, 0);
    assert n <= 1 by {
      OneTickWhenFresh(size, s, ssrc);
    }
    StaysNear(size, InitRing(size), s, ssrc, f, n, t);
    assert Add(s, t) == size;
    lag := HealsOnceNear(size, InitRing(size), s, ssrc, f, t);
  }

  lemma OneTickWhenFresh(size: Size, s: Seq16, ssrc: int)
    ensures ToCatchUp(size, InitRing(size), s, ssrc) <= 1
  {
    hide Depth, Diff;
  }
}
