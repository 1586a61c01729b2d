/** A fresh jitter buffer and a lossless in-order stream: it plays in order until the numbers wrap,
    and past the wrap exactly when its size divides 65536. */
module JitterWrap {
  import opened Wrappers
  import opened SerialNumbers
  import opened Iterations
  import opened Sequences
  import opened JitterSpec
  import opened JitterRefinement
  import opened JitterHealing
  import opened JitterSelfHealing

  // ---- a fresh buffer, seen from its playout position -----------------------------

  /** After k ticks: priming until the window is full, then one window behind the stream. */
  ghost predicate Started(size: Size, x: Rel, f: nat -> Frame, k: nat) {
    if k == 0 then Anchors(size, x)
    else if k < size then Priming(size, x, f, k, k)
    else Healed(size, x, f, k, size - 1)
  }

  lemma StartedTick(size: Size, x: Rel, f: nat -> Frame, k: nat)
    requires Started(size, x, f, k)
    ensures Started(size, Tick(size, x, f(k)), f, k + 1)
  {
    hide Tick;
    if k == 0 {
      FirstTick(size, x, f);
    } else if k < size {
      PrimingTick(size, x, f, k, k);
    } else {
      HealedTick(size, x, f, k, size - 1);
    }
  }

  lemma FirstTick(size: Size, x: Rel, f: nat -> Frame)
    requires Anchors(size, x)
    ensures Started(size, Tick(size, x, f(0)), f, 1)
  {
  }

  lemma StartedTicks(size: Size, x: Rel, f: nat -> Frame, k: nat)
    requires Anchors(size, x)
    ensures Started(size, Ticks(size, x, f, 0, k), f, k)
  {
    hide Tick, Started, Anchors;
    var step := (y: Rel, i: nat) => Tick(size, y, f(i));
    var inv := (y: Rel, i: nat) => Started(size, y, f, i);
    forall y: Rel, i: nat | inv(y, i) ensures inv(step(y, i), i + 1) {
      StartedTick(size, y, f, i);
    }
    assert Started(size, x, f, 0) by {
      StartsAnchored(size, x, f);
    }
    Keeps(step, inv, x, 0, k);
  }

  lemma StartsAnchored(size: Size, x: Rel, f: nat -> Frame)
    ensures Started(size, x, f, 0) <==> Anchors(size, x)
  {
  }

  // ---- the fresh map ----------------------------------------------------------------

  ghost function Fresh(size: Size, s: Seq16, ssrc: int, f: nat -> Frame, k: nat): Ref {
    TicksRef(size, INIT_REF, s, ssrc, f, 0, k)
  }

  /** Before tick k > 0: how far behind the stream the playout is. */
  function Lag(size: Size, k: nat): nat {
    if k < size then k else size - 1
  }

  lemma FreshSees(size: Size, s: Seq16, ssrc: int, f: nat -> Frame, k: nat) returns (x: Rel)
    ensures RefInv(size, Fresh(size, s, ssrc, f, k)) && Started(size, x, f, k)
    ensures Views(size, Fresh(size, s, ssrc, f, k), Add(s, k), ssrc, x)
  {
    hide Tick, TickRef, Add, Sees, Started;
    var x0 := ViewOf(size, INIT_REF, s, ssrc);
    assert Add(s, 0) == s by {
      AddZero(s);
    }
    StartedTicks(size, x0, f, k);
    TicksView(size, INIT_REF, s, ssrc, f, x0, 0, k);
    x := Ticks(size, x0, f, 0, k);
  }

  /** Tuned to the stream from the first tick on. */
  lemma {:induction false} FreshIsTuned(size: Size, s: Seq16, ssrc: int, f: nat -> Frame, r: Ref, k: nat, n: nat)
    requires RefInv(size, r) && (n == 0 ==> r.control.started && r.control.ssrc == ssrc)
    ensures var r' := TicksRef(size, r, s, ssrc, f, k, n); r'.control.started && r'.control.ssrc == ssrc
    decreases n
  {
    hide RefInv, ReleaseRef, PushRef, Add;
    if n > 0 {
      var q := Add(s, k);
      var r1 := PushRef(size, r, q, ssrc, f(k)).0;
      RefInvPush(size, r, q, ssrc, f(k));
      RefInvRelease(size, r1);
      TunedAfter(size, r, q, ssrc, f(k));
      TunedAfter(size, r1, q, ssrc, f(k));
      StartedAfter(size, r, q, ssrc, f(k));
      FreshIsTuned(size, s, ssrc, f, TickRef(size, r, q, ssrc, f(k)), k + 1, n - 1);
    }
  }

  lemma StartedAfter(size: Size, r: Ref, q: Seq16, ssrc: int, f: Frame)
    requires RefInv(size, r)
    ensures TickRef(size, r, q, ssrc, f).control.started
  {
    hide Admit;
    AdmitKeepsWindow(size, r.control, q, ssrc);
    ReleaseKeepsStarted(size, PushRef(size, r, q, ssrc, f).0);
  }

  lemma ReleaseKeepsStarted(size: Size, r: Ref)
    ensures ReleaseRef(size, r).0.control.started == r.control.started
  {
  }

  /** Where the playout is before tick k, as long as the numbers have not wrapped. */
  lemma FreshPosition(size: Size, s: Seq16, ssrc: int, f: nat -> Frame, k: nat)
    requires s + size <= MODULUS && 0 < k && s + k <= MODULUS
    ensures var r := Fresh(size, s, ssrc, f, k);
      && r.control.started && r.control.ssrc == ssrc && RefInv(size, r)
      && Diff(Add(s, k), r.control.expected) == Lag(size, k)
      && r.control.expected == (s + k - Lag(size, k)) % MODULUS
      && (r.control.phase == Waiting ==> k < size) && r.control.phase != Frozen
  {
    hide Fresh, RefInv;
    var x := FreshSees(size, s, ssrc, f, k);
    InitImplements(size);
    var r := Fresh(size, s, ssrc, f, k);
    assert r.control.started && r.control.ssrc == ssrc by {
      FreshTuned(size, s, ssrc, f, k);
    }
    PositionOf(size, r, s, x, f, k);
  }

  lemma FreshTuned(size: Size, s: Seq16, ssrc: int, f: nat -> Frame, k: nat)
    requires k > 0
    ensures var r := Fresh(size, s, ssrc, f, k); r.control.started && r.control.ssrc == ssrc
  {
    InitImplements(size);
    FreshIsTuned(size, s, ssrc, f, INIT_REF, 0, k);
  }

  lemma PositionOf(size: Size, r: Ref, s: Seq16, x: Rel, f: nat -> Frame, k: nat)
    requires Sees(size, r, Add(s, k), x) && Started(size, x, f, k) && k > 0
    ensures Diff(Add(s, k), r.control.expected) == Lag(size, k)
    ensures r.control.expected == (s + k - Lag(size, k)) % MODULUS
    ensures (r.control.phase == Waiting ==> k < size) && r.control.phase != Frozen
  {
    var e := r.control.expected;
    assert x.gap == Lag(size, k);
    assert Add(e, Lag(size, k)) == Add(s, k);
  }

  /** Until the numbers wrap every window is clean, whatever the size. */
  lemma FreshOpensClean(size: Size, s: Seq16, ssrc: int, f: nat -> Frame, k: nat)
    requires s + size <= MODULUS && s + k < MODULUS
    ensures CleanWindow(Opens(size, Fresh(size, s, ssrc, f, k), Add(s, k), ssrc), size)
  {
    hide RefInv, Opens, Diff;
    var r := Fresh(size, s, ssrc, f, k);
    if k == 0 {
      OpensFirst(size, Add(s, k), ssrc);
    } else {
      hide Fresh;
      FreshPosition(size, s, ssrc, f, k);
      OpensTuned(size, r, Add(s, k), ssrc);
    }
  }

  lemma OpensFirst(size: Size, q: Seq16, ssrc: int)
    ensures Opens(size, INIT_REF, q, ssrc) == q
  {
  }

  lemma OpensTuned(size: Size, r: Ref, q: Seq16, ssrc: int)
    requires r.control.started && r.control.ssrc == ssrc && r.control.phase != Frozen
    requires Diff(q, r.control.expected) < size
    ensures Opens(size, r, q, ssrc) == r.control.expected
  {
    hide Diff;
  }

  lemma {:induction false} FreshIsClean(size: Size, s: Seq16, ssrc: int, f: nat -> Frame, k: nat)
    requires s + size <= MODULUS && s + k <= MODULUS
    ensures CleanTicks(size, INIT_REF, s, ssrc, f, 0, k)
  {
    hide Fresh, Opens, TickRef, Add;
    if k > 0 {
      FreshIsClean(size, s, ssrc, f, k - 1);
      FreshOpensClean(size, s, ssrc, f, k - 1);
      CleanTicksSplit(size, INIT_REF, s, ssrc, f, 0, k - 1);
      FreshIs(size, s, ssrc, f, k - 1);
    }
  }

  lemma FreshIs(size: Size, s: Seq16, ssrc: int, f: nat -> Frame, k: nat)
    ensures Fresh(size, s, ssrc, f, k) == TicksRef(size, INIT_REF, s, ssrc, f, 0, k)
  {
  }

  // ---- at the wrap ----------------------------------------------------------------

  /** The ring of a fresh buffer after k ticks. */
  ghost function FreshRing(size: Size, s: Seq16, ssrc: int, f: nat -> Frame, k: nat): (r: Ring)
    ensures |r.slots| == size
  {
    TicksRing(size, InitRing(size), s, ssrc, f, 0, k)
  }

  lemma FreshRingIsMap(size: Size, s: Seq16, ssrc: int, f: nat -> Frame, k: nat)
    requires s + size <= MODULUS && s + k <= MODULUS
    ensures Implements(size, FreshRing(size, s, ssrc, f, k), Fresh(size, s, ssrc, f, k))
  {
    hide Implements, RefInv;
    InitImplements(size);
    FreshIsClean(size, s, ssrc, f, k);
    TicksRefine(size, InitRing(size), INIT_REF, s, ssrc, f, 0, k);
  }

  /** The last number before the wrap with slot 0 is still waiting to be played. */
  lemma SlotZeroIsFull(size: Size, s: Seq16, ssrc: int, f: nat -> Frame)
    requires s + size <= MODULUS && MODULUS % size != 0
    ensures FreshRing(size, s, ssrc, f, MODULUS - s).slots[0].Some?
  {
    hide Fresh, FreshRing, Slot, Healed, Diff, Holds, RefInv, Below;
    var k := MODULUS - s;
    var r := Fresh(size, s, ssrc, f, k);
    var m := MODULUS % size;
    FreshRingIsMap(size, s, ssrc, f, k);
    FreshPosition(size, s, ssrc, f, k);
    assert r.control.expected == MODULUS - (size - 1);
    var x := FreshSees(size, s, ssrc, f, k);
    HealedHolds(size, x, f, k, size - 1 - m);
    assert Add(r.control.expected, size - 1 - m) == MODULUS - m;
    WindowSlotFull(size, FreshRing(size, s, ssrc, f, k), r, size - 1 - m);
    SlotOfMultiple(size);
  }

  lemma WindowSlotFull(size: Size, ring: Ring, r: Ref, j: nat)
    requires Implements(size, ring, r) && At(r, j).Some?
    ensures ring.slots[Slot(Add(r.control.expected, j), size)].Some?
  {
    hide Add, Slot;
  }

  lemma HealedHolds(size: Size, x: Rel, f: nat -> Frame, k: nat, j: nat)
    requires Healed(size, x, f, k, size - 1) && j < size - 1
    ensures x.win(j).Some?
  {
  }

  lemma SlotOfMultiple(size: Size)
    requires MODULUS % size != 0
    ensures Slot(MODULUS - MODULUS % size, size) == 0
  {
    SlotNearWrap(MODULUS % size, size);
  }

  /** Number 0 is taken for it, and goes back to the pool. */
  lemma ZeroIsMisjudged(size: Size, s: Seq16, ssrc: int, f: nat -> Frame)
    requires s + size <= MODULUS && MODULUS % size != 0
    ensures var k := MODULUS - s;
      var p := PushRing(size, FreshRing(size, s, ssrc, f, k), Add(s, k), ssrc, f(k));
      p.notes == [Duplicate] && p.pooled == [f(k)]
  {
    hide Fresh, FreshRing, Holds, PushRing, RefInv, Diff;
    var k := MODULUS - s;
    FreshRingIsMap(size, s, ssrc, f, k);
    FreshPosition(size, s, ssrc, f, k);
    SlotZeroIsFull(size, s, ssrc, f);
    assert Slot(0, size) == 0 by {
      SmallSlot(0, size);
    }
    JudgedDuplicate(size, FreshRing(size, s, ssrc, f, k), Add(s, k), ssrc, f(k));
  }

  lemma JudgedDuplicate(size: Size, r: Ring, q: Seq16, ssrc: int, f: Frame)
    requires |r.slots| == size && r.control.started && r.control.ssrc == ssrc && r.control.phase == Active
    requires InWindow(q, r.control.expected, size) && r.slots[Slot(q, size)].Some?
    ensures PushRing(size, r, q, ssrc, f) == Pushed(r, [Duplicate], [f])
  {
    hide Diff, Depth, Buffered;
  }

  // ---- lost ------------------------------------------------------------------------

  lemma TickOwns(size: Size, r: Ring, q: Seq16, ssrc: int, frame: Frame, g: Frame)
    requires |r.slots| == size
    ensures Copies(g, r.slots) + One(g, Some(frame))
      == Copies(g, TickRing(size, r, q, ssrc, frame).slots) + One(g, PlaysRing(size, r, q, ssrc, frame))
         + Times(g, PushRing(size, r, q, ssrc, frame).pooled)
  {
    hide PushRing, ReleaseRing, Copies, Times;
    PushOwns(size, r, q, ssrc, frame, g);
    ReleaseOwns(size, PushRing(size, r, q, ssrc, frame).ring, g);
  }

  lemma {:induction false} NeverHeld(size: Size, r: Ring, s: Seq16, ssrc: int, f: nat -> Frame, g: Frame, k: nat,
      n: nat)
    requires |r.slots| == size && Copies(g, r.slots) == 0 && forall i: nat :: k <= i < k + n ==> f(i) != g
    ensures Copies(g, TicksRing(size, r, s, ssrc, f, k, n).slots) == 0
    decreases n
  {
    hide TickRing, PlaysRing, PushRing, Copies, Times, Add;
    if n > 0 {
      TickOwns(size, r, Add(s, k), ssrc, f(k), g);
      NeverHeld(size, TickRing(size, r, Add(s, k), ssrc, f(k)), s, ssrc, f, g, k + 1, n - 1);
    }
  }

  lemma {:induction false} TicksSplit(size: Size, r: Ring, s: Seq16, ssrc: int, f: nat -> Frame, k: nat, m: nat, n: nat)
    requires |r.slots| == size
    ensures TicksRing(size, r, s, ssrc, f, k, m + n)
      == TicksRing(size, TicksRing(size, r, s, ssrc, f, k, m), s, ssrc, f, k + m, n)
    decreases m
  {
    hide TickRing, Add;
    if m > 0 {
      TicksSplit(size, TickRing(size, r, Add(s, k), ssrc, f(k)), s, ssrc, f, k + 1, m - 1, n);
    }
  }

  ghost predicate Distinct(f: nat -> Frame) {
    forall i: nat, j: nat :: f(i) == f(j) ==> i == j
  }

  ghost function FreshPlays(size: Size, s: Seq16, ssrc: int, f: nat -> Frame, k: nat): Option<Frame> {
    PlaysRing(size, FreshRing(size, s, ssrc, f, k), Add(s, k), ssrc, f(k))
  }

  /** A lossless in-order stream from a fresh buffer, of any size that does not divide 65536: its
      packet number 0 is judged a duplicate, given back, and never played. */
  lemma WrapLosesPacket(size: Size, s: Seq16, ssrc: int, f: nat -> Frame, k: nat)
    requires s + size <= MODULUS && MODULUS % size != 0 && Distinct(f)
    ensures var w := MODULUS - s;
      PushRing(size, FreshRing(size, s, ssrc, f, w), 0, ssrc, f(w)).notes == [Duplicate]
      && FreshPlays(size, s, ssrc, f, k) != Some(f(w))
  {
    hide PlaysRing, PushRing, TickRing, Copies, TicksRing;
    var w := MODULUS - s;
    var lost := f(w);
    ZeroIsMisjudged(size, s, ssrc, f);
    NoneHeld(EmptySlots(size), lost);
    var ring := FreshRing(size, s, ssrc, f, w);
    NeverHeld(size, InitRing(size), s, ssrc, f, lost, 0, w);
    TickOwns(size, ring, Add(s, w), ssrc, f(w), lost);
    TimesOne(lost, Some(lost));
    assert Copies(lost, TickRing(size, ring, Add(s, w), ssrc, f(w)).slots) == 0;
    if k < w {
      NeverHeld(size, InitRing(size), s, ssrc, f, lost, 0, k);
      TickOwns(size, FreshRing(size, s, ssrc, f, k), Add(s, k), ssrc, f(k), lost);
    } else if k > w {
      LostStays(size, s, ssrc, f, lost, w, k);
      TickOwns(size, FreshRing(size, s, ssrc, f, k), Add(s, k), ssrc, f(k), lost);
    }
  }

  lemma LostStays(size: Size, s: Seq16, ssrc: int, f: nat -> Frame, g: Frame, w: nat, k: nat)
    requires Copies(g, TickRing(size, FreshRing(size, s, ssrc, f, w), Add(s, w), ssrc, f(w)).slots) == 0
    requires w < k && forall i: nat :: w < i ==> f(i) != g
    ensures Copies(g, FreshRing(size, s, ssrc, f, k).slots) == 0
  {
    hide TickRing, Copies, Add;
    var r := InitRing(size);
    TicksSplit(size, r, s, ssrc, f, 0, w, 1);
    TicksSplit(size, r, s, ssrc, f, 0, w + 1, k - w - 1);
    var after := TicksRing(size, FreshRing(size, s, ssrc, f, w), s, ssrc, f, w, 1);
    assert after == TickRing(size, FreshRing(size, s, ssrc, f, w), Add(s, w), ssrc, f(w));
    NeverHeld(size, after, s, ssrc, f, g, w + 1, k - w - 1);
  }

  // ---- the exact condition -------------------------------------------------------------

  /** From tick `from` on, every tick plays the packet `lag` before it. */
  ghost predicate InOrderFrom(size: Size, s: Seq16, ssrc: int, f: nat -> Frame, from: nat, lag: nat) {
    forall k: nat :: k >= from ==> RingPlaysInOrder(size, InitRing(size), s, ssrc, f, k, lag)
  }

  ghost predicate HealedBy(size: Size, s: Seq16, ssrc: int, f: nat -> Frame, from: nat) {
    exists lag: nat :: InOrderFrom(size, s, ssrc, f, from, lag)
  }

  /** Whatever the size, a fresh buffer plays the stream in order until its numbers wrap. */
  lemma InOrderUntilTheWrap(size: Size, s: Seq16, ssrc: int, f: nat -> Frame, k: nat)
    requires s + size <= MODULUS && size <= k && s + k < MODULUS
    ensures RingPlaysInOrder(size, InitRing(size), s, ssrc, f, k, size - 1)
  {
    hide RingPlaysInOrder, PlaysInOrder, CleanTicks, RefInv, Implements;
    FreshPlaysAsHealed(size, s, ssrc, f, k);
    FreshIsClean(size, s, ssrc, f, k + 1);
    InitImplements(size);
    RingPlaysAsRef(size, InitRing(size), INIT_REF, s, ssrc, f, k, size - 1);
  }

  lemma FreshPlaysAsHealed(size: Size, s: Seq16, ssrc: int, f: nat -> Frame, k: nat)
    requires size <= k
    ensures PlaysInOrder(size, INIT_REF, s, ssrc, f, k, size - 1)
  {
    hide PlaysInOrder, Ticks;
    var x0 := ViewOf(size, INIT_REF, s, ssrc);
    assert Add(s, 0) == s;
    InitImplements(size);
    StartedTicks(size, x0, f, k);
    HealedPlays(size, INIT_REF, s, ssrc, f, x0, k, size - 1);
  }

  lemma FreshHeals(size: Size, s: Seq16, ssrc: int, f: nat -> Frame, from: nat)
    requires MODULUS % size == 0 && from >= size
    ensures HealedBy(size, s, ssrc, f, from)
  {
    hide RingPlaysInOrder, PlaysInOrder, CleanTicks;
    var lag := size - 1;
    InitImplements(size);
    forall k: nat | k >= from ensures RingPlaysInOrder(size, InitRing(size), s, ssrc, f, k, lag) {
      FreshPlaysAsHealed(size, s, ssrc, f, k);
      DividingTicksAreClean(size, INIT_REF, s, ssrc, f, 0, k + 1);
      RingPlaysAsRef(size, InitRing(size), INIT_REF, s, ssrc, f, k, lag);
    }
    assert InOrderFrom(size, s, ssrc, f, from, lag);
  }

  lemma WrapBreaksOrder(size: Size, ssrc: int, f: nat -> Frame, from: nat, lag: nat)
    requires MODULUS % size != 0 && size <= from <= MODULUS && Distinct(f)
    ensures !InOrderFrom(size, MODULUS - from, ssrc, f, from, lag)
  {
    hide PlaysRing, TicksRing, Add;
    var s := MODULUS - from;
    WrapLosesPacket(size, s, ssrc, f, from + lag);
    assert !RingPlaysInOrder(size, InitRing(size), s, ssrc, f, from + lag, lag);
  }

  /** A fresh buffer plays every lossless in-order stream in order from tick `from` on exactly when
      its size divides 65536. That is said of the healing bound (any tick up to 65536 does), which
      every configured size keeps well below it. */
  lemma RingHealsExactlyWhenSizeDivides(size: Size, f: nat -> Frame, from: nat)
    requires size <= from <= MODULUS && Distinct(f)
    ensures (forall s: Seq16, ssrc: int :: HealedBy(size, s, ssrc, f, from)) <==> MODULUS % size == 0
  {
    hide RingPlaysInOrder, InOrderFrom;
    if MODULUS % size == 0 {
      forall s: Seq16, ssrc: int ensures HealedBy(size, s, ssrc, f, from) {
        FreshHeals(size, s, ssrc, f, from);
      }
    } else {
      var s: Seq16 := MODULUS - from;
      forall lag: nat ensures !InOrderFrom(size, s, 0, f, from, lag) {
        WrapBreaksOrder(size, 0, f, from, lag);
      }
      assert !HealedBy(size, s, 0, f, from);
    }
  }
}
