/** Self-healing of the jitter buffer itself: the relative view of JitterHealing is what the
    reference does, and the ring does the same as long as its windows are clean. */
module JitterSelfHealing {
  import opened Wrappers
  import opened SerialNumbers
  import opened Iterations
  import opened JitterSpec
  import opened JitterRefinement
  import opened JitterMaps
  import opened JitterHealing

  /** x is r seen from its playout position, with packet q next. */
  ghost predicate Sees(size: Size, r: Ref, q: Seq16, x: Rel) {
    && r.control.started
    && x.phase == r.control.phase && x.misses == r.control.misses && x.priming == r.control.priming
    && x.gap == Diff(q, r.control.expected) && x.depth == |r.buf|
    && Below(x, size)
    && forall j :: 0 <= j < size ==> x.win(j) == At(r, j)
  }

  /** The frame at offset j of the window. */
  function At(r: Ref, j: int): Option<Frame> {
    var n := Add(r.control.expected, j);
    if n in r.buf then Some(r.buf[n]) else None
  }

  lemma OffsetsDiffer(e: Seq16, i: int, j: int)
    requires 0 <= i < 32768 && 0 <= j < 32768
    ensures Add(e, i) == Add(e, j) <==> i == j
  {
  }

  lemma SeesAnchor(size: Size, r: Ref, q: Seq16, f: Frame)
    requires r.control.started && r.control.expected == q && r.buf == map[q := f]
    requires r.control.phase == Waiting && r.control.misses == 0 && r.control.priming == 0
    ensures Sees(size, r, q, Anchored(f))
  {
    forall j | 0 <= j < size ensures Anchored(f).win(j) == At(r, j) {
      OffsetsDiffer(q, 0, j);
      assert Add(q, 0) == q;
    }
  }

  lemma SeesPush(size: Size, r: Ref, q: Seq16, ssrc: int, f: Frame, x: Rel)
    requires Sees(size, r, q, x) && r.control.ssrc == ssrc
    ensures Sees(size, PushRef(size, r, q, ssrc, f).0, q, PushRel(size, x, f))
  {
    var r' := PushRef(size, r, q, ssrc, f).0;
    if Anchors(size, x) {
      SeesAnchor(size, r', q, f);
    } else if x.phase != Frozen && 0 <= x.gap < size {
      assert Add(r.control.expected, x.gap) == q && x.win(x.gap) == At(r, x.gap);
      if q !in r.buf {
        SeesStored(size, r, q, f, x, PushRel(size, x, f));
      }
    }
  }

  /** The packet was stored at offset x.gap. */
  lemma SeesStored(size: Size, r: Ref, q: Seq16, f: Frame, x: Rel, y: Rel)
    requires Sees(size, r, q, x) && q !in r.buf && 0 <= x.gap < size
    requires y == x.(depth := x.depth + 1, win := y.win)
    requires forall j :: y.win(j) == if j == x.gap then Some(f) else x.win(j)
    ensures Sees(size, r.(buf := r.buf[q := f]), q, y)
  {
    hide Diff, Add;
    var r' := r.(buf := r.buf[q := f]);
    assert r'.buf.Keys == r.buf.Keys + {q};
    forall j | 0 <= j < size ensures y.win(j) == At(r', j) {
      OffsetsDiffer(r.control.expected, x.gap, j);
    }
  }

  lemma GapKept(q: Seq16, e: Seq16)
    ensures Diff(Add(q, 1), Add(e, 1)) == Diff(q, e)
  {
    hide Diff;
    DiffShift(q, e, 1, 1);
  }

  lemma GapGrows(q: Seq16, e: Seq16)
    requires Diff(q, e) < 32767
    ensures Diff(Add(q, 1), e) == Diff(q, e) + 1
  {
    hide Diff;
    DiffShift(q, e, 1, 0);
    assert Add(e, 0) == e;
  }

  /** The window moved on by one: offset j is what offset j + 1 was. */
  lemma MovedOn(size: Size, r: Ref, r': Ref, x: Rel, y: Rel)
    requires forall n :: n in r.buf ==> InWindow(n, r.control.expected, size)
    requires forall j :: 0 <= j < size ==> x.win(j) == At(r, j)
    requires r'.control.expected == Add(r.control.expected, 1) && r'.buf == r.buf - {r.control.expected}
    requires Below(x, size) && y.win == (j => x.win(j + 1))
    ensures Below(y, size) && forall j :: 0 <= j < size ==> y.win(j) == At(r', j)
  {
    forall j | 0 <= j < size ensures y.win(j) == At(r', j) {
      AddAdd(r.control.expected, 1, j);
      OffsetsDiffer(r.control.expected, 0, j + 1);
      assert Add(r.control.expected, 0) == r.control.expected;
      if j + 1 == size {
        DiffAdd(r.control.expected, size);
        assert Add(r.control.expected, size) !in r.buf;
      } else {
        assert x.win(j + 1) == At(r, j + 1);
      }
    }
  }

  lemma SeesRelease(size: Size, r: Ref, q: Seq16, x: Rel)
    requires Sees(size, r, q, x) && RefInv(size, r)
    requires x.phase != Active ==> x.gap < size
    ensures var (r', out), (y, played) := ReleaseRef(size, r), ReleaseRel(size, x);
      Sees(size, r', Add(q, 1), y.(gap := y.gap + 1)) && out.played == played
  {
    hide Diff, Add, InWindow;
    var e := r.control.expected;
    AddZero(e);
    assert x.win(0) == At(r, 0);
    var (c, silent) := Gate(size, r.control, |r.buf|);
    assert GateRel(size, x) == (x.(phase := c.phase, misses := c.misses, priming := c.priming), silent);
    if silent || (e !in r.buf && c.phase == Frozen) {
      GapGrows(q, e);
    } else {
      ReleaseMoves(size, r, q, x);
    }
  }

  lemma ReleaseMoves(size: Size, r: Ref, q: Seq16, x: Rel)
    requires Sees(size, r, q, x) && RefInv(size, r)
    requires var (c, silent) := Gate(size, r.control, |r.buf|);
      !silent && (r.control.expected in r.buf || c.phase != Frozen)
    ensures var (r', out), (y, played) := ReleaseRef(size, r), ReleaseRel(size, x);
      Sees(size, r', Add(q, 1), y.(gap := y.gap + 1)) && out.played == played
  {
    hide Diff, Add, InWindow;
    AddZero(r.control.expected);
    assert x.win(0) == At(r, 0);
    if r.control.expected in r.buf {
      ReleaseHits(size, r, q, x);
    } else {
      ReleaseMisses(size, r, q, x);
    }
  }

  lemma ReleaseHits(size: Size, r: Ref, q: Seq16, x: Rel)
    requires Sees(size, r, q, x) && RefInv(size, r)
    requires !Gate(size, r.control, |r.buf|).1 && r.control.expected in r.buf && x.win(0) == At(r, 0)
    ensures var (r', out), (y, played) := ReleaseRef(size, r), ReleaseRel(size, x);
      Sees(size, r', Add(q, 1), y.(gap := y.gap + 1)) && out.played == played
  {
    hide Diff, Add, InWindow;
    var r', y, e := ReleaseRef(size, r).0, ReleaseRel(size, x).0, r.control.expected;
    AddZero(e);
    GapKept(q, e);
    assert r'.buf.Keys == r.buf.Keys - {e};
    MovedOn(size, r, r', x, y);
  }

  lemma ReleaseMisses(size: Size, r: Ref, q: Seq16, x: Rel)
    requires Sees(size, r, q, x) && RefInv(size, r)
    requires var (c, silent) := Gate(size, r.control, |r.buf|); !silent && c.phase != Frozen
    requires r.control.expected !in r.buf && x.win(0) == At(r, 0)
    ensures var (r', out), (y, played) := ReleaseRef(size, r), ReleaseRel(size, x);
      Sees(size, r', Add(q, 1), y.(gap := y.gap + 1)) && out.played == played
  {
    hide Diff, Add, InWindow;
    var r', y, e := ReleaseRef(size, r).0, ReleaseRel(size, x).0, r.control.expected;
    AddZero(e);
    GapKept(q, e);
    assert r.buf - {e} == r.buf;
    MovedOn(size, r, r', x, y);
  }

  lemma AddZero(e: Seq16)
    ensures Add(e, 0) == e
  {
  }

  lemma PushGap(size: Size, x: Rel, f: Frame)
    ensures var y := PushRel(size, x, f); y.phase != Active ==> y.gap < size
  {
  }

  /** The view a tick starts from: of a buffer this stream is not tuned to, one about to anchor. */
  ghost function ViewOf(size: Size, r: Ref, q: Seq16, ssrc: int): Rel {
    if r.control.started && r.control.ssrc == ssrc then
      Rel(r.control.phase, r.control.misses, r.control.priming, Diff(q, r.control.expected), |r.buf|,
          j => if 0 <= j < size then At(r, j) else None)
    else Rel(Frozen, 0, 0, 0, 0, _ => None)
  }

  ghost function TickRef(size: Size, r: Ref, q: Seq16, ssrc: int, f: Frame): Ref {
    ReleaseRef(size, PushRef(size, r, q, ssrc, f).0).0
  }

  ghost function PlaysRef(size: Size, r: Ref, q: Seq16, ssrc: int, f: Frame): Option<Frame> {
    ReleaseRef(size, PushRef(size, r, q, ssrc, f).0).1.played
  }

  ghost predicate Views(size: Size, r: Ref, q: Seq16, ssrc: int, x: Rel) {
    if r.control.started && r.control.ssrc == ssrc then Sees(size, r, q, x)
    else x == ViewOf(size, r, q, ssrc)
  }

  lemma TickViews(size: Size, r: Ref, q: Seq16, ssrc: int, f: Frame, x: Rel)
    requires RefInv(size, r) && Views(size, r, q, ssrc, x)
    ensures var r' := TickRef(size, r, q, ssrc, f);
      && RefInv(size, r') && r'.control.started && r'.control.ssrc == ssrc
      && Sees(size, r', Add(q, 1), Tick(size, x, f))
    ensures PlaysRef(size, r, q, ssrc, f) == Plays(size, x, f)
  {
    hide Diff, Add, ReleaseRel, ReleaseRef, PushRef, RefInv;
    var r1 := PushRef(size, r, q, ssrc, f).0;
    RefInvPush(size, r, q, ssrc, f);
    RefInvRelease(size, r1);
    TunedAfter(size, r, q, ssrc, f);
    TunedAfter(size, r1, q, ssrc, f);
    if r.control.started && r.control.ssrc == ssrc {
      SeesPush(size, r, q, ssrc, f, x);
    } else {
      AnchorsWhenUntuned(size, r, q, ssrc, f);
      SeesAnchor(size, r1, q, f);
    }
    PushGap(size, x, f);
    SeesRelease(size, r1, q, PushRel(size, x, f));
  }

  lemma AnchorsWhenUntuned(size: Size, r: Ref, q: Seq16, ssrc: int, f: Frame)
    requires RefInv(size, r) && !(r.control.started && r.control.ssrc == ssrc)
    ensures var r1 := PushRef(size, r, q, ssrc, f).0;
      r1.control == Control(true, Waiting, 0, 0, q, ssrc) && r1.buf == map[q := f]
  {
    var empty: map<Seq16, Frame> := map[];
    assert empty[q := f] == map[q := f];
  }

  lemma TunedAfter(size: Size, r: Ref, q: Seq16, ssrc: int, f: Frame)
    requires RefInv(size, r)
    ensures PushRef(size, r, q, ssrc, f).0.control.ssrc == ssrc
    ensures ReleaseRef(size, r).0.control.ssrc == r.control.ssrc
  {
  }

  /** n ticks of the stream whose packet i has number s + i and frame f(i), from packet k. */
  ghost function TicksRef(size: Size, r: Ref, s: Seq16, ssrc: int, f: nat -> Frame, k: nat, n: nat): Ref {
    Iterate((y: Ref, i: nat) => TickRef(size, y, Add(s, i), ssrc, f(i)), r, k, n)
  }

  lemma {:induction false} TicksView(size: Size, r: Ref, s: Seq16, ssrc: int, f: nat -> Frame, x: Rel, k: nat, n: nat)
    requires RefInv(size, r) && Views(size, r, Add(s, k), ssrc, x)
    ensures var r' := TicksRef(size, r, s, ssrc, f, k, n);
      RefInv(size, r') && Views(size, r', Add(s, k + n), ssrc, Ticks(size, x, f, k, n))
    decreases n
  {
    hide Tick, TickRef, Sees, RefInv, Add;
    if n > 0 {
      TickViews(size, r, Add(s, k), ssrc, f(k), x);
      AddAdd(s, k, 1);
      TicksView(size, TickRef(size, r, Add(s, k), ssrc, f(k)), s, ssrc, f, Tick(size, x, f(k)), k + 1, n - 1);
    }
  }

  /** What tick k of the stream plays, and the phase it leaves. */
  ghost predicate PlaysInOrder(size: Size, r: Ref, s: Seq16, ssrc: int, f: nat -> Frame, k: nat, lag: nat) {
    var before := TicksRef(size, r, s, ssrc, f, 0, k);
    && lag <= k
    && before.control.phase == Active
    && PlaysRef(size, before, Add(s, k), ssrc, f(k)) == Some(f(k - lag))
  }

  lemma HealedPlays(size: Size, r: Ref, s: Seq16, ssrc: int, f: nat -> Frame, x: Rel, k: nat, lag: nat)
    requires RefInv(size, r) && Views(size, r, Add(s, 0), ssrc, x)
    requires Healed(size, Ticks(size, x, f, 0, k), f, k, lag)
    ensures PlaysInOrder(size, r, s, ssrc, f, k, lag)
  {
    hide Tick, Plays, TickRef, PlaysRef, Iterate, Diff, Add, At;
    var before, y := TicksRef(size, r, s, ssrc, f, 0, k), Ticks(size, x, f, 0, k);
    TicksView(size, r, s, ssrc, f, x, 0, k);
    assert Views(size, before, Add(s, k), ssrc, y);
    HealedTick(size, y, f, k, lag);
    TickViews(size, before, Add(s, k), ssrc, f(k), y);
  }

  /** From any state that can be reached, with a stream that starts at most b behind the playout
      position (or has a new SSRC): from the bound on, every tick plays the packet `lag` before it. */
  lemma SelfHeals(size: Size, r: Ref, s: Seq16, ssrc: int, f: nat -> Frame, b: nat) returns (lag: nat)
    requires RefInv(size, r)
    requires r.control.started && r.control.ssrc == ssrc ==> Diff(s, r.control.expected) + b >= 0
    ensures lag < size
    ensures forall k: nat :: k >= HealingBound(size, b) ==> PlaysInOrder(size, r, s, ssrc, f, k, lag)
  {
    hide PlaysInOrder, Ticks;
    var x := ViewOf(size, r, s, ssrc);
    assert Add(s, 0) == s;
    InitialView(size, r, s, ssrc);
    var n;
    n, lag := Heals(size, x, f, 0, b);
    forall k: nat | k >= HealingBound(size, b) ensures PlaysInOrder(size, r, s, ssrc, f, k, lag) {
      StaysHealed(size, x, f, 0, lag, n, k - n);
      HealedPlays(size, r, s, ssrc, f, x, k, lag);
    }
  }

  lemma InitialView(size: Size, r: Ref, q: Seq16, ssrc: int)
    requires RefInv(size, r)
    ensures Views(size, r, q, ssrc, ViewOf(size, r, q, ssrc)) && Inv(size, ViewOf(size, r, q, ssrc))
  {
  }

  // ---- the ring ----------------------------------------------------------------

  function TickRing(size: Size, r: Ring, q: Seq16, ssrc: int, f: Frame): (r': Ring)
    requires |r.slots| == size
    ensures |r'.slots| == size
  {
    ReleaseRing(size, PushRing(size, r, q, ssrc, f).ring).0
  }

  function PlaysRing(size: Size, r: Ring, q: Seq16, ssrc: int, f: Frame): Option<Frame>
    requires |r.slots| == size
  {
    ReleaseRing(size, PushRing(size, r, q, ssrc, f).ring).1.played
  }

  ghost function TicksRing(size: Size, r: Ring, s: Seq16, ssrc: int, f: nat -> Frame, k: nat, n: nat): (r': Ring)
    requires |r.slots| == size
    ensures |r'.slots| == size
    decreases n
  {
    if n == 0 then r
    else TicksRing(size, TickRing(size, r, Add(s, k), ssrc, f(k)), s, ssrc, f, k + 1, n - 1)
  }

  /** The window tick q opens. */
  function Opens(size: Size, r: Ref, q: Seq16, ssrc: int): Seq16 {
    Admit(size, r.control, q, ssrc).control.expected
  }

  /** Every window the reference opens on n ticks, from packet k, is clean. */
  ghost predicate CleanTicks(size: Size, r: Ref, s: Seq16, ssrc: int, f: nat -> Frame, k: nat, n: nat)
    decreases n
  {
    n == 0 || (
      && CleanWindow(Opens(size, r, Add(s, k), ssrc), size)
      && CleanTicks(size, TickRef(size, r, Add(s, k), ssrc, f(k)), s, ssrc, f, k + 1, n - 1))
  }

  lemma {:induction false} CleanTicksSplit(size: Size, r: Ref, s: Seq16, ssrc: int, f: nat -> Frame, k: nat, n: nat)
    ensures CleanTicks(size, r, s, ssrc, f, k, n + 1)
      <==> CleanTicks(size, r, s, ssrc, f, k, n)
           && CleanWindow(Opens(size, TicksRef(size, r, s, ssrc, f, k, n), Add(s, k + n), ssrc), size)
    decreases n
  {
    hide TickRef, Add, Opens;
    if n > 0 {
      CleanTicksSplit(size, TickRef(size, r, Add(s, k), ssrc, f(k)), s, ssrc, f, k + 1, n - 1);
    }
  }

  lemma TickRefines(size: Size, ring: Ring, r: Ref, q: Seq16, ssrc: int, f: Frame)
    requires CleanWindow(Opens(size, r, q, ssrc), size) && Implements(size, ring, r) && RefInv(size, r)
    ensures Implements(size, TickRing(size, ring, q, ssrc, f), TickRef(size, r, q, ssrc, f))
    ensures RefInv(size, TickRef(size, r, q, ssrc, f))
    ensures PlaysRing(size, ring, q, ssrc, f) == PlaysRef(size, r, q, ssrc, f)
  {
    hide RefInv, PushRing, ReleaseRing, ReleaseRef, Admit;
    PushRefines(size, ring, r, q, ssrc, f);
    RefInvPush(size, r, q, ssrc, f);
    var ring1, r1 := PushRing(size, ring, q, ssrc, f).ring, PushRef(size, r, q, ssrc, f).0;
    ReleaseRefines(size, ring1, r1);
    RefInvRelease(size, r1);
  }

  lemma {:induction false} TicksRefine(size: Size, ring: Ring, r: Ref, s: Seq16, ssrc: int, f: nat -> Frame, k: nat,
      n: nat)
    requires CleanTicks(size, r, s, ssrc, f, k, n) && Implements(size, ring, r) && RefInv(size, r)
    ensures Implements(size, TicksRing(size, ring, s, ssrc, f, k, n), TicksRef(size, r, s, ssrc, f, k, n))
    ensures RefInv(size, TicksRef(size, r, s, ssrc, f, k, n))
    decreases n
  {
    hide RefInv, TickRing, TickRef, Add, Opens;
    if n > 0 {
      TickRefines(size, ring, r, Add(s, k), ssrc, f(k));
      TicksRefine(size, TickRing(size, ring, Add(s, k), ssrc, f(k)), TickRef(size, r, Add(s, k), ssrc, f(k)),
        s, ssrc, f, k + 1, n - 1);
    }
  }

  ghost predicate RingPlaysInOrder(size: Size, r: Ring, s: Seq16, ssrc: int, f: nat -> Frame, k: nat, lag: nat)
    requires |r.slots| == size
  {
    lag <= k && PlaysRing(size, TicksRing(size, r, s, ssrc, f, 0, k), Add(s, k), ssrc, f(k)) == Some(f(k - lag))
  }

  lemma RingPlaysAsRef(size: Size, ring: Ring, r: Ref, s: Seq16, ssrc: int, f: nat -> Frame, k: nat, lag: nat)
    requires Implements(size, ring, r) && RefInv(size, r) && CleanTicks(size, r, s, ssrc, f, 0, k + 1)
    requires PlaysInOrder(size, r, s, ssrc, f, k, lag)
    ensures RingPlaysInOrder(size, ring, s, ssrc, f, k, lag)
  {
    hide PlaysRing, PlaysRef, TicksRing, TicksRef, RefInv, CleanTicks, Opens, Add;
    CleanTicksSplit(size, r, s, ssrc, f, 0, k);
    TicksRefine(size, ring, r, s, ssrc, f, 0, k);
    TickRefines(size, TicksRing(size, ring, s, ssrc, f, 0, k), TicksRef(size, r, s, ssrc, f, 0, k), Add(s, k), ssrc,
        f(k));
  }

  /** A ring in any state, of any size, with a clean window: from the bound on every tick plays in
      order, as long as the windows stay clean. */
  lemma AnyRingHeals(size: Size, ring: Ring, s: Seq16, ssrc: int, f: nat -> Frame, b: nat) returns (lag: nat)
    requires RingInv(size, ring) && CleanWindow(ring.control.expected, size)
    requires var c := ring.control; c.started && c.ssrc == ssrc ==> Diff(s, c.expected) + b >= 0
    ensures lag < size
    ensures forall k: nat ::
      k >= HealingBound(size, b) && CleanTicks(size, MapOf(size, ring), s, ssrc, f, 0, k + 1) ==>
      RingPlaysInOrder(size, ring, s, ssrc, f, k, lag)
  {
    hide PlaysInOrder, RingPlaysInOrder, Diff, RefInv, CleanTicks;
    var r := MapOf(size, ring);
    AnyRingIsAMap(size, ring);
    lag := SelfHeals(size, r, s, ssrc, f, b);
    forall k: nat | k >= HealingBound(size, b) && CleanTicks(size, r, s, ssrc, f, 0, k + 1)
      ensures RingPlaysInOrder(size, ring, s, ssrc, f, k, lag)
    {
      RingPlaysAsRef(size, ring, r, s, ssrc, f, k, lag);
    }
  }

  /** The buffer itself, of any size, after any operations at all -- across the wrap or not --, once its
      window is clean. */
  lemma RingSelfHeals(size: Size, ops: seq<Op>, s: Seq16, ssrc: int, f: nat -> Frame, b: nat) returns (lag: nat)
    requires CleanWindow(AfterRing(size, InitRing(size), ops).control.expected, size)
    requires var c := AfterRing(size, InitRing(size), ops).control;
      c.started && c.ssrc == ssrc ==> Diff(s, c.expected) + b >= 0
    ensures lag < size
    ensures forall k: nat ::
      k >= HealingBound(size, b)
      && CleanTicks(size, MapOf(size, AfterRing(size, InitRing(size), ops)), s, ssrc, f, 0, k + 1) ==>
      RingPlaysInOrder(size, AfterRing(size, InitRing(size), ops), s, ssrc, f, k, lag)
  {
    hide RingPlaysInOrder, CleanTicks, Diff, AfterRing, MapOf;
    InitRingInv(size);
    RunKeepsRingInv(size, InitRing(size), ops);
    lag := AnyRingHeals(size, AfterRing(size, InitRing(size), ops), s, ssrc, f, b);
  }

  lemma {:induction false} DividingTicksAreClean(size: Size, r: Ref, s: Seq16, ssrc: int, f: nat -> Frame, k: nat,
      n: nat)
    requires MODULUS % size == 0
    ensures CleanTicks(size, r, s, ssrc, f, k, n)
    decreases n
  {
    hide TickRef, Opens, Add;
    if n > 0 {
      DividingTicksAreClean(size, TickRef(size, r, Add(s, k), ssrc, f(k)), s, ssrc, f, k + 1, n - 1);
    }
  }

  /** Without any condition on the run when the size divides 65536. */
  lemma DividingRingSelfHeals(size: Size, ops: seq<Op>, s: Seq16, ssrc: int, f: nat -> Frame, b: nat) returns (lag: nat)
    requires MODULUS % size == 0
    requires var c := AfterRing(size, InitRing(size), ops).control;
      c.started && c.ssrc == ssrc ==> Diff(s, c.expected) + b >= 0
    ensures lag < size
    ensures forall k: nat :: k >= HealingBound(size, b) ==>
      RingPlaysInOrder(size, AfterRing(size, InitRing(size), ops), s, ssrc, f, k, lag)
  {
    hide RingPlaysInOrder, Diff, AfterRing, MapOf, CleanTicks;
    lag := RingSelfHeals(size, ops, s, ssrc, f, b);
    forall k: nat | k >= HealingBound(size, b)
      ensures RingPlaysInOrder(size, AfterRing(size, InitRing(size), ops), s, ssrc, f, k, lag)
    {
      DividingTicksAreClean(size, MapOf(size, AfterRing(size, InitRing(size), ops)), s, ssrc, f, 0, k + 1);
    }
  }
}
