/** The slot ring against the map it implements, and the ownership of the frames in it. */
module JitterRefinement {
  import opened Wrappers
  import opened SerialNumbers
  import opened JitterSpec
  import opened Sequences

  // ---- the frames in the slots ----------------------------------------------

  /** How many slots hold f. */
  function Copies(f: Frame, slots: seq<Option<Frame>>): nat {
    if slots == [] then 0
    else Copies(f, slots[..|slots| - 1]) + One(f, slots[|slots| - 1])
  }

  function One(f: Frame, slot: Option<Frame>): nat {
    if slot == Some(f) then 1 else 0
  }

  /** Two rings that differ at most in slot i. */
  lemma {:induction false} Differ(a: seq<Option<Frame>>, b: seq<Option<Frame>>, i: nat, f: Frame)
    requires i < |a| == |b| && forall j :: 0 <= j < |a| && j != i ==> a[j] == b[j]
    ensures Copies(f, b) + One(f, a[i]) == Copies(f, a) + One(f, b[i])
    ensures Depth(b) + (if a[i].Some? then 1 else 0) == Depth(a) + (if b[i].Some? then 1 else 0)
    decreases |a|
  {
    var n := |a| - 1;
    if i < n {
      Differ(a[..n], b[..n], i, f);
    } else {
      assert a[..n] == b[..n];
    }
  }

  lemma {:induction false} NoneHeld(slots: seq<Option<Frame>>, f: Frame)
    requires forall i :: 0 <= i < |slots| ==> slots[i] == None
    ensures Copies(f, slots) == 0 && Depth(slots) == 0 && Buffered(slots) == []
  {
    if slots != [] {
      NoneHeld(slots[..|slots| - 1], f);
    }
  }

  lemma {:induction false} BufferedCopies(slots: seq<Option<Frame>>, f: Frame)
    ensures Times(f, Buffered(slots)) == Copies(f, slots)
    ensures |Buffered(slots)| == Depth(slots)
  {
    if slots != [] {
      var n := |slots| - 1;
      BufferedCopies(slots[..n], f);
      TimesAppend(f, Buffered(slots[..n]), Held(slots[n]));
      TimesOne(f, slots[n]);
    }
  }

  lemma TimesOne(f: Frame, slot: Option<Frame>)
    ensures Times(f, Held(slot)) == One(f, slot)
  {
    if slot.Some? {
      assert Held(slot)[..0] == [];
    }
  }

  // ---- ownership ------------------------------------------------------------

  /** How often frame f is pushed, handed out, and given back to the pool along a run. */
  function TimesPushed(f: Frame, ops: seq<Op>): nat {
    if ops == [] then 0
    else (if ops[0].Push? && ops[0].frame == f then 1 else 0) + TimesPushed(f, ops[1..])
  }

  function TimesPlayed(f: Frame, outs: seq<Out>): nat {
    if outs == [] then 0 else One(f, outs[0].played) + TimesPlayed(f, outs[1..])
  }

  function Pooled(size: Size, r: Ring, op: Op): seq<Frame>
    requires |r.slots| == size
  {
    if op.Push? then PushRing(size, r, op.s, op.ssrc, op.frame).pooled else []
  }

  function TimesPooled(f: Frame, size: Size, r: Ring, ops: seq<Op>): nat
    requires |r.slots| == size
    decreases |ops|
  {
    if ops == [] then 0
    else Times(f, Pooled(size, r, ops[0])) + TimesPooled(f, size, StepRing(size, r, ops[0]).0, ops[1..])
  }

  lemma PushOwns(size: Size, r: Ring, s: Seq16, ssrc: int, frame: Frame, f: Frame)
    requires |r.slots| == size
    ensures var p := PushRing(size, r, s, ssrc, frame);
      Copies(f, r.slots) + One(f, Some(frame)) == Copies(f, p.ring.slots) + Times(f, p.pooled)
  {
    var a := Admit(size, r.control, s, ssrc);
    NoneHeld(EmptySlots(size), f);
    BufferedCopies(r.slots, f);
    var slots := if a.clear then EmptySlots(size) else r.slots;
    var cleared := if a.clear then Buffered(r.slots) else [];
    TimesAppend(f, cleared, [frame]);
    TimesOne(f, Some(frame));
    var i := Slot(s, size);
    if a.place && slots[i] == None {
      Differ(slots, slots[i := Some(frame)], i, f);
    }
  }

  lemma ReleaseOwns(size: Size, r: Ring, f: Frame)
    requires |r.slots| == size
    ensures var (r', out) := ReleaseRing(size, r);
      Copies(f, r.slots) == Copies(f, r'.slots) + One(f, out.played)
  {
    var i := Slot(Gate(size, r.control, Depth(r.slots)).0.expected, size);
    Differ(r.slots, r.slots[i := None], i, f);
  }

  lemma StepOwns(size: Size, r: Ring, op: Op, f: Frame)
    requires |r.slots| == size
    ensures var (r', out) := StepRing(size, r, op);
      Copies(f, r.slots) + (if op.Push? && op.frame == f then 1 else 0)
      == Copies(f, r'.slots) + Times(f, Pooled(size, r, op)) + One(f, out.played)
  {
    match op {
      case Push(s, ssrc, frame) => PushOwns(size, r, s, ssrc, frame, f);
      case Release => ReleaseOwns(size, r, f);
    }
  }

  /** For every size, run and frame: the times it was pushed (or was buffered to begin with) are
      exactly the times it was handed out, given back to the pool, or is still buffered. */
  lemma {:induction false} EveryFrameOwnedOnce(size: Size, r: Ring, ops: seq<Op>, f: Frame)
    requires |r.slots| == size
    ensures Copies(f, r.slots) + TimesPushed(f, ops)
      == TimesPlayed(f, OutsRing(size, r, ops)) + TimesPooled(f, size, r, ops)
         + Copies(f, AfterRing(size, r, ops).slots)
    decreases |ops|
  {
    if ops != [] {
      var r1 := StepRing(size, r, ops[0]).0;
      StepOwns(size, r, ops[0], f);
      EveryFrameOwnedOnce(size, r1, ops[1..], f);
      assert OutsRing(size, r, ops)[1..] == OutsRing(size, r1, ops[1..]);
    }
  }

  // ---- refinement --------------------------------------------------------------

  /** What holds of the reference in every reachable state. */
  ghost predicate RefInv(size: Size, r: Ref) {
    && (!r.control.started ==> r.control == INIT_CONTROL && r.buf == map[])
    && (forall k :: k in r.buf ==> InWindow(k, r.control.expected, size))
    && (r.control.phase == Active ==> r.control.misses < STARVE_FREEZE_THRESHOLD)
    && (r.control.phase == Waiting ==> r.control.priming < MAX_PRIMING_TICKS_FACTOR * size)
  }

  lemma AdmitKeepsWindow(size: Size, c: Control, s: Seq16, ssrc: int)
    ensures var a := Admit(size, c, s, ssrc);
      && (a.place ==> InWindow(s, a.control.expected, size))
      && (c.started && !a.clear ==> a.control.expected == c.expected)
      && (a.control.phase == Active ==> !a.clear && c.started && c.phase == Active && a.control.misses == c.misses)
      && (a.control.phase == Waiting ==>
          a.clear || !c.started || (c.phase == Waiting && a.control.priming == c.priming))
      && (a.clear ==> a.control.priming == 0)
      && a.control.started
  {
  }

  lemma RefInvPush(size: Size, r: Ref, s: Seq16, ssrc: int, f: Frame)
    requires RefInv(size, r)
    ensures RefInv(size, PushRef(size, r, s, ssrc, f).0)
  {
    AdmitKeepsWindow(size, r.control, s, ssrc);
  }

  lemma WindowMovesOn(k: Seq16, e: Seq16, size: Size)
    requires InWindow(k, e, size) && k != e
    ensures InWindow(k, Add(e, 1), size)
  {
  }

  lemma RefInvRelease(size: Size, r: Ref)
    requires RefInv(size, r)
    ensures RefInv(size, ReleaseRef(size, r).0)
  {
    var r' := ReleaseRef(size, r).0;
    var e := r.control.expected;
    forall k | k in r'.buf ensures InWindow(k, r'.control.expected, size) {
      assert k in r.buf;
      if r'.control.expected != e {
        WindowMovesOn(k, e, size);
      }
    }
  }

  lemma RefInvStep(size: Size, r: Ref, op: Op)
    requires RefInv(size, r)
    ensures RefInv(size, StepRef(size, r, op).0)
  {
    match op {
      case Push(s, ssrc, f) => RefInvPush(size, r, s, ssrc, f);
      case Release => RefInvRelease(size, r);
    }
  }

  /** The ring holds the map: every entry in its slot, every full slot from one entry. */
  ghost predicate Holds(slots: seq<Option<Frame>>, buf: map<Seq16, Frame>, size: Size) {
    && |slots| == size
    && (forall k :: k in buf ==> slots[Slot(k, size)] == Some(buf[k]))
    && (forall i :: 0 <= i < size && slots[i].Some? ==> exists k :: k in buf && Slot(k, size) == i)
    && (forall k, l :: k in buf && l in buf && Slot(k, size) == Slot(l, size) ==> k == l)
  }

  ghost predicate Implements(size: Size, ring: Ring, r: Ref) {
    ring.control == r.control && Holds(ring.slots, r.buf, size)
  }

  lemma RemoveKeepsHolds(slots: seq<Option<Frame>>, buf: map<Seq16, Frame>, size: Size, k: Seq16)
    requires Holds(slots, buf, size) && k in buf
    ensures Holds(slots[Slot(k, size) := None], buf - {k}, size)
  {
    var slots', buf' := slots[Slot(k, size) := None], buf - {k};
    forall i | 0 <= i < size && slots'[i].Some? ensures exists l :: l in buf' && Slot(l, size) == i {
      var l :| l in buf && Slot(l, size) == i;
      assert l in buf';
    }
  }

  lemma InsertKeepsHolds(slots: seq<Option<Frame>>, buf: map<Seq16, Frame>, size: Size, s: Seq16, f: Frame)
    requires Holds(slots, buf, size) && slots[Slot(s, size)] == None
    ensures s !in buf && Holds(slots[Slot(s, size) := Some(f)], buf[s := f], size)
  {
    var slots', buf' := slots[Slot(s, size) := Some(f)], buf[s := f];
    forall i | 0 <= i < size && slots'[i].Some? ensures exists k :: k in buf' && Slot(k, size) == i {
      if i == Slot(s, size) {
        assert s in buf';
      } else {
        var k :| k in buf && Slot(k, size) == i;
        assert k in buf';
      }
    }
  }

  lemma RemoveOne(slots: seq<Option<Frame>>, buf: map<Seq16, Frame>, size: Size)
    returns (slots': seq<Option<Frame>>, buf': map<Seq16, Frame>)
    requires Holds(slots, buf, size) && |buf| > 0
    ensures Holds(slots', buf', size)
    ensures |buf'| == |buf| - 1 && Depth(slots') == Depth(slots) - 1
  {
    var k :| k in buf;
    var i := Slot(k, size);
    slots', buf' := slots[i := None], buf - {k};
    RemoveKeepsHolds(slots, buf, size, k);
    assert buf'.Keys == buf.Keys - {k};
    assert slots[i].Some?;
    Differ(slots, slots', i, 0);
  }

  lemma {:induction false} DepthMatches(slots: seq<Option<Frame>>, buf: map<Seq16, Frame>, size: Size)
    requires Holds(slots, buf, size)
    ensures Depth(slots) == |buf|
    decreases |buf|
  {
    if |buf| == 0 {
      NoneHeld(slots, 0);
    } else {
      var slots', buf' := RemoveOne(slots, buf, size);
      DepthMatches(slots', buf', size);
    }
  }

  /** In a clean window a full slot is the sequence number's own. */
  lemma FullSlotIsOwn(slots: seq<Option<Frame>>, r: Ref, s: Seq16, size: Size)
    requires Holds(slots, r.buf, size) && CleanWindow(r.control.expected, size)
    requires forall k :: k in r.buf ==> InWindow(k, r.control.expected, size)
    requires InWindow(s, r.control.expected, size)
    ensures slots[Slot(s, size)].Some? <==> s in r.buf
  {
    CleanIsDistinct(r.control.expected, size);
    if slots[Slot(s, size)].Some? {
      var k :| k in r.buf && Slot(k, size) == Slot(s, size);
      assert InWindow(k, r.control.expected, size);
    }
  }

  lemma PushRefines(size: Size, ring: Ring, r: Ref, s: Seq16, ssrc: int, f: Frame)
    requires Implements(size, ring, r) && RefInv(size, r)
    requires CleanWindow(Admit(size, r.control, s, ssrc).control.expected, size)
    ensures var p, q := PushRing(size, ring, s, ssrc, f), PushRef(size, r, s, ssrc, f);
      Implements(size, p.ring, q.0) && p.notes == q.1
  {
    AdmitKeepsWindow(size, r.control, s, ssrc);
    var a := Admit(size, r.control, s, ssrc);
    var slots := if a.clear then EmptySlots(size) else ring.slots;
    var buf: map<Seq16, Frame> := if a.clear then map[] else r.buf;
    assert Holds(slots, buf, size);
    if a.place {
      FullSlotIsOwn(slots, Ref(a.control, buf), s, size);
      if s !in buf {
        InsertKeepsHolds(slots, buf, size, s, f);
      }
    }
  }

  lemma ReleaseRefines(size: Size, ring: Ring, r: Ref)
    requires Implements(size, ring, r) && RefInv(size, r) && CleanWindow(r.control.expected, size)
    ensures var p, q := ReleaseRing(size, ring), ReleaseRef(size, r);
      Implements(size, p.0, q.0) && p.1 == q.1
  {
    assert InWindow(r.control.expected, r.control.expected, size);
    hide Diff, Slot, Add, CleanWindow, Depth;
    DepthMatches(ring.slots, r.buf, size);
    FullSlotIsOwn(ring.slots, r, r.control.expected, size);
    if r.control.expected in r.buf {
      RemoveKeepsHolds(ring.slots, r.buf, size, r.control.expected);
    }
  }

  /** Every window the reference opens along the run is clean. */
  ghost predicate CleanRun(size: Size, r: Ref, ops: seq<Op>)
    decreases |ops|
  {
    ops == [] || (
      && CleanWindow(if ops[0].Push? then Admit(size, r.control, ops[0].s, ops[0].ssrc).control.expected
                     else r.control.expected, size)
      && CleanRun(size, StepRef(size, r, ops[0]).0, ops[1..]))
  }

  lemma StepRefines(size: Size, ring: Ring, r: Ref, op: Op)
    requires Implements(size, ring, r) && RefInv(size, r) && CleanRun(size, r, [op])
    ensures var p, q := StepRing(size, ring, op), StepRef(size, r, op);
      Implements(size, p.0, q.0) && p.1 == q.1 && RefInv(size, q.0)
  {
    match op {
      case Push(s, ssrc, f) => PushRefines(size, ring, r, s, ssrc, f);
      case Release => ReleaseRefines(size, ring, r);
    }
    RefInvStep(size, r, op);
  }

  /** On clean windows the ring is the map: same events, same frames, for any size. */
  lemma {:induction false} RingRefines(size: Size, ring: Ring, r: Ref, ops: seq<Op>)
    requires Implements(size, ring, r) && RefInv(size, r) && CleanRun(size, r, ops)
    ensures OutsRing(size, ring, ops) == OutsRef(size, r, ops)
    ensures Implements(size, AfterRing(size, ring, ops), AfterRef(size, r, ops))
    ensures RefInv(size, AfterRef(size, r, ops))
    decreases |ops|
  {
    if ops != [] {
      StepRefines(size, ring, r, ops[0]);
      RingRefines(size, StepRing(size, ring, ops[0]).0, StepRef(size, r, ops[0]).0, ops[1..]);
    }
  }

  lemma InitImplements(size: Size)
    ensures Implements(size, InitRing(size), INIT_REF) && RefInv(size, INIT_REF)
  {
  }

  lemma {:induction false} DividingSizeIsClean(size: Size, r: Ref, ops: seq<Op>)
    requires MODULUS % size == 0
    ensures CleanRun(size, r, ops)
    decreases |ops|
  {
    if ops != [] {
      DividingSizeIsClean(size, StepRef(size, r, ops[0]).0, ops[1..]);
    }
  }

  /** The ring behaves as the map over every run exactly when its size divides 65536.
      (The default size, 3, does not.) */
  lemma RingIsMapExactlyWhenSizeDivides(size: Size)
    ensures (forall ops :: OutsRing(size, InitRing(size), ops) == OutsRef(size, INIT_REF, ops))
       <==> MODULUS % size == 0
  {
    InitImplements(size);
    if MODULUS % size == 0 {
      forall ops ensures OutsRing(size, InitRing(size), ops) == OutsRef(size, INIT_REF, ops) {
        DividingSizeIsClean(size, INIT_REF, ops);
        RingRefines(size, InitRing(size), INIT_REF, ops);
      }
    } else {
      WrapMisjudged(size);
    }
  }

  /** The failing family: 65535 and the later packet that shares its slot, pushed in order. The
      ring calls the second a duplicate and drops it; the map keeps it. */
  lemma WrapMisjudged(size: Size)
    requires MODULUS % size != 0
    ensures var ops := [Push(65535, 7, 1), Push(MODULUS % size - 1, 7, 2)];
      OutsRing(size, InitRing(size), ops)[1].notes == [Duplicate] && OutsRef(size, INIT_REF, ops)[1].notes == []
  {
    hide StepRing, StepRef;
    var b := MODULUS % size - 1;
    var p1, p2 := Push(65535, 7, 1), Push(b, 7, 2);
    var ops := [p1, p2];
    assert ops[1..] == [p2] && [p2][1..] == [];
    WrapOnRing(size, b);
    var ring1 := StepRing(size, InitRing(size), p1).0;
    assert OutsRing(size, ring1, [p2])[0].notes == [Duplicate];
    WrapOnMap(size, b);
    var ref1 := StepRef(size, INIT_REF, p1).0;
    assert OutsRef(size, ref1, [p2])[0].notes == [];
  }

  lemma WrapOnRing(size: Size, b: Seq16)
    requires b == MODULUS % size - 1
    ensures StepRing(size, StepRing(size, InitRing(size), Push(65535, 7, 1)).0, Push(b, 7, 2)).1.notes == [Duplicate]
  {
    SlotNearWrap(1, size);
    SmallSlot(b, size);
    assert Slot(65535, size) == Slot(b, size);
    hide Slot;
    assert 0 <= Diff(b, 65535) < size;
    var ring1 := StepRing(size, InitRing(size), Push(65535, 7, 1)).0;
    assert ring1.slots[Slot(65535, size)] == Some(1);
    assert [] + [Duplicate] == [Duplicate];
  }

  lemma WrapOnMap(size: Size, b: Seq16)
    requires b == MODULUS % size - 1
    ensures StepRef(size, StepRef(size, INIT_REF, Push(65535, 7, 1)).0, Push(b, 7, 2)).1.notes == []
  {
    assert 0 <= Diff(b, 65535) < size;
  }

  // ---- the events --------------------------------------------------------------------------------

  /** The packet is of the stream the buffer is playing. */
  predicate SameStream(r: Ring, ssrc: int) {
    r.control.started && ssrc == r.control.ssrc
  }

  /** What a push reports, for every ring: a change of stream; a late packet; a re-anchoring after a freeze; one
      out of the window; a duplicate. Its frame is stored exactly unless it is late, a duplicate, or out of the
      window while playing, and then goes back to the pool, after what a new anchor clears. */
  lemma PushIsReportedExactly(size: Size, r: Ring, s: Seq16, ssrc: int, f: Frame)
    requires |r.slots| == size
    ensures var p, c, d := PushRing(size, r, s, ssrc, f), r.control, Diff(s, r.control.expected);
      var full := r.slots[Slot(s, size)].Some?;
      var far := OutOfWindow in p.notes;
      var dropped := Late in p.notes || Duplicate in p.notes || (far && c.phase == Active);
      var cleared := SsrcChange in p.notes || Reanchor in p.notes || (far && c.phase == Waiting);
      && (SsrcChange in p.notes <==> c.started && ssrc != c.ssrc)
      && (Late in p.notes <==> SameStream(r, ssrc) && d < 0)
      && (Reanchor in p.notes <==> SameStream(r, ssrc) && c.phase == Frozen && d >= 0)
      && (far <==> SameStream(r, ssrc) && c.phase != Frozen && d >= size)
      && (Duplicate in p.notes <==>
            full && (!c.started || (SameStream(r, ssrc) && c.phase != Frozen && 0 <= d < size)))
      && (!dropped ==> p.ring.slots[Slot(s, size)] == Some(f))
      && p.pooled == (if cleared then Buffered(r.slots) else []) + (if dropped then [f] else [])
  {
    hide Buffered;
  }

  /** The buffer is priming: nothing came yet, or it waits with less than a full window, for two windows at most. */
  predicate Primes(size: Size, r: Ring) {
    || !r.control.started
    || (r.control.phase == Waiting && Depth(r.slots) < size && r.control.priming + 1 < 2 * size)
  }

  /** What a tick reports, for every ring: silence inserted exactly if it is not priming and the frame that is due
      is not there; three of these in a row freeze it, and a frozen buffer waits for the frame it is at. */
  lemma ReleaseIsReportedExactly(size: Size, r: Ring)
    requires |r.slots| == size
    ensures var (r', out) := ReleaseRing(size, r);
      var c, due := r.control, r.slots[Slot(r.control.expected, size)];
      var misses := if c.phase == Waiting then 1 else c.misses + 1;
      && out.played == (if Primes(size, r) then None else due)
      && out.notes == (if !Primes(size, r) && due == None then [SilenceInserted] else [])
      && (r'.control.phase == Frozen <==> c.phase == Frozen || (!Primes(size, r) && due == None && misses >= 3))
      && r'.control.expected
         == if Primes(size, r) || (due == None && c.phase == Frozen) then c.expected else Add(c.expected, 1)
  {
    hide Depth;
  }
}
