/** The jitter buffer as an object: two fixed arrays updated in place, proved to be the ring of
    JitterSpec. */
module JitterBuffers {
  import opened Wrappers
  import opened SerialNumbers
  import opened JitterSpec

  /** The slots as options: a frame where `have` says there is one. */
  function View(frames: seq<Frame>, have: seq<bool>): (slots: seq<Option<Frame>>)
    requires |frames| == |have|
    ensures |slots| == |have|
  {
    seq(|have|, i requires 0 <= i < |have| => if have[i] then Some(frames[i]) else None)
  }

  lemma BufferedNext(view: seq<Option<Frame>>, i: nat)
    requires i < |view|
    ensures Buffered(view[..i + 1]) == Buffered(view[..i]) + Held(view[i])
  {
    assert view[..i + 1][..i] == view[..i];
  }

  /** A packet past the judgement of its stream and phase: the ring it is placed in, with the events
      raised and the frames given back on the way there. */
  ghost function Tuned(size: Size, r: Ring, s: Seq16, id: int): Pushed {
    var c := r.control;
    if !c.started then
      Pushed(Ring(c.(started := true, expected := s, ssrc := id, phase := Waiting), r.slots), [], [])
    else if id != c.ssrc then
      Pushed(Ring(Anchor(c.(ssrc := id), s), EmptySlots(size)), [SsrcChange], Buffered(r.slots))
    else if c.phase == Frozen then
      Pushed(Ring(Anchor(c, s), EmptySlots(size)), [Reanchor], Buffered(r.slots))
    else if c.phase == Waiting && Diff(s, c.expected) >= size then
      Pushed(Ring(Anchor(c, s), EmptySlots(size)), [OutOfWindow], Buffered(r.slots))
    else Pushed(r, [], [])
  }

  ghost function Placed(size: Size, r: Ring, s: Seq16, f: Frame): Pushed
    requires |r.slots| == size
  {
    var d, i := Diff(s, r.control.expected), Slot(s, size);
    if d < 0 then Pushed(r, [Late], [f])
    else if d >= size then Pushed(r, [OutOfWindow], [f])
    else if r.slots[i].Some? then Pushed(r, [Duplicate], [f])
    else Pushed(r.(slots := r.slots[i := Some(f)]), [], [])
  }

  lemma PushIsTunedAndPlaced(size: Size, r: Ring, s: Seq16, id: int, f: Frame)
    requires |r.slots| == size
    requires r.control.started && id == r.control.ssrc && r.control.phase == Frozen ==> Diff(s, r.control.expected) >= 0
    ensures var t, p := Tuned(size, r, s, id), PushRing(size, r, s, id, f);
      var q := Placed(size, t.ring, s, f);
      p.ring == q.ring && p.notes == t.notes + q.notes && p.pooled == t.pooled + q.pooled
  {
    hide Diff, Slot, Buffered;
  }

  lemma LateWhenFrozen(size: Size, r: Ring, s: Seq16, f: Frame)
    requires |r.slots| == size
    requires r.control.started && r.control.phase == Frozen && Diff(s, r.control.expected) < 0
    ensures PushRing(size, r, s, r.control.ssrc, f) == Pushed(r, [Late], [f])
  {
    hide Diff;
  }

  class JitterBuffer {
    const size: Size
    const slots: array<Frame>
    const have: array<bool>
    var started: bool
    var phase: Phase
    var misses: nat
    var primingTicks: nat
    var expected: Seq16
    var ssrc: int
    /** Frames given back to the pool, and events raised, oldest first. */
    var pool: seq<Frame>
    var notes: seq<Note>

    ghost predicate Valid() {
      slots.Length == have.Length == size
    }

    ghost function Control(): Control
      reads this
    {
      JitterSpec.Control.Control(started, phase, misses, primingTicks, expected, ssrc)
    }

    ghost function Contents(): Ring
      requires Valid()
      reads this, slots, have
    {
      Ring(Control(), View(slots[..], have[..]))
    }

    constructor (n: Size)
      ensures Valid() && size == n && Contents() == InitRing(n)
      ensures pool == [] && notes == [] && fresh(slots) && fresh(have)
    {
      size := n;
      slots := new Frame[n];
      have := new bool[n](_ => false);
      started, phase, misses, primingTicks, expected, ssrc := false, Waiting, 0, 0, 0, 0;
      pool, notes := [], [];
      new;
      assert View(slots[..], have[..]) == EmptySlots(n);
    }

    method DepthLocked() returns (n: nat)
      requires Valid()
      ensures n == Depth(Contents().slots)
    {
      ghost var view := View(slots[..], have[..]);
      n := 0;
      for i := 0 to size
        invariant n == Depth(view[..i])
      {
        assert view[..i + 1][..i] == view[..i];
        if have[i] {
          n := n + 1;
        }
      }
      assert view[..size] == view;
    }

    method ClearSlotsLocked()
      requires Valid()
      modifies this`pool, have
      ensures Contents() == Ring(old(Control()), EmptySlots(size))
      ensures pool == old(pool) + Buffered(old(Contents().slots))
    {
      ghost var frames, view := slots[..], View(slots[..], have[..]);
      for i := 0 to size
        invariant slots[..] == frames
        invariant forall j :: 0 <= j < i ==> !have[j]
        invariant forall j :: i <= j < size ==> have[j] == view[j].Some?
        invariant pool == old(pool) + Buffered(view[..i])
      {
        BufferedNext(view, i);
        if have[i] {
          pool := pool + [slots[i]];
          have[i] := false;
        }
      }
      assert view[..size] == view;
      assert View(slots[..], have[..]) == EmptySlots(size);
    }

    method ReanchorLocked(s: Seq16)
      requires Valid()
      modifies this, have
      ensures Contents() == Ring(Anchor(old(Control()), s), EmptySlots(size))
      ensures pool == old(pool) + Buffered(old(Contents().slots)) && notes == old(notes)
    {
      ClearSlotsLocked();
      expected := s;
      phase := Waiting;
      misses := 0;
      primingTicks := 0;
    }

    method ResetLocked(s: Seq16, id: int)
      requires Valid()
      modifies this, have
      ensures Contents() == Ring(Anchor(old(Control()).(ssrc := id), s), EmptySlots(size))
      ensures pool == old(pool) + Buffered(old(Contents().slots)) && notes == old(notes)
    {
      ReanchorLocked(s);
      ssrc := id;
    }

    /** Takes ownership of frame: buffered, or given back to the pool. */
    method Push(s: Seq16, id: int, frame: Frame)
      requires Valid()
      modifies this, slots, have
      ensures var p := PushRing(size, old(Contents()), s, id, frame);
        Contents() == p.ring && notes == old(notes) + p.notes && pool == old(pool) + p.pooled
    {
      hide Diff, Buffered, View, Admit, Placed;
      ghost var r := Contents();
      if !started {
        started := true;
        expected := s;
        ssrc := id;
        phase := Waiting;
      } else if id != ssrc {
        ResetLocked(s, id);
        notes := notes + [SsrcChange];
      } else if phase == Frozen {
        if Diff(s, expected) < 0 {
          notes := notes + [Late];
          pool := pool + [frame];
          assert PushRing(size, r, s, id, frame) == Pushed(r, [Late], [frame]) by {
            LateWhenFrozen(size, r, s, frame);
          }
          return;
        }
        ReanchorLocked(s);
        notes := notes + [Reanchor];
      } else if phase == Waiting && Diff(s, expected) >= size {
        notes := notes + [OutOfWindow];
        ReanchorLocked(s);
      }
      assert Contents() == Tuned(size, r, s, id).ring;
      PushIsTunedAndPlaced(size, r, s, id, frame);
      Place(s, frame);
    }

    /** The second half of Push: late, out of the window, a duplicate, or stored. */
    method Place(s: Seq16, frame: Frame)
      requires Valid()
      modifies this, slots, have
      ensures var p := Placed(size, old(Contents()), s, frame);
        Contents() == p.ring && notes == old(notes) + p.notes && pool == old(pool) + p.pooled
    {
      var d := Diff(s, expected);
      if d < 0 {
        notes := notes + [Late];
        pool := pool + [frame];
      } else if d >= size {
        notes := notes + [OutOfWindow];
        pool := pool + [frame];
      } else {
        var slot := Slot(s, size);
        if have[slot] {
          notes := notes + [Duplicate];
          pool := pool + [frame];
          return;
        }
        slots[slot] := frame;
        have[slot] := true;
        assert View(slots[..], have[..]) == old(View(slots[..], have[..]))[slot := Some(frame)];
      }
    }

    /** The next frame to play; None is a silent one. */
    method Release() returns (played: Option<Frame>)
      requires Valid()
      modifies this, have
      ensures var r := ReleaseRing(size, old(Contents()));
        Contents() == r.0 && played == r.1.played && notes == old(notes) + r.1.notes && pool == old(pool)
    {
      hide Add, View, Depth, AfterHit, AfterMiss;
      if !started {
        return None;
      }
      if phase == Waiting {
        var depth := DepthLocked();
        if depth < size {
          primingTicks := primingTicks + 1;
          if primingTicks < MAX_PRIMING_TICKS_FACTOR * size {
            return None;
          }
        }
        phase := Active;
        misses := 0;
      }
      played := Play();
    }

    /** The second half of Release: the slot's frame if there is one, or silence. */
    method Play() returns (played: Option<Frame>)
      requires Valid()
      modifies this, have
      ensures var c, view := old(Control()), old(Contents().slots);
        var i := Slot(c.expected, size);
        if view[i].Some? then
          Contents() == Ring(AfterHit(c), view[i := None]) && played == view[i] && notes == old(notes)
        else Contents() == Ring(AfterMiss(c), view) && played == None && notes == old(notes) + [SilenceInserted]
      ensures pool == old(pool)
    {
      hide Add;
      var slot := Slot(expected, size);
      if have[slot] {
        played := Some(slots[slot]);
        have[slot] := false;
        expected := Add(expected, 1);
        misses := 0;
        assert View(slots[..], have[..]) == old(View(slots[..], have[..]))[slot := None];
        return;
      }
      notes := notes + [SilenceInserted];
      if phase == Frozen {
        return None;
      }
      misses := misses + 1;
      expected := Add(expected, 1);
      if misses >= STARVE_FREEZE_THRESHOLD {
        phase := Frozen;
      }
      return None;
    }
  }
}
