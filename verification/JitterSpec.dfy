/** The jitter buffer's meaning: the waiting/active/frozen machine over a finite map from
    sequence numbers to frames (the reference), and over the slots `seq % size` (the ring). */
module JitterSpec {
  import opened Wrappers
  import opened SerialNumbers

  /** A pooled frame buffer, by identity. */
  type Frame = int

  const STARVE_FREEZE_THRESHOLD := 3
  const MAX_PRIMING_TICKS_FACTOR := 2

  datatype Phase = Waiting | Active | Frozen

  /** The observability events, in the order a step raises them. */
  datatype Note = Late | Duplicate | SilenceInserted | SsrcChange | Reanchor | OutOfWindow

  datatype Control = Control(
    started: bool, phase: Phase, misses: nat, priming: nat, expected: Seq16, ssrc: int)

  const INIT_CONTROL := Control(false, Waiting, 0, 0, 0, 0)

  type Size = x: nat | 1 <= x < 32768 witness 1

  // ---- control shared by both stores --------------------------------------

  /** What a packet does before it is placed: the new control, whether the store is
      cleared, the events raised, and whether the packet is still to be placed. */
  datatype Admission = Admission(control: Control, clear: bool, notes: seq<Note>, place: bool)

  function Anchor(c: Control, s: Seq16): Control {
    c.(expected := s, phase := Waiting, misses := 0, priming := 0)
  }

  function Admit(size: Size, c: Control, s: Seq16, ssrc: int): Admission {
    if !c.started then
      Judge(size, c.(started := true, expected := s, ssrc := ssrc, phase := Waiting), false, [], s)
    else if ssrc != c.ssrc then
      Judge(size, Anchor(c.(ssrc := ssrc), s), true, [SsrcChange], s)
    else if c.phase == Frozen then
      if Diff(s, c.expected) < 0 then Admission(c, false, [Late], false)
      else Judge(size, Anchor(c, s), true, [Reanchor], s)
    else if c.phase == Waiting && Diff(s, c.expected) >= size then
      Judge(size, Anchor(c, s), true, [OutOfWindow], s)
    else
      Judge(size, c, false, [], s)
  }

  function Judge(size: Size, c: Control, clear: bool, notes: seq<Note>, s: Seq16): Admission {
    if Diff(s, c.expected) < 0 then Admission(c, clear, notes + [Late], false)
    else if Diff(s, c.expected) >= size then Admission(c, clear, notes + [OutOfWindow], false)
    else Admission(c, clear, notes, true)
  }

  /** The priming gate of a release: the new control, and whether silence goes out untouched. */
  function Gate(size: Size, c: Control, depth: nat): (Control, bool) {
    if !c.started then (c, true)
    else if c.phase != Waiting then (c, false)
    else if depth >= size then (c.(phase := Active, misses := 0), false)
    else if c.priming + 1 < MAX_PRIMING_TICKS_FACTOR * size then (c.(priming := c.priming + 1), true)
    else (c.(priming := c.priming + 1, phase := Active, misses := 0), false)
  }

  function AfterHit(c: Control): Control {
    c.(expected := Add(c.expected, 1), misses := 0)
  }

  function AfterMiss(c: Control): Control {
    if c.phase == Frozen then c
    else c.(misses := c.misses + 1, expected := Add(c.expected, 1),
            phase := if c.misses + 1 >= STARVE_FREEZE_THRESHOLD then Frozen else c.phase)
  }

  // ---- operations and runs ------------------------------------------------

  datatype Op = Push(s: Seq16, ssrc: int, frame: Frame) | Release

  /** What a step shows: a release's frame (None: silence) and the events raised. */
  datatype Out = Out(played: Option<Frame>, notes: seq<Note>)

  // ---- the reference: a map from sequence numbers to frames -----------------

  datatype Ref = Ref(control: Control, buf: map<Seq16, Frame>)

  const INIT_REF := Ref(INIT_CONTROL, map[])

  function PushRef(size: Size, r: Ref, s: Seq16, ssrc: int, f: Frame): (Ref, seq<Note>) {
    var a := Admit(size, r.control, s, ssrc);
    var buf := if a.clear then map[] else r.buf;
    if !a.place then (Ref(a.control, buf), a.notes)
    else if s in buf then (Ref(a.control, buf), a.notes + [Duplicate])
    else (Ref(a.control, buf[s := f]), a.notes)
  }

  function ReleaseRef(size: Size, r: Ref): (Ref, Out) {
    var (c, silent) := Gate(size, r.control, |r.buf|);
    if silent then (Ref(c, r.buf), Out(None, []))
    else if c.expected in r.buf then
      (Ref(AfterHit(c), r.buf - {c.expected}), Out(Some(r.buf[c.expected]), []))
    else
      (Ref(AfterMiss(c), r.buf), Out(None, [SilenceInserted]))
  }

  function StepRef(size: Size, r: Ref, op: Op): (Ref, Out) {
    match op
    case Push(s, ssrc, f) => var (r', notes) := PushRef(size, r, s, ssrc, f); (r', Out(None, notes))
    case Release => ReleaseRef(size, r)
  }

  function AfterRef(size: Size, r: Ref, ops: seq<Op>): Ref
    decreases |ops|
  {
    if ops == [] then r else AfterRef(size, StepRef(size, r, ops[0]).0, ops[1..])
  }

  function OutsRef(size: Size, r: Ref, ops: seq<Op>): (outs: seq<Out>)
    ensures |outs| == |ops|
    decreases |ops|
  {
    if ops == [] then [] else [StepRef(size, r, ops[0]).1] + OutsRef(size, StepRef(size, r, ops[0]).0, ops[1..])
  }

  // ---- the ring: slots indexed by seq % size ----------------------------------

  datatype Ring = Ring(control: Control, slots: seq<Option<Frame>>)

  function EmptySlots(size: Size): seq<Option<Frame>> {
    seq(size, _ => None)
  }

  function InitRing(size: Size): Ring {
    Ring(INIT_CONTROL, EmptySlots(size))
  }

  /** How many slots are full. */
  function Depth(slots: seq<Option<Frame>>): nat {
    if slots == [] then 0
    else Depth(slots[..|slots| - 1]) + (if slots[|slots| - 1].Some? then 1 else 0)
  }

  /** The frames held, in slot order. */
  function Buffered(slots: seq<Option<Frame>>): seq<Frame> {
    if slots == [] then []
    else Buffered(slots[..|slots| - 1]) + Held(slots[|slots| - 1])
  }

  function Held(slot: Option<Frame>): seq<Frame> {
    match slot
    case None => []
    case Some(f) => [f]
  }

  datatype Pushed = Pushed(ring: Ring, notes: seq<Note>, pooled: seq<Frame>)

  function PushRing(size: Size, r: Ring, s: Seq16, ssrc: int, f: Frame): (p: Pushed)
    requires |r.slots| == size
    ensures |p.ring.slots| == size
  {
    var a := Admit(size, r.control, s, ssrc);
    var slots := if a.clear then EmptySlots(size) else r.slots;
    var cleared := if a.clear then Buffered(r.slots) else [];
    if !a.place then Pushed(Ring(a.control, slots), a.notes, cleared + [f])
    else if slots[Slot(s, size)].Some? then Pushed(Ring(a.control, slots), a.notes + [Duplicate], cleared + [f])
    else Pushed(Ring(a.control, slots[Slot(s, size) := Some(f)]), a.notes, cleared)
  }

  function ReleaseRing(size: Size, r: Ring): (res: (Ring, Out))
    requires |r.slots| == size
    ensures |res.0.slots| == size
  {
    var (c, silent) := Gate(size, r.control, Depth(r.slots));
    var slot := Slot(c.expected, size);
    if silent then (Ring(c, r.slots), Out(None, []))
    else if r.slots[slot].Some? then
      (Ring(AfterHit(c), r.slots[slot := None]), Out(r.slots[slot], []))
    else
      (Ring(AfterMiss(c), r.slots), Out(None, [SilenceInserted]))
  }

  function StepRing(size: Size, r: Ring, op: Op): (res: (Ring, Out))
    requires |r.slots| == size
    ensures |res.0.slots| == size
  {
    match op
    case Push(s, ssrc, f) => var p := PushRing(size, r, s, ssrc, f); (p.ring, Out(None, p.notes))
    case Release => ReleaseRing(size, r)
  }

  function AfterRing(size: Size, r: Ring, ops: seq<Op>): (r': Ring)
    requires |r.slots| == size
    ensures |r'.slots| == size
    decreases |ops|
  {
    if ops == [] then r else AfterRing(size, StepRing(size, r, ops[0]).0, ops[1..])
  }

  function OutsRing(size: Size, r: Ring, ops: seq<Op>): (outs: seq<Out>)
    requires |r.slots| == size
    ensures |outs| == |ops|
    decreases |ops|
  {
    if ops == [] then [] else [StepRing(size, r, ops[0]).1] + OutsRing(size, StepRing(size, r, ops[0]).0, ops[1..])
  }
}
