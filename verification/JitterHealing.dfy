/** Self-healing: from any reachable state, an in-order lossless stream is soon played in order,
    one frame a tick. A tick is one packet pushed, then one release. The proof looks at the
    buffer relative to its playout position, where no number wraps. */
module JitterHealing {
  import opened Wrappers
  import opened Iterations
  import opened JitterSpec

  /** The buffer seen from the playout position: `gap` is how far ahead of it the next packet is,
      `win` the frames by their offset from it, `depth` how many there are. */
  datatype Rel = Rel(phase: Phase, misses: nat, priming: nat, gap: int, depth: nat, win: int -> Option<Frame>)

  /** Cleared and re-anchored on a packet carrying f. */
  ghost function Anchored(f: Frame): Rel {
    Rel(Waiting, 0, 0, 0, 1, j => if j == 0 then Some(f) else None)
  }

  predicate Anchors(size: Size, x: Rel) {
    (x.phase == Frozen && x.gap >= 0) || (x.phase == Waiting && x.gap >= size)
  }

  ghost function PushRel(size: Size, x: Rel, f: Frame): Rel {
    if Anchors(size, x) then Anchored(f)
    else if x.phase != Frozen && 0 <= x.gap < size && x.win(x.gap) == None then
      x.(depth := x.depth + 1, win := j => if j == x.gap then Some(f) else x.win(j))
    else x
  }

  function GateRel(size: Size, x: Rel): (Rel, bool) {
    if x.phase != Waiting then (x, false)
    else if x.depth >= size then (x.(phase := Active, misses := 0), false)
    else if x.priming + 1 < MAX_PRIMING_TICKS_FACTOR * size then (x.(priming := x.priming + 1), true)
    else (x.(priming := x.priming + 1, phase := Active, misses := 0), false)
  }

  ghost function ReleaseRel(size: Size, x: Rel): (Rel, Option<Frame>) {
    var (y, silent) := GateRel(size, x);
    var on := j => y.win(j + 1);
    if silent then (y, None)
    else if y.win(0).Some? then
      (y.(misses := 0, gap := y.gap - 1, depth := if y.depth > 0 then y.depth - 1 else 0, win := on), y.win(0))
    else if y.phase == Frozen then (y, None)
    else (y.(misses := y.misses + 1, gap := y.gap - 1, win := on,
             phase := if y.misses + 1 >= STARVE_FREEZE_THRESHOLD then Frozen else y.phase), None)
  }

  /** One tick: the packet, the release, and on to the next packet. */
  ghost function Tick(size: Size, x: Rel, f: Frame): Rel {
    var y := ReleaseRel(size, PushRel(size, x, f)).0;
    y.(gap := y.gap + 1)
  }

  ghost function Plays(size: Size, x: Rel, f: Frame): Option<Frame> {
    ReleaseRel(size, PushRel(size, x, f)).1
  }

  /** n ticks, the first with packet k of the stream f. */
  ghost function Ticks(size: Size, x: Rel, f: nat -> Frame, k: nat, n: nat): Rel {
    Iterate((y: Rel, i: nat) => Tick(size, y, f(i)), x, k, n)
  }

  // ---- what holds along the way -------------------------------------------

  ghost predicate Inv(size: Size, x: Rel) {
    && Below(x, size)
    && (x.phase == Active ==> x.misses < STARVE_FREEZE_THRESHOLD)
    && (x.phase == Waiting ==> x.priming < MAX_PRIMING_TICKS_FACTOR * size)
  }

  /** Nothing is buffered at offset h or beyond. */
  ghost predicate Below(x: Rel, h: int) {
    forall j :: h <= j ==> x.win(j) == None
  }

  /** Offsets lo .. hi-1 hold the stream's packets k-hi+lo .. k-1. */
  ghost predicate Own(x: Rel, f: nat -> Frame, k: nat, lo: int, hi: int) {
    0 <= lo <= hi && hi - lo <= k && forall j :: lo <= j < hi ==> x.win(j) == Some(f(k - hi + j))
  }

  /** Priming on the stream: its last c packets are buffered, and nothing else. */
  ghost predicate Priming(size: Size, x: Rel, f: nat -> Frame, k: nat, c: nat) {
    && x.phase == Waiting && x.priming == c && 1 <= c < size && x.gap == c
    && Below(x, c) && Own(x, f, k, 0, c) && x.depth == c
  }

  /** Healed: active, its last `lag` packets buffered, none missing, and nothing else. */
  ghost predicate Healed(size: Size, x: Rel, f: nat -> Frame, k: nat, lag: nat) {
    && x.phase == Active && x.misses < STARVE_FREEZE_THRESHOLD
    && lag < size && x.gap == lag && Below(x, lag) && Own(x, f, k, 0, lag)
  }

  lemma TickInv(size: Size, x: Rel, f: Frame)
    requires Inv(size, x)
    ensures Inv(size, Tick(size, x, f))
  {
  }

  lemma HealedTick(size: Size, x: Rel, f: nat -> Frame, k: nat, lag: nat)
    requires Healed(size, x, f, k, lag)
    ensures Healed(size, Tick(size, x, f(k)), f, k + 1, lag)
    ensures k >= lag && Plays(size, x, f(k)) == Some(f(k - lag))
  {
  }

  /** Once healed after m ticks, healed ever after. */
  lemma StaysHealed(size: Size, x: Rel, f: nat -> Frame, k: nat, lag: nat, m: nat, n: nat)
    requires Healed(size, Ticks(size, x, f, k, m), f, k + m, lag)
    ensures Healed(size, Ticks(size, x, f, k, m + n), f, k + m + n, lag)
  {
    hide Tick, Healed;
    var step := (y: Rel, i: nat) => Tick(size, y, f(i));
    var inv := (y: Rel, i: nat) => Healed(size, y, f, i, lag);
    forall y: Rel, i: nat | inv(y, i) ensures inv(step(y, i), i + 1) {
      HealedTick(size, y, f, i, lag);
    }
    Keeps(step, inv, Iterate(step, x, k, m), k + m, n);
    Split(step, x, k, m, n);
  }

  // ---- the way to Healed, phase by phase ------------------------------------
  // Each lemma returns after how many ticks, and with which lag.

  lemma PrimingTick(size: Size, x: Rel, f: nat -> Frame, k: nat, c: nat)
    requires Priming(size, x, f, k, c)
    ensures var y := Tick(size, x, f(k));
      if c + 1 == size then Healed(size, y, f, k + 1, c) else Priming(size, y, f, k + 1, c + 1)
  {
  }

  lemma {:induction false} FromPriming(size: Size, x: Rel, f: nat -> Frame, k: nat, c: nat) returns (n: nat, lag: nat)
    requires Priming(size, x, f, k, c)
    ensures n <= size - c && Healed(size, Ticks(size, x, f, k, n), f, k + n, lag)
    decreases size - c
  {
    PrimingTick(size, x, f, k, c);
    var y := Tick(size, x, f(k));
    if c + 1 == size {
      n, lag := 1, c;
      assert Ticks(size, y, f, k + 1, 0) == y;
    } else {
      n, lag := FromPriming(size, y, f, k + 1, c + 1);
      n := n + 1;
    }
  }

  /** A packet that anchors the buffer starts priming (or plays at once when size is 1). */
  lemma FromAnchor(size: Size, x: Rel, f: nat -> Frame, k: nat) returns (n: nat, lag: nat)
    requires Anchors(size, x)
    ensures n <= size && Healed(size, Ticks(size, x, f, k, n), f, k + n, lag)
  {
    var y := Tick(size, x, f(k));
    if size == 1 {
      n, lag := 1, 0;
      assert Ticks(size, y, f, k + 1, 0) == y;
    } else {
      assert Priming(size, y, f, k + 1, 1);
      n, lag := FromPriming(size, y, f, k + 1, 1);
      n := n + 1;
    }
  }

  /** Frozen: late packets catch up with the frozen position, then one anchors. */
  lemma {:induction false} FromFrozen(size: Size, x: Rel, f: nat -> Frame, k: nat, h: nat, b: nat)
    returns (n: nat, lag: nat)
    requires Inv(size, x) && x.phase == Frozen && Below(x, h) && x.gap + b >= 0
    ensures n <= h + b + size && Healed(size, Ticks(size, x, f, k, n), f, k + n, lag)
    decreases h + b
  {
    if x.gap >= 0 {
      n, lag := FromAnchor(size, x, f, k);
    } else {
      var y := Tick(size, x, f(k));
      TickInv(size, x, f(k));
      if x.win(0).Some? {
        assert h > 0;
        n, lag := FromFrozen(size, y, f, k + 1, h - 1, b);
      } else {
        n, lag := FromFrozen(size, y, f, k + 1, h, b - 1);
      }
      n := n + 1;
    }
  }

  /** Active with the stream behind the window or beyond it: nothing is stored, so the buffer runs
      dry and freezes. */
  lemma {:induction false} FromStarving(size: Size, x: Rel, f: nat -> Frame, k: nat, h: nat, b: nat)
    returns (n: nat, lag: nat)
    requires Inv(size, x) && x.phase == Active && Below(x, h) && h <= size
    requires (x.gap < 0 <= x.gap + b) || x.gap >= size
    ensures n as int <= (if h > 0 then h + 3 else 3 - x.misses) + size + b + size
    ensures Healed(size, Ticks(size, x, f, k, n), f, k + n, lag)
    decreases if h > 0 then h + 3 else 3 - x.misses
  {
    var y := Tick(size, x, f(k));
    TickInv(size, x, f(k));
    var h' := if h > 0 then h - 1 else 0;
    assert Below(y, h');
    if y.phase == Active {
      n, lag := FromStarving(size, y, f, k + 1, h', b);
    } else {
      n, lag := FromFrozen(size, y, f, k + 1, h', b);
    }
    n := n + 1;
  }

  lemma FillingTick(size: Size, x: Rel, f: nat -> Frame, k: nat, e: nat)
    requires Inv(size, x) && x.phase == Active && 0 <= x.gap < size
    requires Below(x, x.gap) && e < x.gap && Own(x, f, k, x.gap - e, x.gap)
    ensures var y := Tick(size, x, f(k));
      if y.phase == Active then
        y.gap == x.gap && Below(y, y.gap) && Own(y, f, k + 1, y.gap - (e + 1), y.gap)
      else Anchors(size, y)
  {
  }

  /** Active with the stream inside the window, nothing foreign ahead of it, its last e packets
      stored: either its packets fill the window up to it, or the buffer freezes and re-anchors. */
  lemma {:induction false} FromFilling(size: Size, x: Rel, f: nat -> Frame, k: nat, e: nat)
    returns (n: nat, lag: nat)
    requires Inv(size, x) && x.phase == Active && 0 <= x.gap < size
    requires Below(x, x.gap) && e <= x.gap && Own(x, f, k, x.gap - e, x.gap)
    ensures n <= x.gap - e + size + 1 && Healed(size, Ticks(size, x, f, k, n), f, k + n, lag)
    decreases x.gap - e
  {
    hide Tick, Own, Below, Anchors;
    if e == x.gap {
      n, lag := 0, x.gap;
    } else {
      var y := Tick(size, x, f(k));
      TickInv(size, x, f(k));
      FillingTick(size, x, f, k, e);
      if y.phase == Active {
        n, lag := FromFilling(size, y, f, k + 1, e + 1);
      } else {
        n, lag := FromAnchor(size, y, f, k + 1);
      }
      n := n + 1;
    }
  }

  /** Active with the stream inside the window and older packets ahead of it. */
  lemma {:induction false} FromStrays(size: Size, x: Rel, f: nat -> Frame, k: nat, h: nat)
    returns (n: nat, lag: nat)
    requires Inv(size, x) && x.phase == Active && 0 <= x.gap < size && Below(x, h) && x.gap <= h <= size
    ensures n <= h + size + 1 && Healed(size, Ticks(size, x, f, k, n), f, k + n, lag)
    decreases h
  {
    if h == x.gap {
      n, lag := FromFilling(size, x, f, k, 0);
    } else {
      var y := Tick(size, x, f(k));
      TickInv(size, x, f(k));
      assert Below(y, h - 1);
      if y.phase == Active {
        n, lag := FromStrays(size, y, f, k + 1, h - 1);
      } else {
        n, lag := FromAnchor(size, y, f, k + 1);
      }
      n := n + 1;
    }
  }

  lemma FromActive(size: Size, x: Rel, f: nat -> Frame, k: nat, b: nat) returns (n: nat, lag: nat)
    requires Inv(size, x) && x.phase == Active && x.gap + b >= 0
    ensures n <= 3 * size + 3 + b && Healed(size, Ticks(size, x, f, k, n), f, k + n, lag)
  {
    if 0 <= x.gap < size {
      n, lag := FromStrays(size, x, f, k, size);
    } else {
      n, lag := FromStarving(size, x, f, k, size, b);
    }
  }

  lemma WaitingTick(size: Size, x: Rel, f: Frame)
    requires x.phase == Waiting && x.gap < size
    ensures var y := Tick(size, x, f);
      && y.phase != Frozen && y.gap >= x.gap
      && (y.phase == Waiting ==> y.priming == x.priming + 1)
  {
  }

  /** Waiting: priming ends within its bound, whatever was lost. */
  lemma {:induction false} FromWaiting(size: Size, x: Rel, f: nat -> Frame, k: nat, b: nat)
    returns (n: nat, lag: nat)
    requires Inv(size, x) && x.phase == Waiting && x.gap + b >= 0
    ensures n <= MAX_PRIMING_TICKS_FACTOR * size - x.priming + 3 * size + 3 + b
    ensures Healed(size, Ticks(size, x, f, k, n), f, k + n, lag)
    decreases MAX_PRIMING_TICKS_FACTOR * size - x.priming
  {
    hide Tick, Below, Healed;
    if x.gap >= size {
      n, lag := FromAnchor(size, x, f, k);
    } else {
      var y := Tick(size, x, f(k));
      TickInv(size, x, f(k));
      WaitingTick(size, x, f(k));
      if y.phase == Waiting {
        n, lag := FromWaiting(size, y, f, k + 1, b);
      } else {
        n, lag := FromActive(size, y, f, k + 1, b);
      }
      n := n + 1;
    }
  }

  /** The explicit bound, for a stream starting at most b behind. */
  function HealingBound(size: Size, b: nat): nat {
    5 * size + 3 + b
  }

  lemma Heals(size: Size, x: Rel, f: nat -> Frame, k: nat, b: nat) returns (n: nat, lag: nat)
    requires Inv(size, x) && x.gap + b >= 0
    ensures n <= HealingBound(size, b) && Healed(size, Ticks(size, x, f, k, n), f, k + n, lag)
  {
    match x.phase {
      case Waiting => n, lag := FromWaiting(size, x, f, k, b);
      case Active => n, lag := FromActive(size, x, f, k, b);
      case Frozen => n, lag := FromFrozen(size, x, f, k, size, b);
    }
  }
}
