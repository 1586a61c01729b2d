/** The speech-only gate before the STT: closed, it keeps the newest frames; speech opens it and
    what it kept goes out first. */
module SpeechGate {

  const KEEPALIVE := 20_000
  const FRAME_TIME := 20

  /** frames: how many the ring holds; hangover: how long the gate stays open after speech. */
  datatype Config = Config(frames: nat, hangover: int)

  datatype Sent<T> = Keepalive | Sound(frame: T)

  /** kept: the frames in the ring, oldest first. */
  datatype Gate<T> = Gate(kept: seq<T>, open: bool, lastVoiced: int, lastSent: int)

  function Newest<T>(frames: seq<T>, n: nat): seq<T> {
    if |frames| <= n then frames else frames[|frames| - n..]
  }

  function Sounds<T>(frames: seq<T>): seq<Sent<T>> {
    seq(|frames|, i requires 0 <= i < |frames| => Sound(frames[i]))
  }

  /** One frame at time now: the gate after it, and what is sent. */
  function Step<T>(cfg: Config, g: Gate<T>, frame: T, now: int, voiced: bool): (Gate<T>, seq<Sent<T>>) {
    var lastVoiced := if voiced then now else g.lastVoiced;
    var open := g.open && now - lastVoiced <= cfg.hangover;
    if open then (g.(open := true, lastVoiced := lastVoiced, lastSent := now), [Sound(frame)])
    else if voiced then (Gate([], true, lastVoiced, now), Sounds(g.kept) + [Sound(frame)])
    else
      var silent := now - g.lastSent >= KEEPALIVE;
      (Gate(Newest(g.kept + [frame], cfg.frames), false, lastVoiced, if silent then now else g.lastSent),
       if silent then [Keepalive] else [])
  }

  // ---- runs: the caller's frames, told apart by their number -----------------------------------

  datatype In = In(now: int, voiced: bool)

  function After(cfg: Config, start: int, ins: seq<In>): Gate<nat> {
    if ins == [] then Gate([], false, start, start)
    else
      var n := |ins| - 1;
      Step(cfg, After(cfg, start, ins[..n]), n, ins[n].now, ins[n].voiced).0
  }

  function Log(cfg: Config, start: int, ins: seq<In>): seq<Sent<nat>> {
    if ins == [] then []
    else
      var n := |ins| - 1;
      Log(cfg, start, ins[..n]) + Step(cfg, After(cfg, start, ins[..n]), n, ins[n].now, ins[n].voiced).1
  }

  /** The caller's frames sent, the keepalive silence removed. */
  function Heard(log: seq<Sent<nat>>): seq<nat> {
    if log == [] then []
    else
      var n := |log| - 1;
      if log[n].Sound? then Heard(log[..n]) + [log[n].frame] else Heard(log[..n])
  }

  /** For how many frames the gate has been closed. */
  function ClosedFor(cfg: Config, start: int, ins: seq<In>): nat {
    if ins == [] || After(cfg, start, ins).open then 0 else ClosedFor(cfg, start, ins[..|ins| - 1]) + 1
  }

  /** The numbers from, from + 1, ..., to - 1. */
  function Numbers(from: nat, to: nat): seq<nat>
    requires from <= to
  {
    seq(to - from, i => from + i)
  }

  predicate Ascending(s: seq<nat>) {
    forall i, j :: 0 <= i < j < |s| ==> s[i] < s[j]
  }

  lemma {:induction false} HeardAppend(a: seq<Sent<nat>>, b: seq<Sent<nat>>)
    ensures Heard(a + b) == Heard(a) + Heard(b)
  {
    if b == [] {
      assert a + b == a;
    } else {
      var n := |b| - 1;
      assert (a + b)[..|a + b| - 1] == a + b[..n];
      HeardAppend(a, b[..n]);
    }
  }

  lemma {:induction false} HeardSounds(frames: seq<nat>)
    ensures Heard(Sounds(frames)) == frames
  {
    if frames != [] {
      var n := |frames| - 1;
      assert Sounds(frames)[..n] == Sounds(frames[..n]);
      HeardSounds(frames[..n]);
    }
  }

  lemma HeardOne(frame: nat)
    ensures Heard([Sound(frame)]) == [frame] && Heard([Keepalive]) == [] && Heard([]) == []
  {
    assert [Sound(frame)][..0] == [];
    var silence: seq<Sent<nat>> := [Keepalive];
    assert silence[..0] == [];
  }

  /** After n frames: the ring, and the frames sent. */
  ghost predicate Safe(cfg: Config, g: Gate<nat>, heard: seq<nat>, n: nat, closedFor: nat) {
    var kept := if closedFor <= cfg.frames then closedFor else cfg.frames;
    && kept <= n
    && (g.open ==> closedFor == 0)
    && g.kept == Numbers(n - kept, n)
    && Ascending(heard)
    && (forall i :: 0 <= i < |heard| ==> heard[i] < n - kept)
    && (forall j: nat :: j < n - kept ==> j in heard || j + cfg.frames + (if g.open then 1 else 0) < n)
  }

  lemma OpenStep(cfg: Config, g: Gate<nat>, heard: seq<nat>, n: nat)
    requires Safe(cfg, g, heard, n, 0) && g.open
    ensures Safe(cfg, g, heard + [n], n + 1, 0)
  {
  }

  lemma OpeningStep(cfg: Config, g: Gate<nat>, heard: seq<nat>, n: nat, closedFor: nat)
    requires Safe(cfg, g, heard, n, closedFor)
    ensures Safe(cfg, g.(open := true, kept := []), heard + g.kept + [n], n + 1, 0)
  {
    var heard' := heard + g.kept + [n];
    forall j: nat | j < n + 1 ensures j in heard' || j + cfg.frames + 1 < n + 1 {
      if n - |g.kept| <= j < n {
        assert g.kept[j - (n - |g.kept|)] == j;
      }
    }
  }

  lemma ClosedStep(cfg: Config, g: Gate<nat>, heard: seq<nat>, n: nat, closedFor: nat)
    requires Safe(cfg, g, heard, n, closedFor)
    ensures Safe(cfg, g.(open := false, kept := Newest(g.kept + [n], cfg.frames)), heard, n + 1, closedFor + 1)
  {
  }

  /** One frame keeps all that. */
  lemma StepSafe(cfg: Config, g: Gate<nat>, heard: seq<nat>, n: nat, closedFor: nat, now: int, voiced: bool)
    requires Safe(cfg, g, heard, n, closedFor)
    ensures var (g', out) := Step(cfg, g, n, now, voiced);
      Safe(cfg, g', heard + Heard(out), n + 1, if g'.open then 0 else closedFor + 1)
  {
    hide Safe, Heard, Sounds;
    var (g', out) := Step(cfg, g, n, now, voiced);
    HeardOne(n);
    if !g'.open {
      ClosedStep(cfg, g, heard, n, closedFor);
      assert heard + [] == heard;
      SafeSame(cfg, g.(open := false, kept := Newest(g.kept + [n], cfg.frames)), g', heard, n + 1, closedFor + 1);
    } else if g'.kept == g.kept && out == [Sound(n)] && g.open {
      OpenClosedFor(cfg, g, heard, n, closedFor);
      OpenStep(cfg, g, heard, n);
      SafeSame(cfg, g, g', heard + [n], n + 1, 0);
    } else {
      HeardSounds(g.kept);
      HeardAppend(Sounds(g.kept), [Sound(n)]);
      OpeningStep(cfg, g, heard, n, closedFor);
      assert heard + (g.kept + [n]) == heard + g.kept + [n];
      SafeSame(cfg, g.(open := true, kept := []), g', heard + g.kept + [n], n + 1, 0);
    }
  }

  lemma {:induction false} RunSafe(cfg: Config, start: int, ins: seq<In>)
    ensures Safe(cfg, After(cfg, start, ins), Heard(Log(cfg, start, ins)), |ins|, ClosedFor(cfg, start, ins))
    decreases |ins|
  {
    hide Safe, Step, Heard;
    if ins == [] {
      StartSafe(cfg, start);
      HeardOne(0);
    } else {
      var n := |ins| - 1;
      RunSafe(cfg, start, ins[..n]);
      var g, log := After(cfg, start, ins[..n]), Log(cfg, start, ins[..n]);
      StepSafe(cfg, g, Heard(log), n, ClosedFor(cfg, start, ins[..n]), ins[n].now, ins[n].voiced);
      HeardAppend(log, Step(cfg, g, n, ins[n].now, ins[n].voiced).1);
    }
  }

  lemma StartSafe(cfg: Config, start: int)
    ensures Safe(cfg, Gate([], false, start, start), [], 0, 0)
  {
  }

  lemma OpenClosedFor(cfg: Config, g: Gate<nat>, heard: seq<nat>, n: nat, closedFor: nat)
    requires Safe(cfg, g, heard, n, closedFor) && g.open
    ensures closedFor == 0
  {
  }

  lemma SafeSame(cfg: Config, g: Gate<nat>, g': Gate<nat>, heard: seq<nat>, n: nat, closedFor: nat)
    requires Safe(cfg, g, heard, n, closedFor) && g'.kept == g.kept && g'.open == g.open
    ensures Safe(cfg, g', heard, n, closedFor)
  {
  }

  /** Over every run: what is sent is a subsequence of the caller's frames, without repeats; and
      while the gate is closed the ring has exactly the newest frames since it closed. */
  lemma SentInOrder(cfg: Config, start: int, ins: seq<In>)
    ensures Ascending(Heard(Log(cfg, start, ins)))
    ensures forall k :: k in Heard(Log(cfg, start, ins)) ==> k < |ins|
    ensures var c := ClosedFor(cfg, start, ins);
      var kept := if c <= cfg.frames then c else cfg.frames;
      kept <= |ins| && After(cfg, start, ins).kept == Numbers(|ins| - kept, |ins|)
  {
    hide After, Log, Heard, ClosedFor;
    RunSafe(cfg, start, ins);
  }

  /** Every voiced frame is sent, and the ring's worth of frames before it. */
  lemma SpeechIsSent(cfg: Config, start: int, ins: seq<In>, i: nat, j: nat)
    requires i < |ins| && ins[i].voiced && j <= i <= j + cfg.frames
    ensures j in Heard(Log(cfg, start, ins))
  {
    hide After, Log, Heard, ClosedFor;
    VoicedSent(cfg, start, ins[..i + 1], j);
    LogGrows(cfg, start, ins, i + 1);
  }

  lemma VoicedSent(cfg: Config, start: int, ins: seq<In>, j: nat)
    requires ins != [] && ins[|ins| - 1].voiced && j < |ins| <= j + cfg.frames + 1
    ensures j in Heard(Log(cfg, start, ins))
  {
    hide After, Log, Heard, ClosedFor;
    RunSafe(cfg, start, ins);
    VoicedIsOpen(cfg, start, ins);
    SentWhenOpen(cfg, After(cfg, start, ins), Heard(Log(cfg, start, ins)), |ins|, j);
  }

  lemma SentWhenOpen(cfg: Config, g: Gate<nat>, heard: seq<nat>, n: nat, j: nat)
    requires Safe(cfg, g, heard, n, 0) && g.open && j < n <= j + cfg.frames + 1
    ensures j in heard
  {
  }

  lemma VoicedIsOpen(cfg: Config, start: int, ins: seq<In>)
    requires ins != [] && ins[|ins| - 1].voiced
    ensures After(cfg, start, ins).open
    ensures ClosedFor(cfg, start, ins) == 0
  {
  }

  lemma {:induction false} LogGrows(cfg: Config, start: int, ins: seq<In>, k: nat)
    requires k <= |ins|
    ensures forall j :: j in Heard(Log(cfg, start, ins[..k])) ==> j in Heard(Log(cfg, start, ins))
    decreases |ins|
  {
    if k == |ins| {
      assert ins[..k] == ins;
    } else {
      var n := |ins| - 1;
      LogGrows(cfg, start, ins[..n], k);
      assert ins[..n][..k] == ins[..k];
      HeardAppend(Log(cfg, start, ins[..n]), Step(cfg, After(cfg, start, ins[..n]), n, ins[n].now, ins[n].voiced).1);
    }
  }

  // ---- which frames are sent --------------------------------------------------------------------

  /** Frame i is the last voiced one up to frame j, and none since came later than the hangover after it. */
  predicate Holds(cfg: Config, ins: seq<In>, i: nat, j: nat)
    requires i <= j < |ins|
  {
    ins[i].voiced && forall k :: i < k <= j ==> !ins[k].voiced && ins[k].now - ins[i].now <= cfg.hangover
  }

  /** A voiced frame comes within the ring's worth of frames after frame j. */
  predicate BeforeSpeech(cfg: Config, ins: seq<In>, j: nat) {
    exists i :: j <= i < |ins| && i - j <= cfg.frames && ins[i].voiced
  }

  /** Frame j comes within the hangover of speech. */
  predicate AfterSpeech(cfg: Config, ins: seq<In>, j: nat)
    requires j < |ins|
  {
    exists i :: 0 <= i <= j && Holds(cfg, ins, i, j)
  }

  predicate LastVoiced(ins: seq<In>, i: nat) {
    i < |ins| && ins[i].voiced && forall k :: i < k < |ins| ==> !ins[k].voiced
  }

  lemma HoldsPrefix(cfg: Config, ins: seq<In>, i: nat, j: nat, n: nat)
    requires i <= j < n <= |ins|
    ensures Holds(cfg, ins[..n], i, j) == Holds(cfg, ins, i, j)
  {
    assert forall k :: 0 <= k < n ==> ins[..n][k] == ins[k];
  }

  /** The gate is open exactly within the hangover of speech, whose time it remembers. */
  lemma {:induction false} OpenExactly(cfg: Config, start: int, ins: seq<In>)
    requires ins != []
    ensures After(cfg, start, ins).open <==> AfterSpeech(cfg, ins, |ins| - 1)
    ensures forall i: nat :: LastVoiced(ins, i) ==> After(cfg, start, ins).lastVoiced == ins[i].now
    decreases |ins|
  {
    hide Holds;
    var n := |ins| - 1;
    if ins[n].voiced {
      HoldsItself(cfg, ins, n);
      assert AfterSpeech(cfg, ins, n) && After(cfg, start, ins).open;
    } else if n == 0 {
      NotVoiced(cfg, ins, 0, 0);
      assert ins[..0] == [];
      assert !AfterSpeech(cfg, ins, 0) && !After(cfg, start, ins).open;
    } else {
      OpenExactly(cfg, start, ins[..n]);
      StaysOpen(cfg, start, ins);
      forall i: nat | LastVoiced(ins, i) ensures LastVoiced(ins[..n], i) && ins[..n][i] == ins[i] {
      }
    }
  }

  lemma HoldsItself(cfg: Config, ins: seq<In>, n: nat)
    requires n < |ins| && ins[n].voiced
    ensures Holds(cfg, ins, n, n)
  {
  }

  lemma NotVoiced(cfg: Config, ins: seq<In>, i: nat, j: nat)
    requires i <= j < |ins| && !ins[i].voiced
    ensures !Holds(cfg, ins, i, j)
  {
  }

  lemma HoldsOn(cfg: Config, ins: seq<In>, i: nat)
    requires |ins| > 1 && i <= |ins| - 1 && !ins[|ins| - 1].voiced
    ensures var n := |ins| - 1;
      Holds(cfg, ins, i, n) <==> i < n && Holds(cfg, ins[..n], i, n - 1) && ins[n].now - ins[i].now <= cfg.hangover
  {
    var n := |ins| - 1;
    if i < n {
      HoldsPrefix(cfg, ins, i, n - 1, n);
    }
  }

  lemma HoldsIsLast(cfg: Config, ins: seq<In>, i: nat)
    requires i < |ins| && Holds(cfg, ins, i, |ins| - 1)
    ensures LastVoiced(ins, i)
  {
  }

  lemma StaysOpen(cfg: Config, start: int, ins: seq<In>)
    requires |ins| > 1 && !ins[|ins| - 1].voiced
    requires After(cfg, start, ins[..|ins| - 1]).open <==> AfterSpeech(cfg, ins[..|ins| - 1], |ins| - 2)
    requires var before := ins[..|ins| - 1];
      forall i: nat :: LastVoiced(before, i) ==> After(cfg, start, before).lastVoiced == before[i].now
    ensures After(cfg, start, ins).open <==> AfterSpeech(cfg, ins, |ins| - 1)
  {
    hide Holds, LastVoiced;
    var n := |ins| - 1;
    var g := After(cfg, start, ins[..n]);
    assert After(cfg, start, ins).open <==> g.open && ins[n].now - g.lastVoiced <= cfg.hangover;
    hide After;
    if g.open {
      var i :| 0 <= i <= n - 1 && Holds(cfg, ins[..n], i, n - 1);
      HoldsIsLast(cfg, ins[..n], i);
      HoldsOn(cfg, ins, i);
      assert g.lastVoiced == ins[i].now;
    }
    if AfterSpeech(cfg, ins, n) {
      var i :| 0 <= i <= n && Holds(cfg, ins, i, n);
      HoldsOn(cfg, ins, i);
      HoldsIsLast(cfg, ins[..n], i);
    }
  }

  /** What one frame sends: itself while open, and what was kept when it opens the gate. */
  lemma StepSends(cfg: Config, g: Gate<nat>, n: nat, now: int, voiced: bool, j: nat)
    requires var (g', out) := Step(cfg, g, n, now, voiced); j in Heard(out)
    ensures (j == n && Step(cfg, g, n, now, voiced).0.open) || (voiced && j in g.kept)
  {
    hide Heard;
    HeardOne(n);
    HeardSounds(g.kept);
    HeardAppend(Sounds(g.kept), [Sound(n)]);
  }

  /** What is sent is near speech. */
  lemma {:induction false} SentIsNearSpeech(cfg: Config, start: int, ins: seq<In>, j: nat)
    requires j in Heard(Log(cfg, start, ins))
    ensures j < |ins| && (BeforeSpeech(cfg, ins, j) || AfterSpeech(cfg, ins, j))
    decreases |ins|
  {
    hide Holds, Step, Heard;
    if ins == [] {
      HeardOne(0);
    } else {
      var n := |ins| - 1;
      var g, log := After(cfg, start, ins[..n]), Log(cfg, start, ins[..n]);
      HeardAppend(log, Step(cfg, g, n, ins[n].now, ins[n].voiced).1);
      if j in Heard(log) {
        SentIsNearSpeech(cfg, start, ins[..n], j);
        NearGrows(cfg, ins, n, j);
      } else {
        StepSends(cfg, g, n, ins[n].now, ins[n].voiced, j);
        if j == n {
          OpenExactly(cfg, start, ins);
        } else {
          SentInOrder(cfg, start, ins[..n]);
          assert ins[n].voiced && n - j <= cfg.frames;
        }
      }
    }
  }

  lemma NearGrows(cfg: Config, ins: seq<In>, n: nat, j: nat)
    requires j < n <= |ins| && (BeforeSpeech(cfg, ins[..n], j) || AfterSpeech(cfg, ins[..n], j))
    ensures BeforeSpeech(cfg, ins, j) || AfterSpeech(cfg, ins, j)
  {
    hide Holds;
    if BeforeSpeech(cfg, ins[..n], j) {
      var i :| j <= i < n && i - j <= cfg.frames && ins[..n][i].voiced;
      assert ins[i].voiced;
    } else {
      var i :| 0 <= i <= j && Holds(cfg, ins[..n], i, j);
      HoldsPrefix(cfg, ins, i, j, n);
    }
  }

  /** Over every run: a frame is sent exactly if speech comes within the ring's worth of frames after it,
      or it comes within the hangover of speech; the others are withheld. */
  lemma SentExactlyNearSpeech(cfg: Config, start: int, ins: seq<In>, j: nat)
    requires j < |ins|
    ensures j in Heard(Log(cfg, start, ins)) <==> BeforeSpeech(cfg, ins, j) || AfterSpeech(cfg, ins, j)
  {
    hide After, Log, Heard, Holds;
    if j in Heard(Log(cfg, start, ins)) {
      SentIsNearSpeech(cfg, start, ins, j);
    }
    if BeforeSpeech(cfg, ins, j) {
      var i :| j <= i < |ins| && i - j <= cfg.frames && ins[i].voiced;
      SpeechIsSent(cfg, start, ins, i, j);
    }
    if AfterSpeech(cfg, ins, j) {
      AfterSpeechPrefix(cfg, ins, j);
      OpenExactly(cfg, start, ins[..j + 1]);
      OpenSent(cfg, start, ins[..j + 1]);
      LogGrows(cfg, start, ins, j + 1);
    }
  }

  lemma OpenSent(cfg: Config, start: int, ins: seq<In>)
    requires ins != [] && After(cfg, start, ins).open
    ensures |ins| - 1 in Heard(Log(cfg, start, ins))
  {
    hide After, Log, Heard;
    RunSafe(cfg, start, ins);
    OpenClosedFor(cfg, After(cfg, start, ins), Heard(Log(cfg, start, ins)), |ins|, ClosedFor(cfg, start, ins));
    SentWhenOpen(cfg, After(cfg, start, ins), Heard(Log(cfg, start, ins)), |ins|, |ins| - 1);
  }

  // ---- the gaps between sends -----------------------------------------------------------------

  /** Frame i made the gate send: itself, what was kept, or silence. */
  predicate Sends(cfg: Config, start: int, ins: seq<In>, i: nat)
    requires i < |ins|
  {
    Step(cfg, After(cfg, start, ins[..i]), i, ins[i].now, ins[i].voiced).1 != []
  }

  /** When the frame before frame i came. */
  function Before(start: int, ins: seq<In>, i: nat): int
    requires i <= |ins|
  {
    if i == 0 then start else ins[i - 1].now
  }

  /** What the gate remembers of its sends, after n frames: when the last one was. */
  lemma {:induction false} RemembersSend(cfg: Config, start: int, ins: seq<In>, i: nat, n: nat)
    requires i <= n <= |ins| && (i == 0 || Sends(cfg, start, ins, i - 1))
    requires forall k: nat :: i <= k < n ==> !Sends(cfg, start, ins, k)
    ensures After(cfg, start, ins[..n]).lastSent == Before(start, ins, i)
    decreases n
  {
    hide Step;
    if n > 0 {
      assert ins[..n][..n - 1] == ins[..n - 1];
      var g, now := After(cfg, start, ins[..n - 1]), ins[n - 1].now;
      StepRemembers(cfg, g, n - 1, now, ins[n - 1].voiced);
      if n > i {
        assert !Sends(cfg, start, ins, n - 1);
        RemembersSend(cfg, start, ins, i, n - 1);
      }
    }
  }

  lemma StepRemembers<T>(cfg: Config, g: Gate<T>, frame: T, now: int, voiced: bool)
    ensures var (g', out) := Step(cfg, g, frame, now, voiced);
      g'.lastSent == (if out != [] then now else g.lastSent) && now - g'.lastSent < KEEPALIVE
  {
  }

  lemma NeverSilentForLong(cfg: Config, start: int, ins: seq<In>, n: nat)
    requires n <= |ins|
    ensures Before(start, ins, n) - After(cfg, start, ins[..n]).lastSent < KEEPALIVE
  {
    if n > 0 {
      assert ins[..n][..n - 1] == ins[..n - 1];
      StepRemembers(cfg, After(cfg, start, ins[..n - 1]), n - 1, ins[n - 1].now, ins[n - 1].voiced);
    }
  }

  /** Over every run: two sends in a row (or the start and the first) are less than the keepalive
      period and one frame gap apart; and after the last one no frame comes the period later. i is
      the number of frames up to the earlier send, n those before the later one. */
  lemma SendGaps(cfg: Config, start: int, ins: seq<In>, i: nat, n: nat)
    requires i <= n <= |ins| && (i == 0 || Sends(cfg, start, ins, i - 1))
    requires forall k: nat :: i <= k < n ==> !Sends(cfg, start, ins, k)
    ensures Before(start, ins, n) - Before(start, ins, i) < KEEPALIVE
    ensures n < |ins| ==>
      ins[n].now - Before(start, ins, i) < KEEPALIVE + (ins[n].now - Before(start, ins, n))
  {
    RemembersSend(cfg, start, ins, i, n);
    NeverSilentForLong(cfg, start, ins, n);
  }

  /** And silence is sent exactly when it is due: at a frame away from speech, the keepalive period or
      more after the last send. */
  lemma SilenceExactlyWhenDue(cfg: Config, start: int, ins: seq<In>, i: nat, n: nat)
    requires i <= n < |ins| && (i == 0 || Sends(cfg, start, ins, i - 1))
    requires forall k: nat :: i <= k < n ==> !Sends(cfg, start, ins, k)
    ensures Keepalive in Step(cfg, After(cfg, start, ins[..n]), n, ins[n].now, ins[n].voiced).1
       <==> !AfterSpeech(cfg, ins, n) && ins[n].now - Before(start, ins, i) >= KEEPALIVE
  {
    hide Sends, AfterSpeech;
    RemembersSend(cfg, start, ins, i, n);
    OpenExactly(cfg, start, ins[..n + 1]);
    AfterSpeechPrefix(cfg, ins, n);
    assert ins[..n + 1][..n] == ins[..n];
    var g := After(cfg, start, ins[..n]);
    assert After(cfg, start, ins[..n + 1]) == Step(cfg, g, n, ins[n].now, ins[n].voiced).0;
    StepSilence(cfg, g, n, ins[n].now, ins[n].voiced);
  }

  lemma StepSilence<T>(cfg: Config, g: Gate<T>, frame: T, now: int, voiced: bool)
    ensures var (g', out) := Step(cfg, g, frame, now, voiced);
      Keepalive in out <==> !g'.open && now - g.lastSent >= KEEPALIVE
  {
  }

  lemma AfterSpeechPrefix(cfg: Config, ins: seq<In>, n: nat)
    requires n < |ins|
    ensures AfterSpeech(cfg, ins[..n + 1], n) == AfterSpeech(cfg, ins, n)
  {
    hide Holds;
    if AfterSpeech(cfg, ins[..n + 1], n) {
      var i :| 0 <= i <= n && Holds(cfg, ins[..n + 1], i, n);
      HoldsPrefix(cfg, ins, i, n, n + 1);
    }
    if AfterSpeech(cfg, ins, n) {
      var i :| 0 <= i <= n && Holds(cfg, ins, i, n);
      HoldsPrefix(cfg, ins, i, n, n + 1);
    }
  }

  // ---- the ring -----------------------------------------------------------------------------

  /** The slot of the i-th kept frame. */
  function Index(head: nat, count: nat, i: nat, size: nat): (k: nat)
    requires head < size && i < count <= size
    ensures k < size
  {
    (head + size - count + i) % size
  }

  /** The frames in the slots, oldest first. */
  function KeptOf<T>(slots: seq<T>, head: nat, count: nat): (kept: seq<T>)
    requires head < |slots| && count <= |slots|
    ensures |kept| == count
  {
    seq(count, i requires 0 <= i < count => slots[Index(head, count, i, |slots|)])
  }

  class SttGate<T(0)> {
    const cfg: Config
    const ring: array<T>
    var head: nat
    var count: nat
    var open: bool
    var lastVoiced: int
    var lastSent: int
    /** What was sent to the STT. */
    var log: seq<Sent<T>>

    ghost predicate Valid()
      reads this
    {
      0 < ring.Length == cfg.frames && head < ring.Length && count <= ring.Length && (open ==> count == 0)
    }

    ghost function Kept(): (s: seq<T>)
      requires Valid()
      reads this, ring
      ensures |s| == count
    {
      KeptOf(ring[..], head, count)
    }

    ghost function Model(): Gate<T>
      requires Valid()
      reads this, ring
    {
      Gate(Kept(), open, lastVoiced, lastSent)
    }

    /** A ring for the preroll, one frame at least. */
    constructor (preroll: int, hangover: int, now: int)
      ensures Valid() && fresh(ring) && log == []
      ensures cfg == Config(if preroll < FRAME_TIME then 1 else preroll / FRAME_TIME, hangover)
      ensures Model() == Gate([], false, now, now)
    {
      var frames: nat := if preroll < FRAME_TIME then 1 else preroll / FRAME_TIME;
      cfg := Config(frames, hangover);
      ring := new T[frames];
      head, count, open, lastVoiced, lastSent, log := 0, 0, false, now, now, [];
    }

    method Send(s: Sent<T>, now: int)
      modifies this`lastSent, this`log
      ensures lastSent == now && log == old(log) + [s]
    {
      lastSent := now;
      log := log + [s];
    }

    /** The newest frame in, the oldest out when full. */
    method Push(frame: T)
      requires Valid() && !open
      modifies this`head, this`count, ring
      ensures Valid() && Kept() == Newest(old(Kept()) + [frame], cfg.frames)
    {
      PushKept(ring[..], head, count, frame);
      ring[head] := frame;
      head := (head + 1) % ring.Length;
      count := if count + 1 < ring.Length then count + 1 else ring.Length;
    }

    method SendPreroll(now: int)
      requires Valid()
      modifies this`count, this`lastSent, this`log
      ensures Valid() && count == 0 && log == old(log) + Sounds(old(Kept()))
      ensures lastSent == if old(count) > 0 then now else old(lastSent)
    {
      ghost var kept := Kept();
      for i := 0 to count
        invariant count == old(count) && head == old(head) && log == old(log) + Sounds(kept[..i])
        invariant lastSent == if i > 0 then now else old(lastSent)
      {
        var index := (head + ring.Length - count + i) % ring.Length;
        assert kept[i] == ring[index];
        SoundsNext(kept, i);
        Send(Sound(ring[index]), now);
      }
      assert kept[..count] == kept;
      count := 0;
    }

    /** One 20 ms frame. */
    method Frame(pcm: T, now: int, voiced: bool)
      requires Valid()
      modifies this`head, this`count, this`open, this`lastVoiced, this`lastSent, this`log, ring
      ensures Valid()
      ensures var (g, out) := Step(cfg, old(Model()), pcm, now, voiced); Model() == g && log == old(log) + out
    {
      if voiced {
        lastVoiced := now;
      }
      if open && now - lastVoiced > cfg.hangover {
        open := false;
      }
      assert Kept() == old(Kept());
      if open {
        Send(Sound(pcm), now);
        assert Kept() == old(Kept());
        return;
      }
      if voiced {
        SendPreroll(now);
        open := true;
        assert old(log) + Sounds(old(Kept())) + [Sound(pcm)] == old(log) + (Sounds(old(Kept())) + [Sound(pcm)]);
        Send(Sound(pcm), now);
        assert Kept() == [];
        return;
      }
      Push(pcm);
      if now - lastSent >= KEEPALIVE {
        Send(Keepalive, now);
      }
      assert Kept() == Newest(old(Kept()) + [pcm], cfg.frames);
    }
  }

  lemma SoundsNext<T>(kept: seq<T>, i: nat)
    requires i < |kept|
    ensures Sounds(kept[..i + 1]) == Sounds(kept[..i]) + [Sound(kept[i])]
  {
  }

  lemma PushMoves(head: nat, count: nat, size: nat)
    requires head < size && count <= size
    ensures (head + 1) % size == if head + 1 == size then 0 else head + 1
  {
  }

  /** Where a frame is after a push: the newest at the old head, the others where they were. */
  lemma PushIndex(head: nat, count: nat, i: nat, size: nat)
    requires head < size && count <= size
    requires var count' := if count + 1 < size then count + 1 else size; i < count'
    ensures var count' := if count + 1 < size then count + 1 else size;
      var k := Index((head + 1) % size, count', i, size);
      var j := i + (count + 1 - count');
      if j == count then k == head else j < count && k == Index(head, count, j, size) && k != head
  {
    var count' := if count + 1 < size then count + 1 else size;
    var j := i + (count + 1 - count');
    PushMoves(head, count, size);
    InRange((head + 1) % size + size - count' + i, size);
    if j < count {
      InRange(head + size - count + j, size);
    }
  }

  /** One more frame at the head: the newest kept, as many as fit. */
  lemma PushKept<T>(slots: seq<T>, head: nat, count: nat, frame: T)
    requires head < |slots| && count <= |slots|
    ensures var size := |slots|;
      (head + 1) % size < size
      && KeptOf(slots[head := frame], (head + 1) % size, if count + 1 < size then count + 1 else size)
         == Newest(KeptOf(slots, head, count) + [frame], size)
  {
    hide Index;
    var size := |slots|;
    var count' := if count + 1 < size then count + 1 else size;
    PushMoves(head, count, size);
    var kept, kept' := KeptOf(slots, head, count), KeptOf(slots[head := frame], (head + 1) % size, count');
    var drop := count + 1 - count';
    forall i | 0 <= i < count' ensures kept'[i] == (kept + [frame])[i + drop] {
      PushIndex(head, count, i, size);
    }
    assert kept' == (kept + [frame])[drop..];
  }

  /** Remainders of numbers less than twice the size. */
  lemma InRange(x: nat, size: nat)
    requires 0 < size && x < 2 * size
    ensures x % size == if x < size then x else x - size
  {
    if x >= size {
      assert x == (x - size) + size;
      assert x / size == 1;
    }
  }
}
