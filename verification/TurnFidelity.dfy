/** What the caller hears of a reply, and what the memory keeps of it. The log is the history of
    the current reply; it starts anew with every reply. */
module TurnFidelity {
  import opened Wrappers
  import opened Runes
  import opened Messages
  import opened TurnSpec
  import opened TurnSafety

  /** What happened to the caller's ear: a queued frame, a repeated one, or the reply going on after
      a pause. */
  datatype Item = Sound(frame: OutFrame) | Repeat(pcm: Pcm) | Resumed

  /** Of the current reply: the audio received, the frames queued, whether the full queue dropped
      any, what was heard with the resumes in between, and the newest request audio came from. */
  datatype Log = Log(received: Pcm, queued: seq<OutFrame>, dropped: bool, heard: seq<Item>, lastReq: nat)

  const NO_LOG := Log([], [], false, [], 0)

  function Heard(t: Turn, ev: Event): seq<Item> {
    match Hears(t, ev)
    case Silence => []
    case Fresh(f) => [Sound(f)]
    case Again(pcm, _) => [Repeat(pcm)]
  }

  /** A paused reply goes on: the call is ending, the caller only acknowledged, or fell quiet. */
  predicate Resumes(cfg: Config, t: Turn, ev: Event) {
    match ev
    case Transcribed(tr, _) =>
      t.sh.paused && !tr.postCut && !tr.junk && (t.sh.closing || (cfg.ackFilter && tr.ack))
    case ResumeCheck(check, quiet) => t.sh.paused && check == t.lp.resumeSeq && quiet
    case _ => false
  }

  function NextLog(cfg: Config, t: Turn, log: Log, ev: Event, t': Turn): Log {
    if t'.lp.curGen != t.lp.curGen then NO_LOG
    else if Resumes(cfg, t, ev) then log.(heard := log.heard + [Resumed])
    else match ev
      case Ticked(_, _, _) => log.(heard := log.heard + Heard(t, ev))
      case TtsAudio(pcm, gen, req, _) =>
        if gen != t.lp.curGen then log
        else Log(log.received + pcm, log.queued + Queued(t, pcm, req), log.dropped || Overflows(t, pcm), log.heard, req)
      case _ => log
  }

  predicate Overflows(t: Turn, pcm: Pcm) {
    |t.sh.outbound| + |Frames(t.lp.ttsBuf + pcm)| > OUTBOUND_FRAMES
  }

  /** The TTS side sends a reply's audio in request order. */
  predicate InOrder(t: Turn, log: Log, ev: Event) {
    ev.TtsAudio? && ev.gen == t.lp.curGen ==> ev.req >= log.lastReq
  }

  // ---- what was heard ---------------------------------------------------------

  /** The frames heard, with the repeats deleted. */
  function Once(heard: seq<Item>): seq<OutFrame> {
    if heard == [] then []
    else
      var n := |heard| - 1;
      if heard[n].Sound? then Once(heard[..n]) + [heard[n].frame] else Once(heard[..n])
  }

  /** The frames of the last sentence: as far back as the request is the same. */
  function LastSentence(frames: seq<OutFrame>): (s: seq<Pcm>)
    ensures frames != [] ==> s != []
  {
    if frames == [] then []
    else
      var n := |frames| - 1;
      (if n > 0 && frames[n - 1].req == frames[n].req then LastSentence(frames[..n]) else []) + [frames[n].pcm]
  }

  /** How much of the last sentence has been repeated since the last resume that interrupted one, if
      nothing new was heard since. */
  function Repeated(heard: seq<Item>): Option<nat> {
    if heard == [] then None
    else
      var n := |heard| - 1;
      match heard[n]
      case Sound(_) => None
      case Resumed => if Once(heard[..n]) == [] then None else Some(0)
      case Repeat(_) =>
        match Repeated(heard[..n])
        case None => None
        case Some(k) => Some(k + 1)
  }

  /** After every resume the interrupted sentence is repeated from its first frame, in order, and
      completely before anything new (unless another resume starts it again); nothing else is. */
  predicate WellHeard(heard: seq<Item>) {
    if heard == [] then true
    else
      var n := |heard| - 1;
      var before := heard[..n];
      var sentence := LastSentence(Once(before));
      && WellHeard(before)
      && match heard[n]
         case Sound(_) => Repeated(before) in {None, Some(|sentence|)}
         case Repeat(pcm) =>
           Repeated(before).Some? && Repeated(before).value < |sentence| && pcm == sentence[Repeated(before).value]
         case Resumed => true
  }

  /** What is heard next after a resume is the first frame of the sentence that was interrupted. */
  predicate ResumesRestart(heard: seq<Item>) {
    forall j :: 0 < j < |heard| && AfterResume(heard, j) ==> heard[j] == Repeat(LastSentence(Once(heard[..j]))[0])
  }

  /** Item j is the first heard after a resume, with a sentence to go back to. */
  predicate AfterResume(heard: seq<Item>, j: nat)
    requires 0 < j < |heard|
  {
    heard[j - 1] == Resumed && heard[j] != Resumed && Once(heard[..j]) != []
  }

  lemma {:induction false} PrefixIsWell(heard: seq<Item>, j: nat)
    requires WellHeard(heard) && j <= |heard|
    ensures WellHeard(heard[..j])
  {
    if j == |heard| {
      assert heard[..j] == heard;
    } else {
      PrefixIsWell(heard[..|heard| - 1], j);
      assert heard[..|heard| - 1][..j] == heard[..j];
    }
  }

  lemma WellHeardRestarts(heard: seq<Item>)
    requires WellHeard(heard)
    ensures ResumesRestart(heard)
  {
    forall j | 0 < j < |heard| && AfterResume(heard, j)
      ensures heard[j] == Repeat(LastSentence(Once(heard[..j]))[0])
    {
      PrefixIsWell(heard, j + 1);
      assert heard[..j + 1][..j] == heard[..j];
      RestartsAt(heard[..j + 1], j);
    }
  }

  lemma RestartsAt(heard: seq<Item>, j: nat)
    requires |heard| == j + 1 && j > 0 && WellHeard(heard) && AfterResume(heard, j)
    ensures heard[j] == Repeat(LastSentence(Once(heard[..j]))[0])
  {
    var before := heard[..j];
    assert before[|before| - 1] == Resumed && Once(before) == Once(before[..|before| - 1]);
    assert Repeated(before) == Some(0);
  }

  // ---- the invariant ------------------------------------------------------------

  ghost predicate QueueFaithful(t: Turn, log: Log) {
    Once(log.heard) + t.sh.outbound == log.queued
  }

  ghost predicate PlayFaithful(t: Turn, log: Log) {
    var once := Once(log.heard);
    var n := |once| - 1;
    && WellHeard(log.heard)
    && (once == [] ==>
        Repeated(log.heard) == None && t.sh.playingReq == 0
        && (t.pl.sentGen < t.lp.curGen || t.pl.sentFrames == []))
    && (once != [] ==>
        && t.pl.sentGen == t.lp.curGen && t.pl.sentReq == t.sh.playingReq == once[n].req
        && t.pl.sentFrames == LastSentence(once)
        && (t.sh.replayPending ==>
        t.sh.replayGen == t.lp.curGen)
        && ReplayFaithful(t, log))
  }

  ghost predicate ReplayFaithful(t: Turn, log: Log) {
    if t.sh.replayPending then Repeated(log.heard) == Some(0)
    else if t.pl.replaying then Repeated(log.heard) == Some(t.pl.replayIdx) && t.pl.replayIdx <= |t.pl.sentFrames|
    else Repeated(log.heard) in {None, Some(|t.pl.sentFrames|)}
  }

  function Bytes(frames: seq<OutFrame>): Pcm {
    if frames == [] then [] else Bytes(frames[..|frames| - 1]) + frames[|frames| - 1].pcm
  }

  ghost predicate BytesFaithful(t: Turn, log: Log) {
    && (forall i :: 0 <= i < |log.queued| ==> |log.queued[i].pcm| == FRAME_SIZE)
    && ((t.sh.state == Thinking || t.sh.state == Speaking) && !log.dropped ==>
        Bytes(log.queued) + t.lp.ttsBuf == log.received)
    && |t.lp.ttsBuf| < FRAME_SIZE
  }

  ghost predicate OrderFaithful(t: Turn, log: Log) {
    && (forall i, j :: 0 <= i < j < |log.queued| ==> log.queued[i].req <= log.queued[j].req)
    && (forall i :: 0 <= i < |log.queued| ==> 0 < log.queued[i].req <= log.lastReq)
    && Ascending(t.mem.chunks)
    && (forall i :: 0 <= i < |t.mem.chunks| ==> 0 < t.mem.chunks[i].req <= log.lastReq)
  }

  ghost predicate Ascending(chunks: seq<Spoken>) {
    forall i, j :: 0 <= i < j < |chunks| ==> chunks[i].req < chunks[j].req
  }

  ghost predicate MemoryWhole(t: Turn) {
    WholeBlocks(t.mem.history) && WholeBlocks(t.mem.toolMsgs)
  }

  ghost predicate Faithful(t: Turn, log: Log) {
    QueueFaithful(t, log) && PlayFaithful(t, log) && BytesFaithful(t, log) && OrderFaithful(t, log) && MemoryWhole(t)
  }

  lemma InitFaithful()
    ensures Faithful(INIT, NO_LOG)
  {
  }

  // ---- appending --------------------------------------------------------------

  lemma HearAlso(heard: seq<Item>, item: Item)
    ensures var h := heard + [item]; h[..|h| - 1] == heard && h[|h| - 1] == item
    ensures Once(heard + [item]) == if item.Sound? then Once(heard) + [item.frame] else Once(heard)
  {
    assert (heard + [item])[..|heard|] == heard;
  }

  lemma LastSentenceAlso(frames: seq<OutFrame>, f: OutFrame)
    ensures var n := |frames|;
      LastSentence(frames + [f]) == (if n > 0 && frames[n - 1].req == f.req then LastSentence(frames) else []) + [f.pcm]
  {
    assert (frames + [f])[..|frames|] == frames;
  }

  lemma {:induction false} BytesAppend(a: seq<OutFrame>, b: seq<OutFrame>)
    ensures Bytes(a + b) == Bytes(a) + Bytes(b)
  {
    if b == [] {
      assert a + b == a;
    } else {
      var n := |b| - 1;
      assert (a + b)[..|a + b| - 1] == a + b[..n];
      BytesAppend(a, b[..n]);
    }
  }

  // ---- ticks ---------------------------------------------------------------------

  lemma SoundPlays(t: Turn, log: Log, now: int)
    requires PlayFaithful(t, log) && QueueSafe(t)
    requires !t.sh.replayPending && !ActiveReplay(t) && t.sh.outbound != []
    ensures var u := Pop(t.(pl := t.pl.(replaying := false)), now);
      PlayFaithful(u, log.(heard := log.heard + [Sound(t.sh.outbound[0])]))
  {
    hide WellHeard, Repeated, LastSentence, Once;
    var f := t.sh.outbound[0];
    var once := Once(log.heard);
    assert LastSentence([]) == [] by { EmptyHeard(); }
    HearAlso(log.heard, Sound(f));
    LastSentenceAlso(once, f);
    SoundIsWell(log.heard, f);
    if once == [] {
      assert Repeated(log.heard) == None;
    }
  }

  lemma SoundLeavesQueue(t: Turn, log: Log)
    requires QueueFaithful(t, log) && t.sh.outbound != []
    ensures Once(log.heard + [Sound(t.sh.outbound[0])]) + t.sh.outbound[1..] == log.queued
  {
    HearAlso(log.heard, Sound(t.sh.outbound[0]));
  }

  lemma EmptyHeard()
    ensures LastSentence([]) == [] && Once([]) == []
  {
  }

  lemma SoundIsWell(heard: seq<Item>, f: OutFrame)
    ensures Repeated(heard + [Sound(f)]) == None
    ensures WellHeard(heard) && Repeated(heard) in {None, Some(|LastSentence(Once(heard))|)}
      ==> WellHeard(heard + [Sound(f)])
    ensures Repeated([]) == None
  {
    hide Once, LastSentence;
    HearAlso(heard, Sound(f));
  }

  lemma RepeatIsWell(heard: seq<Item>, pcm: Pcm, k: nat)
    requires WellHeard(heard) && k < |LastSentence(Once(heard))| && pcm == LastSentence(Once(heard))[k]
    requires Repeated(heard) == Some(k)
    ensures WellHeard(heard + [Repeat(pcm)])
    ensures Repeated(heard + [Repeat(pcm)]) == Some(k + 1)
  {
    hide Once, LastSentence;
    HearAlso(heard, Repeat(pcm));
  }

  lemma ResumedIsWell(heard: seq<Item>)
    ensures Once(heard + [Resumed]) == Once(heard)
    ensures WellHeard(heard) ==> WellHeard(heard + [Resumed])
    ensures Repeated(heard + [Resumed]) == if Once(heard) == [] then None else Some(0)
  {
    hide LastSentence;
    HearAlso(heard, Resumed);
  }

  lemma RepeatPlays(t: Turn, log: Log)
    requires PlayFaithful(t, log) && ReplaySafe(t) && ActiveReplay(TakeReplay(t))
    ensures var u := TakeReplay(t);
      var k := u.pl.replayIdx;
      var u' := u.(pl := u.pl.(emptyTicks := 0, replayIdx := k + 1));
      var log' := log.(heard := log.heard + [Repeat(t.pl.sentFrames[k])]);
      PlayFaithful(u', log') && Once(log'.heard) == Once(log.heard)
  {
    hide WellHeard, Repeated, LastSentence, Once;
    var k := TakeReplay(t).pl.replayIdx;
    var item := Repeat(t.pl.sentFrames[k]);
    HearAlso(log.heard, item);
    assert Once(log.heard) != [];
    RepeatIsWell(log.heard, item.pcm, k);
  }

  lemma TickFaithful(cfg: Config, s: Sys, log: Log, ev: Event)
    requires Safe(s) && Faithful(s.t, log) && ev.Ticked?
    ensures var t' := Tick(s.t, ev.now, ev.bargeIn, ev.toolRunning).0;
      PlayFaithful(t', NextLog(cfg, s.t, log, ev, t')) && QueueFaithful(t', NextLog(cfg, s.t, log, ev, t'))
  {
    hide PlayFaithful, BytesFaithful, OrderFaithful, MemoryWhole, StateSafe, SignalSafe, QueueSafe, ReplaySafe;
    hide Pop, Drained, TakeReplay, Once, ActiveReplay;
    var t := s.t;
    assert log.heard + [] == log.heard;
    if t.sh.state != Speaking || t.sh.paused {
    } else if ev.bargeIn {
      PauseFaithful(t, log);
    } else {
      TakeReplayFrame(t);
      var u := TakeReplay(t);
      if ActiveReplay(u) {
        RepeatPlays(t, log);
      } else {
        NoReplayTaken(t, log);
        var v := u.(pl := u.pl.(replaying := false));
        if u.sh.outbound != [] {
          SoundPlays(u, log, ev.now);
          SoundLeavesQueue(u, log);
          PopFrame(v, ev.now);
        } else {
          DrainedFaithful(v, log, ev.toolRunning);
        }
      }
    }
  }

  lemma TakeReplayFrame(t: Turn)
    ensures TakeReplay(t).sh.outbound == t.sh.outbound && TakeReplay(t).lp == t.lp && TakeReplay(t).mem == t.mem
    ensures TakeReplay(t).pl.sentFrames == t.pl.sentFrames && TakeReplay(t).sh.state == t.sh.state
    ensures !TakeReplay(t).sh.replayPending
    ensures !ActiveReplay(TakeReplay(t)) || t.sh.replayPending || TakeReplay(t) == t
    ensures QueueSafe(t) ==> QueueSafe(TakeReplay(t))
  {
  }

  lemma PopFrame(t: Turn, now: int)
    requires t.sh.outbound != []
    ensures Pop(t, now).sh.outbound == t.sh.outbound[1..] && Pop(t, now).lp == t.lp && Pop(t, now).mem == t.mem
    ensures Pop(t, now).sh.state == t.sh.state
  {
  }

  lemma PauseFaithful(t: Turn, log: Log)
    requires PlayFaithful(t, log)
    ensures PlayFaithful(Pause(t), log)
  {
    hide Once, WellHeard, Repeated, LastSentence;
  }

  lemma DrainedFaithful(t: Turn, log: Log, toolRunning: bool)
    requires PlayFaithful(t, log)
    ensures PlayFaithful(Drained(t, toolRunning), log)
    ensures var u := Drained(t, toolRunning);
      u.sh.outbound == t.sh.outbound && u.lp == t.lp && u.mem == t.mem
  {
    hide Once, WellHeard, Repeated, LastSentence;
  }

  /** When nothing is repeated, the sentence is complete or was not interrupted. */
  lemma NoReplayTaken(t: Turn, log: Log)
    requires PlayFaithful(t, log) && !ActiveReplay(TakeReplay(t))
    ensures PlayFaithful(TakeReplay(t), log)
    ensures var u := TakeReplay(t); PlayFaithful(u.(pl := u.pl.(replaying := false)), log)
  {
    hide Once, WellHeard, Repeated;
  }

  lemma TickFrame(t: Turn, now: int, bargeIn: bool, toolRunning: bool)
    ensures var t' := Tick(t, now, bargeIn, toolRunning).0;
      t'.lp == t.lp && t'.mem == t.mem && t'.sh.state in {t.sh.state, Listening}
  {
    hide TakeReplay, Pop, Drained;
    TakeReplayFrame(t);
    var u := TakeReplay(t);
    var v := u.(pl := u.pl.(replaying := false));
    if u.sh.outbound != [] {
      PopFrame(v, now);
    }
    DrainedFrame(v, toolRunning);
  }

  lemma DrainedFrame(t: Turn, toolRunning: bool)
    ensures var u := Drained(t, toolRunning);
      u.lp == t.lp && u.mem == t.mem && u.sh.state in {t.sh.state, Listening}
  {
  }

  lemma TickKeepsRest(cfg: Config, t: Turn, log: Log, ev: Event)
    requires ev.Ticked? && BytesFaithful(t, log) && OrderFaithful(t, log) && MemoryWhole(t)
    ensures var t' := Tick(t, ev.now, ev.bargeIn, ev.toolRunning).0;
      var log' := NextLog(cfg, t, log, ev, t');
      BytesFaithful(t', log') && OrderFaithful(t', log') && MemoryWhole(t')
  {
    hide Bytes, WholeBlocks, Ascending, Tick, Heard;
    TickFrame(t, ev.now, ev.bargeIn, ev.toolRunning);
  }

  // ---- audio ---------------------------------------------------------------------

  lemma {:induction false} FramesAreWhole(buf: Pcm)
    ensures forall i :: 0 <= i < |Frames(buf)| ==> |Frames(buf)[i]| == FRAME_SIZE
    ensures |Tail(buf)| < FRAME_SIZE
    decreases |buf|
  {
    if |buf| >= FRAME_SIZE {
      FramesAreWhole(buf[FRAME_SIZE..]);
    }
  }

  /** Cutting into frames loses nothing. */
  lemma {:induction false} FramesKeepBytes(buf: Pcm, req: nat, gen: nat)
    ensures Bytes(Tagged(Frames(buf), req, gen)) + Tail(buf) == buf
    decreases |buf|
  {
    if |buf| >= FRAME_SIZE {
      var rest := buf[FRAME_SIZE..];
      var first := OutFrame(buf[..FRAME_SIZE], req, gen);
      FramesKeepBytes(rest, req, gen);
      assert Tagged(Frames(buf), req, gen) == [first] + Tagged(Frames(rest), req, gen);
      BytesAppend([first], Tagged(Frames(rest), req, gen));
      assert Bytes([first]) == buf[..FRAME_SIZE] by {
        assert [first][..0] == [];
      }
      assert buf == buf[..FRAME_SIZE] + rest;
    }
  }

  lemma AudioBytes(t: Turn, log: Log, pcm: Pcm, req: nat)
    requires BytesFaithful(t, log) && (t.sh.state == Thinking || t.sh.state == Speaking)
    ensures var more := Queued(t, pcm, req);
      && (!log.dropped && !Overflows(t, pcm) ==>
          Bytes(log.queued + more) + Tail(t.lp.ttsBuf + pcm) == log.received + pcm)
      && (forall i :: 0 <= i < |more| ==> |more[i].pcm| == FRAME_SIZE)
      && |Tail(t.lp.ttsBuf + pcm)| < FRAME_SIZE
  {
    hide Frames, Tail, Bytes;
    var buf := t.lp.ttsBuf + pcm;
    FramesAreWhole(buf);
    if !log.dropped && !Overflows(t, pcm) {
      FramesKeepBytes(buf, req, t.lp.curGen);
      assert Frames(buf)[..|Frames(buf)|] == Frames(buf);
      BytesAppend(log.queued, Queued(t, pcm, req));
      calc {
        Bytes(log.queued + Queued(t, pcm, req)) + Tail(buf);
        Bytes(log.queued) + (Bytes(Queued(t, pcm, req)) + Tail(buf));
        Bytes(log.queued) + (t.lp.ttsBuf + pcm);
        (Bytes(log.queued) + t.lp.ttsBuf) + pcm;
      }
    }
  }

  lemma AudioOrder(cfg: Config, t: Turn, log: Log, pcm: Pcm, req: nat, text: Text)
    requires OrderFaithful(t, log) && req >= log.lastReq && req > 0
    ensures var ev := TtsAudio(pcm, t.lp.curGen, req, text);
      var t' := HandleTtsAudio(t, pcm, t.lp.curGen, req, text);
      OrderFaithful(t', NextLog(cfg, t, log, ev, t'))
  {
    hide Frames, Tail, Room;
    var more := Queued(t, pcm, req);
    assert forall i :: 0 <= i < |more| ==> more[i].req == req;
    NoteAscends(t.mem.chunks, req, text, log.lastReq);
  }

  lemma NoteAscends(chunks: seq<Spoken>, req: nat, text: Text, last: nat)
    requires Ascending(chunks) && req >= last && req > 0
    requires forall i :: 0 <= i < |chunks| ==> 0 < chunks[i].req <= last
    ensures var c := NoteSentence(chunks, req, text);
      Ascending(c) && forall i :: 0 <= i < |c| ==> 0 < c[i].req <= req
  {
  }

  /** What audio of the current reply changes. */
  lemma AudioChanges(cfg: Config, t: Turn, log: Log, pcm: Pcm, req: nat, text: Text)
    ensures var ev := TtsAudio(pcm, t.lp.curGen, req, text);
      var t', more := HandleTtsAudio(t, pcm, t.lp.curGen, req, text), Queued(t, pcm, req);
      && t'.pl == t.pl
      && t'.sh == t.sh.(state := t'.sh.state, outbound := t.sh.outbound + more)
      && t'.lp == t.lp.(firstAudioGen := t.lp.curGen, ttsBuf := Tail(t.lp.ttsBuf + pcm))
      && t'.mem == t.mem.(chunks := t'.mem.chunks)
      && NextLog(cfg, t, log, ev, t')
         == Log(log.received + pcm, log.queued + more, log.dropped || Overflows(t, pcm), log.heard, req)
  {
    hide Frames, Tail, Queued, NoteSentence, Overflows;
  }

  lemma AudioQueue(t: Turn, log: Log, t': Turn, log': Log, more: seq<OutFrame>)
    requires QueueFaithful(t, log) && log'.heard == log.heard
    requires t'.sh.outbound == t.sh.outbound + more && log'.queued == log.queued + more
    ensures QueueFaithful(t', log')
  {
    hide Once;
    assert Once(log.heard) + (t.sh.outbound + more) == (Once(log.heard) + t.sh.outbound) + more;
  }

  lemma AudioPlay(t: Turn, log: Log, t': Turn, log': Log)
    requires PlayFaithful(t, log) && log'.heard == log.heard && t'.pl == t.pl && t'.lp.curGen == t.lp.curGen
    requires t'.sh == t.sh.(state := t'.sh.state, outbound := t'.sh.outbound)
    ensures PlayFaithful(t', log')
  {
    hide WellHeard, Repeated, LastSentence, Once;
  }

  lemma AudioBytesKept(t: Turn, log: Log, t': Turn, log': Log, pcm: Pcm, req: nat)
    requires BytesFaithful(t, log) && (t.sh.state == Thinking || t.sh.state == Speaking)
    requires log'.queued == log.queued + Queued(t, pcm, req) && log'.received == log.received + pcm
    requires log'.dropped == (log.dropped || Overflows(t, pcm)) && t'.lp.ttsBuf == Tail(t.lp.ttsBuf + pcm)
    ensures BytesFaithful(t', log')
  {
    hide Frames, Tail, Queued, Bytes, Overflows;
    AudioBytes(t, log, pcm, req);
  }

  lemma AudioIsSpoken(s: Sys)
    requires Safe(s) && s.env.audioOpen
    ensures s.t.sh.state == Thinking || s.t.sh.state == Speaking
  {
  }

  lemma AudioFaithful(cfg: Config, s: Sys, log: Log, pcm: Pcm, req: nat, text: Text)
    requires Safe(s) && s.env.audioOpen && Faithful(s.t, log) && req >= log.lastReq && req > 0
    ensures var ev := TtsAudio(pcm, s.t.lp.curGen, req, text);
      var t' := HandleTtsAudio(s.t, pcm, s.t.lp.curGen, req, text);
      Faithful(t', NextLog(cfg, s.t, log, ev, t'))
  {
    hide Safe, HandleTtsAudio, NextLog, Queued, Tail, Overflows, WholeBlocks;
    hide QueueFaithful, PlayFaithful, BytesFaithful, OrderFaithful;
    var t := s.t;
    var t' := HandleTtsAudio(t, pcm, t.lp.curGen, req, text);
    var log' := NextLog(cfg, t, log, TtsAudio(pcm, t.lp.curGen, req, text), t');
    AudioIsSpoken(s);
    AudioChanges(cfg, t, log, pcm, req, text);
    AudioQueue(t, log, t', log', Queued(t, pcm, req));
    AudioPlay(t, log, t', log');
    AudioBytesKept(t, log, t', log', pcm, req);
    AudioOrder(cfg, t, log, pcm, req, text);
  }

  // ---- the other events ------------------------------------------------------------

  /** The reply goes on, or its turn ended; a replay is asked for exactly if it is resumed. */
  ghost predicate SameReply(t: Turn, t': Turn, resumes: bool) {
    && t'.pl == t.pl && t'.sh.outbound == t.sh.outbound && t'.sh.playingReq == t.sh.playingReq
    && t'.sh.replayPending == (resumes || t.sh.replayPending)
    && t'.sh.replayGen == (if resumes then t.lp.curGen else t.sh.replayGen)
    && t'.lp.ttsBuf in {t.lp.ttsBuf, []}
    && (t'.sh.state == Thinking || t'.sh.state == Speaking ==> t'.sh.state == t.sh.state && t'.lp.ttsBuf == t.lp.ttsBuf)
    && t'.mem.chunks in {t.mem.chunks, []}
    && MemoryWhole(t')
  }

  ghost predicate FreshReply(t: Turn) {
    && t.sh.outbound == [] && t.sh.playingReq == 0 && t.pl.sentGen < t.lp.curGen && t.mem.chunks == []
    && |t.lp.ttsBuf| < FRAME_SIZE && (t.sh.state == Thinking || t.sh.state == Speaking ==> t.lp.ttsBuf == [])
    && MemoryWhole(t)
  }

  ghost predicate Carries(t: Turn, t': Turn, resumes: bool) {
    if t'.lp.curGen == t.lp.curGen then SameReply(t, t', resumes) else FreshReply(t')
  }

  lemma CarriesFaithful(t: Turn, log: Log, t': Turn, resumes: bool)
    requires Faithful(t, log) && Carries(t, t', resumes)
    ensures Faithful(t', if t'.lp.curGen != t.lp.curGen then NO_LOG
                         else if resumes then log.(heard := log.heard + [Resumed]) else log)
  {
    hide WellHeard, Repeated, LastSentence, Once, Bytes, WholeBlocks;
    if t'.lp.curGen != t.lp.curGen {
      EmptyLog();
    } else {
      ResumedIsWell(log.heard);
    }
  }

  lemma EmptyLog()
    ensures Once([]) == [] && WellHeard([]) && Repeated([]) == None && Bytes([]) == []
  {
  }

  lemma RecordedWhole(t: Turn, cut: bool)
    requires MemoryWhole(t)
    ensures MemoryWhole(RecordReply(t, cut))
  {
    hide WholeBlocks, JoinSpoken, Trim, Kept;
    var text := Trim(JoinSpoken(if cut then Kept(t.mem.chunks, t.sh.playingReq) else t.mem.chunks));
    var last := if text == [] then [] else [Said(Assistant, text)];
    EmptyIsWhole();
    PlainMessageIsWhole(Said(Assistant, text));
    WholeBlocksAppend(t.mem.toolMsgs, last);
    WholeBlocksAppend(t.mem.history, t.mem.toolMsgs + last);
  }

  lemma EmptyIsWhole()
    ensures WholeBlocks([])
  {
  }

  lemma AcceptFresh(t: Turn, text: Text, opens: bool)
    requires t.sh.outbound == [] && t.pl.sentGen <= t.lp.curGen && t.lp.ttsBuf == [] && MemoryWhole(t)
    ensures FreshReply(AcceptUserTurn(t, text, opens)) && AcceptUserTurn(t, text, opens).lp.curGen > t.lp.curGen
  {
    hide WholeBlocks;
    EmptyIsWhole();
    PlainMessageIsWhole(Said(User, text));
    WholeBlocksAppend(t.mem.history, [Said(User, text)]);
  }

  lemma SettleFresh(cfg: Config, t: Turn, gen: nat, opens: bool)
    requires t.sh.outbound == [] && t.pl.sentGen <= t.lp.curGen && t.lp.ttsBuf == [] && MemoryWhole(t)
    ensures var t' := SettleHeld(cfg, t, gen, opens);
      t' == t.(lp := t.lp.(held := [])) || (FreshReply(t') && t'.lp.curGen > t.lp.curGen)
  {
    hide AcceptUserTurn, Answer, JoinWords, FreshReply, WholeBlocks;
    var answer := Answer(t.lp.held, gen, t.sh.playingSince - cfg.ackMargin);
    AcceptFresh(t.(lp := t.lp.(held := [])), JoinWords(answer), opens);
  }

  /** A finished turn, before what was held is settled. */
  function Ended(t: Turn): Turn {
    var quiet := if t.sh.state == Speaking || t.sh.state == Thinking then t.(sh := t.sh.(state := Listening)) else t;
    var u := RecordReply(quiet, false);
    u.(lp := u.lp.(ttsBuf := []))
  }

  lemma EndedSame(t: Turn)
    requires MemoryWhole(t)
    ensures SameReply(t, Ended(t), false)
    ensures Ended(t).lp.curGen == t.lp.curGen && Ended(t).lp.ttsBuf == []
    ensures Ended(t).sh.state != Thinking && Ended(t).sh.state != Speaking
  {
    hide RecordReply, WholeBlocks;
    var u := if t.sh.state == Speaking || t.sh.state == Thinking then t.(sh := t.sh.(state := Listening)) else t;
    RecordedWhole(u, false);
    RecordFrame(u, false);
  }

  lemma FinishEnds(cfg: Config, t: Turn, gen: nat, opens: bool)
    ensures var w := Ended(t);
      FinishTurn(cfg, t, gen, opens)
      == if w.lp.hangupAfterTurn || w.lp.ending then
        w.(lp := w.lp.(held := [], hangupAfterTurn := false, hungUp := true))
      else
        var x := SettleHeld(cfg, w, gen, opens);
        if x.lp.curGen == w.lp.curGen then MoveIdleClock(x) else x
  {
    hide RecordReply, SettleHeld;
  }

  lemma FinishCarries(cfg: Config, t: Turn, opens: bool)
    requires t.sh.outbound == [] && t.pl.sentGen <= t.lp.curGen && MemoryWhole(t)
    ensures Carries(t, FinishTurn(cfg, t, t.lp.curGen, opens), false)
  {
    hide Ended, FinishTurn, SettleHeld, FreshReply, WholeBlocks;
    EndedSame(t);
    FinishEnds(cfg, t, t.lp.curGen, opens);
    SettleFresh(cfg, Ended(t), t.lp.curGen, opens);
  }

  lemma RecordFrame(t: Turn, cut: bool)
    ensures var u := RecordReply(t, cut);
      u.sh == t.sh && u.pl == t.pl && u.lp == t.lp && u.mem.chunks == []
  {
  }

  lemma TranscriptCarries(cfg: Config, s: Sys, tr: Transcript, opens: bool)
    requires Safe(s) && !Overtakes(cfg, s, Transcribed(tr, opens)) && MemoryWhole(s.t)
    ensures Carries(s.t, HandleTranscript(cfg, s.t, tr, opens), Resumes(cfg, s.t, Transcribed(tr, opens)))
  {
    hide AcceptUserTurn, RecordReply, WholeBlocks;
    var t := s.t;
    if Accepts(cfg, t, tr) {
      if t.sh.paused {
        RecordedWhole(CutFrom(t), true);
        RecordFrame(CutFrom(t), true);
        AcceptFresh(ConfirmInterruption(t), tr.text, opens);
      } else {
        AcceptFresh(t, tr.text, opens);
      }
    }
  }

  function CutFrom(t: Turn): Turn {
    t.(sh := t.sh.(state := Transcribing, paused := false), lp := t.lp.(resumeSeq := t.lp.resumeSeq + 1, held := []))
  }

  lemma IdleCarries(cfg: Config, s: Sys, timer: nat, prompt: Text, second: bool, opens: bool)
    requires Safe(s) && !Overtakes(cfg, s, Idle(timer, prompt, second, opens)) && MemoryWhole(s.t)
    ensures Carries(s.t, HandleIdle(s.t, timer, prompt, second, opens), false)
  {
    hide AcceptUserTurn, WholeBlocks;
    var t := s.t;
    if timer == t.lp.idleSeq && !t.lp.ending && t.sh.state == Listening {
      AcceptFresh(if second then t.(sh := t.sh.(closing := true), lp := t.lp.(ending := true)) else t, prompt, opens);
    }
  }

  lemma DrainCarries(s: Sys)
    requires Safe(s) && s.t.sh.drainSig && MemoryWhole(s.t)
    ensures Carries(s.t, HandleDrainTimeout(s.t), false)
  {
    hide RecordReply, WholeBlocks;
    var u := s.t.(sh := s.t.sh.(drainSig := false), lp := s.t.lp.(ttsBuf := []));
    RecordedWhole(u, true);
    RecordFrame(u, true);
  }

  lemma DoneCarries(cfg: Config, s: Sys, gen: nat, opens: bool)
    requires Safe(s) && Enabled(s, TtsDone(gen, opens)) && MemoryWhole(s.t)
    ensures Carries(s.t, HandleTtsDone(cfg, s.t, gen, opens), false)
  {
    hide FinishTurn, WholeBlocks;
    if s.t.sh.state == Thinking {
      FinishCarries(cfg, s.t, opens);
    }
  }

  lemma ClosedCarries(cfg: Config, s: Sys, conn: nat, opens: bool)
    requires Safe(s) && MemoryWhole(s.t)
    ensures Carries(s.t, HandleTtsClosed(cfg, s.t, conn, opens), false)
  {
    hide FinishTurn, WholeBlocks;
    if s.t.sh.state == Thinking {
      FinishCarries(cfg, s.t.(lp := s.t.lp.(ttsOpen := false)), opens);
    }
  }

  lemma PlaybackCarries(cfg: Config, s: Sys, opens: bool)
    requires Safe(s) && s.t.sh.playbackSig && MemoryWhole(s.t)
    ensures Carries(s.t, HandlePlaybackDone(cfg, s.t, opens), false)
  {
    hide FinishTurn, WholeBlocks;
    FinishCarries(cfg, s.t.(sh := s.t.sh.(playbackSig := false)), opens);
  }

  lemma OthersCarry(cfg: Config, s: Sys, ev: Event)
    requires Safe(s) && Enabled(s, ev) && !Overtakes(cfg, s, ev) && MemoryWhole(s.t)
    requires ev.LlmDone? || ev.ResumeCheck? || ev.BargeIn? || ev.EndingCall? || ev.Opening? || ev.CallerSpeech?
    ensures Carries(s.t, Next(cfg, s.t, ev), Resumes(cfg, s.t, ev))
  {
    hide WholeBlocks;
    EmptyIsWhole();
  }

  /** Every event but a tick or audio of the current reply. */
  lemma EventCarries(cfg: Config, s: Sys, ev: Event)
    requires Safe(s) && Enabled(s, ev) && !Overtakes(cfg, s, ev) && MemoryWhole(s.t)
    requires !ev.Ticked? && !ev.TtsAudio?
    ensures Carries(s.t, Next(cfg, s.t, ev), Resumes(cfg, s.t, ev))
  {
    hide Safe, MemoryWhole, Carries;
    match ev {
      case Transcribed(tr, opens) => TranscriptCarries(cfg, s, tr, opens);
      case Idle(timer, prompt, second, opens) => IdleCarries(cfg, s, timer, prompt, second, opens);
      case DrainTimeout => DrainCarries(s);
      case TtsDone(gen, opens) => DoneCarries(cfg, s, gen, opens);
      case TtsClosed(conn, opens) => ClosedCarries(cfg, s, conn, opens);
      case PlaybackDone(opens) => PlaybackCarries(cfg, s, opens);
      case _ => OthersCarry(cfg, s, ev);
    }
  }

  // ---- the theorem ---------------------------------------------------------------

  lemma StepFaithful(cfg: Config, s: Sys, log: Log, ev: Event)
    requires Safe(s) && Enabled(s, ev) && !Overtakes(cfg, s, ev) && InOrder(s.t, log, ev) && Faithful(s.t, log)
    ensures var t' := Next(cfg, s.t, ev); Faithful(t', NextLog(cfg, s.t, log, ev, t'))
  {
    hide Safe, QueueFaithful, PlayFaithful, BytesFaithful, OrderFaithful, Carries, HandleTtsAudio, Tick;
    if ev.Ticked? {
      TickFaithful(cfg, s, log, ev);
      TickKeepsRest(cfg, s.t, log, ev);
    } else if ev.TtsAudio? {
      if ev.gen == s.t.lp.curGen {
        AudioFaithful(cfg, s, log, ev.pcm, ev.req, ev.text);
      } else {
        StaleChangesNothing(cfg, s, ev);
      }
    } else {
      EventCarries(cfg, s, ev);
      CarriesFaithful(s.t, log, Next(cfg, s.t, ev), Resumes(cfg, s.t, ev));
    }
  }

  // ---- runs ---------------------------------------------------------------------

  ghost predicate LoggedRun(cfg: Config, s: Sys, log: Log, evs: seq<Event>)
    decreases |evs|
  {
    evs != [] ==>
      && Enabled(s, evs[0]) && !Overtakes(cfg, s, evs[0]) && InOrder(s.t, log, evs[0])
      && LoggedRun(cfg, Step(cfg, s, evs[0]), NextLog(cfg, s.t, log, evs[0], Next(cfg, s.t, evs[0])), evs[1..])
  }

  ghost function LogAfter(cfg: Config, s: Sys, log: Log, evs: seq<Event>): Log
    decreases |evs|
  {
    if evs == [] then log
    else LogAfter(cfg, Step(cfg, s, evs[0]), NextLog(cfg, s.t, log, evs[0], Next(cfg, s.t, evs[0])), evs[1..])
  }

  lemma {:induction false} RunsAreFaithful(cfg: Config, s: Sys, log: Log, evs: seq<Event>)
    requires Safe(s) && Faithful(s.t, log) && LoggedRun(cfg, s, log, evs)
    ensures Faithful(After(cfg, s, evs).t, LogAfter(cfg, s, log, evs)) && Safe(After(cfg, s, evs))
    decreases |evs|
  {
    hide Safe, Faithful, Next, NextEnv, NextLog, Enabled, Overtakes, InOrder;
    if evs != [] {
      SafeExactlyUnlessOvertaken(cfg, s, evs[0]);
      StepFaithful(cfg, s, log, evs[0]);
      RunsAreFaithful(cfg, Step(cfg, s, evs[0]), NextLog(cfg, s.t, log, evs[0], Next(cfg, s.t, evs[0])), evs[1..]);
    }
  }

  /** Over whole calls, for the current reply: deleting the repeats from what was heard gives the
      queued frames in order; what is heard after a resume is the interrupted sentence, from its
      first frame and completely before anything new; the frames queued are the audio received, unless
      the full queue dropped some; and the memory is whole blocks. */
  lemma RepliesAreFaithful(cfg: Config, evs: seq<Event>)
    requires LoggedRun(cfg, INIT_SYS, NO_LOG, evs)
    ensures var t, log := After(cfg, INIT_SYS, evs).t, LogAfter(cfg, INIT_SYS, NO_LOG, evs);
      && Once(log.heard) + t.sh.outbound == log.queued
      && WellHeard(log.heard)
      && ResumesRestart(log.heard)
      && ((t.sh.state == Thinking || t.sh.state == Speaking) && !log.dropped ==>
          Bytes(log.queued) + t.lp.ttsBuf == log.received)
      && WholeBlocks(t.mem.history)
  {
    hide Once, WellHeard, Bytes, WholeBlocks;
    InitSafe();
    InitFaithful();
    RunsAreFaithful(cfg, INIT_SYS, NO_LOG, evs);
    WellHeardRestarts(LogAfter(cfg, INIT_SYS, NO_LOG, evs).heard);
  }

  // ---- cut replies -----------------------------------------------------------------

  /** The newest frame heard is of this request or a later one. */
  predicate HeardUpTo(log: Log, req: nat) {
    var once := Once(log.heard);
    once != [] && req <= once[|once| - 1].req
  }

  /** A cut records exactly the sentences up to the newest frame heard: a prefix, with every
      sentence a frame was heard of. */
  lemma CutRecordsWhatWasHeard(t: Turn, log: Log) returns (k: nat)
    requires Faithful(t, log)
    ensures k <= |t.mem.chunks| && Kept(t.mem.chunks, t.sh.playingReq) == t.mem.chunks[..k]
    ensures forall i :: 0 <= i < |t.mem.chunks| ==>
      (i < k <==> HeardUpTo(log, t.mem.chunks[i].req))
    ensures forall i, j :: 0 <= i < |t.mem.chunks| && 0 <= j < |Once(log.heard)| ==>
      (Once(log.heard)[j].req == t.mem.chunks[i].req ==> i < k)
  {
    hide Once, WellHeard, LastSentence, Bytes, WholeBlocks;
    k := KeptPrefix(t.mem.chunks, t.sh.playingReq);
    var once := Once(log.heard);
    assert forall j :: 0 <= j < |once| ==> once[j] == log.queued[j];
  }

  lemma {:induction false} KeptPrefix(chunks: seq<Spoken>, played: nat) returns (k: nat)
    requires Ascending(chunks) && forall i :: 0 <= i < |chunks| ==> 0 < chunks[i].req
    ensures k <= |chunks| && Kept(chunks, played) == chunks[..k]
    ensures forall i :: 0 <= i < |chunks| ==> (i < k <==> chunks[i].req <= played)
    decreases |chunks|
  {
    if chunks == [] || played == 0 || chunks[0].req > played {
      k := 0;
    } else {
      var m := KeptPrefix(chunks[1..], played);
      k := m + 1;
    }
  }

  /** What a cut sentence list says in the history. */
  function SaidOf(chunks: seq<Spoken>): seq<Message> {
    var text := Trim(JoinSpoken(chunks));
    if text == [] then [] else [Said(Assistant, text)]
  }

  /** What a confirmed interruption leaves in the history, then: the tool messages, the sentences up to
      the newest frame heard and no other, the caller's words. */
  lemma CutHistory(cfg: Config, t: Turn, log: Log, tr: Transcript, opens: bool) returns (k: nat)
    requires Faithful(t, log) && Confirms(cfg, t, tr)
    ensures k <= |t.mem.chunks|
    ensures forall i :: 0 <= i < |t.mem.chunks| ==>
      (i < k <==> HeardUpTo(log, t.mem.chunks[i].req))
    ensures HandleTranscript(cfg, t, tr, opens).mem.history
      == t.mem.history + (t.mem.toolMsgs + SaidOf(t.mem.chunks[..k])) + [Said(User, tr.text)]
  {
    hide Faithful, Kept, JoinSpoken, Trim, HeardUpTo;
    k := CutRecordsWhatWasHeard(t, log);
  }

  /** And so does a reply given up on. */
  lemma DrainHistory(t: Turn, log: Log) returns (k: nat)
    requires Faithful(t, log)
    ensures k <= |t.mem.chunks|
    ensures forall i :: 0 <= i < |t.mem.chunks| ==> (i < k <==> HeardUpTo(log, t.mem.chunks[i].req))
    ensures HandleDrainTimeout(t).mem.history == t.mem.history + (t.mem.toolMsgs + SaidOf(t.mem.chunks[..k]))
  {
    hide Faithful, Kept, JoinSpoken, Trim, HeardUpTo;
    k := CutRecordsWhatWasHeard(t, log);
  }
}
