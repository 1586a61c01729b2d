/** The agent as an object whose fields the two threads update in place, proved to take the steps
    of TurnSpec. */
module TurnHandler {
  import opened Runes
  import opened Messages
  import opened TurnSpec

  lemma {:induction false} KeptSplit(chunks: seq<Spoken>, played: nat, i: nat)
    requires i <= |chunks| && played != 0 && forall j :: 0 <= j < i ==> chunks[j].req <= played
    ensures Kept(chunks, played) == chunks[..i] + Kept(chunks[i..], played)
  {
    if i > 0 {
      KeptSplit(chunks[1..], played, i - 1);
      assert chunks[..i] == [chunks[0]] + chunks[1..][..i - 1];
      assert chunks[1..][i - 1..] == chunks[i..];
    } else {
      assert chunks[0..] == chunks;
    }
  }

  lemma KeptUpTo(chunks: seq<Spoken>, played: nat, cut: bool, i: nat)
    requires i <= |chunks| && (cut && i > 0 ==> played != 0)
    requires cut ==> forall j :: 0 <= j < i ==> chunks[j].req <= played
    requires i < |chunks| ==> cut && (played == 0 || chunks[i].req > played)
    ensures chunks[..i] == if cut then Kept(chunks, played) else chunks
  {
    if cut && played != 0 {
      KeptSplit(chunks, played, i);
    }
  }

  lemma NothingJoined()
    ensures JoinSpoken([]) == []
  {
  }

  lemma FilledIsQueued(t: Turn, pcm: Pcm, req: nat)
    ensures Filled(t.sh.outbound, t.lp.ttsBuf + pcm, req, t.lp.curGen) == t.sh.outbound + Queued(t, pcm, req)
  {
  }

  /** Audio of the current generation, as the handler goes about it. */
  lemma AudioIs(t: Turn, pcm: Pcm, req: nat, text: Text)
    ensures var speaks := t.lp.firstAudioGen != t.lp.curGen && t.sh.state == Thinking;
      var filled := Filled(t.sh.outbound, t.lp.ttsBuf + pcm, req, t.lp.curGen);
      HandleTtsAudio(t, pcm, t.lp.curGen, req, text)
      == t.(mem := t.mem.(chunks := NoteSentence(t.mem.chunks, req, text)),
            sh := t.sh.(state := if speaks then Speaking else t.sh.state, outbound := filled),
            lp := t.lp.(firstAudioGen := t.lp.curGen, ttsBuf := Tail(t.lp.ttsBuf + pcm)))
  {
    hide Queued, Filled, Tail, NoteSentence;
    FilledIsQueued(t, pcm, req);
  }

  lemma StaleAudio(t: Turn, pcm: Pcm, gen: nat, req: nat, text: Text)
    requires gen != t.lp.curGen
    ensures HandleTtsAudio(t, pcm, gen, req, text) == t
  {
  }

  lemma ConfirmedState(t: Turn)
    ensures ConfirmInterruption(t).sh.state == Transcribing
  {
  }

  lemma AcceptAdvances(t: Turn, text: Text, opens: bool)
    ensures AcceptUserTurn(t, text, opens).lp.curGen == t.lp.curGen + 1
  {
  }

  lemma JoinNext(chunks: seq<Spoken>, i: nat)
    requires i < |chunks|
    ensures var before, text := JoinSpoken(chunks[..i]), chunks[i].text;
      JoinSpoken(chunks[..i + 1]) == before + (if NeedsGap(before, text) then [SPACE] else []) + text
  {
    assert chunks[..i + 1][..i] == chunks[..i];
  }

  lemma {:induction false} AnswerSplit(held: seq<Held>, gen: nat, from: int, i: nat)
    requires i <= |held|
    ensures Answer(held, gen, from) == Answer(held[..i], gen, from) + Answer(held[i..], gen, from)
  {
    if i > 0 {
      AnswerSplit(held[1..], gen, from, i - 1);
      assert held[..i][1..] == held[1..][..i - 1];
      assert held[1..][i - 1..] == held[i..];
    } else {
      assert held[0..] == held;
    }
  }

  lemma AnswerNext(held: seq<Held>, gen: nat, from: int, i: nat)
    requires i < |held|
    ensures Answer(held[..i + 1], gen, from)
      == Answer(held[..i], gen, from) + (if held[i].gen == gen && held[i].at >= from then [held[i].text] else [])
  {
    var upTo := held[..i + 1];
    AnswerSplit(upTo, gen, from, i);
    assert upTo[..i] == held[..i] && upTo[i..] == [held[i]];
    assert [held[i]][1..] == [];
  }

  lemma NothingHeld(gen: nat, from: int)
    ensures Answer([], gen, from) == []
  {
  }

  /** Pop, told apart by whether the sentence goes on. */
  lemma PopIs(t: Turn, now: int)
    requires t.sh.outbound != []
    ensures var f := t.sh.outbound[0];
      Pop(t, now) ==
      if f.gen == t.pl.sentGen && f.req == t.pl.sentReq then
        t.(sh := t.sh.(outbound := t.sh.outbound[1..], playingReq := f.req),
           pl := t.pl.(emptyTicks := 0, sentFrames := t.pl.sentFrames + [f.pcm]))
      else
        t.(sh := t.sh.(outbound := t.sh.outbound[1..], playingReq := f.req, playingSince := now),
           pl := t.pl.(emptyTicks := 0, sentGen := f.gen, sentReq := f.req, sentFrames := [f.pcm]))
  {
    assert [] + [t.sh.outbound[0].pcm] == [t.sh.outbound[0].pcm];
  }

  /** One frame cut off the buffer: queued if there is room, dropped if not. */
  lemma OneFrame(out: seq<OutFrame>, buf: Pcm, req: nat, gen: nat)
    requires |buf| >= FRAME_SIZE
    ensures var f := OutFrame(buf[..FRAME_SIZE], req, gen);
      var out' := if |out| < OUTBOUND_FRAMES then out + [f] else out;
      Filled(out', buf[FRAME_SIZE..], req, gen) == Filled(out, buf, req, gen)
  {
    var frames, rest := Frames(buf), Frames(buf[FRAME_SIZE..]);
    assert frames == [buf[..FRAME_SIZE]] + rest;
    var n := Room(|out|, |frames|);
    if |out| < OUTBOUND_FRAMES {
      var f := OutFrame(buf[..FRAME_SIZE], req, gen);
      assert Room(|out + [f]|, |rest|) == n - 1;
      assert Tagged(frames[..n], req, gen) == [f] + Tagged(rest[..n - 1], req, gen);
      assert out + ([f] + Tagged(rest[..n - 1], req, gen)) == (out + [f]) + Tagged(rest[..n - 1], req, gen);
    } else {
      assert n == 0 && Room(|out|, |rest|) == 0;
      assert Tagged(frames[..0], req, gen) == [] == Tagged(rest[..0], req, gen);
    }
  }

  /** The queue once the whole frames of buf are queued. */
  function Filled(out: seq<OutFrame>, buf: Pcm, req: nat, gen: nat): seq<OutFrame> {
    out + Tagged(Frames(buf)[..Room(|out|, |Frames(buf)|)], req, gen)
  }

  lemma TailNext(buf: Pcm)
    requires |buf| >= FRAME_SIZE
    ensures Tail(buf) == Tail(buf[FRAME_SIZE..])
  {
  }

  lemma NothingToFill(out: seq<OutFrame>, buf: Pcm, req: nat, gen: nat)
    requires |buf| < FRAME_SIZE
    ensures Filled(out, buf, req, gen) == out && Tail(buf) == buf
  {
    assert Tagged([], req, gen) == [];
  }

  class Handler {
    const cfg: Config
    /** What both threads read and write. */
    var sh: Shared
    /** The audio thread's own. */
    var pl: Player
    /** The event loop's own. */
    var lp: Loop
    var mem: Memory

    ghost function Model(): Turn
      reads this
    {
      Turn(sh, pl, lp, mem)
    }

    constructor (c: Config)
      ensures Model() == INIT && cfg == c
    {
      cfg := c;
      sh, pl, lp, mem := INIT.sh, INIT.pl, INIT.lp, INIT.mem;
    }

    // ---- the audio thread -----------------------------------------------------

    /** One 20 ms tick while speaking. */
    method ProcessSpeakingFrame(now: int, bargeIn: bool, toolRunning: bool) returns (played: Played)
      requires sh.state == Speaking
      modifies this`sh, this`pl
      ensures var (t, p) := Tick(old(Model()), now, bargeIn, toolRunning); Model() == t && played == p
    {
      if sh.paused {
        return Silence;
      }
      if bargeIn {
        sh := sh.(paused := true, bargeSig := true);
        pl := pl.(emptyTicks := 0);
        return Silence;
      }
      if sh.replayPending {
        sh := sh.(replayPending := false);
        pl := pl.(replayIdx := 0, replaying := |pl.sentFrames| > 0 && pl.sentGen == sh.replayGen);
      }
      if pl.replaying {
        if pl.replayIdx < |pl.sentFrames| {
          pl := pl.(emptyTicks := 0, replayIdx := pl.replayIdx + 1);
          return Again(pl.sentFrames[pl.replayIdx - 1], pl.sentGen);
        }
        pl := pl.(replaying := false);
      }
      if |sh.outbound| > 0 {
        var frame := PopOutbound(now);
        return Fresh(frame);
      }
      FindDrained(toolRunning);
      return Silence;
    }

    method PopOutbound(now: int) returns (frame: OutFrame)
      requires sh.outbound != []
      modifies this`sh, this`pl
      ensures Model() == Pop(old(Model()), now) && frame == old(sh.outbound[0])
    {
      hide Pop;
      PopIs(Model(), now);
      frame := sh.outbound[0];
      pl := pl.(emptyTicks := 0);
      if frame.gen != pl.sentGen || frame.req != pl.sentReq {
        pl := pl.(sentGen := frame.gen, sentReq := frame.req, sentFrames := [frame.pcm]);
        sh := sh.(playingSince := now);
      } else {
        pl := pl.(sentFrames := pl.sentFrames + [frame.pcm]);
      }
      sh := sh.(outbound := sh.outbound[1..], playingReq := frame.req);
    }

    method FindDrained(toolRunning: bool)
      requires sh.state == Speaking
      modifies this`sh, this`pl
      ensures Model() == Drained(old(Model()), toolRunning)
    {
      if sh.deliveryDone {
        sh := sh.(deliveryDone := false, playbackSig := true);
        pl := pl.(emptyTicks := 0);
        return;
      }
      if toolRunning {
        pl := pl.(emptyTicks := 0);
        return;
      }
      pl := pl.(emptyTicks := pl.emptyTicks + 1);
      if pl.emptyTicks >= DRAIN_TIMEOUT_TICKS {
        pl := pl.(emptyTicks := 0);
        sh := sh.(state := Listening, drainSig := true);
      }
    }

    // ---- recording a reply ----------------------------------------------------

    method RecordReply(cut: bool)
      modifies this`mem
      ensures Model() == TurnSpec.RecordReply(old(Model()), cut)
    {
      var spoken := JoinTurnChunks(cut);
      mem := Memory([], [], mem.history + mem.toolMsgs);
      var text := Trim(spoken);
      ghost var h, m := old(mem.history), old(mem.toolMsgs);
      if text == [] {
        assert m + [] == m;
        return;
      }
      assert (h + m) + [Said(Assistant, text)] == h + (m + [Said(Assistant, text)]);
      mem := mem.(history := mem.history + [Said(Assistant, text)]);
    }

    method JoinTurnChunks(cut: bool) returns (b: Text)
      ensures b == JoinSpoken(if cut then Kept(mem.chunks, sh.playingReq) else mem.chunks)
    {
      hide JoinSpoken, Kept;
      NothingJoined();
      b := [];
      var chunks, played := mem.chunks, sh.playingReq;
      var last: Text := [];
      var i := 0;
      while i < |chunks|
        invariant i <= |chunks|
        invariant b == JoinSpoken(chunks[..i]) && last == (if b == [] then [] else [b[|b| - 1]])
        invariant cut && i > 0 ==> played != 0
        invariant cut ==> forall j :: 0 <= j < i ==> chunks[j].req <= played
      {
        var text := chunks[i].text;
        if cut && (played == 0 || chunks[i].req > played) {
          break;
        }
        JoinNext(chunks, i);
        if last != [] && (IsDelimiter(last[0]) || IsComma(last[0])) && text != [] && !text[0].space {
          b := b + [SPACE];
        }
        b := b + text;
        if text != [] {
          last := [text[|text| - 1]];
        }
        i := i + 1;
      }
      KeptUpTo(chunks, played, cut, i);
    }

    // ---- turns -----------------------------------------------------------------

    /** opens: what opening a TTS connection comes to. */
    method OpenTts(opens: bool) returns (ready: bool)
      modifies this`lp, this`sh
      ensures ready == (old(lp.ttsOpen) || opens)
      ensures lp == old(lp).(ttsOpen := ready, ttsConn := old(lp.ttsConn) + if !old(lp.ttsOpen) && opens then 1 else 0)
      ensures sh == old(sh).(state := if ready then old(sh.state) else Listening)
    {
      if lp.ttsOpen {
        return true;
      }
      if !opens {
        sh := sh.(state := Listening);
        return false;
      }
      lp := lp.(ttsOpen := true, ttsConn := lp.ttsConn + 1);
      return true;
    }

    method StartTurn(opens: bool)
      modifies this
      ensures Model() == TurnSpec.StartTurn(old(Model()), opens)
    {
      sh := sh.(state := Thinking);
      lp := lp.(idleSeq := lp.idleSeq + 1, curGen := lp.curGen + 1, hangupAfterTurn := false);
      mem := mem.(chunks := [], toolMsgs := []);
      sh := sh.(playingReq := 0);
      var ready := OpenTts(opens);
    }

    method AcceptUserTurn(text: Text, opens: bool)
      modifies this
      ensures Model() == TurnSpec.AcceptUserTurn(old(Model()), text, opens)
    {
      mem := mem.(history := mem.history + [Said(User, text)]);
      StartTurn(opens);
    }

    method HoldSpeech(text: Text, at: int)
      modifies this`lp
      ensures Model() == TurnSpec.HoldSpeech(old(Model()), text, at)
    {
      lp := lp.(held := lp.held + [Held(text, lp.curGen, at)]);
    }

    /** What was said since `from` over reply gen. */
    method SaidSince(held: seq<Held>, gen: nat, from: int) returns (answer: seq<Text>)
      ensures answer == Answer(held, gen, from)
    {
      answer := [];
      NothingHeld(gen, from);
      for i := 0 to |held|
        invariant answer == Answer(held[..i], gen, from)
      {
        AnswerNext(held, gen, from, i);
        if held[i].gen == gen && !(held[i].at < from) {
          answer := answer + [held[i].text];
        }
      }
      assert held[..|held|] == held;
    }

    /** What was said during the last sentence becomes the caller's turn. */
    method SettleHeld(gen: nat, opens: bool) returns (turn: bool)
      modifies this
      ensures Model() == TurnSpec.SettleHeld(cfg, old(Model()), gen, opens)
      ensures turn == (Answer(old(lp.held), gen, old(sh.playingSince) - cfg.ackMargin) != [])
      ensures turn == (lp.curGen != old(lp.curGen))
    {
      hide Answer, TurnSpec.AcceptUserTurn, JoinWords;
      var held := lp.held;
      lp := lp.(held := []);
      var answer := SaidSince(held, gen, sh.playingSince - cfg.ackMargin);
      if answer == [] {
        return false;
      }
      AcceptAdvances(Model(), JoinWords(answer), opens);
      AcceptUserTurn(JoinWords(answer), opens);
      return true;
    }

    method FinishTurn(gen: nat, opens: bool)
      modifies this
      ensures Model() == TurnSpec.FinishTurn(cfg, old(Model()), gen, opens)
    {
      hide TurnSpec.RecordReply, TurnSpec.SettleHeld;
      if sh.state == Speaking || sh.state == Thinking {
        sh := sh.(state := Listening);
      }
      RecordReply(false);
      lp := lp.(ttsBuf := []);
      if lp.hangupAfterTurn || lp.ending {
        lp := lp.(held := []);
        lp := lp.(hangupAfterTurn := false);
        lp := lp.(hungUp := true);
        return;
      }
      var turn := SettleHeld(gen, opens);
      if turn {
        return;
      }
      StartIdleClock();
    }

    /** The silence clock runs anew. */
    method StartIdleClock()
      modifies this`lp
      ensures Model() == MoveIdleClock(old(Model()))
    {
      lp := lp.(idleSeq := lp.idleSeq + 1);
    }

    method CutReply()
      modifies this
      ensures Model() == TurnSpec.CutReply(old(Model()))
    {
      hide TurnSpec.RecordReply;
      RecordReply(true);
      lp := lp.(curGen := lp.curGen + 1, ttsOpen := false);
      lp := lp.(ttsBuf := []);
      sh := sh.(deliveryDone := false);
      ghost var before := sh;
      while |sh.outbound| > 0
        modifies this`sh
        invariant sh == before.(outbound := sh.outbound)
        decreases |sh.outbound|
      {
        sh := sh.(outbound := sh.outbound[1..]);
      }
    }

    method ConfirmInterruption()
      modifies this
      ensures Model() == TurnSpec.ConfirmInterruption(old(Model()))
    {
      hide TurnSpec.CutReply;
      lp := lp.(resumeSeq := lp.resumeSeq + 1);
      sh := sh.(state := Transcribing);
      sh := sh.(paused := false);
      lp := lp.(held := []);
      CutReply();
    }

    method ResumeReply()
      modifies this
      ensures Model() == TurnSpec.ResumeReply(old(Model()))
    {
      lp := lp.(resumeSeq := lp.resumeSeq + 1);
      sh := sh.(replayGen := lp.curGen);
      sh := sh.(replayPending := true);
      sh := sh.(paused := false);
    }

    // ---- the event loop ----------------------------------------------------------

    method HandleFinalTranscript(tr: Transcript, opens: bool)
      modifies this
      ensures Model() == HandleTranscript(cfg, old(Model()), tr, opens)
    {
      hide TurnSpec.ConfirmInterruption, TurnSpec.AcceptUserTurn, TurnSpec.ResumeReply, TurnSpec.HoldSpeech;
      if tr.postCut {
        return;
      }
      if sh.paused {
        if tr.junk {
          return;
        }
        if sh.closing {
          ResumeReply();
          return;
        }
        if cfg.ackFilter && tr.ack {
          HoldSpeech(tr.text, tr.at);
          ResumeReply();
          return;
        }
        ConfirmInterruption();
        ConfirmedState(old(Model()));
      }
      if sh.state == Thinking || sh.state == Speaking {
        if sh.state == Speaking && cfg.ackFilter && tr.interruptible && !tr.junk {
          HoldSpeech(tr.text, tr.at);
        }
        return;
      }
      AcceptUserTurn(tr.text, opens);
    }

    method HandleTTSAudio(pcm: Pcm, gen: nat, req: nat, text: Text)
      modifies this
      ensures Model() == HandleTtsAudio(old(Model()), pcm, gen, req, text)
    {
      hide HandleTtsAudio, Filled, Tail, NoteSentence;
      if gen != lp.curGen {
        StaleAudio(Model(), pcm, gen, req, text);
        return;
      }
      AudioIs(Model(), pcm, req, text);
      NoteChunk(req, text);
      if lp.firstAudioGen != gen {
        lp := lp.(firstAudioGen := gen);
        if sh.state == Thinking {
          sh := sh.(state := Speaking);
        }
      }
      QueueFrames(pcm, gen, req);
    }

    method NoteChunk(req: nat, text: Text)
      modifies this`mem
      ensures mem == old(mem).(chunks := NoteSentence(old(mem.chunks), req, text))
    {
      if text != [] && (|mem.chunks| == 0 || mem.chunks[|mem.chunks| - 1].req != req) {
        mem := mem.(chunks := mem.chunks + [Spoken(req, text)]);
      }
    }

    /** Whole frames into the queue; what does not fill one stays in the buffer. */
    method QueueFrames(pcm: Pcm, gen: nat, req: nat)
      modifies this`lp, this`sh
      ensures lp == old(lp).(ttsBuf := Tail(old(lp.ttsBuf) + pcm))
      ensures sh == old(sh).(outbound := Filled(old(sh.outbound), old(lp.ttsBuf) + pcm, req, gen))
    {
      hide Filled, Tail;
      var out, rest := CutFrames(sh.outbound, lp.ttsBuf + pcm, gen, req);
      sh := sh.(outbound := out);
      lp := lp.(ttsBuf := rest);
    }

    /** Every whole frame goes to the queue while it has room. */
    method CutFrames(queue: seq<OutFrame>, buf: Pcm, gen: nat, req: nat) returns (out: seq<OutFrame>, rest: Pcm)
      ensures out == Filled(queue, buf, req, gen) && rest == Tail(buf)
    {
      hide Filled, Tail;
      out, rest := queue, buf;
      while |rest| >= FRAME_SIZE
        invariant Tail(rest) == Tail(buf) && Filled(out, rest, req, gen) == Filled(queue, buf, req, gen)
        decreases |rest|
      {
        OneFrame(out, rest, req, gen);
        TailNext(rest);
        var frame := rest[..FRAME_SIZE];
        rest := rest[FRAME_SIZE..];
        if |out| < OUTBOUND_FRAMES {
          out := out + [OutFrame(frame, req, gen)];
        }
      }
      NothingToFill(out, rest, req, gen);
    }

    method HandleTTSDone(gen: nat, opens: bool)
      modifies this
      ensures Model() == HandleTtsDone(cfg, old(Model()), gen, opens)
    {
      hide TurnSpec.FinishTurn;
      if gen != lp.curGen {
        return;
      }
      match sh.state {
        case Thinking => FinishTurn(gen, opens);
        case Speaking => sh := sh.(deliveryDone := true);
        case _ =>
      }
    }

    method HandleTTSClosed(conn: nat, opens: bool)
      modifies this
      ensures Model() == HandleTtsClosed(cfg, old(Model()), conn, opens)
    {
      hide TurnSpec.FinishTurn;
      if !lp.ttsOpen || conn != lp.ttsConn {
        return;
      }
      lp := lp.(ttsOpen := false);
      match sh.state {
        case Thinking => FinishTurn(lp.curGen, opens);
        case Speaking => sh := sh.(deliveryDone := true);
        case _ =>
      }
    }

    /** The event loop's part: what is posted to it, and the signals raised for it. Ticks are the audio
        thread's. */
    method HandleEvent(ev: Event)
      requires !ev.Ticked?
      modifies this
      ensures Model() == Next(cfg, old(Model()), ev)
    {
      hide HandleTranscript, HandleTtsAudio, HandleTtsDone, HandleTtsClosed, HandleLlmDone;
      hide TurnSpec.HandlePlaybackDone, TurnSpec.HandleDrainTimeout, TurnSpec.HandleBargeIn, TurnSpec.HandleResumeCheck;
      hide TurnSpec.HandleIdle, TurnSpec.StartTurn, TurnSpec.EndCall;
      match ev {
        case Transcribed(tr, opens) => HandleFinalTranscript(tr, opens);
        case LlmDone(gen, msgs, endCall) => HandleLLMDone(gen, msgs, endCall);
        case TtsAudio(pcm, gen, req, text) => HandleTTSAudio(pcm, gen, req, text);
        case TtsDone(gen, opens) => HandleTTSDone(gen, opens);
        case TtsClosed(conn, opens) => HandleTTSClosed(conn, opens);
        case EndingCall => EndCall();
        case Opening(opens) => StartTurn(opens);
        case CallerSpeech => StartIdleClock();
        case ResumeCheck(check, quiet) => HandleResumeCheck(check, quiet);
        case Idle(timer, prompt, second, opens) => HandleIdle(timer, prompt, second, opens);
        case BargeIn => HandleBargeIn();
        case PlaybackDone(opens) => HandlePlaybackDone(opens);
        case DrainTimeout => HandleDrainTimeout();
      }
    }

    method HandleLLMDone(gen: nat, msgs: seq<Message>, endCall: bool)
      modifies this
      ensures Model() == HandleLlmDone(old(Model()), gen, msgs, endCall)
    {
      if gen != lp.curGen {
        return;
      }
      mem := mem.(toolMsgs := msgs);
      lp := lp.(hangupAfterTurn := endCall);
    }

    method HandlePlaybackDone(opens: bool)
      modifies this
      ensures Model() == TurnSpec.HandlePlaybackDone(cfg, old(Model()), opens)
    {
      hide TurnSpec.FinishTurn;
      sh := sh.(playbackSig := false);
      FinishTurn(lp.curGen, opens);
    }

    method HandleDrainTimeout()
      modifies this
      ensures Model() == TurnSpec.HandleDrainTimeout(old(Model()))
    {
      hide TurnSpec.RecordReply;
      sh := sh.(drainSig := false);
      lp := lp.(ttsBuf := []);
      RecordReply(true);
      if lp.ending {
        lp := lp.(hungUp := true);
      }
    }

    method HandleBargeIn()
      modifies this
      ensures Model() == TurnSpec.HandleBargeIn(old(Model()))
    {
      sh := sh.(bargeSig := false);
      if !sh.paused {
        return;
      }
      lp := lp.(resumeSeq := lp.resumeSeq + 1);
    }

    method HandleResumeCheck(check: nat, quiet: bool)
      modifies this
      ensures Model() == TurnSpec.HandleResumeCheck(old(Model()), check, quiet)
    {
      if check != lp.resumeSeq || !sh.paused {
        return;
      }
      if !quiet {
        lp := lp.(resumeSeq := lp.resumeSeq + 1);
        return;
      }
      ResumeReply();
    }

    method HandleIdle(timer: nat, prompt: Text, second: bool, opens: bool)
      modifies this
      ensures Model() == TurnSpec.HandleIdle(old(Model()), timer, prompt, second, opens)
    {
      hide TurnSpec.StartTurn;
      if timer != lp.idleSeq || lp.ending || sh.state != Listening {
        return;
      }
      if second {
        lp := lp.(ending := true);
        sh := sh.(closing := true);
      }
      mem := mem.(history := mem.history + [Said(User, prompt)]);
      StartTurn(opens);
    }

    method EndCall()
      modifies this
      ensures Model() == TurnSpec.EndCall(old(Model()))
    {
      lp := lp.(ending := true);
      sh := sh.(closing := true);
      lp := lp.(idleSeq := lp.idleSeq + 1);
      if sh.state == Listening || sh.state == Transcribing {
        lp := lp.(hungUp := true);
      }
    }
  }
}
