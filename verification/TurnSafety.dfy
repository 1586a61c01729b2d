/** Generation safety of the turn protocol: over every interleaving of ticks and events, only audio
    of the current reply is queued and played -- exactly as long as no event overtakes a raised
    signal or cuts a reply that is being replayed. */
module TurnSafety {
  import opened Runes
  import opened Messages
  import opened TurnSpec

  /** What the TTS side still owes the current reply: audio, its Done; and whether the reply was
      given up on by the drain timeout. */
  datatype Env = Env(audioOpen: bool, doneOpen: bool, drained: bool)

  datatype Sys = Sys(t: Turn, env: Env)

  const INIT_SYS := Sys(INIT, Env(false, false, false))

  function NewReply(t: Turn): Env {
    Env(t.sh.state == Thinking, t.sh.state == Thinking, false)
  }

  function NextEnv(s: Sys, ev: Event, t': Turn): Env {
    if t'.lp.curGen != s.t.lp.curGen then NewReply(t')
    else match ev
      case TtsDone(gen, _) => if gen == s.t.lp.curGen then s.env.(audioOpen := false, doneOpen := false) else s.env
      case TtsClosed(conn, _) =>
        if s.t.lp.ttsOpen && conn == s.t.lp.ttsConn then s.env.(audioOpen := false, doneOpen := false) else s.env
      case Ticked(_, _, _) =>
        if t'.sh.drainSig && !s.t.sh.drainSig then s.env.(audioOpen := false, drained := true) else s.env
      case _ => s.env
  }

  function Step(cfg: Config, s: Sys, ev: Event): Sys {
    var t' := Next(cfg, s.t, ev);
    Sys(t', NextEnv(s, ev, t'))
  }

  /** The events that can come next. TTS events of an older reply may come at any time; those of
      the current one come in the TTS client's order: audio, then Done, and nothing once the
      connection is gone or (audio) the reply was given up on. */
  predicate Enabled(s: Sys, ev: Event) {
    var gen0 := s.t.lp.curGen;
    match ev
    case TtsAudio(_, gen, req, _) => gen <= gen0 && (gen == gen0 ==> s.env.audioOpen && req > 0)
    case TtsDone(gen, _) => gen <= gen0 && (gen == gen0 ==> s.env.doneOpen)
    case LlmDone(gen, msgs, _) => gen <= gen0 && WholeBlocks(msgs)
    case BargeIn => s.t.sh.bargeSig
    case PlaybackDone(_) => s.t.sh.playbackSig
    case DrainTimeout => s.t.sh.drainSig
    case Opening(_) => gen0 == 0 && s.t.sh.state == Listening
    case _ => true
  }

  predicate Replays(t: Turn) {
    PendingReplay(t) || ActiveReplay(t)
  }

  /** The whole failing family: an event handled before the playback-done or drain-timeout signal
      it should have waited for, or an interruption confirmed while a replay is still to be played. */
  predicate Overtakes(cfg: Config, s: Sys, ev: Event) {
    var t := s.t;
    match ev
    case Ticked(_, bargeIn, toolRunning) =>
      t.sh.playbackSig && (bargeIn || (!toolRunning && t.pl.emptyTicks + 1 >= DRAIN_TIMEOUT_TICKS))
    case TtsClosed(conn, _) => t.sh.playbackSig && t.lp.ttsOpen && conn == t.lp.ttsConn
    case Transcribed(tr, _) =>
      (Confirms(cfg, t, tr) && Replays(t)) || (Accepts(cfg, t, tr) && t.sh.drainSig)
    case Idle(timer, _, _, _) => t.sh.drainSig && timer == t.lp.idleSeq && !t.lp.ending && t.sh.state == Listening
    case Opening(_) => t.sh.drainSig
    case _ => false
  }

  // ---- the invariant ----------------------------------------------------------

  /** Only the current reply's frames are queued, and only while it is spoken. */
  ghost predicate QueueSafe(t: Turn) {
    && (forall i :: 0 <= i < |t.sh.outbound| ==> t.sh.outbound[i].gen == t.lp.curGen)
    && (t.sh.outbound != [] ==> t.sh.state == Speaking)
  }

  /** What is to be replayed is of the current reply. */
  ghost predicate ReplaySafe(t: Turn) {
    && (Replays(t) ==> t.sh.state == Speaking && t.pl.sentGen == t.lp.curGen)
    && t.pl.sentGen <= t.lp.curGen
  }

  /** The state agrees with what the TTS side still owes. */
  ghost predicate StateSafe(t: Turn, e: Env) {
    && t.sh.state != Transcribing
    && (e.audioOpen ==> t.lp.ttsOpen && (t.sh.state == Thinking || t.sh.state == Speaking))
    && (t.sh.state == Thinking ==> e.audioOpen && e.doneOpen && t.lp.firstAudioGen < t.lp.curGen && t.mem.chunks == [])
    && (t.sh.state == Speaking ==> t.lp.firstAudioGen == t.lp.curGen)
    && t.lp.firstAudioGen <= t.lp.curGen
    && (t.sh.paused ==> t.sh.state == Speaking)
    && (t.lp.ttsBuf != [] ==> t.sh.state == Speaking || t.sh.drainSig)
  }

  /** A raised signal, or delivery-done, belongs to the reply that raised it. */
  ghost predicate SignalSafe(t: Turn, e: Env) {
    && (t.sh.deliveryDone ==> t.sh.state == Speaking && !e.audioOpen && !e.doneOpen)
    && (t.sh.playbackSig ==> t.sh.state == Speaking && t.sh.outbound == [] && !e.audioOpen && !e.doneOpen
                             && !t.sh.deliveryDone && !t.sh.paused && !Replays(t))
    && (t.sh.drainSig ==> t.sh.state == Listening && !e.audioOpen && e.drained)
    && (t.sh.state == Speaking && !e.audioOpen ==> t.sh.deliveryDone || t.sh.playbackSig)
  }

  ghost predicate Safe(s: Sys) {
    QueueSafe(s.t) && ReplaySafe(s.t) && StateSafe(s.t, s.env) && SignalSafe(s.t, s.env)
  }

  lemma InitSafe()
    ensures Safe(INIT_SYS)
  {
  }

  // ---- one lemma an event ----------------------------------------------------

  lemma AudioKeeps(s: Sys, pcm: Pcm, req: nat, text: Text)
    requires Safe(s) && s.env.audioOpen
    ensures Safe(Sys(HandleTtsAudio(s.t, pcm, s.t.lp.curGen, req, text), s.env))
  {
    hide Frames, Tail, Room;
    var more := Queued(s.t, pcm, req);
    assert forall i :: 0 <= i < |more| ==> more[i].gen == s.t.lp.curGen;
  }

  /** The branch for first audio that finds the reply not being prepared is never taken. */
  lemma FirstAudioFindsThinking(s: Sys, ev: Event)
    requires Safe(s) && Enabled(s, ev) && ev.TtsAudio?
    requires ev.gen == s.t.lp.curGen && s.t.lp.firstAudioGen != ev.gen
    ensures s.t.sh.state == Thinking
  {
  }

  /** No turn is in progress: nothing queued, raised or replayed. */
  ghost predicate Idling(t: Turn) {
    && (t.sh.state == Listening || t.sh.state == Transcribing)
    && t.sh.outbound == [] && !t.sh.playbackSig && !t.sh.drainSig && !t.sh.paused && !t.sh.deliveryDone
    && t.lp.ttsBuf == [] && !Replays(t) && t.pl.sentGen <= t.lp.curGen && t.lp.firstAudioGen <= t.lp.curGen
  }

  lemma StartIsSafe(t: Turn, opens: bool)
    requires Idling(t)
    ensures Safe(Sys(StartTurn(t, opens), NewReply(StartTurn(t, opens))))
    ensures StartTurn(t, opens).lp.curGen == t.lp.curGen + 1
  {
  }

  /** Speech held back starts the next turn, or is dropped. */
  lemma SettleKeeps(cfg: Config, t: Turn, gen: nat, opens: bool, drained: bool)
    requires Idling(t) && t.sh.state == Listening
    ensures var t' := SettleHeld(cfg, t, gen, opens);
      if t'.lp.curGen == t.lp.curGen then Idling(t') && t'.sh.state == Listening else Safe(Sys(t', NewReply(t')))
  {
    hide Answer, JoinWords, Safe;
    var answer := Answer(t.lp.held, gen, t.sh.playingSince - cfg.ackMargin);
    var x := t.(lp := t.lp.(held := []));
    StartIsSafe(x.(mem := AddUser(x.mem, JoinWords(answer))), opens);
  }

  /** A turn that ends with nothing queued, raised or replayed. */
  lemma FinishKeeps(cfg: Config, t: Turn, opens: bool, drained: bool)
    requires Idling(t.(sh := t.sh.(state := Listening), lp := t.lp.(ttsBuf := [])))
    requires t.sh.state == Thinking || t.sh.state == Speaking
    ensures var t' := FinishTurn(cfg, t, t.lp.curGen, opens);
      Safe(Sys(t', if t'.lp.curGen == t.lp.curGen then Env(false, false, drained) else NewReply(t')))
  {
    hide Recorded, SettleHeld;
    var u := RecordReply(t.(sh := t.sh.(state := Listening)), false);
    SettleKeeps(cfg, u.(lp := u.lp.(ttsBuf := [])), t.lp.curGen, opens, drained);
  }

  lemma DoneKeeps(cfg: Config, s: Sys, opens: bool)
    requires Safe(s) && s.env.doneOpen
    ensures Safe(Step(cfg, s, TtsDone(s.t.lp.curGen, opens)))
  {
    hide FinishTurn;
    if s.t.sh.state == Thinking {
      FinishKeeps(cfg, s.t, opens, s.env.drained);
    }
  }

  lemma ClosedKeeps(cfg: Config, s: Sys, opens: bool)
    requires Safe(s) && s.t.lp.ttsOpen
    ensures Safe(Step(cfg, s, TtsClosed(s.t.lp.ttsConn, opens))) <==> !s.t.sh.playbackSig
  {
    hide FinishTurn;
    if s.t.sh.state == Thinking {
      FinishKeeps(cfg, s.t.(lp := s.t.lp.(ttsOpen := false)), opens, s.env.drained);
    }
  }

  lemma PlaybackKeeps(cfg: Config, s: Sys, opens: bool)
    requires Safe(s) && s.t.sh.playbackSig
    ensures Safe(Step(cfg, s, PlaybackDone(opens)))
  {
    hide FinishTurn;
    FinishKeeps(cfg, s.t.(sh := s.t.sh.(playbackSig := false)), opens, s.env.drained);
  }

  lemma DrainKeeps(cfg: Config, s: Sys)
    requires Safe(s) && s.t.sh.drainSig
    ensures Safe(Step(cfg, s, DrainTimeout))
  {
    hide Recorded;
  }

  lemma TickKeeps(cfg: Config, s: Sys, now: int, bargeIn: bool, toolRunning: bool)
    requires Safe(s)
    ensures var ev := Ticked(now, bargeIn, toolRunning);
      Safe(Step(cfg, s, ev)) <==> !Overtakes(cfg, s, ev)
  {
    hide Safe, Drained, Play, TakeReplay, Overtakes;
    var ev := Ticked(now, bargeIn, toolRunning);
    if s.t.sh.state != Speaking || s.t.sh.paused {
      SilentTickKeeps(cfg, s, ev);
    } else if bargeIn {
      PauseKeeps(cfg, s, ev);
    } else {
      TakeReplayKeeps(s);
      TakesReplayFirst(cfg, s, ev);
      PlayKeeps(cfg, Sys(TakeReplay(s.t), s.env), ev);
    }
  }

  lemma SilentTickKeeps(cfg: Config, s: Sys, ev: Event)
    requires Safe(s) && ev.Ticked? && (s.t.sh.state != Speaking || s.t.sh.paused)
    ensures Step(cfg, s, ev) == s && !Overtakes(cfg, s, ev)
  {
  }

  lemma PauseKeeps(cfg: Config, s: Sys, ev: Event)
    requires Safe(s) && ev.Ticked? && ev.bargeIn && s.t.sh.state == Speaking && !s.t.sh.paused
    ensures Safe(Step(cfg, s, ev)) <==> !Overtakes(cfg, s, ev)
  {
  }

  lemma TakesReplayFirst(cfg: Config, s: Sys, ev: Event)
    requires ev.Ticked? && !ev.bargeIn && s.t.sh.state == Speaking && !s.t.sh.paused
    ensures var u := Sys(TakeReplay(s.t), s.env);
      Step(cfg, u, ev) == Step(cfg, s, ev) && (Overtakes(cfg, u, ev) <==> Overtakes(cfg, s, ev))
      && u.t.sh.state == Speaking && !u.t.sh.paused
  {
    hide Play;
  }

  lemma TakeReplayKeeps(s: Sys)
    requires Safe(s)
    ensures Safe(Sys(TakeReplay(s.t), s.env)) && !TakeReplay(s.t).sh.replayPending
  {
  }

  lemma PlayKeeps(cfg: Config, s: Sys, ev: Event)
    requires Safe(s) && ev.Ticked? && !ev.bargeIn && s.t.sh.state == Speaking && !s.t.sh.paused
    requires !s.t.sh.replayPending
    ensures Safe(Step(cfg, s, ev)) <==> !Overtakes(cfg, s, ev)
  {
    var t := s.t;
    if ActiveReplay(t) {
    } else if t.sh.outbound != [] {
      var u := Next(cfg, t, ev);
      assert forall i :: 0 <= i < |u.sh.outbound| ==> u.sh.outbound[i] == t.sh.outbound[i + 1];
    }
  }

  /** A turn started with nothing in progress. */
  lemma AcceptIsSafe(t: Turn, text: Text, opens: bool)
    requires Idling(t)
    ensures var t' := AcceptUserTurn(t, text, opens);
      Safe(Sys(t', NewReply(t'))) && t'.lp.curGen == t.lp.curGen + 1
  {
    StartIsSafe(t.(mem := AddUser(t.mem, text)), opens);
  }

  /** A turn started over a signal still raised, or something still to be replayed. */
  lemma AcceptIsUnsafe(t: Turn, text: Text, opens: bool)
    requires t.sh.drainSig || (Replays(t) && t.pl.sentGen <= t.lp.curGen)
    ensures var t' := AcceptUserTurn(t, text, opens);
      !Safe(Sys(t', NewReply(t'))) && t'.lp.curGen == t.lp.curGen + 1
  {
  }

  lemma TranscriptKeeps(cfg: Config, s: Sys, tr: Transcript, opens: bool)
    requires Safe(s)
    ensures var ev := Transcribed(tr, opens);
      Safe(Step(cfg, s, ev)) <==> !Overtakes(cfg, s, ev)
  {
    hide AcceptUserTurn, Recorded;
    var t := s.t;
    if Accepts(cfg, t, tr) {
      var u := if t.sh.paused then ConfirmInterruption(t) else t;
      if t.sh.drainSig || Replays(u) {
        AcceptIsUnsafe(u, tr.text, opens);
      } else {
        AcceptIsSafe(u, tr.text, opens);
      }
    }
  }

  lemma IdleKeeps(cfg: Config, s: Sys, timer: nat, prompt: Text, second: bool, opens: bool)
    requires Safe(s)
    ensures var ev := Idle(timer, prompt, second, opens);
      Safe(Step(cfg, s, ev)) <==> !Overtakes(cfg, s, ev)
  {
    var t := s.t;
    if timer == t.lp.idleSeq && !t.lp.ending && t.sh.state == Listening {
      hide Safe, AcceptUserTurn;
      PromptKeeps(s, prompt, second, opens);
    } else {
      assert Step(cfg, s, Idle(timer, prompt, second, opens)) == s;
    }
  }

  /** The prompt starts a turn. */
  lemma PromptKeeps(s: Sys, prompt: Text, second: bool, opens: bool)
    requires Safe(s) && s.t.sh.state == Listening
    ensures var t' := HandleIdle(s.t, s.t.lp.idleSeq, prompt, second, opens);
      !s.t.lp.ending ==> t'.lp.curGen != s.t.lp.curGen && (Safe(Sys(t', NewReply(t'))) <==> !s.t.sh.drainSig)
  {
    hide AcceptUserTurn;
    var u := if second then s.t.(sh := s.t.sh.(closing := true), lp := s.t.lp.(ending := true)) else s.t;
    if s.t.sh.drainSig {
      AcceptIsUnsafe(u, prompt, opens);
    } else {
      AcceptIsSafe(u, prompt, opens);
    }
  }

  lemma OpeningKeeps(cfg: Config, s: Sys, opens: bool)
    requires Safe(s) && s.t.sh.state == Listening
    ensures Safe(Step(cfg, s, Opening(opens))) <==> !Overtakes(cfg, s, Opening(opens))
  {
    if !s.t.sh.drainSig {
      StartIsSafe(s.t, opens);
    }
  }

  lemma ResumeCheckKeeps(cfg: Config, s: Sys, check: nat, quiet: bool)
    requires Safe(s)
    ensures Safe(Step(cfg, s, ResumeCheck(check, quiet)))
  {
  }

  lemma OthersKeep(cfg: Config, s: Sys, ev: Event)
    requires Safe(s) && Enabled(s, ev)
    requires ev.LlmDone? || ev.BargeIn? || ev.EndingCall? || ev.CallerSpeech?
    ensures Safe(Step(cfg, s, ev))
  {
  }

  /** TTS events of an older reply, or an older connection, change nothing. */
  lemma StaleChangesNothing(cfg: Config, s: Sys, ev: Event)
    requires match ev
      case TtsAudio(_, gen, _, _) => gen < s.t.lp.curGen
      case TtsDone(gen, _) => gen < s.t.lp.curGen
      case LlmDone(gen, _, _) => gen < s.t.lp.curGen
      case TtsClosed(conn, _) => !s.t.lp.ttsOpen || conn != s.t.lp.ttsConn
      case _ => false
    ensures Step(cfg, s, ev) == s
  {
  }

  // ---- the theorem ---------------------------------------------------------------

  /** A step keeps the invariant exactly when its event overtakes nothing. */
  lemma SafeExactlyUnlessOvertaken(cfg: Config, s: Sys, ev: Event)
    requires Safe(s) && Enabled(s, ev)
    ensures Safe(Step(cfg, s, ev)) <==> !Overtakes(cfg, s, ev)
  {
    hide Safe, Next, NextEnv;
    match ev {
      case Ticked(now, bargeIn, toolRunning) => TickKeeps(cfg, s, now, bargeIn, toolRunning);
      case Transcribed(tr, opens) => TranscriptKeeps(cfg, s, tr, opens);
      case TtsAudio(pcm, gen, req, text) => AudioStep(cfg, s, pcm, gen, req, text);
      case TtsDone(gen, opens) => DoneStep(cfg, s, gen, opens);
      case TtsClosed(conn, opens) => ClosedStep(cfg, s, conn, opens);
      case PlaybackDone(opens) => PlaybackKeeps(cfg, s, opens);
      case DrainTimeout => DrainKeeps(cfg, s);
      case Idle(timer, prompt, second, opens) => IdleKeeps(cfg, s, timer, prompt, second, opens);
      case Opening(opens) => OpeningKeeps(cfg, s, opens);
      case ResumeCheck(check, quiet) => ResumeCheckKeeps(cfg, s, check, quiet);
      case _ => OthersKeep(cfg, s, ev);
    }
  }

  lemma AudioStep(cfg: Config, s: Sys, pcm: Pcm, gen: nat, req: nat, text: Text)
    requires Safe(s) && Enabled(s, TtsAudio(pcm, gen, req, text))
    ensures Safe(Step(cfg, s, TtsAudio(pcm, gen, req, text)))
  {
    hide Safe, HandleTtsAudio;
    if gen == s.t.lp.curGen {
      AudioKeeps(s, pcm, req, text);
      AudioKeepsGen(s.t, pcm, gen, req, text);
    } else {
      StaleChangesNothing(cfg, s, TtsAudio(pcm, gen, req, text));
    }
  }

  lemma AudioKeepsGen(t: Turn, pcm: Pcm, gen: nat, req: nat, text: Text)
    ensures HandleTtsAudio(t, pcm, gen, req, text).lp.curGen == t.lp.curGen
  {
  }

  lemma DoneStep(cfg: Config, s: Sys, gen: nat, opens: bool)
    requires Safe(s) && Enabled(s, TtsDone(gen, opens))
    ensures Safe(Step(cfg, s, TtsDone(gen, opens)))
  {
    hide Safe, Next;
    if gen == s.t.lp.curGen {
      DoneKeeps(cfg, s, opens);
    } else {
      StaleChangesNothing(cfg, s, TtsDone(gen, opens));
    }
  }

  lemma ClosedStep(cfg: Config, s: Sys, conn: nat, opens: bool)
    requires Safe(s)
    ensures Safe(Step(cfg, s, TtsClosed(conn, opens))) <==> !Overtakes(cfg, s, TtsClosed(conn, opens))
  {
    hide Safe, Next;
    if s.t.lp.ttsOpen && conn == s.t.lp.ttsConn {
      ClosedKeeps(cfg, s, opens);
    } else {
      StaleChangesNothing(cfg, s, TtsClosed(conn, opens));
    }
  }

  // ---- runs ---------------------------------------------------------------------

  ghost predicate Run(cfg: Config, s: Sys, evs: seq<Event>)
    decreases |evs|
  {
    evs != [] ==> Enabled(s, evs[0]) && !Overtakes(cfg, s, evs[0]) && Run(cfg, Step(cfg, s, evs[0]), evs[1..])
  }

  ghost function After(cfg: Config, s: Sys, evs: seq<Event>): Sys
    decreases |evs|
  {
    if evs == [] then s else After(cfg, Step(cfg, s, evs[0]), evs[1..])
  }

  lemma {:induction false} RunsAreSafe(cfg: Config, s: Sys, evs: seq<Event>)
    requires Safe(s) && Run(cfg, s, evs)
    ensures Safe(After(cfg, s, evs))
    decreases |evs|
  {
    hide Safe, Step, Enabled, Overtakes;
    if evs != [] {
      SafeExactlyUnlessOvertaken(cfg, s, evs[0]);
      RunsAreSafe(cfg, Step(cfg, s, evs[0]), evs[1..]);
    }
  }

  /** What is heard is of the current reply, which is being spoken and not paused. */
  ghost predicate HearsCurrent(t: Turn, ev: Event) {
    match Hears(t, ev)
    case Silence => true
    case Fresh(f) => f.gen == t.lp.curGen && t.sh.state == Speaking && !t.sh.paused
    case Again(_, gen) => gen == t.lp.curGen && t.sh.state == Speaking && !t.sh.paused
  }

  /** Generation safety over whole calls: no audio of a cut or finished reply is ever heard, only
      the current reply's frames are queued, and a replay is of the sentence playing. */
  lemma OnlyTheCurrentReplyIsHeard(cfg: Config, evs: seq<Event>, ev: Event)
    requires Run(cfg, INIT_SYS, evs)
    ensures var t := After(cfg, INIT_SYS, evs).t;
      QueueSafe(t) && ReplaySafe(t) && HearsCurrent(t, ev)
  {
    InitSafe();
    RunsAreSafe(cfg, INIT_SYS, evs);
    var s := After(cfg, INIT_SYS, evs);
    SafeHearsCurrent(s, ev);
  }

  lemma SafeHearsCurrent(s: Sys, ev: Event)
    requires Safe(s)
    ensures HearsCurrent(s.t, ev)
  {
  }
}
