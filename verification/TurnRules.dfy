/** When a turn starts, a reply is paused or resumed, the call hangs up, and a timer is stale: exactly, for
    every state and event; and what follows over a call for the reply's tool calls and the caller's words. */
module TurnRules {
  import opened Runes
  import opened Messages
  import opened TurnSpec
  import opened TurnSafety
  import F = TurnFidelity
  import M = TurnMemory

  // ---- turns start ----------------------------------------------------------------------------

  /** The transcript is taken as an interruption of the paused reply. */
  predicate Interrupts(cfg: Config, t: Turn, ev: Event) {
    ev.Transcribed? && Confirms(cfg, t, ev.tr)
  }

  /** The silence timer fires: it is the newest, and nobody is speaking. */
  predicate Fires(t: Turn, ev: Event) {
    ev.Idle? && ev.timer == t.lp.idleSeq && !t.lp.ending && t.sh.state == Listening
  }

  predicate HangsUpAfterTurn(t: Turn) {
    t.lp.hangupAfterTurn || t.lp.ending
  }

  predicate Starts(cfg: Config, t: Turn, ev: Event) {
    match ev
    case Transcribed(tr, _) => Accepts(cfg, t, tr)
    case Idle(_, _, _, _) => Fires(t, ev)
    case Opening(_) => true
    case _ => M.EndsTurn(t, ev) && !HangsUpAfterTurn(t) && M.SaidAtEnd(cfg, t) != []
  }

  /** Whether a connection can be opened is asked at each such event. */
  function Opens(ev: Event): bool {
    match ev
    case Transcribed(_, opens) => opens
    case TtsDone(_, opens) => opens
    case TtsClosed(_, opens) => opens
    case PlaybackDone(opens) => opens
    case Idle(_, _, _, opens) => opens
    case Opening(opens) => opens
    case _ => false
  }

  /** The TTS connection is given up by this event. */
  predicate Disconnects(cfg: Config, t: Turn, ev: Event) {
    Interrupts(cfg, t, ev) || (ev.TtsClosed? && ev.conn == t.lp.ttsConn)
  }

  /** A reply begins with nothing of the one before; it is prepared, on the connection there is or on a
      new one, or there is none to be had and the agent listens. */
  ghost predicate StartsClean(had: bool, opens: bool, conn: nat, t': Turn) {
    && t'.mem.chunks == [] && t'.mem.toolMsgs == [] && !t'.lp.hangupAfterTurn && t'.sh.playingReq == 0
    && t'.sh.state == (if had || opens then Thinking else Listening)
    && t'.lp.ttsOpen == (had || opens) && t'.lp.ttsConn == conn + (if !had && opens then 1 else 0)
  }

  /** Exactly these events start a reply; an interruption passes over a number. */
  ghost predicate TurnRule(cfg: Config, t: Turn, ev: Event, t': Turn) {
    && t'.lp.curGen
       == t.lp.curGen + (if Interrupts(cfg, t, ev) then 2 else if Starts(cfg, t, ev) then 1 else 0)
    && (Starts(cfg, t, ev) ==>
        StartsClean(t.lp.ttsOpen && !Disconnects(cfg, t, ev), Opens(ev), t.lp.ttsConn, t'))
  }

  // ---- pauses, the silence clock, the end of the call ---------------------------------------------

  /** A check of the paused reply is set up anew. */
  predicate ChecksAgain(t: Turn, ev: Event) {
    t.sh.paused && (ev.BargeIn? || (ev.ResumeCheck? && ev.check == t.lp.resumeSeq && !ev.quiet))
  }

  predicate CutsIn(t: Turn, ev: Event) {
    ev.Ticked? && ev.bargeIn && t.sh.state == Speaking
  }

  /** A reply is paused by a caller cutting in, which is signalled, and no longer exactly when it is told to go
      on or is interrupted; and every check set up before is stale from then on. */
  ghost predicate PauseRule(cfg: Config, t: Turn, ev: Event, t': Turn) {
    var ends := F.Resumes(cfg, t, ev) || Interrupts(cfg, t, ev);
    && t'.sh.paused == (if t.sh.paused then !ends else CutsIn(t, ev))
    && t'.sh.bargeSig == (!ev.BargeIn? && (t.sh.bargeSig || (!t.sh.paused && CutsIn(t, ev))))
    && t'.lp.resumeSeq == t.lp.resumeSeq + (if ends || ChecksAgain(t, ev) then 1 else 0)
  }

  /** The silence clock starts anew, or stops: a timer that runs is stale. */
  predicate MovesClock(cfg: Config, t: Turn, ev: Event) {
    || Starts(cfg, t, ev)
    || ev.CallerSpeech? || ev.EndingCall?
    || (M.EndsTurn(t, ev) && !HangsUpAfterTurn(t))
  }

  ghost predicate ClockRule(cfg: Config, t: Turn, ev: Event, t': Turn) {
    t'.lp.idleSeq == t.lp.idleSeq + if MovesClock(cfg, t, ev) then 1 else 0
  }

  /** The call is to end: it is told to, or the caller was silent twice. */
  predicate Closes(t: Turn, ev: Event) {
    ev.EndingCall? || (Fires(t, ev) && ev.second)
  }

  /** It ends: with its last reply, given up on or not, or at once when nobody is to be heard. */
  predicate HangsUp(t: Turn, ev: Event) {
    || (M.EndsTurn(t, ev) && HangsUpAfterTurn(t))
    || (ev.DrainTimeout? && t.lp.ending)
    || (ev.EndingCall? && t.sh.state in {Listening, Transcribing})
  }

  ghost predicate EndRule(cfg: Config, t: Turn, ev: Event, t': Turn) {
    && t'.lp.ending == (t.lp.ending || Closes(t, ev)) && t'.sh.closing == (t.sh.closing || Closes(t, ev))
    && t'.lp.hungUp == (t.lp.hungUp || HangsUp(t, ev))
  }

  /** What the caller says over a reply without stopping it: while it is spoken, where that can be an
      interruption at all; or a mere acknowledgement, while it is paused. */
  predicate SaidOver(cfg: Config, t: Turn, ev: Event) {
    && ev.Transcribed? && !ev.tr.postCut && !ev.tr.junk && cfg.ackFilter
    && if t.sh.paused then ev.tr.ack && !t.sh.closing else t.sh.state == Speaking && ev.tr.interruptible
  }

  /** It is held, with the reply's number and its time, until the turn ends or the reply is interrupted. */
  ghost predicate HeldRule(cfg: Config, t: Turn, ev: Event, t': Turn) {
    t'.lp.held
    == if M.EndsTurn(t, ev) || Interrupts(cfg, t, ev) then []
       else t.lp.held + if SaidOver(cfg, t, ev) then [Held(ev.tr.text, t.lp.curGen, ev.tr.at)] else []
  }

  ghost predicate Rules(cfg: Config, t: Turn, ev: Event, t': Turn) {
    && TurnRule(cfg, t, ev, t') && PauseRule(cfg, t, ev, t') && ClockRule(cfg, t, ev, t')
    && EndRule(cfg, t, ev, t') && HeldRule(cfg, t, ev, t')
  }

  // ---- that these are the rules ---------------------------------------------------------------------

  /** All of the event loop but the reply's number and connection, and the silence clock. */
  ghost predicate SameControl(t: Turn, t': Turn) {
    && t'.sh.paused == t.sh.paused && t'.lp.resumeSeq == t.lp.resumeSeq && t'.sh.bargeSig == t.sh.bargeSig
    && t'.lp.ending == t.lp.ending && t'.sh.closing == t.sh.closing && t'.lp.held == t.lp.held
  }

  lemma TurnStarted(t: Turn, opens: bool)
    ensures var t' := StartTurn(t, opens);
      && StartsClean(t.lp.ttsOpen, opens, t.lp.ttsConn, t') && SameControl(t, t')
      && t'.lp.curGen == t.lp.curGen + 1 && t'.lp.idleSeq == t.lp.idleSeq + 1 && t'.lp.hungUp == t.lp.hungUp
  {
  }

  lemma InterruptionCuts(t: Turn)
    ensures var t' := ConfirmInterruption(t);
      && SameControl(t.(sh := t.sh.(paused := false), lp := t.lp.(resumeSeq := t.lp.resumeSeq + 1, held := [])), t')
      && !t'.lp.ttsOpen && t'.lp.ttsConn == t.lp.ttsConn && t'.lp.curGen == t.lp.curGen + 1
      && t'.lp.idleSeq == t.lp.idleSeq && t'.lp.hungUp == t.lp.hungUp
  {
    hide Recorded;
  }

  lemma TurnEnded(cfg: Config, t: Turn)
    ensures var w := F.Ended(t);
      w.lp == t.lp.(ttsBuf := []) && M.SaidAtEnd(cfg, w) == M.SaidAtEnd(cfg, t)
      && w.sh.paused == t.sh.paused && w.sh.closing == t.sh.closing && w.sh.bargeSig == t.sh.bargeSig
  {
    hide Recorded, M.SaidOver;
  }

  lemma TurnSettled(cfg: Config, t: Turn, opens: bool) returns (u: Turn)
    ensures u == t.(lp := t.lp.(held := []), mem := u.mem)
    ensures SettleHeld(cfg, t, t.lp.curGen, opens)
      == if M.SaidAtEnd(cfg, t) == [] then t.(lp := t.lp.(held := [])) else StartTurn(u, opens)
  {
    hide StartTurn, JoinWords, Answer, M.SaidOver;
    M.AnswerIsSaid(t.lp.held, t.lp.curGen, t.sh.playingSince - cfg.ackMargin);
    var text := JoinWords(M.SaidAtEnd(cfg, t));
    u := t.(lp := t.lp.(held := []), mem := AddUser(t.mem, text));
  }

  lemma TurnFinished(cfg: Config, t: Turn, opens: bool)
    ensures var t' := FinishTurn(cfg, t, t.lp.curGen, opens);
      var starts := !HangsUpAfterTurn(t) && M.SaidAtEnd(cfg, t) != [];
      && (starts ==> StartsClean(t.lp.ttsOpen, opens, t.lp.ttsConn, t'))
      && SameControl(t.(lp := t.lp.(held := [])), t')
      && t'.lp.curGen == t.lp.curGen + (if starts then 1 else 0)
      && t'.lp.idleSeq == t.lp.idleSeq + (if HangsUpAfterTurn(t) then 0 else 1)
      && t'.lp.hungUp == (t.lp.hungUp || HangsUpAfterTurn(t))
  {
    hide FinishTurn, SettleHeld, F.Ended, M.SaidOver, StartTurn;
    F.FinishEnds(cfg, t, t.lp.curGen, opens);
    TurnEnded(cfg, t);
    var u := TurnSettled(cfg, F.Ended(t), opens);
    TurnStarted(u, opens);
  }

  lemma TickRules(cfg: Config, t: Turn, ev: Event)
    requires ev.Ticked?
    ensures Rules(cfg, t, ev, Next(cfg, t, ev))
  {
    hide StartsClean, M.SaidAtEnd, Tick;
    assert t.lp.held + [] == t.lp.held;
    TickChanges(t, ev.now, ev.bargeIn, ev.toolRunning);
  }

  lemma TickChanges(t: Turn, now: int, bargeIn: bool, toolRunning: bool)
    ensures var t' := Tick(t, now, bargeIn, toolRunning).0;
      && t'.lp == t.lp && t'.sh.closing == t.sh.closing
      && t'.sh.paused == (t.sh.paused || (bargeIn && t.sh.state == Speaking))
      && t'.sh.bargeSig == (t.sh.bargeSig || (!t.sh.paused && bargeIn && t.sh.state == Speaking))
  {
    hide Play, TakeReplay;
    PlayChanges(TakeReplay(t), now, toolRunning);
    assert TakeReplay(t).lp == t.lp && TakeReplay(t).sh == t.sh.(replayPending := TakeReplay(t).sh.replayPending) by {
      TakeReplayChanges(t);
    }
  }

  lemma TakeReplayChanges(t: Turn)
    ensures var u := TakeReplay(t); u.lp == t.lp && u.sh == t.sh.(replayPending := u.sh.replayPending)
  {
  }

  lemma PlayChanges(t: Turn, now: int, toolRunning: bool)
    ensures var t' := Play(t, now, toolRunning).0;
      && t'.lp == t.lp && t'.sh.closing == t.sh.closing && t'.sh.paused == t.sh.paused
      && t'.sh.bargeSig == t.sh.bargeSig
  {
    hide ActiveReplay, Pop, Drained;
    var u := t.(pl := t.pl.(replaying := false));
    if t.sh.outbound != [] {
      PopChanges(u, now);
    }
    DrainedChanges(u, toolRunning);
  }

  lemma PopChanges(t: Turn, now: int)
    requires t.sh.outbound != []
    ensures var u := Pop(t, now);
      u.lp == t.lp && u.sh.closing == t.sh.closing && u.sh.paused == t.sh.paused && u.sh.bargeSig == t.sh.bargeSig
  {
  }

  lemma DrainedChanges(t: Turn, toolRunning: bool)
    ensures var u := Drained(t, toolRunning);
      u.lp == t.lp && u.sh.closing == t.sh.closing && u.sh.paused == t.sh.paused && u.sh.bargeSig == t.sh.bargeSig
  {
  }

  lemma PausedRules(cfg: Config, t: Turn, ev: Event)
    requires ev.Transcribed? && t.sh.paused && !Interrupts(cfg, t, ev)
    ensures Rules(cfg, t, ev, Next(cfg, t, ev))
  {
    hide StartsClean, AcceptUserTurn, ConfirmInterruption;
    assert t.lp.held + [] == t.lp.held;
    if F.Resumes(cfg, t, ev) {
      ResumedRules(cfg, t, ev);
    } else {
      assert Next(cfg, t, ev) == t;
      hide Next;
    }
  }

  lemma ResumedRules(cfg: Config, t: Turn, ev: Event)
    requires ev.Transcribed? && F.Resumes(cfg, t, ev)
    ensures Rules(cfg, t, ev, Next(cfg, t, ev))
  {
    hide StartsClean, AcceptUserTurn, ConfirmInterruption;
    assert t.lp.held + [] == t.lp.held;
    assert Next(cfg, t, ev) == ResumeReply(if t.sh.closing then t else HoldSpeech(t, ev.tr.text, ev.tr.at));
    hide Next;
  }

  lemma AcceptedRules(cfg: Config, t: Turn, ev: Event)
    requires ev.Transcribed? && !t.sh.paused && Accepts(cfg, t, ev.tr)
    ensures Rules(cfg, t, ev, Next(cfg, t, ev))
  {
    hide StartsClean, StartTurn, ConfirmInterruption, HoldSpeech, ResumeReply;
    assert t.lp.held + [] == t.lp.held;
    TurnStarted(t.(mem := AddUser(t.mem, ev.tr.text)), ev.opens);
  }

  lemma IgnoredRules(cfg: Config, t: Turn, ev: Event)
    requires ev.Transcribed? && !t.sh.paused && !Accepts(cfg, t, ev.tr)
    ensures Rules(cfg, t, ev, Next(cfg, t, ev))
  {
    hide StartsClean, AcceptUserTurn, ConfirmInterruption, ResumeReply;
    assert t.lp.held + [] == t.lp.held;
  }

  lemma InterruptionRules(cfg: Config, t: Turn, ev: Event)
    requires Interrupts(cfg, t, ev)
    ensures Rules(cfg, t, ev, Next(cfg, t, ev))
  {
    hide StartsClean, StartTurn, ConfirmInterruption;
    var u := ConfirmInterruption(t);
    InterruptionCuts(t);
    TurnStarted(u.(mem := AddUser(u.mem, ev.tr.text)), ev.opens);
  }

  /** A turn ends: it is finished, from a state that may have dropped its signal or its connection. */
  ghost predicate Finishes(cfg: Config, t: Turn, u: Turn, ev: Event) {
    && M.EndsTurn(t, ev) && Next(cfg, t, ev) == FinishTurn(cfg, u, t.lp.curGen, Opens(ev))
    && u == t.(sh := t.sh.(playbackSig := u.sh.playbackSig), lp := t.lp.(ttsOpen := u.lp.ttsOpen))
    && u.lp.ttsOpen == (t.lp.ttsOpen && !Disconnects(cfg, t, ev))
  }

  lemma FinishedStarts(cfg: Config, t: Turn, u: Turn, ev: Event)
    requires Finishes(cfg, t, u, ev)
    ensures TurnRule(cfg, t, ev, Next(cfg, t, ev)) && ClockRule(cfg, t, ev, Next(cfg, t, ev))
  {
    hide Next, StartsClean, FinishTurn, M.SaidAtEnd;
    SaidAtEndSame(cfg, t, u);
    TurnFinished(cfg, u, Opens(ev));
  }

  lemma FinishedRules(cfg: Config, t: Turn, u: Turn, ev: Event)
    requires Finishes(cfg, t, u, ev)
    ensures Rules(cfg, t, ev, Next(cfg, t, ev))
  {
    hide Next, StartsClean, FinishTurn, M.SaidAtEnd, TurnRule, ClockRule;
    FinishedStarts(cfg, t, u, ev);
    TurnFinished(cfg, u, Opens(ev));
  }

  lemma DoneRules(cfg: Config, t: Turn, ev: Event)
    requires ev.TtsDone?
    ensures Rules(cfg, t, ev, Next(cfg, t, ev))
  {
    hide StartsClean, FinishTurn, M.SaidAtEnd;
    assert t.lp.held + [] == t.lp.held;
    if M.EndsTurn(t, ev) {
      hide Rules;
      FinishedRules(cfg, t, t, ev);
    }
  }

  lemma ClosedRules(cfg: Config, t: Turn, ev: Event)
    requires ev.TtsClosed?
    ensures Rules(cfg, t, ev, Next(cfg, t, ev))
  {
    hide Rules, FinishTurn;
    if M.EndsTurn(t, ev) {
      FinishedRules(cfg, t, t.(lp := t.lp.(ttsOpen := false)), ev);
    } else {
      StillClosedRules(cfg, t, ev);
    }
  }

  lemma StillClosedRules(cfg: Config, t: Turn, ev: Event)
    requires ev.TtsClosed? && !M.EndsTurn(t, ev)
    ensures Rules(cfg, t, ev, Next(cfg, t, ev))
  {
    hide StartsClean, FinishTurn, M.SaidAtEnd;
    assert t.lp.held + [] == t.lp.held;
  }

  lemma PlaybackRules(cfg: Config, t: Turn, ev: Event)
    requires ev.PlaybackDone?
    ensures Rules(cfg, t, ev, Next(cfg, t, ev))
  {
    hide Rules, FinishTurn;
    FinishedRules(cfg, t, t.(sh := t.sh.(playbackSig := false)), ev);
  }

  lemma SaidAtEndSame(cfg: Config, t: Turn, u: Turn)
    requires u.lp.held == t.lp.held && u.lp.curGen == t.lp.curGen && u.sh.playingSince == t.sh.playingSince
    ensures M.SaidAtEnd(cfg, u) == M.SaidAtEnd(cfg, t)
  {
  }

  lemma IdleRules(cfg: Config, t: Turn, ev: Event)
    requires Fires(t, ev)
    ensures Rules(cfg, t, ev, Next(cfg, t, ev))
  {
    hide StartsClean, StartTurn;
    assert t.lp.held + [] == t.lp.held;
    var u := if ev.second then t.(sh := t.sh.(closing := true), lp := t.lp.(ending := true)) else t;
    assert Next(cfg, t, ev) == AcceptUserTurn(u, ev.prompt, ev.opens);
    TurnStarted(u.(mem := AddUser(u.mem, ev.prompt)), ev.opens);
  }

  lemma StaleIdleRules(cfg: Config, t: Turn, ev: Event)
    requires ev.Idle? && !Fires(t, ev)
    ensures Rules(cfg, t, ev, Next(cfg, t, ev))
  {
    hide StartsClean, AcceptUserTurn;
    assert t.lp.held + [] == t.lp.held;
    assert Next(cfg, t, ev) == t;
  }

  lemma OpeningRules(cfg: Config, t: Turn, ev: Event)
    requires ev.Opening?
    ensures Rules(cfg, t, ev, Next(cfg, t, ev))
  {
    hide StartsClean, StartTurn;
    assert t.lp.held + [] == t.lp.held;
    TurnStarted(t, ev.opens);
  }

  lemma AudioRules(cfg: Config, t: Turn, ev: Event)
    requires ev.TtsAudio? || ev.LlmDone?
    ensures Rules(cfg, t, ev, Next(cfg, t, ev))
  {
    hide StartsClean, Queued, Tail, NoteSentence, M.SaidAtEnd;
    assert t.lp.held + [] == t.lp.held;
  }

  lemma CheckRules(cfg: Config, t: Turn, ev: Event)
    requires ev.ResumeCheck?
    ensures Rules(cfg, t, ev, Next(cfg, t, ev))
  {
    hide StartsClean, M.SaidAtEnd;
    assert t.lp.held + [] == t.lp.held;
  }

  lemma BargeInRules(cfg: Config, t: Turn, ev: Event)
    requires ev.BargeIn?
    ensures Rules(cfg, t, ev, Next(cfg, t, ev))
  {
    hide StartsClean, M.SaidAtEnd;
    assert t.lp.held + [] == t.lp.held;
  }

  lemma EndRules(cfg: Config, t: Turn, ev: Event)
    requires ev.DrainTimeout? || ev.CallerSpeech? || ev.EndingCall?
    ensures Rules(cfg, t, ev, Next(cfg, t, ev))
  {
    hide StartsClean, Recorded, M.SaidAtEnd;
    assert t.lp.held + [] == t.lp.held;
  }

  /** In every state every event keeps to the rules: which of them start a reply, and what it starts with;
      which end a pause; which make a running timer stale; which end the call; and what is held. */
  lemma EventsKeepTheRules(cfg: Config, t: Turn, ev: Event)
    ensures Rules(cfg, t, ev, Next(cfg, t, ev))
  {
    hide Rules, Next;
    match ev {
      case Ticked(_, _, _) => TickRules(cfg, t, ev);
      case Transcribed(tr, _) =>
        if Confirms(cfg, t, tr) {
          InterruptionRules(cfg, t, ev);
        } else if t.sh.paused {
          PausedRules(cfg, t, ev);
        } else if Accepts(cfg, t, tr) {
          AcceptedRules(cfg, t, ev);
        } else {
          IgnoredRules(cfg, t, ev);
        }
      case TtsDone(_, _) => DoneRules(cfg, t, ev);
      case TtsClosed(_, _) => ClosedRules(cfg, t, ev);
      case PlaybackDone(_) => PlaybackRules(cfg, t, ev);
      case TtsAudio(_, _, _, _) => AudioRules(cfg, t, ev);
      case LlmDone(_, _, _) => AudioRules(cfg, t, ev);
      case ResumeCheck(_, _) => CheckRules(cfg, t, ev);
      case BargeIn => BargeInRules(cfg, t, ev);
      case DrainTimeout => EndRules(cfg, t, ev);
      case CallerSpeech => EndRules(cfg, t, ev);
      case EndingCall => EndRules(cfg, t, ev);
      case Opening(_) => OpeningRules(cfg, t, ev);
      case Idle(_, _, _, _) =>
        if Fires(t, ev) {
          IdleRules(cfg, t, ev);
        } else {
          StaleIdleRules(cfg, t, ev);
        }
    }
  }

  // ---- what the caller said ---------------------------------------------------------------------------

  /** What starts a turn enters the history: the caller's words, after what was kept of an interrupted reply;
      or the prompt for a silent one. */
  lemma WordsEnterTheHistory(cfg: Config, t: Turn, ev: Event)
    requires Starts(cfg, t, ev) && (ev.Transcribed? || ev.Idle?)
    ensures var h := Next(cfg, t, ev).mem.history;
      && t.mem.history < h && h[|h| - 1] == Said(User, if ev.Idle? then ev.prompt else ev.tr.text)
      && (!Interrupts(cfg, t, ev) ==> |h| == |t.mem.history| + 1)
  {
    hide Recorded;
    if Interrupts(cfg, t, ev) {
      var kept := t.mem.history + Recorded(t.mem, true, t.sh.playingReq);
      assert t.mem.history <= kept && Next(cfg, t, ev).mem.history == kept + [Said(User, ev.tr.text)];
    }
  }

  lemma {:induction false} HeldStays(cfg: Config, s: Sys, evs: seq<Event>)
    requires M.GoesOn(cfg, s, evs)
    ensures s.t.lp.held <= After(cfg, s, evs).t.lp.held && After(cfg, s, evs).t.lp.curGen == s.t.lp.curGen
    decreases |evs|
  {
    hide Next, NextEnv, M.EndsTurn, TurnRule, PauseRule, ClockRule, EndRule, Confirms, SaidOver;
    if evs != [] {
      EventsKeepTheRules(cfg, s.t, evs[0]);
      NotCut(cfg, s.t, evs[0]);
      HeldStays(cfg, Step(cfg, s, evs[0]), evs[1..]);
    }
  }

  lemma NotCut(cfg: Config, t: Turn, ev: Event)
    requires TurnRule(cfg, t, ev, Next(cfg, t, ev)) && Next(cfg, t, ev).lp.curGen == t.lp.curGen
    ensures !Interrupts(cfg, t, ev) && !Starts(cfg, t, ev)
  {
    hide Next, StartsClean, M.SaidAtEnd;
  }

  lemma {:induction false} SaidOverHas(held: seq<Held>, i: nat, gen: nat, from: int)
    requires i < |held| && held[i].gen == gen && from <= held[i].at
    ensures held[i].text in M.SaidOver(held, gen, from)
  {
    if i < |held| - 1 {
      SaidOverHas(held[..|held| - 1], i, gen, from);
    }
  }

  lemma {:induction false} SpacedHas(texts: seq<Text>, i: nat)
    requires i < |texts|
    ensures M.IsIn(texts[i], M.Spaced(texts))
  {
    var whole, n := M.Spaced(texts), |texts| - 1;
    if i == n {
      assert whole[|whole| - |texts[i]|..|whole|] == texts[i];
    } else {
      SpacedHas(texts[..n], i);
      var before := M.Spaced(texts[..n]);
      var j, k :| 0 <= j <= k <= |before| && before[j..k] == texts[i];
      assert whole[j..k] == before[j..k];
    }
  }

  /** Over a call: what the caller says over a reply, if late enough in its last sentence, is part of what
      starts the next turn when the reply ends, whatever happened until then -- unless the call ends. */
  lemma SpeechOverReplyIsAnswered(cfg: Config, s: Sys, ev: Event, during: seq<Event>, last: Event)
    requires SaidOver(cfg, s.t, ev) && M.GoesOn(cfg, Step(cfg, s, ev), during)
    requires var t := After(cfg, Step(cfg, s, ev), during).t;
      M.EndsTurn(t, last) && !HangsUpAfterTurn(t) && t.sh.playingSince - cfg.ackMargin <= ev.tr.at
    ensures var t := After(cfg, Step(cfg, s, ev), during).t;
      var t' := Next(cfg, t, last);
      var h := t'.mem.history;
      && t'.lp.curGen == s.t.lp.curGen + 1
      && h != [] && h[|h| - 1].role == User && M.IsIn(ev.tr.text, h[|h| - 1].content)
  {
    hide Next, NextEnv, After, M.GoesOn, M.EndsTurn, M.Remembers, M.SaidOver, M.Spaced, M.AllTexts, M.IsIn;
    hide TurnRule, PauseRule, ClockRule, EndRule;
    var s1 := Step(cfg, s, ev);
    EventsKeepTheRules(cfg, s.t, ev);
    SpeechIsHeld(cfg, s.t, ev);
    HeldStays(cfg, s1, during);
    var t := After(cfg, s1, during).t;
    var n := |s.t.lp.held|;
    assert t.lp.held[n] == Held(ev.tr.text, s.t.lp.curGen, ev.tr.at);
    SaidOverHas(t.lp.held, n, t.lp.curGen, t.sh.playingSince - cfg.ackMargin);
    var said := M.SaidAtEnd(cfg, t);
    var i :| 0 <= i < |said| && said[i] == ev.tr.text;
    SpacedHas(said, i);
    M.FinishedReplyIsRemembered(cfg, t, last);
  }

  lemma SpeechIsHeld(cfg: Config, t: Turn, ev: Event)
    requires SaidOver(cfg, t, ev) && Rules(cfg, t, ev, Next(cfg, t, ev))
    ensures var t' := Next(cfg, t, ev);
      t'.lp.held == t.lp.held + [Held(ev.tr.text, t.lp.curGen, ev.tr.at)] && t'.lp.curGen == t.lp.curGen
  {
    hide Next, StartsClean, M.SaidAtEnd;
  }

  // ---- what the LLM turn reported ---------------------------------------------------------------------

  /** No event reports on reply gen. */
  predicate NoReport(evs: seq<Event>, gen: nat) {
    forall i :: 0 <= i < |evs| && evs[i].LlmDone? ==> evs[i].gen != gen
  }

  lemma GoingOnKeepsReport(cfg: Config, t: Turn, ev: Event)
    requires !M.EndsTurn(t, ev) && !ev.DrainTimeout? && Next(cfg, t, ev).lp.curGen == t.lp.curGen
    requires ev.LlmDone? ==> ev.gen != t.lp.curGen
    ensures var t' := Next(cfg, t, ev);
      t'.mem.toolMsgs == t.mem.toolMsgs && t'.mem.history == t.mem.history
      && t'.lp.hangupAfterTurn == t.lp.hangupAfterTurn
  {
    hide FinishTurn, Recorded, Queued, Tail, Tick, HandleTranscript, NoteSentence;
    match ev {
      case Ticked(now, bargeIn, toolRunning) =>
        M.TickKeepsMemory(t, now, bargeIn, toolRunning);
        TickChanges(t, now, bargeIn, toolRunning);
      case Transcribed(tr, opens) =>
        M.TranscriptKeepsChunks(cfg, t, tr, opens);
        TranscriptKeepsEnding(cfg, t, tr, opens);
      case _ =>
    }
  }

  lemma TranscriptKeepsEnding(cfg: Config, t: Turn, tr: Transcript, opens: bool)
    requires HandleTranscript(cfg, t, tr, opens).lp.curGen == t.lp.curGen
    ensures HandleTranscript(cfg, t, tr, opens).lp.hangupAfterTurn == t.lp.hangupAfterTurn
  {
    hide StartTurn, CutReply;
    TurnStarted(t.(mem := AddUser(t.mem, tr.text)), opens);
    if Confirms(cfg, t, tr) {
      var u := ConfirmInterruption(t);
      InterruptionCuts(t);
      TurnStarted(u.(mem := AddUser(u.mem, tr.text)), opens);
    }
  }

  lemma {:induction false} ReportStays(cfg: Config, s: Sys, evs: seq<Event>)
    requires M.GoesOn(cfg, s, evs) && NoReport(evs, s.t.lp.curGen)
    ensures var t' := After(cfg, s, evs).t;
      t'.mem.toolMsgs == s.t.mem.toolMsgs && t'.mem.history == s.t.mem.history
      && t'.lp.hangupAfterTurn == s.t.lp.hangupAfterTurn
    decreases |evs|
  {
    hide Next, NextEnv, M.EndsTurn;
    if evs != [] {
      GoingOnKeepsReport(cfg, s.t, evs[0]);
      assert NoReport(evs[1..], s.t.lp.curGen);
      ReportStays(cfg, Step(cfg, s, evs[0]), evs[1..]);
    }
  }

  /** Over a call: when the reply ends its tool calls and results are next in the history, as the LLM turn
      last reported them; and it ends the call if a tool asked for that. */
  lemma ReportIsKept(cfg: Config, s: Sys, msgs: seq<Message>, endCall: bool, during: seq<Event>, last: Event)
    requires var s1 := Step(cfg, s, LlmDone(s.t.lp.curGen, msgs, endCall));
      M.GoesOn(cfg, s1, during) && NoReport(during, s.t.lp.curGen) && M.EndsTurn(After(cfg, s1, during).t, last)
    ensures var s2 := After(cfg, Step(cfg, s, LlmDone(s.t.lp.curGen, msgs, endCall)), during);
      var t' := Next(cfg, s2.t, last);
      && s.t.mem.history + msgs <= t'.mem.history
      && t'.lp.hungUp == (s2.t.lp.hungUp || endCall || s2.t.lp.ending)
  {
    hide NextEnv, After, M.GoesOn, M.EndsTurn, M.SaidAtEnd, M.Spaced, M.AllTexts, M.Remembers;
    var s1 := Step(cfg, s, LlmDone(s.t.lp.curGen, msgs, endCall));
    assert s1.t == s.t.(mem := s.t.mem.(toolMsgs := msgs), lp := s.t.lp.(hangupAfterTurn := endCall));
    hide Next;
    ReportStays(cfg, s1, during);
    var t := After(cfg, s1, during).t;
    M.FinishedReplyIsRemembered(cfg, t, last);
    var h := Next(cfg, t, last).mem.history;
    if !HangsUpAfterTurn(t) && M.SaidAtEnd(cfg, t) != [] {
      ToolsComeFirst(t.mem.history, h[..|h| - 1], msgs, M.AllTexts(t.mem.chunks));
      assert h[..|h| - 1] <= h;
    } else {
      ToolsComeFirst(t.mem.history, h, msgs, M.AllTexts(t.mem.chunks));
    }
  }

  lemma ToolsComeFirst(before: seq<Message>, after: seq<Message>, tools: seq<Message>, text: Text)
    requires M.Remembers(before, after, tools, text)
    ensures before + tools <= after
  {
    hide Bare;
    if Bare(text) != [] {
      assert after[..|after| - 1] <= after;
    }
  }

  // ---- timers -----------------------------------------------------------------------------------------

  /** How often the silence clock was moved. */
  ghost function Moves(cfg: Config, s: Sys, evs: seq<Event>): nat
    decreases |evs|
  {
    if evs == [] then 0
    else (if MovesClock(cfg, s.t, evs[0]) then 1 else 0) + Moves(cfg, Step(cfg, s, evs[0]), evs[1..])
  }

  lemma {:induction false} ClockCounts(cfg: Config, s: Sys, evs: seq<Event>)
    ensures After(cfg, s, evs).t.lp.idleSeq == s.t.lp.idleSeq + Moves(cfg, s, evs)
    decreases |evs|
  {
    hide Next, NextEnv, TurnRule, PauseRule, EndRule, HeldRule, MovesClock;
    if evs != [] {
      EventsKeepTheRules(cfg, s.t, evs[0]);
      ClockCounts(cfg, Step(cfg, s, evs[0]), evs[1..]);
    }
  }

  /** Over a call: the timer set now, when it fires, prompts the caller exactly if since then no turn was
      started or finished, the caller did not speak and the call was not told to end; nobody is speaking;
      and the call is not ending. Else it changes nothing. */
  lemma TimerPromptsExactly(cfg: Config, s: Sys, evs: seq<Event>, prompt: Text, second: bool, opens: bool)
    ensures var t := After(cfg, s, evs).t;
      var ev := Idle(s.t.lp.idleSeq, prompt, second, opens);
      if Moves(cfg, s, evs) == 0 && t.sh.state == Listening && !t.lp.ending then
        && Next(cfg, t, ev).mem.history == t.mem.history + [Said(User, prompt)]
        && Next(cfg, t, ev).lp.curGen == t.lp.curGen + 1
        && Next(cfg, t, ev).lp.ending == second
      else Next(cfg, t, ev) == t
  {
    hide After, Moves;
    ClockCounts(cfg, s, evs);
  }

  /** A check that acted, or was put off, does nothing any more. */
  lemma ChecksAreSpent(t: Turn, check: nat, quiet: bool, again: bool)
    ensures var t' := HandleResumeCheck(t, check, quiet); HandleResumeCheck(t', check, again) == t'
  {
  }

  // ---- since when the sentence plays ------------------------------------------------------------------

  /** The sentence of the newest frame heard, and when its first was. */
  datatype Playing = Playing(gen: nat, req: nat, since: int)

  function NextPlaying(p: Playing, t: Turn, ev: Event): Playing {
    match Hears(t, ev)
    case Fresh(f) => if f.gen == p.gen && f.req == p.req then p else Playing(f.gen, f.req, ev.now)
    case _ => p
  }

  ghost function PlayingAfter(cfg: Config, s: Sys, p: Playing, evs: seq<Event>): Playing
    decreases |evs|
  {
    if evs == [] then p else PlayingAfter(cfg, Step(cfg, s, evs[0]), NextPlaying(p, s.t, evs[0]), evs[1..])
  }

  ghost predicate Knows(t: Turn, p: Playing) {
    t.pl.sentGen == p.gen && t.pl.sentReq == p.req && t.sh.playingSince == p.since
  }

  lemma TickKnows(t: Turn, p: Playing, ev: Event)
    requires ev.Ticked? && Knows(t, p)
    ensures Knows(Tick(t, ev.now, ev.bargeIn, ev.toolRunning).0, NextPlaying(p, t, ev))
  {
  }

  lemma FinishKnows(cfg: Config, t: Turn, opens: bool)
    ensures var t' := FinishTurn(cfg, t, t.lp.curGen, opens);
      t'.pl == t.pl && t'.sh.playingSince == t.sh.playingSince
  {
    hide Recorded, SettleHeld, FinishTurn;
    F.FinishEnds(cfg, t, t.lp.curGen, opens);
    SettleKnows(cfg, F.Ended(t), t.lp.curGen, opens);
  }

  lemma SettleKnows(cfg: Config, t: Turn, gen: nat, opens: bool)
    ensures var t' := SettleHeld(cfg, t, gen, opens); t'.pl == t.pl && t'.sh.playingSince == t.sh.playingSince
  {
    hide Answer, JoinWords;
  }

  lemma TurnEndsKnow(cfg: Config, t: Turn, ev: Event)
    requires ev.PlaybackDone? || ev.TtsDone? || ev.TtsClosed?
    ensures var t' := Next(cfg, t, ev); t'.pl == t.pl && t'.sh.playingSince == t.sh.playingSince
  {
    hide FinishTurn;
    match ev {
      case PlaybackDone(opens) => FinishKnows(cfg, t.(sh := t.sh.(playbackSig := false)), opens);
      case TtsDone(_, opens) => FinishKnows(cfg, t, opens);
      case TtsClosed(_, opens) => FinishKnows(cfg, t.(lp := t.lp.(ttsOpen := false)), opens);
    }
  }

  lemma OthersKnow(cfg: Config, t: Turn, ev: Event)
    requires !ev.Ticked?
    ensures var t' := Next(cfg, t, ev); t'.pl == t.pl && t'.sh.playingSince == t.sh.playingSince
  {
    hide FinishTurn, HandleTranscript, Recorded, Queued, Tail, NoteSentence;
    if ev.PlaybackDone? || ev.TtsDone? || ev.TtsClosed? {
      TurnEndsKnow(cfg, t, ev);
    } else if ev.Transcribed? {
      TranscriptKnows(cfg, t, ev.tr, ev.opens);
    }
  }

  lemma TranscriptKnows(cfg: Config, t: Turn, tr: Transcript, opens: bool)
    ensures var t' := HandleTranscript(cfg, t, tr, opens); t'.pl == t.pl && t'.sh.playingSince == t.sh.playingSince
  {
    hide Recorded;
  }

  lemma {:induction false} RunKnows(cfg: Config, s: Sys, p: Playing, evs: seq<Event>)
    requires Knows(s.t, p)
    ensures Knows(After(cfg, s, evs).t, PlayingAfter(cfg, s, p, evs))
    decreases |evs|
  {
    hide NextEnv, NextPlaying, Tick, FinishTurn;
    if evs != [] {
      if evs[0].Ticked? {
        TickKnows(s.t, p, evs[0]);
      } else {
        OthersKnow(cfg, s.t, evs[0]);
        HearsNothing(s.t, p, evs[0]);
      }
      hide Next;
      RunKnows(cfg, Step(cfg, s, evs[0]), NextPlaying(p, s.t, evs[0]), evs[1..]);
    }
  }

  lemma HearsNothing(t: Turn, p: Playing, ev: Event)
    requires !ev.Ticked?
    ensures NextPlaying(p, t, ev) == p
  {
  }

  /** Over every run, whatever overtakes what: the time held speech is compared with is when the first frame
      was heard of the sentence heard last, however often it was repeated since. */
  lemma SinceTheSentenceBegan(cfg: Config, evs: seq<Event>)
    ensures After(cfg, INIT_SYS, evs).t.sh.playingSince
      == PlayingAfter(cfg, INIT_SYS, Playing(0, 0, 0), evs).since
  {
    RunKnows(cfg, INIT_SYS, Playing(0, 0, 0), evs);
  }
}
