/** What the guard of the safety theorem is for, and that a delivered reply always ends. */
module TurnHazards {
  import opened Runes
  import opened Messages
  import opened TurnSpec
  import opened TurnSafety

  // ---- a delivered reply ends ---------------------------------------------------

  /** The frames still to be repeated. */
  function ToRepeat(t: Turn): nat {
    if t.sh.replayPending then (if PendingReplay(t) then |t.pl.sentFrames| else 0)
    else if ActiveReplay(t) then |t.pl.sentFrames| - t.pl.replayIdx else 0
  }

  function ToPlay(t: Turn): nat {
    ToRepeat(t) + |t.sh.outbound|
  }

  /** Delivered, and not interrupted. */
  ghost predicate Ending(t: Turn) {
    t.sh.state == Speaking && !t.sh.paused && t.sh.deliveryDone
  }

  function QuietTicks(t: Turn, now: int, n: nat): Turn
    decreases n
  {
    if n == 0 then t else QuietTicks(Tick(t, now, false, false).0, now, n - 1)
  }

  /** Taking up a replay leaves as much to play. */
  lemma TakenUp(t: Turn)
    ensures var u := TakeReplay(t);
      !u.sh.replayPending && ToPlay(u) == ToPlay(t) && u.lp == t.lp && u.pl.emptyTicks == t.pl.emptyTicks
      && u.sh == t.sh.(replayPending := false)
  {
  }

  /** A frame is played while there is one. */
  lemma PlaysOne(t: Turn, now: int)
    requires !t.sh.replayPending
    ensures var (t', played) := Play(t, now, false);
      && t'.lp == t.lp && (played.Silence? <==> ToPlay(t) == 0)
      && ToPlay(t') == (if ToPlay(t) == 0 then 0 else ToPlay(t) - 1)
      && t'.pl.emptyTicks == (if ToPlay(t) == 0 then Drained(t, false).pl.emptyTicks else 0)
      && (if ToPlay(t) == 0 then t'.sh == Drained(t, false).sh
          else t'.sh == t.sh.(outbound := t'.sh.outbound, playingReq := t'.sh.playingReq,
                              playingSince := t'.sh.playingSince))
  {
  }

  lemma QuietTick(t: Turn, now: int)
    requires Ending(t)
    ensures var (t', played) := Tick(t, now, false, false);
      if ToPlay(t) == 0 then t'.sh.playbackSig && !t'.sh.deliveryDone
      else Ending(t') && ToPlay(t') == ToPlay(t) - 1 && !played.Silence?
  {
    hide TakeReplay, Play, ToPlay;
    TakenUp(t);
    PlaysOne(TakeReplay(t), now);
  }

  /** Everything left is played, a frame a tick, and the next tick reports the reply played. */
  lemma {:induction false} DeliveredReplyEnds(t: Turn, now: int)
    requires Ending(t)
    ensures QuietTicks(t, now, ToPlay(t) + 1).sh.playbackSig
    ensures forall k :: 0 <= k <= ToPlay(t) ==>
        Ending(QuietTicks(t, now, k)) && ToPlay(QuietTicks(t, now, k)) == ToPlay(t) - k
    decreases ToPlay(t)
  {
    hide Tick, ToPlay;
    QuietTick(t, now);
    var t' := Tick(t, now, false, false).0;
    if ToPlay(t) > 0 {
      DeliveredReplyEnds(t', now);
      forall k | 0 <= k <= ToPlay(t)
        ensures Ending(QuietTicks(t, now, k)) && ToPlay(QuietTicks(t, now, k)) == ToPlay(t) - k
      {
        if k > 0 {
          assert QuietTicks(t, now, k) == QuietTicks(t', now, k - 1);
        }
      }
    } else {
      assert QuietTicks(t, now, 1) == QuietTicks(t', now, 0);
    }
  }

  // ---- an ending call's reply is its last ----------------------------------------------

  /** The call is ending, with its reply being prepared or spoken. */
  ghost predicate Closing(t: Turn) {
    t.lp.ending && t.sh.closing && (t.sh.state == Thinking || t.sh.state == Speaking)
  }

  /** Its end: the call hung up, or the reply given up on, which hangs up when handled. */
  ghost predicate Hanging(t: Turn) {
    t.sh.state == Listening && (t.lp.hungUp || (t.sh.drainSig && HandleDrainTimeout(t).lp.hungUp))
  }

  /** What is kept by a step of an ending call: its reply, until it ends with the call. */
  ghost predicate EndsWithTheCall(t: Turn, t': Turn) {
    t'.lp.curGen == t.lp.curGen && (Closing(t') || Hanging(t'))
  }

  lemma EndingTick(cfg: Config, s: Sys, ev: Event)
    requires Safe(s) && ev.Ticked? && Closing(s.t)
    ensures EndsWithTheCall(s.t, Next(cfg, s.t, ev))
  {
    hide Recorded;
  }

  lemma EndingAudio(cfg: Config, s: Sys, ev: Event)
    requires ev.TtsAudio? && Closing(s.t)
    ensures EndsWithTheCall(s.t, Next(cfg, s.t, ev))
  {
    hide Queued, Tail, NoteSentence;
  }

  lemma EndingTurn(cfg: Config, s: Sys, ev: Event)
    requires (ev.TtsDone? || ev.TtsClosed? || ev.PlaybackDone?) && Closing(s.t)
    ensures EndsWithTheCall(s.t, Next(cfg, s.t, ev))
  {
    hide Recorded, FinishTurn;
    match ev {
      case TtsDone(gen, opens) => EndingTurnHangsUp(cfg, s.t, gen, opens);
      case TtsClosed(_, opens) => EndingTurnHangsUp(cfg, s.t.(lp := s.t.lp.(ttsOpen := false)), s.t.lp.curGen, opens);
      case PlaybackDone(opens) => EndingTurnHangsUp(cfg, s.t.(sh := s.t.sh.(playbackSig := false)), s.t.lp.curGen,
          opens);
    }
  }

  lemma EndingTranscript(cfg: Config, s: Sys, ev: Event)
    requires Safe(s) && ev.Transcribed? && Closing(s.t)
    ensures EndsWithTheCall(s.t, Next(cfg, s.t, ev))
  {
    hide ConfirmInterruption, AcceptUserTurn, HandleDrainTimeout;
  }

  lemma EndingOther(cfg: Config, s: Sys, ev: Event)
    requires Safe(s) && Enabled(s, ev) && Closing(s.t)
    requires !ev.Ticked? && !ev.TtsAudio? && !ev.TtsDone? && !ev.TtsClosed? && !ev.PlaybackDone? && !ev.Transcribed?
    ensures EndsWithTheCall(s.t, Next(cfg, s.t, ev))
  {
    hide Recorded, AcceptUserTurn;
  }

  /** Once the call is ending nothing cuts its reply or starts another: it goes on, or it has ended
      with the call hung up, or with its drain timeout raised, which hangs up when handled. */
  lemma EndingReplyIsTheLast(cfg: Config, s: Sys, ev: Event)
    requires Safe(s) && Enabled(s, ev) && Closing(s.t)
    ensures EndsWithTheCall(s.t, Step(cfg, s, ev).t)
  {
    hide EndsWithTheCall, Next, Safe, Closing;
    if ev.Ticked? {
      EndingTick(cfg, s, ev);
    } else if ev.TtsAudio? {
      EndingAudio(cfg, s, ev);
    } else if ev.Transcribed? {
      EndingTranscript(cfg, s, ev);
    } else if ev.TtsDone? || ev.TtsClosed? || ev.PlaybackDone? {
      EndingTurn(cfg, s, ev);
    } else {
      EndingOther(cfg, s, ev);
    }
  }

  /** Along a run: reply gen of the ending call goes on, up to the end of the run or of the call. */
  ghost predicate LastReply(cfg: Config, s: Sys, evs: seq<Event>, gen: nat)
    decreases |evs|
  {
    && s.t.lp.curGen == gen
    && (Hanging(s.t) || (Closing(s.t) && (evs != [] ==> LastReply(cfg, Step(cfg, s, evs[0]), evs[1..], gen))))
  }

  /** Over every run: the reply of an ending call is its last, and ends with the call. */
  lemma {:induction false} EndingReplyEndsTheCall(cfg: Config, s: Sys, evs: seq<Event>)
    requires Safe(s) && Run(cfg, s, evs) && Closing(s.t)
    ensures LastReply(cfg, s, evs, s.t.lp.curGen)
    decreases |evs|
  {
    hide Safe, Step, Enabled, Overtakes, Closing, Hanging;
    if evs != [] {
      var s' := Step(cfg, s, evs[0]);
      EndingReplyIsTheLast(cfg, s, evs[0]);
      SafeExactlyUnlessOvertaken(cfg, s, evs[0]);
      if !Hanging(s'.t) {
        EndingReplyEndsTheCall(cfg, s', evs[1..]);
      }
    }
  }

  // ---- and it does end ------------------------------------------------------------------------

  /** The reply was played, or given up on. */
  ghost predicate Reported(t: Turn) {
    (t.sh.state == Speaking && t.sh.playbackSig) || (t.sh.state == Listening && t.sh.drainSig)
  }

  lemma QuietStep(t: Turn, now: int)
    requires t.sh.state == Speaking && !t.sh.paused
    ensures var t' := Tick(t, now, false, false).0;
      && t'.lp == t.lp
      && (Reported(t')
          || (t'.sh.state == Speaking && !t'.sh.paused
              && if ToPlay(t) > 0 then ToPlay(t') == ToPlay(t) - 1 && t'.pl.emptyTicks == 0
                 else ToPlay(t') == 0 && t'.pl.emptyTicks == t.pl.emptyTicks + 1 < DRAIN_TIMEOUT_TICKS))
  {
    hide TakeReplay, Play, ToPlay;
    TakenUp(t);
    PlaysOne(TakeReplay(t), now);
  }

  lemma {:induction false} QuietReplyEnds(t: Turn, now: int) returns (n: nat)
    requires t.sh.state == Speaking && !t.sh.paused
    ensures n <= ToPlay(t) + DRAIN_TIMEOUT_TICKS
    ensures ToPlay(t) == 0 ==> n <= DRAIN_TIMEOUT_TICKS - t.pl.emptyTicks || n <= 1
    ensures Reported(QuietTicks(t, now, n)) && QuietTicks(t, now, n).lp == t.lp
    decreases ToPlay(t), DRAIN_TIMEOUT_TICKS - t.pl.emptyTicks
  {
    hide Tick, ToPlay, Reported;
    var t' := Tick(t, now, false, false).0;
    QuietStep(t, now);
    if Reported(t') {
      n := 1;
      assert QuietTicks(t, now, 1) == QuietTicks(t', now, 0);
    } else {
      n := QuietReplyEnds(t', now);
      n := n + 1;
    }
  }

  /** A call that is ending, its reply not paused: so many quiet ticks at most, and the signal they raise
      hangs up when handled -- whether or not the TTS ever delivers the rest. */
  lemma EndingCallHangsUp(cfg: Config, t: Turn, now: int, opens: bool) returns (n: nat)
    requires Closing(t) && t.sh.state == Speaking && !t.sh.paused
    ensures n <= ToPlay(t) + DRAIN_TIMEOUT_TICKS
    ensures var t' := QuietTicks(t, now, n);
      && Reported(t')
      && (t'.sh.state == Speaking ==> HandlePlaybackDone(cfg, t', opens).lp.hungUp)
      && (t'.sh.state == Listening ==> HandleDrainTimeout(t').lp.hungUp)
  {
    hide QuietTicks, ToPlay, FinishTurn, Recorded;
    n := QuietReplyEnds(t, now);
    var t' := QuietTicks(t, now, n);
    if t'.sh.state == Speaking {
      EndingTurnHangsUp(cfg, t'.(sh := t'.sh.(playbackSig := false)), t'.lp.curGen, opens);
    }
  }

  lemma EndingTurnHangsUp(cfg: Config, t: Turn, gen: nat, opens: bool)
    requires t.lp.ending && (t.sh.state == Thinking || t.sh.state == Speaking)
    ensures var t' := FinishTurn(cfg, t, gen, opens);
      t'.lp.curGen == t.lp.curGen && t'.lp.hungUp && t'.sh.state == Listening
  {
    hide Recorded, SettleHeld;
  }

  // ---- what overtaking does --------------------------------------------------------

  /** An interruption confirmed during a replay: the first tick of the next reply plays on with
      the sentence that was cut. */
  lemma CutSentenceIsHeardAgain(cfg: Config, s: Sys, tr: Transcript, pcm: Pcm, req: nat, text: Text, now: int)
    requires Safe(s) && Confirms(cfg, s.t, tr) && Replays(s.t) && (s.t.sh.replayPending ==> PendingReplay(s.t))
        && req > 0
    ensures var s1 := Step(cfg, s, Transcribed(tr, true));
      var audio := TtsAudio(pcm, s1.t.lp.curGen, req, text);
      var s2 := Step(cfg, s1, audio);
      var heard := Hears(s2.t, Ticked(now, false, false));
      Enabled(s1, audio) && heard.Again? && heard.gen == s.t.lp.curGen < s2.t.lp.curGen
  {
    hide Recorded, Queued, Tail, NoteSentence;
    var s1 := Step(cfg, s, Transcribed(tr, true));
    assert s1.t.pl == s.t.pl && s1.t.sh.state == Thinking && s1.t.lp.curGen > s.t.lp.curGen;
    assert s1.t.lp.firstAudioGen < s1.t.lp.curGen && s1.env.audioOpen;
  }

  /** The connection lost between a reply's last frame and its end being handled: the next reply is
      declared played at its first empty tick, with its Done still to come. */
  lemma NextReplyEndsEarly(cfg: Config, s: Sys, tr: Transcript, pcm: Pcm, req: nat, text: Text, now: int)
    requires Safe(s) && s.t.sh.playbackSig && s.t.lp.ttsOpen && s.t.lp.held == []
    requires !s.t.lp.hangupAfterTurn && !s.t.lp.ending && !tr.postCut && |pcm| < FRAME_SIZE && req > 0
    ensures var s1 := Step(cfg, s, TtsClosed(s.t.lp.ttsConn, true));
      var s2 := Step(cfg, s1, PlaybackDone(true));
      var s3 := Step(cfg, s2, Transcribed(tr, true));
      var s4 := Step(cfg, s3, TtsAudio(pcm, s3.t.lp.curGen, req, text));
      var s5 := Step(cfg, s4, Ticked(now, false, false));
      s3.t.lp.curGen == s.t.lp.curGen + 1 && s5.t.lp.curGen == s3.t.lp.curGen
      && s3.env.audioOpen && s5.t.sh.playbackSig && s5.env.doneOpen && s5.env.audioOpen
  {
    hide Recorded, NoteSentence;
    var s2 := PlayedOut(cfg, s);
    ThenAnswered(cfg, s2, tr, pcm, req, text, now);
  }

  lemma PlayedOut(cfg: Config, s: Sys) returns (s2: Sys)
    requires Safe(s) && s.t.sh.playbackSig && s.t.lp.ttsOpen && s.t.lp.held == []
    requires !s.t.lp.hangupAfterTurn && !s.t.lp.ending
    ensures s2 == Step(cfg, Step(cfg, s, TtsClosed(s.t.lp.ttsConn, true)), PlaybackDone(true))
    ensures s2.t.sh == s.t.sh.(state := Listening, deliveryDone := true, playbackSig := false)
    ensures s2.t.pl == s.t.pl && s2.t.lp == s.t.lp.(ttsOpen := false, ttsBuf := [], idleSeq := s.t.lp.idleSeq + 1)
  {
    hide Recorded;
    s2 := Step(cfg, Step(cfg, s, TtsClosed(s.t.lp.ttsConn, true)), PlaybackDone(true));
  }

  lemma ThenAnswered(cfg: Config, s: Sys, tr: Transcript, pcm: Pcm, req: nat, text: Text, now: int)
    requires s.t.sh.state == Listening && s.t.sh.deliveryDone && !s.t.sh.paused && s.t.sh.outbound == []
        && !Replays(s.t)
    requires s.t.lp.ttsBuf == [] && s.t.lp.firstAudioGen <= s.t.lp.curGen
    requires !tr.postCut && |pcm| < FRAME_SIZE && req > 0
    ensures var s3 := Step(cfg, s, Transcribed(tr, true));
      var s4 := Step(cfg, s3, TtsAudio(pcm, s3.t.lp.curGen, req, text));
      var s5 := Step(cfg, s4, Ticked(now, false, false));
      s3.t.lp.curGen == s.t.lp.curGen + 1 && s5.t.lp.curGen == s3.t.lp.curGen
      && s3.env.audioOpen && s5.t.sh.playbackSig && s5.env.doneOpen && s5.env.audioOpen
  {
    hide Recorded, NoteSentence;
    assert [] + pcm == pcm;
    assert Frames(pcm) == [];
    var s3 := Step(cfg, s, Transcribed(tr, true));
    assert s3.t.sh.state == Thinking && s3.t.lp.ttsBuf == [] && s3.env == Env(true, true, false);
    var s4 := Step(cfg, s3, TtsAudio(pcm, s3.t.lp.curGen, req, text));
    assert s4.t.sh.state == Speaking && s4.t.sh.outbound == [] && s4.env == s3.env;
  }

  // ---- calls in which it happens ---------------------------------------------------

  /** Any events that can come, overtaking ones included. */
  ghost predicate Possible(cfg: Config, s: Sys, evs: seq<Event>)
    decreases |evs|
  {
    evs != [] ==> Enabled(s, evs[0]) && Possible(cfg, Step(cfg, s, evs[0]), evs[1..])
  }

  lemma {:induction false} ThenComes(cfg: Config, s: Sys, evs: seq<Event>, ev: Event)
    requires Possible(cfg, s, evs) && Enabled(After(cfg, s, evs), ev)
    ensures Possible(cfg, s, evs + [ev]) && After(cfg, s, evs + [ev]) == Step(cfg, After(cfg, s, evs), ev)
    decreases |evs|
  {
    hide Enabled, Step;
    if evs == [] {
      assert [ev][1..] == [];
    } else {
      assert (evs + [ev])[1..] == evs[1..] + [ev];
      ThenComes(cfg, Step(cfg, s, evs[0]), evs[1..], ev);
    }
  }

  /** One frame of sound. */
  const FRAME: Pcm := seq(FRAME_SIZE, i => 0)

  const WORD: Text := [Rune(0x61, false, true, false, false)]

  /** The reply being spoken: its only frame queued. */
  lemma FirstFrame(cfg: Config) returns (evs: seq<Event>)
    ensures evs == [Opening(true), TtsAudio(FRAME, 1, 1, WORD)]
    ensures Possible(cfg, INIT_SYS, evs)
    ensures var s := After(cfg, INIT_SYS, evs);
      && s.t.sh == INIT.sh.(state := Speaking, outbound := [OutFrame(FRAME, 1, 1)]) && s.t.pl == INIT.pl
      && s.t.lp == INIT.lp.(curGen := 1, ttsOpen := true, ttsConn := 1, firstAudioGen := 1, idleSeq := 1)
      && s.env == Env(true, true, false) && s.t.mem == Memory([Spoken(1, WORD)], [], [])
  {
    var s1 := Step(cfg, INIT_SYS, Opening(true));
    OneFrameQueued(s1.t);
    ThenComes(cfg, INIT_SYS, [], Opening(true));
    ThenComes(cfg, INIT_SYS, [Opening(true)], TtsAudio(FRAME, 1, 1, WORD));
    assert [] + [Opening(true)] == [Opening(true)];
    evs := [Opening(true)] + [TtsAudio(FRAME, 1, 1, WORD)];
  }

  lemma OneFrameQueued(t: Turn)
    requires t.lp.ttsBuf == [] && t.sh.outbound == []
    ensures Queued(t, FRAME, 1) == [OutFrame(FRAME, 1, t.lp.curGen)] && Tail(t.lp.ttsBuf + FRAME) == []
  {
    assert t.lp.ttsBuf + FRAME == FRAME && FRAME[..FRAME_SIZE] == FRAME && FRAME[FRAME_SIZE..] == [];
    assert Frames(FRAME) == [FRAME] + Frames([]);
    assert Frames(FRAME)[..1] == [FRAME];
  }

  const PLAY := Ticked(0, false, false)
  const CUT_IN := Ticked(0, true, false)

  /** The frame is heard, the caller cuts in, falls quiet, and cuts in again before the replay has
      begun. */
  lemma ReplayIsInterrupted(cfg: Config) returns (evs: seq<Event>)
    ensures evs == [Opening(true), TtsAudio(FRAME, 1, 1, WORD), PLAY, CUT_IN, BargeIn, ResumeCheck(1, true), CUT_IN]
    ensures Possible(cfg, INIT_SYS, evs)
    ensures var t := After(cfg, INIT_SYS, evs).t;
      t.sh.paused && !t.sh.closing && t.lp.curGen == 1 && PendingReplay(t) && Safe(After(cfg, INIT_SYS, evs))
  {
    hide Safe;
    evs := FirstFrame(cfg);
    hide Possible, After;
    ThenComes(cfg, INIT_SYS, evs, PLAY);
    var e3 := evs + [PLAY];
    assert After(cfg, INIT_SYS, e3).t.pl.sentFrames == [FRAME];
    ThenComes(cfg, INIT_SYS, e3, CUT_IN);
    var e4 := e3 + [CUT_IN];
    ThenComes(cfg, INIT_SYS, e4, BargeIn);
    var e5 := e4 + [BargeIn];
    ThenComes(cfg, INIT_SYS, e5, ResumeCheck(1, true));
    var e6 := e5 + [ResumeCheck(1, true)];
    ThenComes(cfg, INIT_SYS, e6, CUT_IN);
    evs := e6 + [CUT_IN];
    InterruptedIsSafe(cfg, After(cfg, INIT_SYS, evs));
  }

  lemma InterruptedIsSafe(cfg: Config, s: Sys)
    requires s.t.sh == INIT.sh.(state := Speaking, bargeSig := true, paused := true, replayPending := true,
                                replayGen := 1, playingReq := 1, playingSince := 0)
    requires s.t.pl == Player(1, 1, [FRAME], false, 0, 0)
    requires s.t.lp == INIT.lp.(curGen := 1, ttsOpen := true, ttsConn := 1, firstAudioGen := 1, idleSeq := 1,
        resumeSeq := 2)
    requires s.env == Env(true, true, false)
    ensures Safe(s)
  {
  }

  /** A caller who cuts in, and says it: a clear interruption under every configuration. */
  const STOP := Transcript(WORD, 0, false, false, false, true)

  /** A call in which the caller hears the cut reply again, in the next one. */
  lemma CutSentenceCall(cfg: Config) returns (evs: seq<Event>)
    ensures Possible(cfg, INIT_SYS, evs)
    ensures var t := After(cfg, INIT_SYS, evs).t;
      Hears(t, PLAY).Again? && Hears(t, PLAY).gen < t.lp.curGen
  {
    hide Step, Safe, Possible, Hears, PendingReplay;
    var cut := ReplayIsInterrupted(cfg);
    var s := After(cfg, INIT_SYS, cut);
    CutSentenceIsHeardAgain(cfg, s, STOP, FRAME, 2, WORD, 0);
    var s1 := Step(cfg, s, Transcribed(STOP, true));
    ThenComes(cfg, INIT_SYS, cut, Transcribed(STOP, true));
    var next := TtsAudio(FRAME, s1.t.lp.curGen, 2, WORD);
    ThenComes(cfg, INIT_SYS, cut + [Transcribed(STOP, true)], next);
    evs := cut + [Transcribed(STOP, true)] + [next];
  }

  /** The frame is heard after the reply's Done, and the next tick reports the reply played. */
  lemma ReplyIsPlayed(cfg: Config) returns (evs: seq<Event>)
    ensures evs == [Opening(true), TtsAudio(FRAME, 1, 1, WORD), TtsDone(1, true), PLAY, PLAY]
    ensures Possible(cfg, INIT_SYS, evs)
    ensures var s := After(cfg, INIT_SYS, evs);
      && Safe(s) && s.t.sh.state == Speaking && s.t.sh.playbackSig && s.t.lp.held == [] && !s.t.lp.hangupAfterTurn
          && !s.t.lp.ending
      && s.t.lp == INIT.lp.(curGen := 1, ttsOpen := true, ttsConn := 1, firstAudioGen := 1, idleSeq := 1)
  {
    hide Safe;
    evs := FirstFrame(cfg);
    ThenComes(cfg, INIT_SYS, evs, TtsDone(1, true));
    var e3 := evs + [TtsDone(1, true)];
    ThenComes(cfg, INIT_SYS, e3, PLAY);
    var e4 := e3 + [PLAY];
    ThenComes(cfg, INIT_SYS, e4, PLAY);
    evs := e4 + [PLAY];
    PlayedIsSafe(After(cfg, INIT_SYS, evs));
  }

  lemma PlayedIsSafe(s: Sys)
    requires s.t.sh == INIT.sh.(state := Speaking, playbackSig := true, playingReq := 1)
    requires s.t.pl == Player(1, 1, [FRAME], false, 0, 0)
    requires s.t.lp == INIT.lp.(curGen := 1, ttsOpen := true, ttsConn := 1, firstAudioGen := 1, idleSeq := 1)
    requires s.env == Env(false, false, false)
    ensures Safe(s)
  {
  }

  /** A call whose second reply is declared played with its audio and Done still to come. */
  lemma EarlyEndCall(cfg: Config) returns (evs: seq<Event>)
    ensures Possible(cfg, INIT_SYS, evs)
    ensures var s := After(cfg, INIT_SYS, evs);
      s.t.lp.curGen == 2 && s.t.sh.playbackSig && s.env.audioOpen && s.env.doneOpen
  {
    hide Step, Safe, Possible;
    var e0 := ReplyIsPlayed(cfg);
    var s := After(cfg, INIT_SYS, e0);
    NextReplyEndsEarly(cfg, s, STOP, [], 2, WORD, 0);
    ThenComes(cfg, INIT_SYS, e0, TtsClosed(1, true));
    var e1 := e0 + [TtsClosed(1, true)];
    PlayedStill(cfg, s);
    ThenComes(cfg, INIT_SYS, e1, PlaybackDone(true));
    var e2 := e1 + [PlaybackDone(true)];
    ThenComes(cfg, INIT_SYS, e2, Transcribed(STOP, true));
    var e3 := e2 + [Transcribed(STOP, true)];
    ThenComes(cfg, INIT_SYS, e3, TtsAudio([], 2, 2, WORD));
    var e4 := e3 + [TtsAudio([], 2, 2, WORD)];
    ThenComes(cfg, INIT_SYS, e4, PLAY);
    evs := e4 + [PLAY];
  }

  lemma PlayedStill(cfg: Config, s: Sys)
    requires s.t.sh.state == Speaking && s.t.sh.playbackSig
    ensures Step(cfg, s, TtsClosed(s.t.lp.ttsConn, true)).t.sh.playbackSig
  {
  }

  /** A call whose caller cuts in after the reply's last frame, before its end was handled: the reply is
      over, and still paused. */
  lemma PausedAfterTheEndCall(cfg: Config) returns (evs: seq<Event>)
    ensures Possible(cfg, INIT_SYS, evs)
    ensures var t := After(cfg, INIT_SYS, evs).t; t.sh.paused && t.sh.state == Listening && !t.sh.playbackSig
  {
    hide Possible, After, Safe;
    evs := ReplyIsPlayed(cfg);
    ThenComes(cfg, INIT_SYS, evs, CUT_IN);
    evs := evs + [CUT_IN];
    ThenComes(cfg, INIT_SYS, evs, PlaybackDone(true));
    evs := evs + [PlaybackDone(true)];
  }

  /** Speaking with nothing to play, its Done still to come. */
  ghost predicate Starved(t: Turn, n: nat) {
    && t.sh.state == Speaking && !t.sh.paused && !t.sh.deliveryDone && !t.sh.replayPending && t.sh.outbound == []
    && !t.pl.replaying && t.pl.emptyTicks == n
  }

  lemma StarvedTick(cfg: Config, s: Sys, n: nat)
    requires Starved(s.t, n) && n + 1 < DRAIN_TIMEOUT_TICKS
    ensures Step(cfg, s, PLAY) == s.(t := s.t.(pl := s.t.pl.(emptyTicks := n + 1)))
  {
  }

  lemma {:induction false} StarvedTicks(cfg: Config, before: seq<Event>, n: nat) returns (evs: seq<Event>)
    requires Possible(cfg, INIT_SYS, before) && Starved(After(cfg, INIT_SYS, before).t, 0)
    requires n < DRAIN_TIMEOUT_TICKS && !After(cfg, INIT_SYS, before).t.sh.drainSig
    ensures Possible(cfg, INIT_SYS, evs)
    ensures var s := After(cfg, INIT_SYS, before);
      After(cfg, INIT_SYS, evs) == s.(t := s.t.(pl := s.t.pl.(emptyTicks := n)))
    decreases n
  {
    hide Possible, After, Step;
    if n == 0 {
      evs := before;
    } else {
      evs := StarvedTicks(cfg, before, n - 1);
      StarvedTick(cfg, After(cfg, INIT_SYS, evs), n - 1);
      ThenComes(cfg, INIT_SYS, evs, PLAY);
      evs := evs + [PLAY];
    }
  }

  /** The frame is heard, and then nothing for the drain timeout. */
  lemma ReplyDies(cfg: Config) returns (evs: seq<Event>)
    ensures Possible(cfg, INIT_SYS, evs)
    ensures var t := After(cfg, INIT_SYS, evs).t;
      && t.sh.state == Listening && t.sh.drainSig && !t.sh.paused && t.sh.playingReq == 1
      && t.mem == Memory([Spoken(1, WORD)], [], []) && t.lp.curGen == 1 && t.lp.ttsOpen
  {
    hide Possible, After;
    evs := FirstFrame(cfg);
    ThenComes(cfg, INIT_SYS, evs, PLAY);
    evs := evs + [PLAY];
    evs := StarvedTicks(cfg, evs, DRAIN_TIMEOUT_TICKS - 1);
    ThenComes(cfg, INIT_SYS, evs, PLAY);
    evs := evs + [PLAY];
  }

  /** A call in which the caller speaks before the dead reply's timeout is handled: what was heard of the
      reply never reaches the history. */
  lemma HeardButForgottenCall(cfg: Config) returns (evs: seq<Event>)
    ensures Possible(cfg, INIT_SYS, evs)
    ensures var t := After(cfg, INIT_SYS, evs).t;
      t.lp.curGen == 2 && !t.sh.drainSig && t.mem == Memory([], [], [Said(User, WORD)])
  {
    hide Possible, After;
    evs := ReplyDies(cfg);
    var s := After(cfg, INIT_SYS, evs);
    ThenComes(cfg, INIT_SYS, evs, Transcribed(STOP, true));
    evs := evs + [Transcribed(STOP, true)];
    ThenComes(cfg, INIT_SYS, evs, DrainTimeout);
    evs := evs + [DrainTimeout];
  }

  /** Handled in time, it does. */
  lemma HeardIsRecorded(cfg: Config) returns (evs: seq<Event>)
    ensures Possible(cfg, INIT_SYS, evs) && After(cfg, INIT_SYS, evs).t.mem == Memory([], [], [Said(Assistant, WORD)])
  {
    hide Possible, After, HandleDrainTimeout;
    evs := ReplyDies(cfg);
    WordIsRecorded(After(cfg, INIT_SYS, evs).t);
    ThenComes(cfg, INIT_SYS, evs, DrainTimeout);
    evs := evs + [DrainTimeout];
  }

  lemma WordIsRecorded(t: Turn)
    requires t.mem == Memory([Spoken(1, WORD)], [], []) && t.sh.playingReq == 1
    ensures HandleDrainTimeout(t).mem == Memory([], [], [Said(Assistant, WORD)])
  {
    WordIsSaid();
    hide Kept, JoinSpoken, Trim;
    assert Recorded(t.mem, true, 1) == [Said(Assistant, WORD)];
  }

  lemma WordIsSaid()
    ensures Trim(JoinSpoken(Kept([Spoken(1, WORD)], 1))) == WORD
  {
    assert [Spoken(1, WORD)][1..] == [] && [Spoken(1, WORD)][..0] == [];
    assert JoinSpoken([Spoken(1, WORD)]) == [] + [] + WORD;
  }
}
