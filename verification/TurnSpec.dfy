/** The agent's turn protocol as steps on one value: a 20 ms tick of the audio thread, or one event
    of the event loop. `gen` numbers the replies; every frame and TTS event carries the number of
    the reply it belongs to. */
module TurnSpec {
  import opened Runes
  import opened Messages

  type Pcm = seq<int>

  const FRAME_SIZE := 640
  const OUTBOUND_FRAMES := 1500
  const DRAIN_TIMEOUT_TICKS := 500

  datatype State = Listening | Transcribing | Thinking | Speaking

  datatype OutFrame = OutFrame(pcm: Pcm, req: nat, gen: nat)

  /** A sentence of the current reply whose audio has started arriving. */
  datatype Spoken = Spoken(req: nat, text: Text)

  /** Something the caller said over reply gen, from time at. */
  datatype Held = Held(text: Text, gen: nat, at: int)

  datatype Config = Config(ackFilter: bool, ackMargin: int)

  /** What both threads read and write. The signals are raised by the audio thread and not yet
      handled by the event loop. */
  datatype Shared = Shared(
    state: State, outbound: seq<OutFrame>, deliveryDone: bool, paused: bool,
    replayPending: bool, replayGen: nat, playingReq: nat, playingSince: int, closing: bool,
    playbackSig: bool, drainSig: bool, bargeSig: bool)

  /** The audio thread's own: the sentence being played, and the replay of it. */
  datatype Player = Player(
    sentGen: nat, sentReq: nat, sentFrames: seq<Pcm>, replaying: bool, replayIdx: nat, emptyTicks: nat)

  /** The event loop's own. */
  datatype Loop = Loop(
    curGen: nat, ttsOpen: bool, ttsConn: nat, ttsBuf: Pcm, firstAudioGen: nat,
    hangupAfterTurn: bool, ending: bool, hungUp: bool, held: seq<Held>, resumeSeq: nat, idleSeq: nat)

  /** What the event loop keeps of the conversation: the current reply's sentences and tool
      messages, and the history the LLM is sent. */
  datatype Memory = Memory(chunks: seq<Spoken>, toolMsgs: seq<Message>, history: seq<Message>)

  datatype Turn = Turn(sh: Shared, pl: Player, lp: Loop, mem: Memory)

  const INIT := Turn(
    Shared(Listening, [], false, false, false, 0, 0, 0, false, false, false, false),
    Player(0, 0, [], false, 0, 0),
    Loop(0, false, 0, [], 0, false, false, false, [], 0, 0),
    Memory([], [], []))

  // ---- the audio thread -----------------------------------------------------

  /** What a tick hands to the caller: nothing, the next queued frame, or a frame of the sentence
      being replayed. */
  datatype Played = Silence | Fresh(frame: OutFrame) | Again(pcm: Pcm, gen: nat)

  predicate PendingReplay(t: Turn) {
    t.sh.replayPending && t.pl.sentFrames != [] && t.pl.sentGen == t.sh.replayGen
  }

  predicate ActiveReplay(t: Turn) {
    t.pl.replaying && t.pl.replayIdx < |t.pl.sentFrames|
  }

  /** bargeIn: the detector, its minimum speech and the guard time say the caller cuts in. */
  function Tick(t: Turn, now: int, bargeIn: bool, toolRunning: bool): (Turn, Played) {
    if t.sh.state != Speaking || t.sh.paused then (t, Silence)
    else if bargeIn then (Pause(t), Silence)
    else Play(TakeReplay(t), now, toolRunning)
  }

  function Pause(t: Turn): Turn {
    t.(sh := t.sh.(paused := true, bargeSig := true), pl := t.pl.(emptyTicks := 0))
  }

  function TakeReplay(t: Turn): Turn {
    if !t.sh.replayPending then t
    else t.(sh := t.sh.(replayPending := false), pl := t.pl.(replayIdx := 0, replaying := PendingReplay(t)))
  }

  function Play(t: Turn, now: int, toolRunning: bool): (Turn, Played) {
    if ActiveReplay(t) then
      (t.(pl := t.pl.(emptyTicks := 0, replayIdx := t.pl.replayIdx + 1)),
       Again(t.pl.sentFrames[t.pl.replayIdx], t.pl.sentGen))
    else
      var u := t.(pl := t.pl.(replaying := false));
      if u.sh.outbound != [] then (Pop(u, now), Fresh(u.sh.outbound[0]))
      else (Drained(u, toolRunning), Silence)
  }

  function Pop(t: Turn, now: int): Turn
    requires t.sh.outbound != []
  {
    var f := t.sh.outbound[0];
    var same := f.gen == t.pl.sentGen && f.req == t.pl.sentReq;
    t.(sh := t.sh.(outbound := t.sh.outbound[1..], playingReq := f.req,
                   playingSince := if same then t.sh.playingSince else now),
       pl := t.pl.(emptyTicks := 0, sentGen := f.gen, sentReq := f.req,
                   sentFrames := (if same then t.pl.sentFrames else []) + [f.pcm]))
  }

  /** A tick that found the queue empty. */
  function Drained(t: Turn, toolRunning: bool): Turn {
    if t.sh.deliveryDone then
      t.(sh := t.sh.(deliveryDone := false, playbackSig := true), pl := t.pl.(emptyTicks := 0))
    else if toolRunning then t.(pl := t.pl.(emptyTicks := 0))
    else if t.pl.emptyTicks + 1 < DRAIN_TIMEOUT_TICKS then t.(pl := t.pl.(emptyTicks := t.pl.emptyTicks + 1))
    else t.(sh := t.sh.(state := Listening, drainSig := true), pl := t.pl.(emptyTicks := 0))
  }

  // ---- recording a reply ----------------------------------------------------------

  /** The sentences recorded when a reply is cut with sentence `played` playing (0: none). */
  function Kept(chunks: seq<Spoken>, played: nat): seq<Spoken> {
    if chunks == [] || played == 0 || chunks[0].req > played then []
    else [chunks[0]] + Kept(chunks[1..], played)
  }

  /** The sentences joined: a space only after a sentence end or comma, if none is there. */
  function JoinSpoken(chunks: seq<Spoken>): Text {
    if chunks == [] then []
    else
      var before, text := JoinSpoken(chunks[..|chunks| - 1]), chunks[|chunks| - 1].text;
      before + (if NeedsGap(before, text) then [SPACE] else []) + text
  }

  predicate NeedsGap(before: Text, text: Text) {
    before != [] && text != [] && !text[0].space
    && (IsDelimiter(before[|before| - 1]) || IsComma(before[|before| - 1]))
  }

  /** What the history gains: the turn's tool messages, then what was spoken. */
  function Recorded(mem: Memory, cut: bool, played: nat): seq<Message> {
    var text := Trim(JoinSpoken(if cut then Kept(mem.chunks, played) else mem.chunks));
    mem.toolMsgs + (if text == [] then [] else [Said(Assistant, text)])
  }

  function RecordReply(t: Turn, cut: bool): Turn {
    t.(mem := Memory([], [], t.mem.history + Recorded(t.mem, cut, t.sh.playingReq)))
  }

  // ---- turns ---------------------------------------------------------------------

  function AddUser(mem: Memory, text: Text): Memory {
    mem.(history := mem.history + [Said(User, text)])
  }

  /** opens: a new TTS connection, if one is needed, can be opened. */
  function StartTurn(t: Turn, opens: bool): Turn {
    var ready := t.lp.ttsOpen || opens;
    t.(sh := t.sh.(state := if ready then Thinking else Listening, playingReq := 0),
       lp := t.lp.(curGen := t.lp.curGen + 1, hangupAfterTurn := false, ttsOpen := ready,
                   ttsConn := t.lp.ttsConn + (if !t.lp.ttsOpen && opens then 1 else 0),
                   idleSeq := t.lp.idleSeq + 1),
       mem := t.mem.(chunks := [], toolMsgs := []))
  }

  function AcceptUserTurn(t: Turn, text: Text, opens: bool): Turn {
    StartTurn(t.(mem := AddUser(t.mem, text)), opens)
  }

  /** What was said during the last sentence of reply gen, in order. */
  function Answer(held: seq<Held>, gen: nat, from: int): seq<Text> {
    if held == [] then []
    else (if held[0].gen == gen && held[0].at >= from then [held[0].text] else []) + Answer(held[1..], gen, from)
  }

  function JoinWords(texts: seq<Text>): Text {
    if texts == [] then []
    else if |texts| == 1 then texts[0]
    else texts[0] + [SPACE] + JoinWords(texts[1..])
  }

  function SettleHeld(cfg: Config, t: Turn, gen: nat, opens: bool): Turn {
    var answer := Answer(t.lp.held, gen, t.sh.playingSince - cfg.ackMargin);
    var u := t.(lp := t.lp.(held := []));
    if answer == [] then u else AcceptUserTurn(u, JoinWords(answer), opens)
  }

  /** The silence clock stopped or started anew: a timer that already fired is stale. */
  function MoveIdleClock(t: Turn): Turn {
    t.(lp := t.lp.(idleSeq := t.lp.idleSeq + 1))
  }

  function FinishTurn(cfg: Config, t: Turn, gen: nat, opens: bool): Turn {
    var u := if t.sh.state == Speaking || t.sh.state == Thinking then t.(sh := t.sh.(state := Listening)) else t;
    var v := RecordReply(u, false);
    var w := v.(lp := v.lp.(ttsBuf := []));
    if w.lp.hangupAfterTurn || w.lp.ending then
      w.(lp := w.lp.(held := [], hangupAfterTurn := false, hungUp := true))
    else
      var x := SettleHeld(cfg, w, gen, opens);
      if x.lp.curGen == w.lp.curGen then MoveIdleClock(x) else x
  }

  function CutReply(t: Turn): Turn {
    var u := RecordReply(t, true);
    u.(sh := u.sh.(deliveryDone := false, outbound := []),
       lp := u.lp.(curGen := u.lp.curGen + 1, ttsOpen := false, ttsBuf := []))
  }

  function ConfirmInterruption(t: Turn): Turn {
    CutReply(t.(sh := t.sh.(state := Transcribing, paused := false),
                lp := t.lp.(resumeSeq := t.lp.resumeSeq + 1, held := [])))
  }

  function ResumeReply(t: Turn): Turn {
    t.(sh := t.sh.(replayGen := t.lp.curGen, replayPending := true, paused := false),
       lp := t.lp.(resumeSeq := t.lp.resumeSeq + 1))
  }

  function HoldSpeech(t: Turn, text: Text, at: int): Turn {
    t.(lp := t.lp.(held := t.lp.held + [Held(text, t.lp.curGen, at)]))
  }

  // ---- the event loop --------------------------------------------------------------

  /** A final transcript, and what the code asks about it: said from time at; too soon after a
      pause; too short to be speech; only acknowledgements; and whether the caller may cut in. */
  datatype Transcript = Transcript(text: Text, at: int, postCut: bool, junk: bool, ack: bool, interruptible: bool)

  predicate Confirms(cfg: Config, t: Turn, tr: Transcript) {
    t.sh.paused && !tr.postCut && !tr.junk && !t.sh.closing && !(cfg.ackFilter && tr.ack)
  }

  /** The transcript starts a turn. */
  predicate Accepts(cfg: Config, t: Turn, tr: Transcript) {
    Confirms(cfg, t, tr)
    || (!t.sh.paused && !tr.postCut && (t.sh.state == Listening || t.sh.state == Transcribing))
  }

  function HandleTranscript(cfg: Config, t: Turn, tr: Transcript, opens: bool): Turn {
    if tr.postCut then t
    else if t.sh.paused then
      if tr.junk then t
      else if t.sh.closing then ResumeReply(t)
      else if cfg.ackFilter && tr.ack then ResumeReply(HoldSpeech(t, tr.text, tr.at))
      else AcceptUserTurn(ConfirmInterruption(t), tr.text, opens)
    else if t.sh.state == Speaking && cfg.ackFilter && tr.interruptible && !tr.junk then HoldSpeech(t, tr.text, tr.at)
    else if t.sh.state == Thinking || t.sh.state == Speaking then t
    else AcceptUserTurn(t, tr.text, opens)
  }

  /** buf cut into whole frames, and what is left. */
  function Frames(buf: Pcm): seq<Pcm> {
    if |buf| < FRAME_SIZE then [] else [buf[..FRAME_SIZE]] + Frames(buf[FRAME_SIZE..])
  }

  function Tail(buf: Pcm): Pcm {
    if |buf| < FRAME_SIZE then buf else Tail(buf[FRAME_SIZE..])
  }

  function Tagged(frames: seq<Pcm>, req: nat, gen: nat): seq<OutFrame> {
    seq(|frames|, i requires 0 <= i < |frames| => OutFrame(frames[i], req, gen))
  }

  /** How many of n new frames a queue of this length still takes. */
  function Room(length: nat, n: nat): nat {
    if length + n <= OUTBOUND_FRAMES then n
    else if length <= OUTBOUND_FRAMES then OUTBOUND_FRAMES - length else 0
  }

  /** The frames audio pcm adds to the queue. */
  function Queued(t: Turn, pcm: Pcm, req: nat): seq<OutFrame> {
    var frames := Frames(t.lp.ttsBuf + pcm);
    Tagged(frames[..Room(|t.sh.outbound|, |frames|)], req, t.lp.curGen)
  }

  function NoteSentence(chunks: seq<Spoken>, req: nat, text: Text): seq<Spoken> {
    if text != [] && (chunks == [] || chunks[|chunks| - 1].req != req) then chunks + [Spoken(req, text)] else chunks
  }

  function HandleTtsAudio(t: Turn, pcm: Pcm, gen: nat, req: nat, text: Text): Turn {
    if gen != t.lp.curGen then t
    else
      var speaks := t.lp.firstAudioGen != gen && t.sh.state == Thinking;
      t.(mem := t.mem.(chunks := NoteSentence(t.mem.chunks, req, text)),
         sh := t.sh.(state := if speaks then Speaking else t.sh.state,
                     outbound := t.sh.outbound + Queued(t, pcm, req)),
         lp := t.lp.(firstAudioGen := gen, ttsBuf := Tail(t.lp.ttsBuf + pcm)))
  }

  function HandleTtsDone(cfg: Config, t: Turn, gen: nat, opens: bool): Turn {
    if gen != t.lp.curGen then t
    else if t.sh.state == Thinking then FinishTurn(cfg, t, gen, opens)
    else if t.sh.state == Speaking then t.(sh := t.sh.(deliveryDone := true))
    else t
  }

  function HandleTtsClosed(cfg: Config, t: Turn, conn: nat, opens: bool): Turn {
    if !t.lp.ttsOpen || conn != t.lp.ttsConn then t
    else
      var u := t.(lp := t.lp.(ttsOpen := false));
      if t.sh.state == Thinking then FinishTurn(cfg, u, u.lp.curGen, opens)
      else if t.sh.state == Speaking then u.(sh := u.sh.(deliveryDone := true))
      else u
  }

  function HandleLlmDone(t: Turn, gen: nat, msgs: seq<Message>, endCall: bool): Turn {
    if gen != t.lp.curGen then t
    else t.(mem := t.mem.(toolMsgs := msgs), lp := t.lp.(hangupAfterTurn := endCall))
  }

  function HandlePlaybackDone(cfg: Config, t: Turn, opens: bool): Turn {
    FinishTurn(cfg, t.(sh := t.sh.(playbackSig := false)), t.lp.curGen, opens)
  }

  function HandleDrainTimeout(t: Turn): Turn {
    var u := RecordReply(t.(sh := t.sh.(drainSig := false), lp := t.lp.(ttsBuf := [])), true);
    if u.lp.ending then u.(lp := u.lp.(hungUp := true)) else u
  }

  /** quiet: the caller has been quiet long enough, or the pause has lasted too long. */
  function HandleResumeCheck(t: Turn, check: nat, quiet: bool): Turn {
    if check != t.lp.resumeSeq || !t.sh.paused then t
    else if !quiet then t.(lp := t.lp.(resumeSeq := t.lp.resumeSeq + 1))
    else ResumeReply(t)
  }

  function HandleBargeIn(t: Turn): Turn {
    var u := t.(sh := t.sh.(bargeSig := false));
    if !t.sh.paused then u else u.(lp := u.lp.(resumeSeq := u.lp.resumeSeq + 1))
  }

  /** timer: the one that fired; second: the caller was silent before, so this turn says goodbye. */
  function HandleIdle(t: Turn, timer: nat, prompt: Text, second: bool, opens: bool): Turn {
    if timer != t.lp.idleSeq || t.lp.ending || t.sh.state != Listening then t
    else
      var u := if second then t.(sh := t.sh.(closing := true), lp := t.lp.(ending := true)) else t;
      AcceptUserTurn(u, prompt, opens)
  }

  function EndCall(t: Turn): Turn {
    t.(sh := t.sh.(closing := true),
       lp := t.lp.(ending := true, idleSeq := t.lp.idleSeq + 1,
                   hungUp := t.lp.hungUp || t.sh.state == Listening || t.sh.state == Transcribing))
  }

  datatype Event =
    | Ticked(now: int, bargeIn: bool, toolRunning: bool)
    | Transcribed(tr: Transcript, opens: bool)
    | TtsAudio(pcm: Pcm, gen: nat, req: nat, text: Text)
    | TtsDone(gen: nat, opens: bool)
    | TtsClosed(conn: nat, opens: bool)
    | LlmDone(gen: nat, msgs: seq<Message>, endCall: bool)
    | ResumeCheck(check: nat, quiet: bool)
    | BargeIn
    | PlaybackDone(opens: bool)
    | DrainTimeout
    | Idle(timer: nat, prompt: Text, second: bool, opens: bool)
    | CallerSpeech
    | Opening(opens: bool)
    | EndingCall

  function Next(cfg: Config, t: Turn, ev: Event): Turn {
    match ev
    case Ticked(now, bargeIn, toolRunning) => Tick(t, now, bargeIn, toolRunning).0
    case Transcribed(tr, opens) => HandleTranscript(cfg, t, tr, opens)
    case TtsAudio(pcm, gen, req, text) => HandleTtsAudio(t, pcm, gen, req, text)
    case TtsDone(gen, opens) => HandleTtsDone(cfg, t, gen, opens)
    case TtsClosed(conn, opens) => HandleTtsClosed(cfg, t, conn, opens)
    case LlmDone(gen, msgs, endCall) => HandleLlmDone(t, gen, msgs, endCall)
    case ResumeCheck(check, quiet) => HandleResumeCheck(t, check, quiet)
    case BargeIn => HandleBargeIn(t)
    case PlaybackDone(opens) => HandlePlaybackDone(cfg, t, opens)
    case DrainTimeout => HandleDrainTimeout(t)
    case Idle(timer, prompt, second, opens) => HandleIdle(t, timer, prompt, second, opens)
    case CallerSpeech => MoveIdleClock(t)
    case Opening(opens) => StartTurn(t, opens)
    case EndingCall => EndCall(t)
  }

  /** What the event hands to the caller. */
  function Hears(t: Turn, ev: Event): Played {
    if ev.Ticked? then Tick(t, ev.now, ev.bargeIn, ev.toolRunning).1 else Silence
  }
}
