/** What the memory keeps: a finished reply is in the history with its tool messages, word for word but
    for spaces; what the caller said over its end is answered; and the history only grows. */
module TurnMemory {
  import opened Runes
  import opened Messages
  import opened TurnSpec
  import opened TurnSafety
  import F = TurnFidelity

  // ---- text but for spaces --------------------------------------------------------------------

  lemma {:induction false} BareTrimLeft(t: Text)
    ensures Bare(TrimLeft(t)) == Bare(t)
  {
    if t != [] && t[0].space {
      BareTrimLeft(t[1..]);
    }
  }

  lemma {:induction false} BareTrimRight(t: Text)
    ensures Bare(TrimRight(t)) == Bare(t)
  {
    if t != [] && t[|t| - 1].space {
      var n := |t| - 1;
      BareTrimRight(t[..n]);
      BareAppend(t[..n], [t[n]]);
      assert t == t[..n] + [t[n]] && Bare([t[n]]) == [] + Bare([]);
    }
  }

  lemma BareTrim(t: Text)
    ensures Bare(Trim(t)) == Bare(t)
  {
    BareTrimLeft(t);
    BareTrimRight(TrimLeft(t));
  }

  lemma {:induction false} TrimmedIsBare(t: Text)
    ensures Trim(t) == [] <==> Bare(t) == []
  {
    BareTrim(t);
    if Trim(t) != [] {
      TrimEnds(t);
      assert Bare(Trim(t)) != [];
    }
  }

  /** Trimmed text begins with no space. */
  lemma TrimEnds(t: Text)
    ensures Trim(t) != [] ==> !Trim(t)[0].space
  {
    TrimLeftEnds(t);
    TrimRightKeeps(TrimLeft(t));
  }

  lemma {:induction false} TrimLeftEnds(t: Text)
    ensures TrimLeft(t) != [] ==> !TrimLeft(t)[0].space
  {
    if t != [] && t[0].space {
      TrimLeftEnds(t[1..]);
    }
  }

  lemma {:induction false} TrimRightKeeps(t: Text)
    ensures TrimRight(t) <= t
  {
    if t != [] && t[|t| - 1].space {
      TrimRightKeeps(t[..|t| - 1]);
    }
  }

  // ---- the sentences of a reply ---------------------------------------------------------------

  /** What was spoken, one sentence after the other. */
  function AllTexts(chunks: seq<Spoken>): Text {
    if chunks == [] then [] else AllTexts(chunks[..|chunks| - 1]) + chunks[|chunks| - 1].text
  }

  lemma {:induction false} BareJoin(chunks: seq<Spoken>)
    ensures Bare(JoinSpoken(chunks)) == Bare(AllTexts(chunks))
  {
    if chunks != [] {
      var n := |chunks| - 1;
      var before, text := JoinSpoken(chunks[..n]), chunks[n].text;
      var gap := if NeedsGap(before, text) then [SPACE] else [];
      BareJoin(chunks[..n]);
      BareAppend(before, gap);
      BareAppend(before + gap, text);
      BareAppend(AllTexts(chunks[..n]), text);
      assert Bare([SPACE]) == [] + Bare([]);
    }
  }

  /** The last rune so far, if any. */
  function LastOf(before: seq<Rune>, text: Text): (last: seq<Rune>)
    requires |before| <= 1
    ensures |last| <= 1
  {
    if text == [] then before else [text[|text| - 1]]
  }

  /** A sentence after what ends in this rune: a space goes before it only after a sentence end or a comma,
      and only if it begins with none. */
  function WithGap(before: seq<Rune>, text: Text): Text
    requires |before| <= 1
  {
    if text != [] && !text[0].space && before != []
       && before[0].code in {0x2E, 0x21, 0x3F, 0x0A, 0x0964, 0x0965, 0x2C}
    then [SPACE] + text else text
  }

  /** The sentences of a reply, joined from the first on. */
  function SpokenFrom(before: seq<Rune>, chunks: seq<Spoken>): Text
    requires |before| <= 1
    decreases |chunks|
  {
    if chunks == [] then []
    else WithGap(before, chunks[0].text) + SpokenFrom(LastOf(before, chunks[0].text), chunks[1..])
  }

  lemma LastOfAppend(before: seq<Rune>, text: Text, more: Text)
    requires |before| <= 1
    ensures LastOf(before, WithGap(before, text) + more) == LastOf(LastOf(before, text), more)
  {
    if more == [] {
      assert WithGap(before, text) + more == WithGap(before, text);
    }
  }

  lemma {:induction false} JoinedFrom(before: seq<Rune>, a: seq<Spoken>, c: Spoken)
    requires |before| <= 1
    ensures var said := SpokenFrom(before, a);
      SpokenFrom(before, a + [c]) == said + WithGap(LastOf(before, said), c.text)
    decreases |a|
  {
    hide WithGap, LastOf;
    if a == [] {
      assert a + [c] == [c] && [c][1..] == [];
      assert LastOf(before, []) == before by { LastOfNone(before); }
      assert WithGap(before, c.text) + [] == WithGap(before, c.text);
    } else {
      var text := a[0].text;
      assert (a + [c])[0] == a[0] && (a + [c])[1..] == a[1..] + [c];
      JoinedFrom(LastOf(before, text), a[1..], c);
      LastOfAppend(before, text, SpokenFrom(LastOf(before, text), a[1..]));
    }
  }

  lemma LastOfNone(before: seq<Rune>)
    requires |before| <= 1
    ensures LastOf(before, []) == before
  {
  }

  /** What is recorded are the sentences of the reply as they were spoken, spaced so. */
  lemma {:induction false} JoinedAsSpoken(chunks: seq<Spoken>)
    ensures JoinSpoken(chunks) == SpokenFrom([], chunks)
  {
    hide WithGap, LastOf, NeedsGap;
    if chunks != [] {
      var n := |chunks| - 1;
      JoinedAsSpoken(chunks[..n]);
      JoinedFrom([], chunks[..n], chunks[n]);
      assert chunks == chunks[..n] + [chunks[n]];
      GapIs(JoinSpoken(chunks[..n]), chunks[n].text);
    }
  }

  lemma GapIs(before: Text, text: Text)
    ensures before + (if NeedsGap(before, text) then [SPACE] else []) + text
      == before + WithGap(LastOf([], before), text)
  {
    assert before + [] == before;
    assert before + [SPACE] + text == before + ([SPACE] + text);
  }

  /** part is somewhere in whole. */
  ghost predicate IsIn(part: Text, whole: Text) {
    exists i, j :: 0 <= i <= j <= |whole| && whole[i..j] == part
  }

  lemma {:induction false} SentenceIsIn(chunks: seq<Spoken>, i: nat)
    requires i < |chunks|
    ensures IsIn(Bare(chunks[i].text), Bare(AllTexts(chunks)))
  {
    var n := |chunks| - 1;
    var before, text := AllTexts(chunks[..n]), chunks[n].text;
    BareAppend(before, text);
    var whole := Bare(before) + Bare(text);
    if i == n {
      assert whole[|Bare(before)|..|whole|] == Bare(text);
    } else {
      SentenceIsIn(chunks[..n], i);
      var j, k :| 0 <= j <= k <= |Bare(before)| && Bare(before)[j..k] == Bare(chunks[i].text);
      assert whole[j..k] == Bare(before)[j..k];
    }
  }

  // ---- a finished reply -----------------------------------------------------------------------

  /** The event ends the turn: all was played, or nothing was ever queued and the TTS has no more. */
  predicate EndsTurn(t: Turn, ev: Event) {
    match ev
    case PlaybackDone(_) => true
    case TtsDone(gen, _) => gen == t.lp.curGen && t.sh.state == Thinking
    case TtsClosed(conn, _) => t.lp.ttsOpen && conn == t.lp.ttsConn && t.sh.state == Thinking
    case _ => false
  }

  /** After is before, the tool messages, and one assistant message that says the text but for spaces -- if
      there is anything to say. */
  ghost predicate Remembers(before: seq<Message>, after: seq<Message>, tools: seq<Message>, text: Text) {
    if Bare(text) == [] then after == before + tools
    else
      && |after| == |before| + |tools| + 1 && after[..|after| - 1] == before + tools
      && (var m := after[|after| - 1]; m.role == Assistant && m.calls == [] && Bare(m.content) == Bare(text))
  }

  lemma RecordRemembers(t: Turn)
    ensures Remembers(t.mem.history, RecordReply(t, false).mem.history, t.mem.toolMsgs, AllTexts(t.mem.chunks))
  {
    hide JoinSpoken, Trim, Bare, AllTexts;
    var joined := JoinSpoken(t.mem.chunks);
    BareJoin(t.mem.chunks);
    TrimmedIsBare(joined);
    BareTrim(joined);
    var h, tools := t.mem.history, t.mem.toolMsgs;
    var said := Said(Assistant, Trim(joined));
    assert h + (tools + [said]) == (h + tools) + [said];
    assert h + (tools + []) == h + tools;
  }

  /** What was said over reply gen since then, in order. */
  function SaidOver(held: seq<Held>, gen: nat, from: int): seq<Text> {
    if held == [] then []
    else
      var h := held[|held| - 1];
      SaidOver(held[..|held| - 1], gen, from) + (if h.gen == gen && from <= h.at then [h.text] else [])
  }

  lemma AnswerCons(h: Held, held: seq<Held>, gen: nat, from: int)
    ensures Answer([h] + held, gen, from)
      == (if h.gen == gen && h.at >= from then [h.text] else []) + Answer(held, gen, from)
  {
    assert ([h] + held)[1..] == held;
  }

  lemma NoAnswer(gen: nat, from: int)
    ensures Answer([], gen, from) == []
  {
  }

  lemma {:induction false} AnswerAppend(a: seq<Held>, b: seq<Held>, gen: nat, from: int)
    ensures Answer(a + b, gen, from) == Answer(a, gen, from) + Answer(b, gen, from)
  {
    hide Answer;
    if a == [] {
      NoAnswer(gen, from);
      assert a + b == b;
    } else {
      AnswerAppend(a[1..], b, gen, from);
      AnswerCons(a[0], a[1..], gen, from);
      AnswerCons(a[0], a[1..] + b, gen, from);
      assert a == [a[0]] + a[1..] && a + b == [a[0]] + (a[1..] + b);
      var first := if a[0].gen == gen && a[0].at >= from then [a[0].text] else [];
      assert first + (Answer(a[1..], gen, from) + Answer(b, gen, from))
        == (first + Answer(a[1..], gen, from)) + Answer(b, gen, from);
    }
  }

  lemma {:induction false} AnswerIsSaid(held: seq<Held>, gen: nat, from: int)
    ensures Answer(held, gen, from) == SaidOver(held, gen, from)
  {
    if held != [] {
      var n := |held| - 1;
      AnswerIsSaid(held[..n], gen, from);
      AnswerAppend(held[..n], [held[n]], gen, from);
      assert held == held[..n] + [held[n]] && [held[n]][1..] == [];
    }
  }

  /** The texts with a space between each two. */
  function Spaced(texts: seq<Text>): Text {
    if texts == [] then []
    else if |texts| == 1 then texts[0]
    else Spaced(texts[..|texts| - 1]) + [SPACE] + texts[|texts| - 1]
  }

  lemma {:induction false} JoinMore(texts: seq<Text>, last: Text)
    requires texts != []
    ensures JoinWords(texts + [last]) == JoinWords(texts) + [SPACE] + last
  {
    if |texts| == 1 {
      assert (texts + [last])[1..] == [last];
    } else {
      JoinMore(texts[1..], last);
      assert (texts + [last])[1..] == texts[1..] + [last];
    }
  }

  lemma {:induction false} JoinIsSpaced(texts: seq<Text>)
    ensures JoinWords(texts) == Spaced(texts)
  {
    if |texts| > 1 {
      var n := |texts| - 1;
      JoinIsSpaced(texts[..n]);
      JoinMore(texts[..n], texts[n]);
      assert texts == texts[..n] + [texts[n]];
    }
  }

  /** A turn with this memory, over whose last sentence the caller said these texts, ended so: the history
      gained the tool messages and one message that says every sentence spoken, in order; then, unless the
      call ends with it, what the caller said, if anything, which starts the next turn. */
  ghost predicate EndedAs(mem: Memory, gen: nat, said: seq<Text>, hangsUp: bool, t: Turn) {
    var h := t.mem.history;
    if !hangsUp && said != [] then
      && h != [] && Remembers(mem.history, h[..|h| - 1], mem.toolMsgs, AllTexts(mem.chunks))
      && h[|h| - 1] == Said(User, Spaced(said)) && t.lp.curGen == gen + 1
    else Remembers(mem.history, h, mem.toolMsgs, AllTexts(mem.chunks)) && t.lp.curGen == gen
  }

  function SaidAtEnd(cfg: Config, t: Turn): seq<Text> {
    SaidOver(t.lp.held, t.lp.curGen, t.sh.playingSince - cfg.ackMargin)
  }

  lemma SettleAnswers(cfg: Config, t: Turn, opens: bool)
    ensures var t', said := SettleHeld(cfg, t, t.lp.curGen, opens), SaidAtEnd(cfg, t);
      && t'.mem.history == t.mem.history + (if said == [] then [] else [Said(User, Spaced(said))])
      && t'.lp.curGen == t.lp.curGen + (if said == [] then 0 else 1)
      && t'.lp.held == [] && t'.lp.hungUp == t.lp.hungUp
  {
    hide JoinWords, Answer, SaidOver, Spaced;
    AnswerIsSaid(t.lp.held, t.lp.curGen, t.sh.playingSince - cfg.ackMargin);
    JoinIsSpaced(SaidAtEnd(cfg, t));
    assert t.mem.history + [] == t.mem.history;
  }

  lemma FinishRemembers(cfg: Config, t: Turn, opens: bool)
    ensures var t', hangsUp := FinishTurn(cfg, t, t.lp.curGen, opens), t.lp.hangupAfterTurn || t.lp.ending;
      && EndedAs(t.mem, t.lp.curGen, SaidAtEnd(cfg, t), hangsUp, t')
      && t'.lp.held == [] && t'.lp.hungUp == (t.lp.hungUp || hangsUp)
  {
    hide FinishTurn, F.Ended, SettleHeld, SaidOver, Spaced, Remembers, AllTexts;
    var w := F.Ended(t);
    F.FinishEnds(cfg, t, t.lp.curGen, opens);
    EndedRemembers(cfg, t);
    SettleAnswers(cfg, w, opens);
    if !t.lp.hangupAfterTurn && !t.lp.ending && SaidAtEnd(cfg, t) != [] {
      WithoutLast(w.mem.history, Said(User, Spaced(SaidAtEnd(cfg, t))));
    } else {
      assert w.mem.history + [] == w.mem.history;
    }
  }

  lemma WithoutLast(h: seq<Message>, m: Message)
    ensures (h + [m])[..|h + [m]| - 1] == h && (h + [m])[|h + [m]| - 1] == m
  {
  }

  lemma EndedRemembers(cfg: Config, t: Turn)
    ensures var w := F.Ended(t);
      && Remembers(t.mem.history, w.mem.history, t.mem.toolMsgs, AllTexts(t.mem.chunks))
      && w.lp == t.lp.(ttsBuf := []) && SaidAtEnd(cfg, w) == SaidAtEnd(cfg, t)
  {
    hide Recorded, SaidOver, Remembers, AllTexts;
    var quiet := t.sh.state == Speaking || t.sh.state == Thinking;
    RecordRemembers(if quiet then t.(sh := t.sh.(state := Listening)) else t);
  }

  /** However a turn ends, in every state: it ends so. */
  lemma FinishedReplyIsRemembered(cfg: Config, t: Turn, ev: Event)
    requires EndsTurn(t, ev)
    ensures var t', hangsUp := Next(cfg, t, ev), t.lp.hangupAfterTurn || t.lp.ending;
      EndedAs(t.mem, t.lp.curGen, SaidAtEnd(cfg, t), hangsUp, t') && t'.lp.hungUp == (t.lp.hungUp || hangsUp)
  {
    hide FinishTurn, SaidOver, EndedAs;
    match ev {
      case PlaybackDone(opens) => FinishRemembers(cfg, t.(sh := t.sh.(playbackSig := false)), opens);
      case TtsDone(_, opens) => FinishRemembers(cfg, t, opens);
      case TtsClosed(_, opens) => FinishRemembers(cfg, t.(lp := t.lp.(ttsOpen := false)), opens);
    }
  }

  // ---- over a call ----------------------------------------------------------------------------

  lemma FinishGrows(cfg: Config, t: Turn, opens: bool)
    ensures t.mem.history <= FinishTurn(cfg, t, t.lp.curGen, opens).mem.history
  {
    hide FinishTurn, SaidOver, Spaced, AllTexts, Remembers;
    FinishRemembers(cfg, t, opens);
    var h := FinishTurn(cfg, t, t.lp.curGen, opens).mem.history;
    if !(t.lp.hangupAfterTurn || t.lp.ending) && SaidAtEnd(cfg, t) != [] {
      RememberedGrows(t.mem.history, h[..|h| - 1], t.mem.toolMsgs, AllTexts(t.mem.chunks));
      assert t.mem.history <= h[..|h| - 1] <= h;
    } else {
      RememberedGrows(t.mem.history, h, t.mem.toolMsgs, AllTexts(t.mem.chunks));
    }
  }

  lemma RememberedGrows(before: seq<Message>, after: seq<Message>, tools: seq<Message>, text: Text)
    requires Remembers(before, after, tools, text)
    ensures before <= after
  {
    hide Bare;
    assert before <= before + tools;
    if Bare(text) != [] {
      assert before + tools <= after;
    }
  }

  /** Nothing is ever taken out of the history. */
  lemma HistoryGrows(cfg: Config, t: Turn, ev: Event)
    ensures t.mem.history <= Next(cfg, t, ev).mem.history
  {
    hide FinishTurn, Recorded, Queued, Tail, NoteSentence;
    match ev {
      case PlaybackDone(opens) => FinishGrows(cfg, t.(sh := t.sh.(playbackSig := false)), opens);
      case TtsDone(gen, opens) =>
        if gen == t.lp.curGen {
          FinishGrows(cfg, t, opens);
        }
      case TtsClosed(_, opens) => FinishGrows(cfg, t.(lp := t.lp.(ttsOpen := false)), opens);
      case _ =>
    }
  }

  lemma {:induction false} RunGrows(cfg: Config, s: Sys, evs: seq<Event>)
    ensures s.t.mem.history <= After(cfg, s, evs).t.mem.history
    decreases |evs|
  {
    hide Next, NextEnv;
    if evs != [] {
      HistoryGrows(cfg, s.t, evs[0]);
      RunGrows(cfg, Step(cfg, s, evs[0]), evs[1..]);
    }
  }

  /** The reply goes on: it is not ended, given up or cut. */
  ghost predicate GoesOn(cfg: Config, s: Sys, evs: seq<Event>)
    decreases |evs|
  {
    evs != [] ==>
      && !EndsTurn(s.t, evs[0]) && !evs[0].DrainTimeout? && Next(cfg, s.t, evs[0]).lp.curGen == s.t.lp.curGen
      && GoesOn(cfg, Step(cfg, s, evs[0]), evs[1..])
  }

  lemma GoingOnKeepsChunks(cfg: Config, t: Turn, ev: Event)
    requires !EndsTurn(t, ev) && !ev.DrainTimeout? && Next(cfg, t, ev).lp.curGen == t.lp.curGen
    ensures t.mem.chunks <= Next(cfg, t, ev).mem.chunks
  {
    hide FinishTurn, Recorded, Queued, Tail, Tick, HandleTranscript, JoinSpoken;
    match ev {
      case Ticked(now, bargeIn, toolRunning) => TickKeepsMemory(t, now, bargeIn, toolRunning);
      case Transcribed(tr, opens) => TranscriptKeepsChunks(cfg, t, tr, opens);
      case _ =>
    }
  }

  lemma TickKeepsMemory(t: Turn, now: int, bargeIn: bool, toolRunning: bool)
    ensures Tick(t, now, bargeIn, toolRunning).0.mem == t.mem
  {
  }

  lemma TranscriptKeepsChunks(cfg: Config, t: Turn, tr: Transcript, opens: bool)
    requires HandleTranscript(cfg, t, tr, opens).lp.curGen == t.lp.curGen
    ensures HandleTranscript(cfg, t, tr, opens).mem == t.mem
  {
    hide Recorded;
  }

  lemma {:induction false} GoingOnKeepsSentence(cfg: Config, s: Sys, evs: seq<Event>, c: Spoken)
    requires GoesOn(cfg, s, evs) && c in s.t.mem.chunks
    ensures c in After(cfg, s, evs).t.mem.chunks
    decreases |evs|
  {
    hide Next, NextEnv, EndsTurn;
    if evs != [] {
      GoingOnKeepsChunks(cfg, s.t, evs[0]);
      GoingOnKeepsSentence(cfg, Step(cfg, s, evs[0]), evs[1..], c);
    }
  }

  /** The first audio of a request: a sentence the caller will hear. */
  predicate Begins(s: Sys, log: F.Log, ev: Event) {
    ev.TtsAudio? && ev.gen == s.t.lp.curGen && ev.req > log.lastReq && Bare(ev.text) != []
  }

  lemma BeginningIsNoted(cfg: Config, s: Sys, log: F.Log, ev: Event)
    requires F.Faithful(s.t, log) && Begins(s, log, ev)
    ensures Spoken(ev.req, ev.text) in Next(cfg, s.t, ev).mem.chunks
  {
    hide F.QueueFaithful, F.PlayFaithful, F.ReplayFaithful, F.BytesFaithful, F.MemoryWhole, Queued, Tail;
    var c := s.t.mem.chunks;
    assert c != [] ==> c[|c| - 1].req <= log.lastReq;
    assert NoteSentence(c, ev.req, ev.text)[|c|] == Spoken(ev.req, ev.text);
  }

  /** The sentence is in some message of the agent. */
  ghost predicate IsSaid(text: Text, history: seq<Message>) {
    exists i :: 0 <= i < |history| && history[i].role == Assistant && IsIn(Bare(text), Bare(history[i].content))
  }

  lemma PartsHaveSome(part: Text, whole: Text)
    requires IsIn(part, whole) && part != []
    ensures whole != []
  {
  }

  lemma EndingSaysIt(cfg: Config, t: Turn, ev: Event, c: Spoken)
    requires EndsTurn(t, ev) && c in t.mem.chunks && Bare(c.text) != []
    ensures IsSaid(c.text, Next(cfg, t, ev).mem.history)
  {
    hide Next, EndsTurn, Bare, AllTexts, SaidOver, Spaced, IsIn;
    FinishedReplyIsRemembered(cfg, t, ev);
    var i :| 0 <= i < |t.mem.chunks| && t.mem.chunks[i] == c;
    SentenceIsIn(t.mem.chunks, i);
    var h := Next(cfg, t, ev).mem.history;
    var n := |t.mem.history| + |t.mem.toolMsgs|;
    PartsHaveSome(Bare(c.text), Bare(AllTexts(t.mem.chunks)));
    assert n < |h| && IsIn(Bare(c.text), Bare(h[n].content));
  }

  /** Over whole calls: every sentence of which audio came, of a reply that was then ended by being played (or
      by the TTS having no more), is in a message of the agent's, and stays there. */
  lemma SentencesAreRemembered(
      cfg: Config, before: seq<Event>, first: Event, during: seq<Event>, last: Event, more: seq<Event>)
    requires F.LoggedRun(cfg, INIT_SYS, F.NO_LOG, before)
    requires Begins(After(cfg, INIT_SYS, before), F.LogAfter(cfg, INIT_SYS, F.NO_LOG, before), first)
    requires GoesOn(cfg, Step(cfg, After(cfg, INIT_SYS, before), first), during)
    requires EndsTurn(After(cfg, Step(cfg, After(cfg, INIT_SYS, before), first), during).t, last)
    ensures var ended := Step(cfg, After(cfg, Step(cfg, After(cfg, INIT_SYS, before), first), during), last);
      IsSaid(first.text, After(cfg, ended, more).t.mem.history)
  {
    hide F.Faithful, Safe, Next, NextEnv, After, GoesOn, EndsTurn, Bare, F.LoggedRun, F.LogAfter;
    InitSafe();
    F.InitFaithful();
    F.RunsAreFaithful(cfg, INIT_SYS, F.NO_LOG, before);
    var s := After(cfg, INIT_SYS, before);
    BeginningIsNoted(cfg, s, F.LogAfter(cfg, INIT_SYS, F.NO_LOG, before), first);
    var c := Spoken(first.req, first.text);
    GoingOnKeepsSentence(cfg, Step(cfg, s, first), during, c);
    var s' := After(cfg, Step(cfg, s, first), during);
    EndingSaysIt(cfg, s'.t, last, c);
    var ended := Step(cfg, s', last);
    RunGrows(cfg, ended, more);
    StaysSaid(first.text, ended.t.mem.history, After(cfg, ended, more).t.mem.history);
  }

  lemma StaysSaid(text: Text, before: seq<Message>, after: seq<Message>)
    requires IsSaid(text, before) && before <= after
    ensures IsSaid(text, after)
  {
    hide Bare, IsIn;
    var i :| 0 <= i < |before| && before[i].role == Assistant && IsIn(Bare(text), Bare(before[i].content));
    assert after[i] == before[i];
  }
}
