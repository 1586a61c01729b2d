/** From the TTS client through its reader to the turn protocol: what the client sends in order, and the
    reader forwards without overtaking, are events the protocol expects, in the order it relies on. */
module TtsDelivery {
  import opened Wrappers
  import opened Sequences
  import Q = TtsQueue
  import R = TtsReader
  import S = TurnSpec
  import T = TurnSafety
  import F = TurnFidelity

  /** Audio in request order, none after its generation's Done, and no Done twice. */
  ghost predicate Proper(out: seq<Q.Output>) {
    && Q.Ordered(out)
    && (forall g: nat {:trigger Q.Done(g)} :: Times(Q.Done(g), out) <= 1)
    && Numbered(out)
  }

  predicate Numbered(out: seq<Q.Output>) {
    forall i :: 0 <= i < |out| && out[i].Audio? ==> out[i].req > 0
  }

  // ---- the client ----------------------------------------------------------------------------

  /** Requests are numbered from 1. */
  ghost predicate FromOne(c: Q.Client) {
    Numbered(c.sent) && forall i :: 0 <= i < |c.pending| ==> c.pending[i].req > 0
  }

  lemma PopFromOne(c: Q.Client)
    requires FromOne(c) && c.pending != [] && c.pending[0].clip.Some?
    ensures FromOne(Q.PopClip(c))
  {
    hide Q.HasPending;
  }

  lemma {:induction false} DrainFromOne(c: Q.Client)
    requires FromOne(c)
    ensures FromOne(Q.DrainClips(c))
    decreases |c.pending|
  {
    hide FromOne, Q.PopClip;
    if c.pending != [] && c.pending[0].clip.Some? {
      PopFromOne(c);
      Q.PopClipFrame(c);
      DrainFromOne(Q.PopClip(c));
    }
  }

  lemma StepFromOne(s: Q.Sys, ev: Q.Event)
    requires Q.Safe(s) && FromOne(s.c) && Q.Enabled(s, ev)
    ensures FromOne(Q.Step(s, ev).c)
  {
    hide Q.DrainClips, Q.QueueSafe, Q.HasPending;
    var c := s.c;
    match ev {
      case PlayCall(pcm, text, gen) =>
        var r := Q.Req(gen, c.nextReq + 1, text, Some(pcm));
        DrainFromOne(c.(nextReq := c.nextReq + 1, pending := c.pending + [r]));
      case ProviderFinal =>
        if c.pending != [] {
          DrainFromOne(Q.Settle(c.(pending := c.pending[1..]), c.pending[0].gen));
        }
      case _ =>
    }
  }

  lemma {:induction false} RunFromOne(s: Q.Sys, evs: seq<Q.Event>)
    requires Q.Safe(s) && FromOne(s.c) && Q.Run(s, evs)
    ensures FromOne(Q.After(s, evs).c)
    decreases |evs|
  {
    hide Q.Safe, FromOne, Q.Enabled, Q.Step;
    if evs != [] {
      StepFromOne(s, evs[0]);
      Q.StepSafe(s, evs[0]);
      RunFromOne(Q.Step(s, evs[0]), evs[1..]);
    }
  }

  const CONNECTED := Q.Sys(Q.INIT, [])

  lemma ClientIsProper(evs: seq<Q.Event>)
    requires Q.Run(CONNECTED, evs)
    ensures Proper(Q.After(CONNECTED, evs).c.sent)
  {
    hide Q.Run, Q.After, Q.Ordered;
    Q.InitSafe();
    RunFromOne(CONNECTED, evs);
    var sent := Q.After(CONNECTED, evs).c.sent;
    forall g: nat ensures Times(Q.Done(g), sent) <= 1 {
      Q.AudioInOrderDoneOnce(evs, g);
    }
    Q.AudioInOrderDoneOnce(evs, 0);
  }

  // ---- the reader ----------------------------------------------------------------------------

  function Audios(out: seq<Q.Output>): seq<Q.Output> {
    if out == [] then []
    else Audios(out[..|out| - 1]) + (if out[|out| - 1].Audio? then [out[|out| - 1]] else [])
  }

  function Dones(out: seq<Q.Output>): seq<Q.Output> {
    if out == [] then []
    else Dones(out[..|out| - 1]) + (if out[|out| - 1].Done? then [out[|out| - 1]] else [])
  }

  lemma SplitMore(out: seq<Q.Output>, o: Q.Output)
    ensures Audios(out + [o]) == Audios(out) + (if o.Audio? then [o] else [])
    ensures Dones(out + [o]) == Dones(out) + (if o.Done? then [o] else [])
  {
    assert (out + [o])[..|out|] == out;
  }

  /** What was put on the reader's channels, in order. */
  function SentBy(evs: seq<R.Event>): seq<Q.Output> {
    if evs == [] then []
    else SentBy(evs[..|evs| - 1]) + (if evs[|evs| - 1].Sent? then [evs[|evs| - 1].o] else [])
  }

  /** Each channel is first in, first out. */
  ghost predicate Passes(r: R.Reader, sent: seq<Q.Output>) {
    Audios(sent) == Audios(r.forwarded) + r.audio && Dones(sent) == Dones(r.forwarded) + r.done
  }

  lemma StepPasses(r: R.Reader, sent: seq<Q.Output>, ev: R.Event)
    requires Passes(r, sent) && R.Valid(r) && R.Enabled(r, ev)
    ensures Passes(R.Step(r, ev), if ev.Sent? then sent + [ev.o] else sent)
  {
    hide Audios, Dones;
    if ev.Sent? {
      SplitMore(sent, ev.o);
    } else if r.audio != [] && !ev.TakeDone? {
      SplitMore(r.forwarded, r.audio[0]);
      assert r.audio == [r.audio[0]] + r.audio[1..];
    } else if r.done != [] && ev.TakeDone? {
      SplitMore(r.forwarded, r.done[0]);
      assert r.done == [r.done[0]] + r.done[1..];
    }
  }

  lemma {:induction false} RunPasses(evs: seq<R.Event>)
    requires R.Run(R.EMPTY, evs)
    ensures Passes(R.After(R.EMPTY, evs), SentBy(evs))
    decreases |evs|
  {
    hide R.Enabled, R.Step, R.Run, R.After, Passes;
    if evs == [] {
      NothingPasses();
    } else {
      var n := |evs| - 1;
      assert evs == evs[..n] + [evs[n]];
      R.RunSnoc(R.EMPTY, evs[..n], evs[n]);
      RunPasses(evs[..n]);
      R.RunTracks(evs[..n]);
      assert SentBy(evs[..n]) + [] == SentBy(evs[..n]);
      StepPasses(R.After(R.EMPTY, evs[..n]), SentBy(evs[..n]), evs[n]);
    }
  }

  lemma NothingPasses()
    ensures R.After(R.EMPTY, []) == R.EMPTY && Passes(R.EMPTY, SentBy([]))
  {
  }

  predicate Ascending(audios: seq<Q.Output>) {
    && (forall i :: 0 <= i < |audios| ==> audios[i].Audio?)
    && (forall i, j :: 0 <= i < j < |audios| ==> audios[i].req <= audios[j].req)
  }

  /** No audio after its generation's Done. */
  predicate DoneIsLast(out: seq<Q.Output>) {
    forall i, j :: 0 <= i < j < |out| && out[i].Done? && out[j].Audio? ==> out[i].gen != out[j].gen
  }

  lemma {:induction false} NewestIsLast(out: seq<Q.Output>)
    ensures forall i :: 0 <= i < |Audios(out)| ==> Audios(out)[i].Audio?
    ensures Q.Newest(out) == if Audios(out) == [] then 0 else Audios(out)[|Audios(out)| - 1].req
  {
    if out != [] {
      NewestIsLast(out[..|out| - 1]);
    }
  }

  lemma {:induction false} OrderedAscends(out: seq<Q.Output>)
    requires Q.Ordered(out)
    ensures Ascending(Audios(out))
  {
    if out != [] {
      var n := |out| - 1;
      OrderedAscends(out[..n]);
      NewestIsLast(out[..n]);
    }
  }

  lemma {:induction false} AscendsOrdered(out: seq<Q.Output>)
    requires Ascending(Audios(out)) && DoneIsLast(out)
    ensures Q.Ordered(out)
  {
    if out != [] {
      var n := |out| - 1;
      var before := Audios(out[..n]);
      assert Ascending(before) by {
        assert before == Audios(out)[..|before|];
      }
      AscendsOrdered(out[..n]);
      NewestIsLast(out[..n]);
      if out[n].Audio? {
        assert Audios(out)[|before|] == out[n];
        if before != [] {
          assert Audios(out)[|before| - 1] == before[|before| - 1];
        }
      }
    }
  }

  lemma {:induction false} TimesOfDones(out: seq<Q.Output>, g: nat)
    ensures Times(Q.Done(g), out) == Times(Q.Done(g), Dones(out))
  {
    if out != [] {
      var n := |out| - 1;
      TimesOfDones(out[..n], g);
      assert Dones(out[..n]) + [] == Dones(out[..n]);
      if out[n].Done? {
        TimesAppend(Q.Done(g), Dones(out[..n]), [out[n]]);
        assert [out[n]][..0] == [];
      }
    }
  }

  lemma {:induction false} AudiosNumbered(out: seq<Q.Output>)
    ensures Numbered(out) <==> Numbered(Audios(out))
  {
    if out != [] {
      var n := |out| - 1;
      AudiosNumbered(out[..n]);
      assert out == out[..n] + [out[n]];
      NumberedMore(out[..n], out[n]);
      assert Audios(out[..n]) + [] == Audios(out[..n]);
      if out[n].Audio? {
        NumberedMore(Audios(out[..n]), out[n]);
      }
    }
  }

  lemma NumberedMore(out: seq<Q.Output>, o: Q.Output)
    ensures Numbered(out + [o]) <==> Numbered(out) && (o.Audio? ==> o.req > 0)
  {
    assert forall i :: 0 <= i < |out| ==> (out + [o])[i] == out[i];
    assert (out + [o])[|out|] == o;
  }

  /** A reader that overtakes nothing forwards what it is sent as properly as it was sent. */
  lemma ReaderKeepsProper(evs: seq<R.Event>)
    requires R.Run(R.EMPTY, evs) && Proper(SentBy(evs))
    requires forall i :: 0 <= i < |evs| ==> !R.OvertakenAt(evs, i)
    ensures Proper(R.After(R.EMPTY, evs).forwarded)
  {
    hide R.Run, R.After, Q.Ordered, Audios, Dones, Numbered;
    var r, sent := R.After(R.EMPTY, evs), SentBy(evs);
    R.InOrderExactlyUnlessOvertaken(evs);
    RunPasses(evs);
    OrderedAscends(sent);
    assert Ascending(Audios(r.forwarded)) by {
      assert Audios(r.forwarded) == Audios(sent)[..|Audios(r.forwarded)|];
    }
    AscendsOrdered(r.forwarded);
    forall g: nat ensures Times(Q.Done(g), r.forwarded) <= 1 {
      TimesOfDones(sent, g);
      TimesOfDones(r.forwarded, g);
      TimesAppend(Q.Done(g), Dones(r.forwarded), r.done);
    }
    AudiosNumbered(sent);
    AudiosNumbered(r.forwarded);
    NumberedPrefix(Audios(r.forwarded), r.audio);
  }

  lemma NumberedPrefix(a: seq<Q.Output>, b: seq<Q.Output>)
    requires Numbered(a + b)
    ensures Numbered(a)
  {
    assert forall i :: 0 <= i < |a| ==> (a + b)[i] == a[i];
  }

  /** So a client and its reader, from the opening of the connection on. */
  lemma ConnectionIsProper(calls: seq<Q.Event>, evs: seq<R.Event>)
    requires Q.Run(CONNECTED, calls) && R.Run(R.EMPTY, evs)
    requires SentBy(evs) == Q.After(CONNECTED, calls).c.sent
    requires forall i :: 0 <= i < |evs| ==> !R.OvertakenAt(evs, i)
    ensures Proper(R.After(R.EMPTY, evs).forwarded)
  {
    hide Q.Run, Q.After, R.Run, R.After, Proper;
    ClientIsProper(calls);
    ReaderKeepsProper(evs);
  }

  // ---- the turn protocol ------------------------------------------------------------------------

  /** The TTS output an event of the agent delivers. */
  function OutputOf(ev: S.Event): seq<Q.Output> {
    match ev
    case TtsAudio(pcm, gen, req, text) => [Q.Audio(pcm, gen, req, text)]
    case TtsDone(gen, _) => [Q.Done(gen)]
    case _ => []
  }

  /** What was delivered of generation gen, over all the call's connections. */
  function Delivered(evs: seq<S.Event>, gen: nat): seq<Q.Output> {
    if evs == [] then []
    else Delivered(evs[..|evs| - 1], gen) + OfGen(OutputOf(evs[|evs| - 1]), gen)
  }

  function OfGen(out: seq<Q.Output>, gen: nat): seq<Q.Output> {
    if out == [] then []
    else OfGen(out[..|out| - 1], gen) + (if out[|out| - 1].gen == gen then [out[|out| - 1]] else [])
  }

  /** The TTS is not to be heard of the current reply any more: it could not be opened, its connection was
      lost, or the reply was given up on. */
  function GivenUp(cfg: S.Config, s: T.Sys, ev: S.Event, was: bool): bool {
    var t' := S.Next(cfg, s.t, ev);
    if t'.lp.curGen != s.t.lp.curGen then t'.sh.state != S.Thinking
    else
      || was
      || (ev.TtsClosed? && s.t.lp.ttsOpen && ev.conn == s.t.lp.ttsConn)
      || (ev.Ticked? && t'.sh.drainSig && !s.t.sh.drainSig)
  }

  ghost function StateAfter(cfg: S.Config, evs: seq<S.Event>): T.Sys {
    T.After(cfg, T.INIT_SYS, evs)
  }

  ghost function LogAfter(cfg: S.Config, evs: seq<S.Event>): F.Log {
    F.LogAfter(cfg, T.INIT_SYS, F.NO_LOG, evs)
  }

  ghost predicate IsGivenUp(cfg: S.Config, evs: seq<S.Event>) {
    if evs == [] then true
    else
      var n := |evs| - 1;
      GivenUp(cfg, StateAfter(cfg, evs[..n]), evs[n], IsGivenUp(cfg, evs[..n]))
  }

  /** What is delivered is of generations the agent has started. */
  ghost predicate Started(cfg: S.Config, evs: seq<S.Event>) {
    evs != [] ==>
      var n := |evs| - 1;
      Started(cfg, evs[..n]) && forall i :: 0 <= i < |OutputOf(evs[n])| ==>
        OutputOf(evs[n])[i].gen <= StateAfter(cfg, evs[..n]).t.lp.curGen
  }

  /** What the agent expects of its current reply, by what was delivered of it. */
  ghost predicate Expects(s: T.Sys, log: F.Log, out: seq<Q.Output>, givenUp: bool) {
    && (!givenUp ==> (s.env.audioOpen <==> Q.Done(s.t.lp.curGen) !in out))
    && (!givenUp ==> (s.env.doneOpen <==> Q.Done(s.t.lp.curGen) !in out))
    && log.lastReq == Q.Newest(out)
  }

  lemma {:induction false} AfterSnoc(cfg: S.Config, s: T.Sys, log: F.Log, evs: seq<S.Event>, ev: S.Event)
    ensures var s1 := T.After(cfg, s, evs);
      && T.After(cfg, s, evs + [ev]) == T.Step(cfg, s1, ev)
      && F.LogAfter(cfg, s, log, evs + [ev])
         == F.NextLog(cfg, s1.t, F.LogAfter(cfg, s, log, evs), ev, S.Next(cfg, s1.t, ev))
    decreases |evs|
  {
    hide S.Next, F.NextLog, T.NextEnv;
    if evs == [] {
      assert [ev][1..] == [];
    } else {
      assert (evs + [ev])[1..] == evs[1..] + [ev];
      AfterSnoc(cfg, T.Step(cfg, s, evs[0]), F.NextLog(cfg, s.t, log, evs[0], S.Next(cfg, s.t, evs[0])), evs[1..], ev);
    }
  }

  lemma SettleGrows(cfg: S.Config, t: S.Turn, gen: nat, opens: bool)
    ensures S.SettleHeld(cfg, t, gen, opens).lp.curGen >= t.lp.curGen
  {
    hide S.Answer, S.JoinWords;
  }

  lemma FinishGrows(cfg: S.Config, t: S.Turn, gen: nat, opens: bool)
    ensures S.FinishTurn(cfg, t, gen, opens).lp.curGen >= t.lp.curGen
  {
    hide S.SettleHeld, S.Recorded;
    var u := if t.sh.state == S.Speaking || t.sh.state == S.Thinking then t.(sh := t.sh.(state := S.Listening)) else t;
    var v := S.RecordReply(u, false);
    SettleGrows(cfg, v.(lp := v.lp.(ttsBuf := [])), gen, opens);
  }

  lemma TickKeepsGen(t: S.Turn, now: int, bargeIn: bool, toolRunning: bool)
    ensures S.Tick(t, now, bargeIn, toolRunning).0.lp == t.lp
  {
  }

  lemma TranscriptGrows(cfg: S.Config, t: S.Turn, tr: S.Transcript, opens: bool)
    ensures S.HandleTranscript(cfg, t, tr, opens).lp.curGen >= t.lp.curGen
  {
    hide S.Recorded;
  }

  /** Generations only grow. */
  lemma GenGrows(cfg: S.Config, t: S.Turn, ev: S.Event)
    ensures S.Next(cfg, t, ev).lp.curGen >= t.lp.curGen
  {
    hide S.FinishTurn, S.HandleTranscript, S.Tick, S.Recorded, S.Queued, S.Tail, S.NoteSentence;
    match ev {
      case Ticked(now, bargeIn, toolRunning) => TickKeepsGen(t, now, bargeIn, toolRunning);
      case Transcribed(tr, opens) => TranscriptGrows(cfg, t, tr, opens);
      case TtsDone(gen, opens) => FinishGrows(cfg, t, gen, opens);
      case TtsClosed(_, opens) => FinishGrows(cfg, t.(lp := t.lp.(ttsOpen := false)), t.lp.curGen, opens);
      case PlaybackDone(opens) => FinishGrows(cfg, t.(sh := t.sh.(playbackSig := false)), t.lp.curGen, opens);
      case _ =>
    }
  }

  lemma OfOne(o: Q.Output, gen: nat)
    ensures OfGen([o], gen) == if o.gen == gen then [o] else []
  {
    assert [o][..0] == [];
  }

  lemma DeliveredMore(evs: seq<S.Event>, ev: S.Event, gen: nat)
    ensures Delivered(evs + [ev], gen) == Delivered(evs, gen) + OfGen(OutputOf(ev), gen)
  {
    assert (evs + [ev])[..|evs|] == evs;
  }

  lemma OfNone(gen: nat)
    ensures OfGen([], gen) == []
  {
  }

  lemma GrownAfter(cfg: S.Config, evs: seq<S.Event>)
    requires evs != []
    ensures StateAfter(cfg, evs).t.lp.curGen >= StateAfter(cfg, evs[..|evs| - 1]).t.lp.curGen
  {
    hide S.Next, T.NextEnv;
    var n := |evs| - 1;
    assert evs == evs[..n] + [evs[n]];
    AfterSnoc(cfg, T.INIT_SYS, F.NO_LOG, evs[..n], evs[n]);
    GenGrows(cfg, StateAfter(cfg, evs[..n]).t, evs[n]);
  }

  /** Nothing is delivered of a generation before it is started. */
  lemma {:induction false} NotDeliveredYet(cfg: S.Config, evs: seq<S.Event>, gen: nat)
    requires Started(cfg, evs) && gen > StateAfter(cfg, evs).t.lp.curGen
    ensures Delivered(evs, gen) == []
    decreases |evs|
  {
    hide StateAfter, OfGen;
    if evs != [] {
      var n := |evs| - 1;
      GrownAfter(cfg, evs);
      NotDeliveredYet(cfg, evs[..n], gen);
      OfNone(gen);
      if OutputOf(evs[n]) != [] {
        OfOne(OutputOf(evs[n])[0], gen);
      }
    }
  }

  lemma NewestMore(out: seq<Q.Output>, o: Q.Output)
    ensures Q.Newest(out + [o]) == if o.Audio? then o.req else Q.Newest(out)
  {
    assert (out + [o])[..|out|] == out;
  }

  lemma StepExpects(cfg: S.Config, s: T.Sys, log: F.Log, out: seq<Q.Output>, ev: S.Event, was: bool)
    requires Expects(s, log, out, was) && S.Next(cfg, s.t, ev).lp.curGen == s.t.lp.curGen
    ensures var t' := S.Next(cfg, s.t, ev);
      Expects(T.Step(cfg, s, ev), F.NextLog(cfg, s.t, log, ev, t'),
              out + OfGen(OutputOf(ev), s.t.lp.curGen), GivenUp(cfg, s, ev, was))
  {
    hide S.Next, S.Queued, F.Heard, F.Overflows, Q.Newest;
    if OutputOf(ev) != [] {
      OfOne(OutputOf(ev)[0], s.t.lp.curGen);
      NewestMore(out, OutputOf(ev)[0]);
      assert out + [] == out;
    } else {
      assert out + [] == out;
    }
  }

  lemma StartExpects(cfg: S.Config, s: T.Sys, log: F.Log, ev: S.Event, was: bool)
    requires S.Next(cfg, s.t, ev).lp.curGen != s.t.lp.curGen
    ensures var t' := S.Next(cfg, s.t, ev);
      Expects(T.Step(cfg, s, ev), F.NextLog(cfg, s.t, log, ev, t'), [], GivenUp(cfg, s, ev, was))
  {
    hide S.Next;
  }

  /** The event that starts a generation delivers nothing of it. */
  lemma NothingOfTheNew(cfg: S.Config, evs: seq<S.Event>)
    requires Started(cfg, evs) && evs != []
    requires var s := StateAfter(cfg, evs[..|evs| - 1]);
      S.Next(cfg, s.t, evs[|evs| - 1]).lp.curGen != s.t.lp.curGen
    ensures Delivered(evs, StateAfter(cfg, evs).t.lp.curGen) == []
  {
    hide S.Next, T.NextEnv;
    var n := |evs| - 1;
    assert evs == evs[..n] + [evs[n]];
    AfterSnoc(cfg, T.INIT_SYS, F.NO_LOG, evs[..n], evs[n]);
    var gen := StateAfter(cfg, evs).t.lp.curGen;
    GenGrows(cfg, StateAfter(cfg, evs[..n]).t, evs[n]);
    NotDeliveredYet(cfg, evs[..n], gen);
    if OutputOf(evs[n]) != [] {
      OfOne(OutputOf(evs[n])[0], gen);
    }
  }

  lemma {:induction false} RunExpects(cfg: S.Config, evs: seq<S.Event>)
    requires Started(cfg, evs)
    ensures var s := StateAfter(cfg, evs);
      Expects(s, LogAfter(cfg, evs), Delivered(evs, s.t.lp.curGen), IsGivenUp(cfg, evs))
    decreases |evs|
  {
    hide S.Next, T.NextEnv, F.NextLog, Expects, GivenUp;
    if evs == [] {
      NothingExpected(cfg);
    } else {
      var n := |evs| - 1;
      var s := StateAfter(cfg, evs[..n]);
      assert evs == evs[..n] + [evs[n]];
      AfterSnoc(cfg, T.INIT_SYS, F.NO_LOG, evs[..n], evs[n]);
      RunExpects(cfg, evs[..n]);
      if S.Next(cfg, s.t, evs[n]).lp.curGen == s.t.lp.curGen {
        StepExpects(cfg, s, LogAfter(cfg, evs[..n]), Delivered(evs[..n], s.t.lp.curGen), evs[n],
            IsGivenUp(cfg, evs[..n]));
      } else {
        NothingOfTheNew(cfg, evs);
        StartExpects(cfg, s, LogAfter(cfg, evs[..n]), evs[n], IsGivenUp(cfg, evs[..n]));
      }
    }
  }

  lemma NothingExpected(cfg: S.Config)
    ensures Expects(T.INIT_SYS, F.NO_LOG, [], true)
    ensures StateAfter(cfg, []) == T.INIT_SYS && LogAfter(cfg, []) == F.NO_LOG
  {
  }

  /** Whatever else happens in a call: an output of a generation the agent has started, properly delivered
      after what was delivered of it before, is an event the protocol expects -- unless the TTS is not to
      be heard of the current reply any more. */
  lemma DeliveriesAreExpected(cfg: S.Config, evs: seq<S.Event>, ev: S.Event)
    requires Started(cfg, evs) && (ev.TtsAudio? || ev.TtsDone?)
    requires Proper(Delivered(evs + [ev], ev.gen)) && ev.gen <= StateAfter(cfg, evs).t.lp.curGen
    requires ev.gen == StateAfter(cfg, evs).t.lp.curGen ==> !IsGivenUp(cfg, evs)
    ensures T.Enabled(StateAfter(cfg, evs), ev) && F.InOrder(StateAfter(cfg, evs).t, LogAfter(cfg, evs), ev)
  {
    hide StateAfter, LogAfter, Started, IsGivenUp, Proper, Delivered, Q.Newest;
    var s := StateAfter(cfg, evs);
    if ev.gen == s.t.lp.curGen {
      var o := OutputOf(ev)[0];
      RunExpects(cfg, evs);
      DeliveredMore(evs, ev, ev.gen);
      OfOne(o, ev.gen);
      NextIsProper(Delivered(evs, ev.gen), o);
    }
  }

  /** What comes next of a generation: none after its Done, audio in request order. */
  lemma NextIsProper(out: seq<Q.Output>, o: Q.Output)
    requires Proper(out + [o])
    ensures Q.Done(o.gen) !in out && (o.Audio? ==> o.req > 0 && Q.Newest(out) <= o.req)
  {
    assert (out + [o])[..|out|] == out && (out + [o])[|out|] == o;
    if o.Done? {
      Q.SendOther(out, o, o);
      Q.TimesZero(o, out);
    }
  }

  lemma {:induction false} OfGenHas(out: seq<Q.Output>, gen: nat, o: Q.Output)
    ensures o in OfGen(out, gen) <==> o in out && o.gen == gen
  {
    if out != [] {
      var n := |out| - 1;
      OfGenHas(out[..n], gen, o);
      assert out == out[..n] + [out[n]];
    }
  }

  /** What a proper connection brings of one generation is proper. */
  lemma {:induction false} OfGenIsProper(out: seq<Q.Output>, gen: nat)
    requires Proper(out)
    ensures Proper(OfGen(out, gen)) && Q.Newest(OfGen(out, gen)) <= Q.Newest(out)
    decreases |out|
  {
    hide Proper;
    if out == [] {
      NoneIsProper();
    } else {
      var n := |out| - 1;
      assert out == out[..n] + [out[n]];
      ProperParts(out[..n], out[n]);
      OfGenIsProper(out[..n], gen);
      OfGenHas(out[..n], gen, Q.Done(out[n].gen));
      NewestMore(out[..n], out[n]);
      assert OfGen(out[..n], gen) + [] == OfGen(out[..n], gen);
      if out[n].gen == gen {
        ProperMore(OfGen(out[..n], gen), out[n]);
        NewestMore(OfGen(out[..n], gen), out[n]);
      }
    }
  }

  lemma NoneIsProper()
    ensures Proper([]) && Q.Newest([]) == 0
  {
  }

  lemma ProperParts(out: seq<Q.Output>, o: Q.Output)
    requires Proper(out + [o])
    ensures Proper(out) && Q.Done(o.gen) !in out && (o.Audio? ==> o.req > 0 && Q.Newest(out) <= o.req)
  {
    NextIsProper(out, o);
    assert (out + [o])[..|out|] == out;
    NumberedMore(out, o);
    forall g: nat ensures Times(Q.Done(g), out) <= 1 {
      Q.SendOther(out, o, Q.Done(g));
    }
  }

  lemma ProperMore(out: seq<Q.Output>, o: Q.Output)
    requires Proper(out) && Q.Done(o.gen) !in out && (o.Audio? ==> o.req > 0 && Q.Newest(out) <= o.req)
    ensures Proper(out + [o])
  {
    assert (out + [o])[..|out|] == out;
    NumberedMore(out, o);
    Q.TimesZero(Q.Done(o.gen), out);
    forall g: nat ensures Times(Q.Done(g), out + [o]) <= 1 {
      Q.SendOther(out, o, Q.Done(g));
    }
  }

  lemma {:induction false} PrefixIsProper(out: seq<Q.Output>, k: nat)
    requires Proper(out) && k <= |out|
    ensures Proper(out[..k])
    decreases |out|
  {
    hide Proper;
    if k == |out| {
      assert out[..k] == out;
    } else {
      var n := |out| - 1;
      assert out == out[..n] + [out[n]];
      ProperParts(out[..n], out[n]);
      PrefixIsProper(out[..n], k);
      assert out[..n][..k] == out[..k];
    }
  }

  /** The three together: the calls made of a TTS client, its reader, which overtakes nothing, and the agent,
      to which the reader's outputs of the event's generation were passed in the order forwarded. */
  lemma ConnectionFeedsTheTurn(
      cfg: S.Config, calls: seq<Q.Event>, looks: seq<R.Event>, evs: seq<S.Event>, ev: S.Event, k: nat)
    requires Q.Run(CONNECTED, calls) && R.Run(R.EMPTY, looks)
    requires SentBy(looks) == Q.After(CONNECTED, calls).c.sent
    requires forall i :: 0 <= i < |looks| ==> !R.OvertakenAt(looks, i)
    requires Started(cfg, evs) && (ev.TtsAudio? || ev.TtsDone?) && ev.gen <= StateAfter(cfg, evs).t.lp.curGen
    requires ev.gen == StateAfter(cfg, evs).t.lp.curGen ==> !IsGivenUp(cfg, evs)
    requires k <= |R.After(R.EMPTY, looks).forwarded|
    requires Delivered(evs + [ev], ev.gen) == OfGen(R.After(R.EMPTY, looks).forwarded[..k], ev.gen)
    ensures T.Enabled(StateAfter(cfg, evs), ev) && F.InOrder(StateAfter(cfg, evs).t, LogAfter(cfg, evs), ev)
  {
    hide Q.Run, Q.After, R.Run, R.After, Proper, Started, StateAfter, LogAfter, IsGivenUp, Delivered;
    var forwarded := R.After(R.EMPTY, looks).forwarded;
    ConnectionIsProper(calls, looks);
    PrefixIsProper(forwarded, k);
    OfGenIsProper(forwarded[..k], ev.gen);
    DeliveriesAreExpected(cfg, evs, ev);
  }
}
