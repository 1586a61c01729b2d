/** The TTS client: one connection, the outstanding requests first in first out, and the audio and
    done signals it sends on. */
module TtsQueue {
  import opened Wrappers
  import opened Runes
  import opened Sequences

  type Pcm = seq<int>

  /** A Speak call, or a Play call (clip: its audio, never sent to the provider). */
  datatype Req = Req(gen: nat, req: nat, text: Text, clip: Option<Pcm>)

  datatype Output = Audio(pcm: Pcm, gen: nat, req: nat, text: Text) | Done(gen: nat)

  /** sent: what was sent on the two channels, in order. */
  datatype Client = Client(
    pending: seq<Req>, ended: set<nat>, last: Req, nextReq: nat, connClosed: bool, chansClosed: bool, sent: seq<Output>)

  const NO_REQ := Req(0, 0, [], None)

  const INIT := Client([], {}, NO_REQ, 0, false, false, [])

  predicate HasPending(pending: seq<Req>, gen: nat) {
    exists i :: 0 <= i < |pending| && pending[i].gen == gen
  }

  function EmitDone(c: Client, gen: nat): Client {
    if c.chansClosed then c else c.(sent := c.sent + [Done(gen)])
  }

  /** Its Done, if that was the last request of a generation already ended. */
  function Settle(c: Client, gen: nat): Client {
    if gen in c.ended && !HasPending(c.pending, gen) then EmitDone(c, gen) else c
  }

  function PopClip(c: Client): Client
    requires c.pending != [] && c.pending[0].clip.Some?
  {
    var p, d := c.pending[0], c.(pending := c.pending[1..]);
    if c.chansClosed then d
    else Settle(d.(sent := d.sent + [Audio(p.clip.value, p.gen, p.req, p.text)]), p.gen)
  }

  function DrainClips(c: Client): Client
    decreases |c.pending|
  {
    if c.pending != [] && c.pending[0].clip.Some? then DrainClips(PopClip(c)) else c
  }

  function Speak(c: Client, text: Text, gen: nat): Client {
    if Trim(text) == [] || c.connClosed then c
    else
      var r := Req(gen, c.nextReq + 1, text, None);
      c.(nextReq := c.nextReq + 1, last := r, pending := c.pending + [r])
  }

  function Play(c: Client, pcm: Pcm, text: Text, gen: nat): Client {
    if pcm == [] || c.connClosed then c
    else DrainClips(c.(nextReq := c.nextReq + 1, pending := c.pending + [Req(gen, c.nextReq + 1, text, Some(pcm))]))
  }

  function EndGeneration(c: Client, gen: nat): Client {
    var d := c.(ended := c.ended + {gen});
    if HasPending(c.pending, gen) then d else EmitDone(d, gen)
  }

  /** The provider finished (or rejected) its oldest request. */
  function OnFinal(c: Client): Client {
    if c.pending == [] then c
    else DrainClips(Settle(c.(pending := c.pending[1..]), c.pending[0].gen))
  }

  function PeekReq(c: Client): Req {
    if c.pending != [] then c.pending[0] else c.last
  }

  /** The reader is the only one to close the channels, and receives nothing afterwards. */
  function OnAudio(c: Client, pcm: Pcm): Client {
    var p := PeekReq(c);
    c.(sent := c.sent + [Audio(pcm, p.gen, p.req, p.text)])
  }

  // ---- the system: the client, and the requests the provider still works on -----------

  datatype Sys = Sys(c: Client, provider: seq<Req>)

  datatype Event =
    | SpeakCall(text: Text, gen: nat)
    | PlayCall(pcm: Pcm, text: Text, gen: nat)
    | EndCall(gen: nat)
    | ProviderAudio(pcm: Pcm)
    | ProviderFinal
    | ConnClosed
    | ChansClosed

  function Step(s: Sys, ev: Event): Sys {
    match ev
    case SpeakCall(text, gen) =>
      var c := Speak(s.c, text, gen);
      Sys(c, if c.nextReq == s.c.nextReq then s.provider else s.provider + [c.last])
    case PlayCall(pcm, text, gen) => s.(c := Play(s.c, pcm, text, gen))
    case EndCall(gen) => s.(c := EndGeneration(s.c, gen))
    case ProviderAudio(pcm) => s.(c := OnAudio(s.c, pcm))
    case ProviderFinal => Sys(OnFinal(s.c), if s.provider == [] then [] else s.provider[1..])
    case ConnClosed => s.(c := s.c.(connClosed := true))
    case ChansClosed => s.(c := s.c.(chansClosed := true))
  }

  /** Callers end a generation once and ask nothing of it afterwards; the provider answers its
      requests in order, and nothing arrives once the reader has closed the channels. */
  predicate Enabled(s: Sys, ev: Event) {
    match ev
    case SpeakCall(_, gen) => gen !in s.c.ended
    case PlayCall(_, _, gen) => gen !in s.c.ended
    case EndCall(gen) => gen !in s.c.ended
    case ProviderAudio(_) => s.provider != [] && !s.c.chansClosed
    case ProviderFinal => s.provider != [] && !s.c.chansClosed
    case _ => true
  }

  // ---- the invariant --------------------------------------------------------------

  function Spoken(pending: seq<Req>): seq<Req> {
    if pending == [] then []
    else (if pending[0].clip.None? then [pending[0]] else []) + Spoken(pending[1..])
  }

  ghost predicate Ascending(pending: seq<Req>, from: nat, to: nat) {
    && (forall i, j :: 0 <= i < j < |pending| ==> pending[i].req < pending[j].req)
    && (forall i :: 0 <= i < |pending| ==> from <= pending[i].req <= to)
  }

  /** The newest request audio was sent of. */
  function Newest(sent: seq<Output>): nat {
    if sent == [] then 0
    else if sent[|sent| - 1].Audio? then sent[|sent| - 1].req else Newest(sent[..|sent| - 1])
  }

  /** Audio in call order, and none of a generation after its Done. */
  predicate Ordered(sent: seq<Output>) {
    if sent == [] then true
    else
      var n := |sent| - 1;
      Ordered(sent[..n])
      && (sent[n].Audio? ==> Newest(sent[..n]) <= sent[n].req && Done(sent[n].gen) !in sent[..n])
  }

  /** A generation's Done is sent exactly once: when it has ended and nothing of it is pending. */
  ghost predicate DoneOnce(c: Client) {
    forall g: nat {:trigger Done(g)} ::
      Times(Done(g), c.sent) == if g in c.ended && !HasPending(c.pending, g) then 1 else 0
  }

  ghost predicate QueueSafe(c: Client) {
    && Ordered(c.sent)
    && Ascending(c.pending, Newest(c.sent), c.nextReq)
    && Newest(c.sent) <= c.nextReq
    && DoneOnce(c)
  }

  predicate HeadSpoken(pending: seq<Req>) {
    pending == [] || pending[0].clip.None?
  }

  /** Between operations: the head is no clip, the provider's requests are the pending ones that
      are not clips, and while the channels are open everything is sent in order. */
  ghost predicate Safe(s: Sys) {
    && HeadSpoken(s.c.pending)
    && (!s.c.chansClosed ==> Spoken(s.c.pending) == s.provider && QueueSafe(s.c))
  }

  // ---- steps ------------------------------------------------------------------------

  lemma SendAudio(sent: seq<Output>, a: Output)
    requires a.Audio? && Ordered(sent) && Newest(sent) <= a.req && Done(a.gen) !in sent
    ensures Ordered(sent + [a]) && Newest(sent + [a]) == a.req
    ensures forall g: nat {:trigger Done(g)} :: Times(Done(g), sent + [a]) == Times(Done(g), sent)
  {
    assert (sent + [a])[..|sent|] == sent;
  }

  lemma SendDone(sent: seq<Output>, gen: nat)
    requires Ordered(sent)
    ensures Ordered(sent + [Done(gen)]) && Newest(sent + [Done(gen)]) == Newest(sent)
    ensures forall g: nat {:trigger Done(g)} ::
      Times(Done(g), sent + [Done(gen)]) == Times(Done(g), sent) + (if g == gen then 1 else 0)
  {
    assert (sent + [Done(gen)])[..|sent|] == sent;
  }

  lemma {:induction false} TimesZero<T>(x: T, s: seq<T>)
    ensures Times(x, s) == 0 <==> x !in s
  {
    if s != [] {
      TimesZero(x, s[..|s| - 1]);
      assert s == s[..|s| - 1] + [s[|s| - 1]];
    }
  }

  lemma PendingRest(pending: seq<Req>, g: nat)
    requires pending != []
    ensures HasPending(pending, g) <==> pending[0].gen == g || HasPending(pending[1..], g)
  {
    if HasPending(pending, g) && pending[0].gen != g {
      var i :| 0 <= i < |pending| && pending[i].gen == g;
      assert pending[1..][i - 1].gen == g;
    }
    if HasPending(pending[1..], g) {
      var i :| 0 <= i < |pending[1..]| && pending[1..][i].gen == g;
      assert pending[i + 1].gen == g;
    }
  }

  lemma PendingMore(pending: seq<Req>, r: Req, g: nat)
    ensures HasPending(pending + [r], g) <==> HasPending(pending, g) || r.gen == g
  {
    if HasPending(pending, g) {
      var i :| 0 <= i < |pending| && pending[i].gen == g;
      assert (pending + [r])[i].gen == g;
    }
    assert (pending + [r])[|pending|] == r;
  }

  /** The head resolved: popped, and its generation's Done sent if that was its last. */
  lemma PopSettles(c: Client)
    requires QueueSafe(c) && !c.chansClosed && c.pending != []
    ensures QueueSafe(Settle(c.(pending := c.pending[1..]), c.pending[0].gen))
  {
    hide Ordered, Newest, Times;
    var gen, rest := c.pending[0].gen, c.pending[1..];
    forall g: nat ensures HasPending(c.pending, g) <==> gen == g || HasPending(rest, g) {
      PendingRest(c.pending, g);
    }
    SendDone(c.sent, gen);
  }

  lemma AudioOfHead(c: Client, pcm: Pcm)
    requires QueueSafe(c) && !c.chansClosed && c.pending != []
    ensures QueueSafe(OnAudio(c, pcm))
  {
    hide Ordered, Newest, Times;
    var p := c.pending[0];
    assert HasPending(c.pending, p.gen);
    TimesZero(Done(p.gen), c.sent);
    SendAudio(c.sent, Audio(pcm, p.gen, p.req, p.text));
  }

  /** A clip at the head goes out as audio of the head would, and is resolved at once. */
  lemma PopClipSafe(c: Client)
    requires QueueSafe(c) && !c.chansClosed && c.pending != [] && c.pending[0].clip.Some?
    ensures QueueSafe(PopClip(c)) && !PopClip(c).chansClosed && PopClip(c).nextReq == c.nextReq
    ensures PopClip(c).pending == c.pending[1..] && Spoken(PopClip(c).pending) == Spoken(c.pending)
  {
    hide QueueSafe, HasPending;
    AudioOfHead(c, c.pending[0].clip.value);
    PopSettles(OnAudio(c, c.pending[0].clip.value));
  }

  lemma {:induction false} DrainSafe(c: Client)
    ensures HeadSpoken(DrainClips(c).pending) && DrainClips(c).chansClosed == c.chansClosed
    ensures !c.chansClosed && QueueSafe(c) ==>
        QueueSafe(DrainClips(c)) && Spoken(DrainClips(c).pending) == Spoken(c.pending)
    decreases |c.pending|
  {
    hide QueueSafe, PopClip;
    if c.pending != [] && c.pending[0].clip.Some? {
      if !c.chansClosed && QueueSafe(c) {
        PopClipSafe(c);
      }
      PopClipFrame(c);
      DrainSafe(PopClip(c));
    }
  }

  lemma PopClipFrame(c: Client)
    requires c.pending != [] && c.pending[0].clip.Some?
    ensures PopClip(c).chansClosed == c.chansClosed && |PopClip(c).pending| < |c.pending|
  {
  }

  lemma {:induction false} SpokenAppend(pending: seq<Req>, r: Req)
    ensures Spoken(pending + [r]) == Spoken(pending) + (if r.clip.None? then [r] else [])
  {
    if pending == [] {
      assert pending + [r] == [r];
      assert [r][1..] == [];
    } else {
      SpokenAppend(pending[1..], r);
      assert (pending + [r])[1..] == pending[1..] + [r];
    }
  }

  lemma Enqueue(c: Client, r: Req)
    requires QueueSafe(c) && r.req == c.nextReq + 1 && r.gen !in c.ended
    ensures QueueSafe(c.(nextReq := c.nextReq + 1, pending := c.pending + [r]))
  {
    hide Ordered, Newest, Times, HasPending;
    forall g: nat ensures HasPending(c.pending + [r], g) <==> HasPending(c.pending, g) || r.gen == g {
      PendingMore(c.pending, r, g);
    }
  }

  lemma SpeakSafe(s: Sys, text: Text, gen: nat)
    requires Safe(s) && gen !in s.c.ended
    ensures Safe(Step(s, SpeakCall(text, gen)))
  {
    hide QueueSafe, Spoken, Trim;
    var r := Req(gen, s.c.nextReq + 1, text, None);
    SpokenAppend(s.c.pending, r);
    if !s.c.chansClosed {
      Enqueue(s.c, r);
      LastIsFree(s.c.(nextReq := s.c.nextReq + 1, pending := s.c.pending + [r]), r);
    }
  }

  lemma LastIsFree(c: Client, r: Req)
    ensures QueueSafe(c) ==> QueueSafe(c.(last := r))
  {
    hide Ordered, Newest, Times, HasPending, Ascending;
  }

  lemma PlaySafe(s: Sys, pcm: Pcm, text: Text, gen: nat)
    requires Safe(s) && gen !in s.c.ended
    ensures Safe(Step(s, PlayCall(pcm, text, gen)))
  {
    hide QueueSafe, Spoken, DrainClips;
    var r := Req(gen, s.c.nextReq + 1, text, Some(pcm));
    SpokenAppend(s.c.pending, r);
    if !s.c.chansClosed {
      Enqueue(s.c, r);
    }
    DrainSafe(s.c.(nextReq := s.c.nextReq + 1, pending := s.c.pending + [r]));
  }

  lemma EndSafe(s: Sys, gen: nat)
    requires Safe(s) && gen !in s.c.ended
    ensures Safe(Step(s, EndCall(gen)))
  {
    hide Ordered, Newest, Times, HasPending, Spoken;
    if !s.c.chansClosed {
      SendDone(s.c.sent, gen);
    }
  }

  lemma FinalSafe(s: Sys)
    requires Safe(s) && s.provider != [] && !s.c.chansClosed
    ensures Safe(Step(s, ProviderFinal))
  {
    hide QueueSafe, DrainClips, HasPending;
    var c := s.c;
    assert c.pending != [];
    PopSettles(c);
    var d := Settle(c.(pending := c.pending[1..]), c.pending[0].gen);
    assert Spoken(d.pending) == s.provider[1..];
    DrainSafe(d);
  }

  /** Every step keeps the queue safe. */
  lemma StepSafe(s: Sys, ev: Event)
    requires Safe(s) && Enabled(s, ev)
    ensures Safe(Step(s, ev))
  {
    hide Safe, Step;
    match ev {
      case SpeakCall(text, gen) => SpeakSafe(s, text, gen);
      case PlayCall(pcm, text, gen) => PlaySafe(s, pcm, text, gen);
      case EndCall(gen) => EndSafe(s, gen);
      case ProviderAudio(pcm) => ProviderAudioSafe(s, pcm);
      case ProviderFinal => FinalSafe(s);
      case _ => ClosingSafe(s, ev);
    }
  }

  lemma ProviderAudioSafe(s: Sys, pcm: Pcm)
    requires Safe(s) && s.provider != [] && !s.c.chansClosed
    ensures Safe(Step(s, ProviderAudio(pcm)))
  {
    hide QueueSafe;
    assert s.c.pending != [];
    AudioOfHead(s.c, pcm);
  }

  lemma ClosingSafe(s: Sys, ev: Event)
    requires Safe(s) && (ev.ConnClosed? || ev.ChansClosed?)
    ensures Safe(Step(s, ev))
  {
    hide Ordered, Newest, Times, HasPending, Ascending;
  }

  // ---- runs --------------------------------------------------------------------------

  ghost predicate Run(s: Sys, evs: seq<Event>)
    decreases |evs|
  {
    evs != [] ==> Enabled(s, evs[0]) && Run(Step(s, evs[0]), evs[1..])
  }

  ghost function After(s: Sys, evs: seq<Event>): Sys
    decreases |evs|
  {
    if evs == [] then s else After(Step(s, evs[0]), evs[1..])
  }

  lemma {:induction false} RunSafe(s: Sys, evs: seq<Event>)
    requires Safe(s) && Run(s, evs)
    ensures Safe(After(s, evs))
    decreases |evs|
  {
    hide Safe, Enabled, Step;
    if evs != [] {
      StepSafe(s, evs[0]);
      RunSafe(Step(s, evs[0]), evs[1..]);
    }
  }

  /** What is left of before after: its end. */
  predicate IsEnd(after: seq<Req>, before: seq<Req>) {
    |after| <= |before| && after == before[|before| - |after|..]
  }

  lemma {:induction false} DrainOnlyDrops(c: Client)
    ensures var d := DrainClips(c);
      IsEnd(d.pending, c.pending) && d.nextReq == c.nextReq && d.connClosed == c.connClosed
    decreases |c.pending|
  {
    hide HasPending;
    if c.pending != [] && c.pending[0].clip.Some? {
      DrainOnlyDrops(PopClip(c));
    }
  }

  /** On a closed connection nothing is asked any more. */
  lemma CancelledStep(s: Sys, ev: Event)
    requires s.c.connClosed
    ensures var s' := Step(s, ev);
      && s'.c.connClosed && s'.c.nextReq == s.c.nextReq
      && IsEnd(s'.c.pending, s.c.pending) && IsEnd(s'.provider, s.provider)
  {
    hide HasPending, DrainClips;
    if ev.ProviderFinal? && s.c.pending != [] {
      DrainOnlyDrops(Settle(s.c.(pending := s.c.pending[1..]), s.c.pending[0].gen));
    }
  }

  /** Once the connection is closed, over whatever comes: no call of Speak or Play adds a request; what
      is pending, and what the provider works on, is the end of what was. */
  lemma {:induction false} CancelledAsksNothing(s: Sys, evs: seq<Event>)
    requires s.c.connClosed
    ensures var s' := After(s, evs);
      && s'.c.connClosed && s'.c.nextReq == s.c.nextReq
      && IsEnd(s'.c.pending, s.c.pending) && IsEnd(s'.provider, s.provider)
    decreases |evs|
  {
    hide Step;
    if evs != [] {
      CancelledStep(s, evs[0]);
      CancelledAsksNothing(Step(s, evs[0]), evs[1..]);
    }
  }

  /** What was sent stays in order, whether the channels are open or closed. */
  ghost predicate SentSafe(c: Client) {
    && Ordered(c.sent)
    && forall g: nat {:trigger Done(g)} :: Times(Done(g), c.sent) <= if g in c.ended then 1 else 0
  }

  lemma OpenIsSent(s: Sys)
    requires Safe(s) && !s.c.chansClosed
    ensures SentSafe(s.c)
  {
    hide Ordered, Newest, Times, HasPending, Ascending, Spoken;
  }

  lemma ClosedKeepsEnds(s: Sys, ev: Event)
    requires s.c.chansClosed
    ensures s.c.ended <= Step(s, ev).c.ended
  {
    hide HasPending;
    match ev {
      case PlayCall(pcm, text, gen) =>
        DrainKeepsEnds(s.c.(nextReq := s.c.nextReq + 1,
            pending := s.c.pending + [Req(gen, s.c.nextReq + 1, text, Some(pcm))]));
      case ProviderFinal =>
        if s.c.pending != [] {
          DrainKeepsEnds(Settle(s.c.(pending := s.c.pending[1..]), s.c.pending[0].gen));
        }
      case _ =>
    }
  }

  lemma {:induction false} DrainKeepsEnds(c: Client)
    ensures DrainClips(c).ended == c.ended
    decreases |c.pending|
  {
    hide HasPending;
    if c.pending != [] && c.pending[0].clip.Some? {
      DrainKeepsEnds(PopClip(c));
    }
  }

  lemma StepSent(s: Sys, ev: Event)
    requires Safe(s) && SentSafe(s.c) && Enabled(s, ev)
    ensures SentSafe(Step(s, ev).c)
  {
    hide Safe, Step, Ordered, Times;
    StepSafe(s, ev);
    if !Step(s, ev).c.chansClosed {
      OpenIsSent(Step(s, ev));
    } else if s.c.chansClosed {
      ClosedIsSilent(s, ev);
      ClosedKeepsEnds(s, ev);
    } else {
      OnlyClosingCloses(s, ev);
    }
  }

  lemma OnlyClosingCloses(s: Sys, ev: Event)
    requires !s.c.chansClosed && Step(s, ev).c.chansClosed
    ensures Step(s, ev).c.sent == s.c.sent && Step(s, ev).c.ended == s.c.ended
  {
    hide HasPending, DrainClips;
    match ev {
      case PlayCall(pcm, text, gen) =>
        DrainSafe(s.c.(nextReq := s.c.nextReq + 1,
            pending := s.c.pending + [Req(gen, s.c.nextReq + 1, text, Some(pcm))]));
      case ProviderFinal =>
        if s.c.pending != [] {
          DrainSafe(Settle(s.c.(pending := s.c.pending[1..]), s.c.pending[0].gen));
        }
      case _ =>
    }
  }

  lemma {:induction false} RunSent(s: Sys, evs: seq<Event>)
    requires Safe(s) && SentSafe(s.c) && Run(s, evs)
    ensures Safe(After(s, evs)) && SentSafe(After(s, evs).c)
    decreases |evs|
  {
    hide Safe, SentSafe, Enabled, Step;
    if evs != [] {
      StepSafe(s, evs[0]);
      StepSent(s, evs[0]);
      RunSent(Step(s, evs[0]), evs[1..]);
    }
  }

  /** From the start, channels open or closed: audio in call order, none of a generation after its
      Done, no Done sent twice or before its generation ended; and while the channels are open, Done
      exactly once as soon as the generation has ended and all its requests are resolved. */
  lemma AudioInOrderDoneOnce(evs: seq<Event>, gen: nat)
    requires Run(Sys(INIT, []), evs)
    ensures var c := After(Sys(INIT, []), evs).c;
      && HeadSpoken(c.pending)
      && Ordered(c.sent)
      && (Times(Done(gen), c.sent) <= if gen in c.ended then 1 else 0)
      && (!c.chansClosed ==>
          Times(Done(gen), c.sent) == if gen in c.ended && !HasPending(c.pending, gen) then 1 else 0)
  {
    hide Ordered, HasPending, Times;
    InitSafe();
    OpenIsSent(Sys(INIT, []));
    RunSent(Sys(INIT, []), evs);
  }

  lemma InitSafe()
    ensures Safe(Sys(INIT, []))
  {
  }

  /** Audio is attributed to the request the provider is working on. */
  lemma AudioIsAttributed(s: Sys, pcm: Pcm)
    requires Safe(s) && Enabled(s, ProviderAudio(pcm))
    ensures var p := s.provider[0];
      Step(s, ProviderAudio(pcm)).c.sent == s.c.sent + [Audio(pcm, p.gen, p.req, p.text)]
  {
    hide QueueSafe;
  }

  // ---- first in, first out --------------------------------------------------------------

  predicate HasSound(pcm: Pcm) {
    |pcm| > 0
  }

  /** The request an event asks for, after n before it: every text with words and every clip with sound,
      until the connection is closed. */
  function Asks(ev: Event, closed: bool, n: nat): seq<Req> {
    match ev
    case SpeakCall(text, gen) => if HasWords(text) && !closed then [Req(gen, n + 1, text, None)] else []
    case PlayCall(pcm, text, gen) => if HasSound(pcm) && !closed then [Req(gen, n + 1, text, Some(pcm))] else []
    case _ => []
  }

  function Called(s: Sys, ev: Event): seq<Req> {
    Asks(ev, s.c.connClosed, s.c.nextReq)
  }

  /** The requests of a run, by its events alone. */
  function CallsOf(evs: seq<Event>, closed: bool, n: nat): seq<Req> {
    if evs == [] then []
    else
      var asks := Asks(evs[0], closed, n);
      asks + CallsOf(evs[1..], closed || evs[0].ConnClosed?, n + |asks|)
  }

  /** A step asks for exactly that. */
  lemma StepAsks(s: Sys, ev: Event)
    ensures var s' := Step(s, ev);
      s'.c.nextReq == s.c.nextReq + |Called(s, ev)| && s'.c.connClosed == (s.c.connClosed || ev.ConnClosed?)
  {
    hide DrainClips, HasPending, Trim;
    match ev {
      case SpeakCall(text, gen) => TrimIsEmpty(text);
      case PlayCall(pcm, text, gen) =>
        DrainOnlyDrops(s.c.(nextReq := s.c.nextReq + 1,
            pending := s.c.pending + [Req(gen, s.c.nextReq + 1, text, Some(pcm))]));
      case ProviderFinal =>
        if s.c.pending != [] {
          DrainOnlyDrops(Settle(s.c.(pending := s.c.pending[1..]), s.c.pending[0].gen));
        }
      case _ =>
    }
  }

  /** How many requests the provider has finished. */
  function Finals(evs: seq<Event>): nat {
    if evs == [] then 0 else (if evs[0].ProviderFinal? then 1 else 0) + Finals(evs[1..])
  }

  lemma {:induction false} SpokenAppended(a: seq<Req>, b: seq<Req>)
    ensures Spoken(a + b) == Spoken(a) + Spoken(b)
  {
    if a == [] {
      assert a + b == b;
    } else {
      SpokenAppended(a[1..], b);
      assert (a + b)[1..] == a[1..] + b;
      var first := if a[0].clip.None? then [a[0]] else [];
      assert first + (Spoken(a[1..]) + Spoken(b)) == (first + Spoken(a[1..])) + Spoken(b);
    }
  }

  lemma AsksProvider(s: Sys, ev: Event)
    requires Enabled(s, ev)
    ensures Step(s, ev).provider
      == if ev.ProviderFinal? then s.provider[1..] else s.provider + Spoken(Called(s, ev))
  {
    hide DrainClips, HasPending, Trim;
    match ev {
      case SpeakCall(text, gen) =>
        TrimIsEmpty(text);
        assert s.provider + [] == s.provider;
      case _ => assert s.provider + [] == s.provider;
    }
  }

  lemma {:induction false} RunAsks(s: Sys, evs: seq<Event>)
    requires Run(s, evs)
    ensures Finals(evs) <= |s.provider| + |Spoken(CallsOf(evs, s.c.connClosed, s.c.nextReq))|
    ensures After(s, evs).provider == (s.provider + Spoken(CallsOf(evs, s.c.connClosed, s.c.nextReq)))[Finals(evs)..]
    decreases |evs|
  {
    hide Step, Spoken;
    var all := CallsOf(evs, s.c.connClosed, s.c.nextReq);
    if evs == [] {
      NothingSpoken();
    } else {
      var s1, asks := Step(s, evs[0]), Called(s, evs[0]);
      var rest := CallsOf(evs[1..], s1.c.connClosed, s1.c.nextReq);
      StepAsks(s, evs[0]);
      AsksProvider(s, evs[0]);
      RunAsks(s1, evs[1..]);
      SpokenAppended(asks, rest);
      if evs[0].ProviderFinal? {
        NothingSpoken();
        OneFinished(s.provider, Spoken(rest), Finals(evs[1..]));
      } else {
        assert s.provider + Spoken(asks) + Spoken(rest) == s.provider + (Spoken(asks) + Spoken(rest));
      }
    }
  }

  lemma OneFinished(provider: seq<Req>, more: seq<Req>, n: nat)
    requires provider != [] && n <= |provider[1..] + more|
    ensures n + 1 <= |provider + more| && (provider[1..] + more)[n..] == (provider + more)[n + 1..]
    ensures provider + ([] + more) == provider + more
  {
  }

  lemma NothingSpoken()
    ensures Spoken([]) == []
  {
  }

  /** Over every run from the start: the provider is asked for exactly the texts with words, in the order
      of the calls, and works on those it has not finished. */
  lemma EverySentenceIsAsked(evs: seq<Event>)
    requires Run(Sys(INIT, []), evs)
    ensures Finals(evs) <= |Spoken(CallsOf(evs, false, 0))|
    ensures After(Sys(INIT, []), evs).provider == Spoken(CallsOf(evs, false, 0))[Finals(evs)..]
  {
    hide Spoken, After, Run;
    RunAsks(Sys(INIT, []), evs);
    assert [] + Spoken(CallsOf(evs, false, 0)) == Spoken(CallsOf(evs, false, 0));
  }

  function Clip(r: Req): Output
    requires r.clip.Some?
  {
    Audio(r.clip.value, r.gen, r.req, r.text)
  }

  /** The pending requests are the newest calls, and every clip is sent once, when it is resolved. */
  ghost predicate Fifo(c: Client, calls: seq<Req>) {
    && |calls| == c.nextReq && |c.pending| <= |calls|
    && (forall k :: 0 <= k < |calls| ==> calls[k].req == k + 1)
    && c.pending == calls[|calls| - |c.pending|..]
    && (!c.chansClosed ==> forall k: nat :: k < |calls| && calls[k].clip.Some? ==>
          Times(Clip(calls[k]), c.sent) == if k + |c.pending| < |calls| then 1 else 0)
  }

  lemma SendOther(sent: seq<Output>, o: Output, x: Output)
    ensures Times(x, sent + [o]) == Times(x, sent) + (if o == x then 1 else 0)
  {
    assert (sent + [o])[..|sent|] == sent;
  }

  lemma SettleFifo(c: Client, calls: seq<Req>, gen: nat)
    requires Fifo(c, calls)
    ensures Fifo(Settle(c, gen), calls)
  {
    hide Times, HasPending;
    forall k: nat | k < |calls| && calls[k].clip.Some?
      ensures Times(Clip(calls[k]), c.sent + [Done(gen)]) == Times(Clip(calls[k]), c.sent)
    {
      SendOther(c.sent, Done(gen), Clip(calls[k]));
    }
  }

  lemma AudioFifo(c: Client, calls: seq<Req>, pcm: Pcm)
    requires Fifo(c, calls) && c.pending != [] && c.pending[0].clip.None?
    ensures Fifo(OnAudio(c, pcm), calls)
  {
    hide Times;
    var p := c.pending[0];
    var head := |calls| - |c.pending|;
    assert p == calls[head];
    forall k: nat | k < |calls| && calls[k].clip.Some?
      ensures Times(Clip(calls[k]), OnAudio(c, pcm).sent) == Times(Clip(calls[k]), c.sent)
    {
      SendOther(c.sent, Audio(pcm, p.gen, p.req, p.text), Clip(calls[k]));
    }
  }

  lemma PopClipFifo(c: Client, calls: seq<Req>)
    requires Fifo(c, calls) && c.pending != [] && c.pending[0].clip.Some?
    ensures Fifo(PopClip(c), calls)
  {
    hide Times, Settle;
    var p := c.pending[0];
    var head := |calls| - |c.pending|;
    assert p == calls[head];
    forall k: nat | k < |calls| && calls[k].clip.Some?
      ensures Times(Clip(calls[k]), c.sent + [Clip(p)]) == Times(Clip(calls[k]), c.sent) + (if k == head then 1 else 0)
    {
      SendOther(c.sent, Clip(p), Clip(calls[k]));
    }
    var d := c.(pending := c.pending[1..]);
    assert d.pending == calls[head + 1..];
    if !c.chansClosed {
      SettleFifo(d.(sent := c.sent + [Clip(p)]), calls, p.gen);
    }
  }

  lemma {:induction false} DrainFifo(c: Client, calls: seq<Req>)
    requires Fifo(c, calls)
    ensures Fifo(DrainClips(c), calls)
    decreases |c.pending|
  {
    hide Fifo, PopClip;
    if c.pending != [] && c.pending[0].clip.Some? {
      PopClipFifo(c, calls);
      PopClipFrame(c);
      DrainFifo(PopClip(c), calls);
    }
  }

  lemma FinalFifo(c: Client, calls: seq<Req>)
    requires Fifo(c, calls) && HeadSpoken(c.pending)
    ensures Fifo(OnFinal(c), calls)
  {
    hide Times, Settle, DrainClips;
    if c.pending != [] {
      var d := c.(pending := c.pending[1..]);
      var head := |calls| - |c.pending|;
      assert c.pending[0] == calls[head];
      assert d.pending == calls[head + 1..];
      SettleFifo(d, calls, c.pending[0].gen);
      DrainFifo(Settle(d, c.pending[0].gen), calls);
    }
  }

  lemma EnqueueFifo(c: Client, calls: seq<Req>, r: Req)
    requires Fifo(c, calls) && r.req == c.nextReq + 1 && (r.clip.Some? ==> c.chansClosed || Clip(r) !in c.sent)
    ensures Fifo(c.(nextReq := c.nextReq + 1, pending := c.pending + [r]), calls + [r])
  {
    hide Times;
    var calls' := calls + [r];
    assert calls'[|calls| - |c.pending|..] == c.pending + [r];
    if r.clip.Some? {
      TimesZero(Clip(r), c.sent);
    }
  }

  lemma {:induction false} NewestBounds(sent: seq<Output>, o: Output)
    requires Ordered(sent) && o in sent && o.Audio?
    ensures o.req <= Newest(sent)
  {
    var n := |sent| - 1;
    assert sent == sent[..n] + [sent[n]];
    if sent[n] != o {
      NewestBounds(sent[..n], o);
    }
  }

  lemma SpeakFifo(s: Sys, calls: seq<Req>, text: Text, gen: nat)
    requires Fifo(s.c, calls)
    ensures var ev := SpeakCall(text, gen); Fifo(Step(s, ev).c, calls + Called(s, ev))
  {
    hide Times, Trim;
    TrimIsEmpty(text);
    assert calls + [] == calls;
    var r := Req(gen, s.c.nextReq + 1, text, None);
    EnqueueFifo(s.c, calls, r);
  }

  lemma PlayFifo(s: Sys, calls: seq<Req>, pcm: Pcm, text: Text, gen: nat)
    requires Fifo(s.c, calls) && Safe(s)
    ensures var ev := PlayCall(pcm, text, gen); Fifo(Step(s, ev).c, calls + Called(s, ev))
  {
    hide Fifo, DrainClips, HasPending;
    assert calls + [] == calls;
    var r := Req(gen, s.c.nextReq + 1, text, Some(pcm));
    if !s.c.chansClosed && Clip(r) in s.c.sent {
      NewestBounds(s.c.sent, Clip(r));
    }
    EnqueueFifo(s.c, calls, r);
    var d := s.c.(nextReq := s.c.nextReq + 1, pending := s.c.pending + [r]);
    DrainFifo(d, calls + [r]);
    DrainKeepsNumber(d);
  }

  lemma {:induction false} DrainKeepsNumber(c: Client)
    ensures DrainClips(c).nextReq == c.nextReq && (c.chansClosed ==> DrainClips(c).sent == c.sent)
    decreases |c.pending|
  {
    if c.pending != [] && c.pending[0].clip.Some? {
      DrainKeepsNumber(PopClip(c));
    }
  }

  lemma StepFifo(s: Sys, calls: seq<Req>, ev: Event)
    requires Safe(s) && Fifo(s.c, calls) && Enabled(s, ev)
    ensures Fifo(Step(s, ev).c, calls + Called(s, ev))
  {
    hide Safe, Fifo, DrainClips, Settle, HasPending;
    assert calls + [] == calls;
    match ev {
      case SpeakCall(text, gen) => SpeakFifo(s, calls, text, gen);
      case PlayCall(pcm, text, gen) => PlayFifo(s, calls, pcm, text, gen);
      case ProviderFinal =>
        SafeHead(s);
        FinalFifo(s.c, calls);
        FinalKeepsNumber(s.c);
      case _ => OthersFifo(s, calls, ev);
    }
  }

  lemma SafeHead(s: Sys)
    requires Safe(s)
    ensures HeadSpoken(s.c.pending)
    ensures !s.c.chansClosed && s.provider != [] ==> s.c.pending != []
  {
    hide QueueSafe;
  }

  lemma FinalKeepsNumber(c: Client)
    ensures OnFinal(c).nextReq == c.nextReq && (c.chansClosed ==> OnFinal(c).sent == c.sent)
  {
    hide DrainClips;
    if c.pending != [] {
      DrainKeepsNumber(Settle(c.(pending := c.pending[1..]), c.pending[0].gen));
    }
  }

  lemma OthersFifo(s: Sys, calls: seq<Req>, ev: Event)
    requires Safe(s) && Fifo(s.c, calls) && Enabled(s, ev)
    requires ev.EndCall? || ev.ProviderAudio? || ev.ConnClosed? || ev.ChansClosed?
    ensures Fifo(Step(s, ev).c, calls) && Called(s, ev) == []
  {
    hide Times, QueueSafe;
    SafeHead(s);
    match ev {
      case EndCall(gen) => EndFifo(s.c, calls, gen);
      case ProviderAudio(pcm) => AudioFifo(s.c, calls, pcm);
      case _ =>
    }
  }

  lemma EndFifo(c: Client, calls: seq<Req>, gen: nat)
    requires Fifo(c, calls)
    ensures Fifo(EndGeneration(c, gen), calls)
  {
    hide Times, HasPending;
    SettleFifo(c.(ended := c.ended + {gen}), calls, gen);
  }

  lemma {:induction false} RunFifo(s: Sys, calls: seq<Req>, evs: seq<Event>)
    requires Safe(s) && Fifo(s.c, calls) && Run(s, evs)
    ensures Fifo(After(s, evs).c, calls + CallsOf(evs, s.c.connClosed, s.c.nextReq))
    decreases |evs|
  {
    hide Safe, Fifo, Enabled, Step, Asks;
    if evs == [] {
      assert calls + [] == calls;
    } else {
      var s1, asks := Step(s, evs[0]), Called(s, evs[0]);
      StepSafe(s, evs[0]);
      StepFifo(s, calls, evs[0]);
      StepAsks(s, evs[0]);
      RunFifo(s1, calls + asks, evs[1..]);
      assert calls + asks + CallsOf(evs[1..], s1.c.connClosed, s1.c.nextReq)
        == calls + CallsOf(evs, s.c.connClosed, s.c.nextReq);
    }
  }

  lemma InitFifo()
    ensures Fifo(INIT, [])
  {
  }

  /** From the start: requests are resolved in call order, and every clip resolved while the
      channels were open was sent exactly once. */
  lemma CallsResolveInOrder(evs: seq<Event>)
    requires Run(Sys(INIT, []), evs)
    ensures Fifo(After(Sys(INIT, []), evs).c, CallsOf(evs, false, 0))
  {
    hide Run, After, CallsOf, Safe, Fifo;
    InitSafe();
    InitFifo();
    RunFifo(Sys(INIT, []), [], evs);
    assert [] + CallsOf(evs, false, 0) == CallsOf(evs, false, 0);
  }

  /** Nothing is sent once the channels are closed. */
  lemma ClosedIsSilent(s: Sys, ev: Event)
    requires s.c.chansClosed && Enabled(s, ev)
    ensures Step(s, ev).c.sent == s.c.sent && Step(s, ev).c.chansClosed
  {
    hide DrainClips, HasPending;
    match ev {
      case PlayCall(pcm, text, gen) =>
        var d := s.c.(nextReq := s.c.nextReq + 1,
            pending := s.c.pending + [Req(gen, s.c.nextReq + 1, text, Some(pcm))]);
        DrainKeepsNumber(d);
        DrainSafe(d);
      case _ =>
    }
  }

  // ---- audio with nothing pending -------------------------------------------------------------

  /** The newest of the calls that asked the provider for something. */
  function LastAsked(calls: seq<Req>): Req {
    if calls == [] then NO_REQ
    else if calls[|calls| - 1].clip.None? then calls[|calls| - 1] else LastAsked(calls[..|calls| - 1])
  }

  lemma {:induction false} DrainKeepsLast(c: Client)
    ensures DrainClips(c).last == c.last
    decreases |c.pending|
  {
    hide HasPending;
    if c.pending != [] && c.pending[0].clip.Some? {
      DrainKeepsLast(PopClip(c));
    }
  }

  lemma StepLast(s: Sys, calls: seq<Req>, ev: Event)
    requires s.c.last == LastAsked(calls)
    ensures Step(s, ev).c.last == LastAsked(calls + Called(s, ev))
  {
    hide DrainClips, HasPending, Trim;
    assert calls + [] == calls;
    match ev {
      case SpeakCall(text, gen) =>
        TrimIsEmpty(text);
        LastAskedNext(calls, Req(gen, s.c.nextReq + 1, text, None));
      case PlayCall(pcm, text, gen) =>
        var r := Req(gen, s.c.nextReq + 1, text, Some(pcm));
        LastAskedNext(calls, r);
        DrainKeepsLast(s.c.(nextReq := s.c.nextReq + 1, pending := s.c.pending + [r]));
      case ProviderFinal =>
        if s.c.pending != [] {
          DrainKeepsLast(Settle(s.c.(pending := s.c.pending[1..]), s.c.pending[0].gen));
        }
      case _ =>
    }
  }

  lemma LastAskedNext(calls: seq<Req>, r: Req)
    ensures LastAsked(calls + [r]) == if r.clip.None? then r else LastAsked(calls)
  {
    assert (calls + [r])[..|calls|] == calls;
  }

  lemma {:induction false} RunLast(s: Sys, calls: seq<Req>, evs: seq<Event>)
    requires s.c.last == LastAsked(calls) && Run(s, evs)
    ensures After(s, evs).c.last == LastAsked(calls + CallsOf(evs, s.c.connClosed, s.c.nextReq))
    decreases |evs|
  {
    hide Enabled, Step, Asks, LastAsked;
    if evs == [] {
      assert calls + [] == calls;
    } else {
      var s1, asks := Step(s, evs[0]), Called(s, evs[0]);
      StepLast(s, calls, evs[0]);
      StepAsks(s, evs[0]);
      RunLast(s1, calls + asks, evs[1..]);
      assert calls + asks + CallsOf(evs[1..], s1.c.connClosed, s1.c.nextReq)
        == calls + CallsOf(evs, s.c.connClosed, s.c.nextReq);
    }
  }

  /** Audio the provider sends when nothing is pending any more is tagged with the newest request it was
      ever asked for. */
  lemma LateAudioIsTagged(evs: seq<Event>, pcm: Pcm)
    requires Run(Sys(INIT, []), evs) && After(Sys(INIT, []), evs).c.pending == []
    ensures var c, last := After(Sys(INIT, []), evs).c, LastAsked(CallsOf(evs, false, 0));
      OnAudio(c, pcm).sent == c.sent + [Audio(pcm, last.gen, last.req, last.text)]
  {
    hide Run, After, CallsOf, LastAsked;
    assert LastAsked([]) == NO_REQ by { NothingAsked(); }
    RunLast(Sys(INIT, []), [], evs);
    assert [] + CallsOf(evs, false, 0) == CallsOf(evs, false, 0);
  }

  lemma NothingAsked()
    ensures LastAsked([]) == NO_REQ
  {
  }
}
