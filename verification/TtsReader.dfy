/** The agent's reader of a TTS client: it looks at the audio channel first, then waits on both
    channels. The order it forwards in is the order the turn protocol relies on. */
module TtsReader {
  import opened TtsQueue

  /** selecting: the look at the audio channel found nothing, and the wait on both is next. */
  datatype Reader = Reader(audio: seq<Output>, done: seq<Output>, selecting: bool, forwarded: seq<Output>)

  const EMPTY := Reader([], [], false, [])

  datatype Event = Sent(o: Output) | Look | TakeAudio | TakeDone(gen: nat)

  function Forward(r: Reader, o: Output): Reader {
    r.(forwarded := r.forwarded + [o], selecting := false)
  }

  function Step(r: Reader, ev: Event): Reader {
    match ev
    case Sent(o) => if o.Audio? then r.(audio := r.audio + [o]) else r.(done := r.done + [o])
    case Look => if r.audio != [] then Forward(r.(audio := r.audio[1..]), r.audio[0]) else r.(selecting := true)
    case TakeAudio => if r.audio == [] then r else Forward(r.(audio := r.audio[1..]), r.audio[0])
    case TakeDone(_) => if r.done == [] then r else Forward(r.(done := r.done[1..]), r.done[0])
  }

  /** The client sends none of a generation's audio after its Done. */
  predicate Enabled(r: Reader, ev: Event) {
    match ev
    case Sent(o) => o.Audio? ==> Done(o.gen) !in r.done && Done(o.gen) !in r.forwarded
    case Look => !r.selecting
    case TakeAudio => r.selecting && r.audio != []
    case TakeDone(gen) => r.selecting && r.done != [] && r.done[0] == Done(gen)
  }

  predicate AudioOf(s: seq<Output>, gen: nat) {
    exists i :: 0 <= i < |s| && s[i].Audio? && s[i].gen == gen
  }

  /** No audio of a generation is forwarded after its Done, or is still to be. */
  ghost predicate InOrder(r: Reader) {
    && (forall i, j :: 0 <= i < j < |r.forwarded| && r.forwarded[i].Done? && r.forwarded[j].Audio? ==>
          r.forwarded[i].gen != r.forwarded[j].gen)
    && (forall i :: 0 <= i < |r.forwarded| && r.forwarded[i].Done? ==> !AudioOf(r.audio, r.forwarded[i].gen))
  }

  ghost predicate Valid(r: Reader) {
    && (forall i :: 0 <= i < |r.done| ==> r.done[i].Done?)
    && (forall i :: 0 <= i < |r.audio| ==> r.audio[i].Audio?)
  }

  /** A Done is taken while audio of its generation is still in the channel. */
  predicate Overtakes(r: Reader, ev: Event) {
    ev.TakeDone? && AudioOf(r.audio, ev.gen)
  }

  lemma StepValid(r: Reader, ev: Event)
    requires Valid(r)
    ensures Valid(Step(r, ev))
  {
  }

  lemma AudioRest(s: seq<Output>, gen: nat)
    requires s != []
    ensures AudioOf(s, gen) <==> (s[0].Audio? && s[0].gen == gen) || AudioOf(s[1..], gen)
  {
    if AudioOf(s[1..], gen) {
      var i :| 0 <= i < |s| - 1 && s[1..][i].Audio? && s[1..][i].gen == gen;
      assert s[i + 1].Audio? && s[i + 1].gen == gen;
    }
    if i :| 0 <= i < |s| && s[i].Audio? && s[i].gen == gen {
      assert i > 0 ==> s[1..][i - 1].Audio? && s[1..][i - 1].gen == gen;
    }
  }

  lemma AudioMore(s: seq<Output>, o: Output, gen: nat)
    ensures AudioOf(s + [o], gen) <==> AudioOf(s, gen) || (o.Audio? && o.gen == gen)
  {
    if i :| 0 <= i < |s| && s[i].Audio? && s[i].gen == gen {
      assert (s + [o])[i].Audio? && (s + [o])[i].gen == gen;
    }
    assert (s + [o])[|s|] == o;
  }

  // ---- one step --------------------------------------------------------------------------------

  lemma StepInOrder(r: Reader, ev: Event)
    requires Valid(r) && InOrder(r) && Enabled(r, ev)
    ensures InOrder(Step(r, ev)) <==> !Overtakes(r, ev)
  {
    hide AudioOf;
    match ev {
      case Sent(o) =>
        forall i | 0 <= i < |r.forwarded| && r.forwarded[i].Done? && o.Audio?
          ensures !AudioOf(r.audio + [o], r.forwarded[i].gen)
        {
          AudioMore(r.audio, o, r.forwarded[i].gen);
        }
      case TakeDone(gen) => TakeDoneInOrder(r, gen);
      case _ =>
        if r.audio != [] {
          TakeAudioInOrder(r);
        }
    }
  }

  lemma TakeAudioInOrder(r: Reader)
    requires Valid(r) && InOrder(r) && r.audio != []
    ensures InOrder(Step(r, TakeAudio))
  {
    hide AudioOf;
    forall i | 0 <= i < |r.forwarded| && r.forwarded[i].Done?
      ensures !AudioOf(r.audio[1..], r.forwarded[i].gen) && r.audio[0].gen != r.forwarded[i].gen
    {
      AudioRest(r.audio, r.forwarded[i].gen);
    }
  }

  lemma TakeDoneInOrder(r: Reader, gen: nat)
    requires Valid(r) && InOrder(r) && Enabled(r, TakeDone(gen))
    ensures InOrder(Step(r, TakeDone(gen))) <==> !Overtakes(r, TakeDone(gen))
  {
    hide AudioOf;
    var r' := Step(r, TakeDone(gen));
    assert r'.forwarded[|r.forwarded|] == r.done[0];
  }

  /** Once out of order, for good. */
  lemma StaysOutOfOrder(r: Reader, ev: Event)
    requires Valid(r) && !InOrder(r)
    ensures !InOrder(Step(r, ev))
  {
    hide AudioOf;
    var r' := Step(r, ev);
    assert r.forwarded <= r'.forwarded;
    if i, j :|
      && 0 <= i < j < |r.forwarded| && r.forwarded[i].Done? && r.forwarded[j].Audio?
      && r.forwarded[i].gen == r.forwarded[j].gen
    {
      assert r'.forwarded[i] == r.forwarded[i] && r'.forwarded[j] == r.forwarded[j];
    } else {
      var i :| 0 <= i < |r.forwarded| && r.forwarded[i].Done? && AudioOf(r.audio, r.forwarded[i].gen);
      assert r'.forwarded[i] == r.forwarded[i];
      WaitingStays(r, ev, r.forwarded[i].gen);
      if !AudioOf(r'.audio, r.forwarded[i].gen) {
        assert r'.forwarded[|r.forwarded|] == r.audio[0];
      }
    }
  }

  /** Audio waiting still waits, or was forwarded. */
  lemma WaitingStays(r: Reader, ev: Event, gen: nat)
    requires Valid(r) && AudioOf(r.audio, gen)
    ensures var r' := Step(r, ev);
      AudioOf(r'.audio, gen)
      || (r'.forwarded == r.forwarded + [r.audio[0]] && r.audio[0].Audio? && r.audio[0].gen == gen)
  {
    hide AudioOf;
    assert r.audio != [] by {
      NoAudio(gen);
    }
    AudioRest(r.audio, gen);
    if ev.Sent? {
      AudioMore(r.audio, ev.o, gen);
    }
  }

  lemma NoAudio(gen: nat)
    ensures !AudioOf([], gen)
  {
  }

  // ---- runs ------------------------------------------------------------------------------------

  ghost predicate Run(r: Reader, evs: seq<Event>)
    decreases |evs|
  {
    evs != [] ==> Enabled(r, evs[0]) && Run(Step(r, evs[0]), evs[1..])
  }

  ghost function After(r: Reader, evs: seq<Event>): Reader
    decreases |evs|
  {
    if evs == [] then r else After(Step(r, evs[0]), evs[1..])
  }

  /** The generations of the audio sent since the reader last looked or took something. */
  function ArrivedSince(evs: seq<Event>): set<nat> {
    if evs == [] then {}
    else
      var ev := evs[|evs| - 1];
      if !ev.Sent? then {}
      else ArrivedSince(evs[..|evs| - 1]) + (if ev.o.Audio? then {ev.o.gen} else {})
  }

  /** At event i a Done is taken whose generation had audio sent since the look before it. */
  predicate OvertakenAt(evs: seq<Event>, i: nat)
    requires i < |evs|
  {
    evs[i].TakeDone? && evs[i].gen in ArrivedSince(evs[..i])
  }

  lemma {:induction false} RunSnoc(r: Reader, evs: seq<Event>, ev: Event)
    requires Run(r, evs + [ev])
    ensures Run(r, evs) && Enabled(After(r, evs), ev) && After(r, evs + [ev]) == Step(After(r, evs), ev)
    decreases |evs|
  {
    hide Enabled, Step;
    if evs != [] {
      assert (evs + [ev])[1..] == evs[1..] + [ev];
      RunSnoc(Step(r, evs[0]), evs[1..], ev);
    }
  }

  /** In the wait, the audio in the channel is what was sent since the look. */
  ghost predicate Tracks(r: Reader, arrived: set<nat>) {
    r.selecting ==> forall gen: nat :: AudioOf(r.audio, gen) <==> gen in arrived
  }

  lemma StepTracks(r: Reader, evs: seq<Event>, ev: Event)
    requires Enabled(r, ev) && Tracks(r, ArrivedSince(evs))
    ensures Tracks(Step(r, ev), ArrivedSince(evs + [ev]))
  {
    hide AudioOf;
    assert (evs + [ev])[..|evs|] == evs;
    forall gen: nat | Step(r, ev).selecting
      ensures AudioOf(Step(r, ev).audio, gen) <==> gen in ArrivedSince(evs + [ev])
    {
      NoAudio(gen);
      if ev.Sent? {
        AudioMore(r.audio, ev.o, gen);
      }
    }
  }

  lemma {:induction false} RunTracks(evs: seq<Event>)
    requires Run(EMPTY, evs)
    ensures Valid(After(EMPTY, evs)) && Tracks(After(EMPTY, evs), ArrivedSince(evs))
    decreases |evs|
  {
    hide Enabled, Step, Run, After, Tracks, ArrivedSince;
    if evs == [] {
      StartsEmpty();
    } else {
      var n := |evs| - 1;
      assert evs == evs[..n] + [evs[n]];
      RunSnoc(EMPTY, evs[..n], evs[n]);
      RunTracks(evs[..n]);
      StepTracks(After(EMPTY, evs[..n]), evs[..n], evs[n]);
      StepValid(After(EMPTY, evs[..n]), evs[n]);
    }
  }

  lemma StartsEmpty()
    ensures After(EMPTY, []) == EMPTY && Valid(EMPTY) && Tracks(EMPTY, ArrivedSince([])) && InOrder(EMPTY)
  {
  }

  /** Looking first is what keeps the order, as long as nothing arrives between the look and the
      wait: a Done overtakes exactly the audio sent since the look. */
  lemma OnlyArrivalsAreOvertaken(evs: seq<Event>, ev: Event)
    requires Run(EMPTY, evs) && Enabled(After(EMPTY, evs), ev)
    ensures Overtakes(After(EMPTY, evs), ev) <==> ev.TakeDone? && ev.gen in ArrivedSince(evs)
  {
    hide Run, After;
    RunTracks(evs);
  }

  /** Over every run: no audio is forwarded after its generation's Done, nor left to be, exactly when
      no Done was taken of a generation with audio sent since the look before it. */
  lemma {:induction false} InOrderExactlyUnlessOvertaken(evs: seq<Event>)
    requires Run(EMPTY, evs)
    ensures InOrder(After(EMPTY, evs)) <==> forall i :: 0 <= i < |evs| ==> !OvertakenAt(evs, i)
    decreases |evs|
  {
    hide Enabled, Step, Run, After, InOrder, Overtakes, ArrivedSince;
    if evs == [] {
      StartsEmpty();
    } else {
      var n := |evs| - 1;
      var prefix, r := evs[..n], After(EMPTY, evs[..n]);
      assert evs == prefix + [evs[n]];
      RunSnoc(EMPTY, prefix, evs[n]);
      InOrderExactlyUnlessOvertaken(prefix);
      forall i | 0 <= i < n ensures OvertakenAt(evs, i) <==> OvertakenAt(prefix, i) {
        assert evs[..i] == prefix[..i];
      }
      assert (exists i :: 0 <= i < n && OvertakenAt(evs, i)) <==>
          exists i :: 0 <= i < |prefix| && OvertakenAt(prefix, i);
      RunTracks(prefix);
      OnlyArrivalsAreOvertaken(prefix, evs[n]);
      assert OvertakenAt(evs, n) <==> Overtakes(r, evs[n]);
      if InOrder(r) {
        StepInOrder(r, evs[n]);
      } else {
        StaysOutOfOrder(r, evs[n]);
      }
    }
  }

  lemma First(r: Reader, ev: Event, evs: seq<Event>)
    requires Enabled(r, ev) && Run(Step(r, ev), evs)
    ensures Run(r, [ev] + evs) && After(r, [ev] + evs) == After(Step(r, ev), evs)
  {
    assert ([ev] + evs)[1..] == evs;
  }

  /** A generation's audio and Done both sent between the look and the wait: the wait may take the
      Done, and the audio is forwarded after it. */
  lemma DoneCanOvertake(pcm: Pcm, gen: nat, req: nat)
    ensures var a := Audio(pcm, gen, req, []);
      var evs := [Look, Sent(a), Sent(Done(gen)), TakeDone(gen), Look];
      Run(EMPTY, evs) && After(EMPTY, evs).forwarded == [Done(gen), a]
  {
    var a := Audio(pcm, gen, req, []);
    var r1 := Step(EMPTY, Look);
    var r2 := Step(r1, Sent(a));
    var r3 := Step(r2, Sent(Done(gen)));
    var r4 := Step(r3, TakeDone(gen));
    var r5 := Step(r4, Look);
    assert r4.audio == [a] && r4.forwarded == [Done(gen)] && r5.forwarded == [Done(gen), a];
    assert Run(r5, []) && After(r5, []) == r5;
    hide Run, After;
    First(r4, Look, []);
    First(r3, TakeDone(gen), [Look]);
    First(r2, Sent(Done(gen)), [TakeDone(gen), Look]);
    First(r1, Sent(a), [Sent(Done(gen)), TakeDone(gen), Look]);
    First(EMPTY, Look, [Sent(a), Sent(Done(gen)), TakeDone(gen), Look]);
    assert [Look] + [] == [Look];
    assert [TakeDone(gen)] + [Look] == [TakeDone(gen), Look];
    assert [Sent(Done(gen))] + [TakeDone(gen), Look] == [Sent(Done(gen)), TakeDone(gen), Look];
    assert [Sent(a)] + [Sent(Done(gen)), TakeDone(gen), Look] == [Sent(a), Sent(Done(gen)), TakeDone(gen), Look];
    assert [Look] + [Sent(a), Sent(Done(gen)), TakeDone(gen), Look]
      == [Look, Sent(a), Sent(Done(gen)), TakeDone(gen), Look];
  }
}
