/** The TTS client as an object, proved to take the steps of TtsQueue; a channel may only be sent
    on while it is open. */
module TtsClients {
  import opened Wrappers
  import opened Runes
  import opened TtsQueue

  /** The audio and done channels together: what was sent, and whether they are closed. */
  class Channels {
    var sent: seq<Output>
    var closed: bool

    constructor ()
      ensures sent == [] && !closed
    {
      sent, closed := [], false;
    }

    /** A send on a closed channel would end the process. */
    method Send(o: Output)
      requires !closed
      modifies this`sent
      ensures sent == old(sent) + [o]
    {
      sent := sent + [o];
    }
  }

  /** A message of the provider: an error comes instead of a final. */
  datatype Inbound = Failure | Final | Sound(pcm: Pcm) | Other

  function Taken(m: Inbound): seq<Event> {
    match m
    case Failure => [ProviderFinal]
    case Final => [ProviderFinal]
    case Sound(pcm) => if pcm == [] then [] else [ProviderAudio(pcm)]
    case Other => []
  }

  /** What the reader makes of the messages up to the connection's end. */
  function AllTaken(msgs: seq<Inbound>): seq<Event> {
    if msgs == [] then [] else AllTaken(msgs[..|msgs| - 1]) + Taken(msgs[|msgs| - 1])
  }

  lemma {:induction false} AfterMore(s: Sys, evs: seq<Event>, ev: Event)
    ensures After(s, evs + [ev]) == Step(After(s, evs), ev)
    decreases |evs|
  {
    hide Step;
    if evs == [] {
      assert [] + [ev] == [ev] && [ev][1..] == [];
    } else {
      assert (evs + [ev])[1..] == evs[1..] + [ev];
      AfterMore(Step(s, evs[0]), evs[1..], ev);
    }
  }

  /** One message more. */
  lemma AfterTaken(s: Sys, msgs: seq<Inbound>, i: nat)
    requires i < |msgs|
    ensures var before, after := After(s, AllTaken(msgs[..i])), After(s, AllTaken(msgs[..i + 1]));
      after == match msgs[i]
        case Failure => Step(before, ProviderFinal)
        case Final => Step(before, ProviderFinal)
        case Sound(pcm) => if pcm == [] then before else Step(before, ProviderAudio(pcm))
        case Other => before
  {
    hide Step, After;
    assert msgs[..i + 1][..i] == msgs[..i];
    var evs := AllTaken(msgs[..i]);
    assert evs + [] == evs;
    AfterMore(s, evs, ProviderFinal);
    if msgs[i].Sound? {
      AfterMore(s, evs, ProviderAudio(msgs[i].pcm));
    }
  }

  lemma FinalLeavesOpen(c: Client)
    ensures OnFinal(c).chansClosed == c.chansClosed
  {
    if c.pending != [] {
      DrainSafe(Settle(c.(pending := c.pending[1..]), c.pending[0].gen));
    }
  }

  class SarvamClient {
    var pending: seq<Req>
    var endedGens: set<nat>
    var last: Req
    var nextReq: nat
    var closed: bool
    const channels: Channels

    ghost function Model(): Client
      reads this, channels
    {
      Client(pending, endedGens, last, nextReq, closed, channels.closed, channels.sent)
    }

    constructor ()
      ensures Model() == INIT && fresh(channels)
    {
      pending, endedGens, last, nextReq, closed := [], {}, NO_REQ, 0, false;
      channels := new Channels();
    }

    method GenHasPendingLocked(gen: nat) returns (has: bool)
      ensures has == HasPending(pending, gen)
    {
      for i := 0 to |pending|
        invariant forall j :: 0 <= j < i ==> pending[j].gen != gen
      {
        if pending[i].gen == gen {
          return true;
        }
      }
      return false;
    }

    method EmitDoneLocked(gen: nat)
      modifies channels
      ensures Model() == EmitDone(old(Model()), gen)
    {
      if channels.closed {
        return;
      }
      channels.Send(Done(gen));
    }

    method SettleLocked(gen: nat)
      modifies channels
      ensures Model() == Settle(old(Model()), gen)
    {
      if gen in endedGens {
        var has := GenHasPendingLocked(gen);
        if !has {
          EmitDoneLocked(gen);
        }
      }
    }

    method DrainClipsLocked()
      modifies this`pending, channels
      ensures Model() == DrainClips(old(Model()))
    {
      hide Settle, HasPending;
      while |pending| > 0 && pending[0].clip.Some?
        invariant DrainClips(Model()) == DrainClips(old(Model()))
        decreases |pending|
      {
        ghost var before := Model();
        var p := pending[0];
        pending := pending[1..];
        if channels.closed {
          continue;
        }
        channels.Send(Audio(p.clip.value, p.gen, p.req, p.text));
        SettleLocked(p.gen);
        assert Model() == PopClip(before);
        assert pending == before.pending[1..] by {
          SettleFrame(before.(pending := before.pending[1..], sent := channels.sent), p.gen);
        }
      }
    }

    method Speak(text: Text, gen: nat) returns (ok: bool)
      modifies this
      ensures Model() == TtsQueue.Speak(old(Model()), text, gen)
      ensures ok == (Trim(text) == [] || !old(closed))
    {
      if Trim(text) == [] {
        return true;
      }
      if closed {
        return false;
      }
      nextReq := nextReq + 1;
      last := Req(gen, nextReq, text, None);
      pending := pending + [last];
      return true;
    }

    method Play(pcm: TtsQueue.Pcm, text: Text, gen: nat) returns (ok: bool)
      modifies this, channels
      ensures Model() == TtsQueue.Play(old(Model()), pcm, text, gen)
      ensures ok == (pcm == [] || !old(closed))
    {
      hide DrainClips;
      if pcm == [] {
        return true;
      }
      if closed {
        return false;
      }
      nextReq := nextReq + 1;
      pending := pending + [Req(gen, nextReq, text, Some(pcm))];
      DrainClipsLocked();
      return true;
    }

    method EndGeneration(gen: nat)
      modifies this`endedGens, channels
      ensures Model() == TtsQueue.EndGeneration(old(Model()), gen)
    {
      endedGens := endedGens + {gen};
      var has := GenHasPendingLocked(gen);
      if !has {
        EmitDoneLocked(gen);
      }
    }

    method OnFinal() returns (text: Text)
      modifies this`pending, channels
      ensures Model() == TtsQueue.OnFinal(old(Model()))
      ensures text == if old(pending) == [] then [] else old(pending[0].text)
    {
      hide Settle, DrainClips;
      if pending == [] {
        return [];
      }
      var popped := pending[0];
      pending := pending[1..];
      SettleLocked(popped.gen);
      DrainClipsLocked();
      return popped.text;
    }

    method PeekReq() returns (p: Req)
      ensures p == TtsQueue.PeekReq(Model())
    {
      if |pending| > 0 {
        return pending[0];
      }
      return last;
    }

    /** The reader's part: audio from the provider, and the end of the connection. */
    method OnAudio(pcm: TtsQueue.Pcm)
      requires !channels.closed
      modifies channels
      ensures Model() == TtsQueue.OnAudio(old(Model()), pcm)
    {
      var p := PeekReq();
      channels.Send(Audio(pcm, p.gen, p.req, p.text));
    }

    /** The reader's loop: every message up to the connection's end, then the channels are closed. */
    method ReceiveLoop(msgs: seq<Inbound>, ghost provider: seq<Req>)
      requires !channels.closed
      modifies this`pending, channels
      ensures Model() == After(Sys(old(Model()), provider), AllTaken(msgs) + [ChansClosed]).c
    {
      hide TtsQueue.OnFinal, After;
      ghost var start := Sys(Model(), provider);
      assert After(start, AllTaken(msgs[..0])).c == Model() by {
        NothingTaken(start, msgs);
      }
      for i := 0 to |msgs|
        invariant !channels.closed && Model() == After(start, AllTaken(msgs[..i])).c
      {
        AfterTaken(start, msgs, i);
        FinalLeavesOpen(Model());
        match msgs[i] {
          case Failure => var rejected := OnFinal();
          case Final => var spoken := OnFinal();
          case Sound(pcm) =>
            if pcm != [] {
              OnAudio(pcm);
            }
          case Other =>
        }
      }
      assert msgs[..|msgs|] == msgs;
      AfterMore(start, AllTaken(msgs), ChansClosed);
      CloseChannels();
    }

    method CloseChannels()
      modifies channels
      ensures Model() == old(Model()).(chansClosed := true)
    {
      channels.closed := true;
    }

    /** From here on no call adds a request, whatever comes. */
    method Cancel(ghost provider: seq<Req>)
      modifies this`closed
      ensures Model() == old(Model()).(connClosed := true)
      ensures forall evs: seq<Event> :: After(Sys(Model(), provider), evs).c.nextReq == nextReq
    {
      closed := true;
      ghost var s := Sys(Model(), provider);
      forall evs: seq<Event> ensures After(s, evs).c.nextReq == nextReq {
        CancelledAsksNothing(s, evs);
      }
    }
  }

  lemma NothingTaken(s: Sys, msgs: seq<Inbound>)
    ensures After(s, AllTaken(msgs[..0])) == s
  {
  }

  lemma SettleFrame(c: Client, gen: nat)
    ensures Settle(c, gen) == c.(sent := Settle(c, gen).sent)
  {
  }
}
