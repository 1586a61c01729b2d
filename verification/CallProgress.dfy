/** What the calls get done, step by step and from any state: a call is set up, and a destination that answers
    is connected in place of the agent. */
module CallProgress {
  import opened Wrappers
  import opened CallLifecycle
  import opened CallCore

  /** These events can come one after the other, and lead there. */
  ghost predicate Leads(s: Sys, evs: seq<Event>, s': Sys) {
    Possible(s, evs) && Reached(s, evs) == s'
  }

  lemma Nothing(s: Sys)
    ensures Leads(s, [], s)
  {
  }

  lemma Then(s: Sys, evs: seq<Event>, s': Sys, ev: Event)
    requires Leads(s, evs, s') && Enabled(s', ev)
    ensures Leads(s, evs + [ev], Step(s', ev))
  {
    hide Enabled, Step, Possible, Reached;
    ThenComes(s, evs, ev);
  }

  // ---- a call is set up -------------------------------------------------------------------------

  lemma PortIsBound(s: Sys, c: nat, p: nat) returns (evs: seq<Event>, s': Sys)
    requires s.loop == Idle && c !in s.calls && c !in s.dials && p !in s.inUse
    ensures evs == [Setup(InboundArrives(c)), Setup(PortTaken(p)), Setup(Bound)] && Leads(s, evs, s')
    ensures s' == s.(loop := SettingUp(c), calls := s.calls[c := Call(Listed, New, Alive, None, p, 0)],
                     inUse := s.inUse[p := c], pending := s.pending[Ext(c) := c][Caller(c) := c])
  {
    hide Leads;
    Nothing(s);
    Then(s, [], s, Setup(InboundArrives(c)));
    evs, s' := [] + [Setup(InboundArrives(c))], Step(s, Setup(InboundArrives(c)));
    Then(s, evs, s', Setup(PortTaken(p)));
    evs, s' := evs + [Setup(PortTaken(p))], Step(s', Setup(PortTaken(p)));
    Then(s, evs, s', Setup(Bound));
    evs, s' := evs + [Setup(Bound)], Step(s', Setup(Bound));
    assert s'.calls == s.calls[c := Call(Listed, New, Alive, None, p, 0)];
  }

  /** An inbound call with a free port, left alone: it is staged with that port, found by both its legs, and
      nothing else changes. */
  lemma CallIsStaged(s: Sys, c: nat, p: nat) returns (evs: seq<Event>, s': Sys)
    requires s.loop == Idle && c !in s.calls && c !in s.dials && p !in s.inUse
    ensures evs
      == [Setup(InboundArrives(c)), Setup(PortTaken(p)), Setup(Bound)] + [Setup(MarksStaged)] + [Setup(MediaAsked)]
    ensures Leads(s, evs, s')
    ensures s' == s.(calls := s.calls[c := Call(Staged, InSetup, Alive, None, p, 0)], inUse := s.inUse[p := c],
                     pending := s.pending[Ext(c) := c][Caller(c) := c])
  {
    hide Leads;
    evs, s' := PortIsBound(s, c, p);
    Then(s, evs, s', Setup(MarksStaged));
    evs, s' := evs + [Setup(MarksStaged)], Step(s', Setup(MarksStaged));
    Then(s, evs, s', Setup(MediaAsked));
    evs, s' := evs + [Setup(MediaAsked)], Step(s', Setup(MediaAsked));
    assert s'.calls == s.calls[c := Call(Staged, InSetup, Alive, None, p, 0)];
  }

  /** And once its other leg arrives, bridged: both its legs are active, neither is pending. */
  lemma CallIsBridged(s: Sys, c: nat) returns (evs: seq<Event>, s': Sys)
    requires s.loop == Idle && c in s.calls && Ext(c) in s.pending
    ensures evs == [Setup(ExtArrives(c)), Setup(BridgeMade)] && Leads(s, evs, s')
    ensures s' == s.(calls := s.calls[c := s.calls[c].(stage := Bridged)], pending := s.pending - Legs2(c),
                     active := s.active[Caller(c) := c][Ext(c) := c])
  {
    hide Leads;
    Nothing(s);
    Then(s, [], s, Setup(ExtArrives(c)));
    evs, s' := [] + [Setup(ExtArrives(c))], Step(s, Setup(ExtArrives(c)));
    Then(s, evs, s', Setup(BridgeMade));
    evs, s' := evs + [Setup(BridgeMade)], Step(s', Setup(BridgeMade));
    assert s'.calls == s.calls[c := s.calls[c].(stage := Bridged)];
  }

  // ---- a transfer ---------------------------------------------------------------------------------

  function Transfer(t: nat, c: nat): seq<Event> {
    [Transferring(TransferDials(t, c)), Transferring(DestAnswers(t)), Transferring(TakesAnswer(t)),
     Transferring(ChecksCall(t)), Transferring(Adds(t)), Transferring(Claims(t))]
  }

  lemma DestinationAnswers(s: Sys, t: nat, c: nat) returns (evs: seq<Event>, s': Sys)
    requires t !in s.legs && t !in s.transfers && c in s.calls && s.calls[c].stage == Bridged
    ensures evs == Transfer(t, c)[..3] && Leads(s, evs, s')
    ensures s' == s.(legs := s.legs[t := Leg(c, Answered, true, true, false)])
  {
    hide Leads;
    Nothing(s);
    Then(s, [], s, Transferring(TransferDials(t, c)));
    evs, s' := [] + [Transferring(TransferDials(t, c))], Step(s, Transferring(TransferDials(t, c)));
    Then(s, evs, s', Transferring(DestAnswers(t)));
    evs, s' := evs + [Transferring(DestAnswers(t))], Step(s', Transferring(DestAnswers(t)));
    assert s'.legs == s.legs[t := Leg(c, Waiting, true, true, false)];
    Then(s, evs, s', Transferring(TakesAnswer(t)));
    evs, s' := evs + [Transferring(TakesAnswer(t))], Step(s', Transferring(TakesAnswer(t)));
    assert s'.transfers == s.transfers;
  }

  lemma DestinationIsAdded(s: Sys, before: seq<Event>, s1: Sys, t: nat) returns (evs: seq<Event>, s': Sys)
    requires Leads(s, before, s1) && t in s1.legs && s1.legs[t].pc == Answered && s1.legs[t].call in s1.calls
    requires s1.calls[s1.legs[t].call].state != TornDown
    ensures evs == before + [Transferring(ChecksCall(t))] + [Transferring(Adds(t))] && Leads(s, evs, s')
    ensures s' == s1.(legs := s1.legs[t := s1.legs[t].(pc := Added)])
  {
    hide Leads;
    Then(s, before, s1, Transferring(ChecksCall(t)));
    evs, s' := before + [Transferring(ChecksCall(t))], Step(s1, Transferring(ChecksCall(t)));
    Then(s, evs, s', Transferring(Adds(t)));
    evs, s' := evs + [Transferring(Adds(t))], Step(s', Transferring(Adds(t)));
    assert s'.legs == s1.legs[t := s1.legs[t].(pc := Added)];
  }

  /** A destination that answers is connected: up, in the agent leg's place, and the call knows it. */
  lemma DestinationIsConnected(s: Sys, t: nat, c: nat) returns (s': Sys)
    requires t !in s.legs && t !in s.transfers && c in s.calls && s.calls[c].stage == Bridged
    requires s.calls[c].state != TornDown
    ensures Leads(s, Transfer(t, c), s')
    ensures s' == s.(legs := s.legs[t := Leg(c, Claimed, true, true, false)],
                     calls := s.calls[c := s.calls[c].(transferChannel := Some(t))],
                     active := s.active[Dest(t) := c] - {Ext(c)})
  {
    hide Leads;
    var evs, s1 := DestinationAnswers(s, t, c);
    evs, s1 := DestinationIsAdded(s, evs, s1, t);
    Then(s, evs, s1, Transferring(Claims(t)));
    s' := Step(s1, Transferring(Claims(t)));
    assert evs + [Transferring(Claims(t))] == Transfer(t, c);
    assert s'.legs == s.legs[t := Leg(c, Claimed, true, true, false)];
  }

  /** Nobody waits for it any more, or the call is over: it is hung up instead, whenever it answers. */
  lemma UnwantedDestinationIsHungUp(s: Sys, t: nat)
    requires Enabled(s, Transferring(DestAnswers(t))) && t !in s.transfers
    ensures var s' := Step(s, Transferring(DestAnswers(t))); t in s'.legs && !s'.legs[t].up && !s'.legs[t].answered
  {
  }

  lemma TornDownCallIsNotConnected(s: Sys, t: nat) returns (s': Sys)
    requires t in s.legs && s.legs[t].call in s.calls && s.calls[s.legs[t].call].state == TornDown
    requires s.legs[t].pc == Answered || s.legs[t].pc == Added
    ensures Leads(s, [Transferring(if s.legs[t].pc == Answered then ChecksCall(t) else Claims(t)),
                      Transferring(HangsLeg(t))], s')
    ensures s' == s.(legs := s.legs[t := s.legs[t].(pc := GaveUp, up := false)])
  {
    hide Leads;
    Nothing(s);
    var first := Transferring(if s.legs[t].pc == Answered then ChecksCall(t) else Claims(t));
    Then(s, [], s, first);
    var s1 := Step(s, first);
    Then(s, [] + [first], s1, Transferring(HangsLeg(t)));
    s' := Step(s1, Transferring(HangsLeg(t)));
    assert [] + [first] + [Transferring(HangsLeg(t))] == [first, Transferring(HangsLeg(t))];
    assert s'.legs == s.legs[t := s.legs[t].(pc := GaveUp, up := false)];
  }

  /** A destination that fails before it answers, or does not answer in time, is given up; up, it is hung up. */
  lemma WaitingEnds(s: Sys, t: nat, failed: bool) returns (evs: seq<Event>, s': Sys)
    requires t in s.legs && s.legs[t].call in s.calls && s.legs[t].pc == Waiting && t in s.transfers
    ensures evs == if failed then [Transferring(DestDestroyed(t)), Transferring(TakesFailure(t))]
                   else [Transferring(GivesUp(t)), Transferring(HangsLeg(t))]
    ensures Leads(s, evs, s') && t in s'.legs && s'.legs[t].pc == GaveUp && !s'.legs[t].up && t !in s'.transfers
  {
    hide Leads;
    Nothing(s);
    if failed {
      Then(s, [], s, Transferring(DestDestroyed(t)));
      evs, s' := [] + [Transferring(DestDestroyed(t))], Step(s, Transferring(DestDestroyed(t)));
      Then(s, evs, s', Transferring(TakesFailure(t)));
      evs, s' := evs + [Transferring(TakesFailure(t))], Step(s', Transferring(TakesFailure(t)));
    } else {
      Then(s, [], s, Transferring(GivesUp(t)));
      evs, s' := [] + [Transferring(GivesUp(t))], Step(s, Transferring(GivesUp(t)));
      Then(s, evs, s', Transferring(HangsLeg(t)));
      evs, s' := evs + [Transferring(HangsLeg(t))], Step(s', Transferring(HangsLeg(t)));
    }
  }

  // ---- a call ends ----------------------------------------------------------------------------------

  /** The event makes the call's teardown due: one of its tracked channels left, its media died, or
      everything is purged. */
  ghost predicate Owes(s: Sys, ev: Event, c: nat) {
    match ev
    case Ending(StasisEnds(ch)) => ch in s.active && s.active[ch] == c
    case Ending(MediaDead(d)) => d == c
    case Ending(Purges) => exists ch :: (ch in s.active && s.active[ch] == c) || (ch in s.pending && s.pending[ch] == c)
    case _ => false
  }

  /** Exactly these do; and it is due until it begins. */
  lemma TeardownIsOwedExactly(s: Sys, ev: Event, c: nat)
    requires Enabled(s, ev)
    ensures c in Step(s, ev).due <==> Owes(s, ev, c) || (c in s.due && ev != Ending(TeardownBegins(c)))
  {
    hide SetupStep, TearStep, TransferStep, DialStep, SetupEnabled, TransferEnabled, DialEnabled;
    match ev {
      case Setup(e) => SetupOwesNone(s, e);
      case Ending(e) => TearOwes(s, e, c);
      case Dialling(e) => DialOwesNone(s, e);
      case Transferring(e) => TransferOwesNone(s, e);
    }
  }

  lemma SetupOwesNone(s: Sys, ev: SetupEvent)
    requires SetupEnabled(s, ev)
    ensures SetupStep(s, ev).due == s.due
  {
  }

  lemma DialOwesNone(s: Sys, ev: DialEvent)
    requires DialEnabled(s, ev)
    ensures DialStep(s, ev).due == s.due
  {
  }

  lemma TransferOwesNone(s: Sys, ev: TransferEvent)
    requires TransferEnabled(s, ev)
    ensures TransferStep(s, ev).due == s.due
  {
  }

  lemma TearOwes(s: Sys, ev: TearEvent, c: nat)
    requires TearEnabled(s, ev)
    ensures c in TearStep(s, ev).due <==> Owes(s, Ending(ev), c) || (c in s.due && ev != TeardownBegins(c))
  {
    if ev.Purges? {
      assert c in s.active.Values <==> exists ch :: ch in s.active && s.active[ch] == c;
      assert c in s.pending.Values <==> exists ch :: ch in s.pending && s.pending[ch] == c;
    }
  }

  function Teardown(c: nat): seq<Event> {
    [Ending(TeardownBegins(c)), Ending(Clears(c)), Ending(HangsDest(c)), Ending(FreesPort(c)), Ending(Finishes(c))]
  }

  lemma TeardownClears(s: Sys, c: nat) returns (evs: seq<Event>, s': Sys)
    requires c in s.due && c in s.calls && s.calls[c].tear == Alive
    ensures evs == Teardown(c)[..2] && Leads(s, evs, s')
    ensures var dest := s.calls[c].transferChannel;
      s' == s.(due := s.due - {c}, calls := s.calls[c := s.calls[c].(state := TornDown, tear := Cleared(dest))],
               active := s.active - Legs2(c) - DestOf(dest), pending := s.pending - Legs2(c))
  {
    hide Leads;
    Nothing(s);
    Then(s, [], s, Ending(TeardownBegins(c)));
    evs, s' := [] + [Ending(TeardownBegins(c))], Step(s, Ending(TeardownBegins(c)));
    Then(s, evs, s', Ending(Clears(c)));
    evs, s' := evs + [Ending(Clears(c))], Step(s', Ending(Clears(c)));
    assert s'.calls == s.calls[c := s.calls[c].(state := TornDown, tear := Cleared(s.calls[c].transferChannel))];
  }

  lemma TeardownFrees(s: Sys, before: seq<Event>, s1: Sys, c: nat) returns (evs: seq<Event>, s': Sys)
    requires Leads(s, before, s1) && c in s1.calls && s1.calls[c].tear.Cleared?
    ensures evs == before + [Ending(HangsDest(c))] + [Ending(FreesPort(c))] && Leads(s, evs, s')
    ensures var k := s1.calls[c];
      s' == s1.(calls := s1.calls[c := k.(tear := Freed, frees := k.frees + 1)], inUse := s1.inUse - {k.port},
                legs := if k.tear.dest.Some? then HungUp(s1.legs, k.tear.dest.value) else s1.legs)
  {
    hide Leads, HungUp;
    Then(s, before, s1, Ending(HangsDest(c)));
    evs, s' := before + [Ending(HangsDest(c))], Step(s1, Ending(HangsDest(c)));
    Then(s, evs, s', Ending(FreesPort(c)));
    evs, s' := evs + [Ending(FreesPort(c))], Step(s', Ending(FreesPort(c)));
    var k := s1.calls[c];
    assert s'.calls == s1.calls[c := k.(tear := Freed, frees := k.frees + 1)];
  }

  /** A teardown that is due, left alone, ends the call: its port given back, none of its legs nor its
      destination tracked, the destination down, its dial no longer waited for and with an outcome. */
  lemma CallIsTornDown(s: Sys, c: nat) returns (s': Sys)
    requires c in s.due && c in s.calls && s.calls[c].tear == Alive
    ensures Leads(s, Teardown(c), s')
    ensures var k := s.calls[c];
      && s'.calls == s.calls[c := k.(state := TornDown, tear := Over, frees := k.frees + 1)]
      && s'.inUse == s.inUse - {k.port}
      && s'.active == s.active - Legs2(c) - DestOf(k.transferChannel) && s'.pending == s.pending - Legs2(c)
      && (k.transferChannel.Some? && k.transferChannel.value in s.legs ==>
          k.transferChannel.value in s'.legs && !s'.legs[k.transferChannel.value].up)
      && c !in s'.outbound && (c in s.dials ==> c in s'.dials && s'.dials[c].outcome.Some?)
  {
    hide Leads;
    var k := s.calls[c];
    var evs, s1 := TeardownClears(s, c);
    var s2: Sys;
    evs, s2 := TeardownFrees(s, evs, s1, c);
    Then(s, evs, s2, Ending(Finishes(c)));
    s' := Step(s2, Ending(Finishes(c)));
    assert evs + [Ending(Finishes(c))] == Teardown(c);
    assert s'.calls == s.calls[c := k.(state := TornDown, tear := Over, frees := k.frees + 1)];
  }
}
