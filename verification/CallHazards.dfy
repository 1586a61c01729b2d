/** Runs from the start in which what is promised of calls fails, as the exact conditions say it can. */
module CallHazards {
  import opened Wrappers
  import opened CallLifecycle
  import opened CallSafety
  import opened CallCore
  import opened CallPorts

  // ---- one more step --------------------------------------------------------------------------

  lemma ThenSetsUp(evs: seq<Event>, ev: SetupEvent)
    requires Possible(INIT, evs) && SetupEnabled(Reached(INIT, evs), ev)
    ensures Possible(INIT, evs + [Setup(ev)])
    ensures Reached(INIT, evs + [Setup(ev)]) == SetupStep(Reached(INIT, evs), ev)
  {
    hide SetupEnabled, SetupStep, Possible, Reached;
    ThenComes(INIT, evs, Setup(ev));
  }

  lemma ThenEnds(evs: seq<Event>, ev: TearEvent)
    requires Possible(INIT, evs) && TearEnabled(Reached(INIT, evs), ev)
    ensures Possible(INIT, evs + [Ending(ev)])
    ensures Reached(INIT, evs + [Ending(ev)]) == TearStep(Reached(INIT, evs), ev)
  {
    hide TearEnabled, TearStep, Possible, Reached;
    ThenComes(INIT, evs, Ending(ev));
  }

  lemma ThenMoves(evs: seq<Event>, ev: TransferEvent)
    requires Possible(INIT, evs) && TransferEnabled(Reached(INIT, evs), ev)
    ensures Possible(INIT, evs + [Transferring(ev)])
    ensures Reached(INIT, evs + [Transferring(ev)]) == TransferStep(Reached(INIT, evs), ev)
  {
    hide TransferEnabled, TransferStep, Possible, Reached;
    ThenComes(INIT, evs, Transferring(ev));
  }

  // ---- ports and dials ------------------------------------------------------------------------

  /** Call 0 is marked as staged, on port p. */
  lemma CallStaging(p: nat) returns (evs: seq<Event>)
    ensures evs == [Setup(InboundArrives(0)), Setup(PortTaken(p)), Setup(Bound), Setup(MarksStaged)]
    ensures Possible(INIT, evs)
    ensures Reached(INIT, evs)
      == INIT.(loop := SettingUp(0), calls := map[0 := Call(Staging, InSetup, Alive, None, p, 0)],
               pending := map[Caller(0) := 0, Ext(0) := 0], inUse := map[p := 0])
  {
    evs := [];
    ThenSetsUp(evs, InboundArrives(0));
    evs := evs + [Setup(InboundArrives(0))];
    ThenSetsUp(evs, PortTaken(p));
    evs := evs + [Setup(PortTaken(p))];
    ThenSetsUp(evs, Bound);
    evs := evs + [Setup(Bound)];
    ThenSetsUp(evs, MarksStaged);
    evs := evs + [Setup(MarksStaged)];
  }

  /** Call 0 is staged when a purge takes it, and its externalMedia request then fails. */
  lemma PurgedAndFailed(p: nat) returns (evs: seq<Event>)
    ensures evs == [Setup(InboundArrives(0)), Setup(PortTaken(p)), Setup(Bound), Setup(MarksStaged), Ending(Purges),
        Setup(MediaFails)]
    ensures Possible(INIT, evs)
    ensures var s := Reached(INIT, evs);
      && s.loop == Idle && s.active == map[] && s.pending == map[] && s.due == {0} && s.inUse == map[]
          && s.dials == map[]
      && s.calls == map[0 := Call(Failed, InSetup, Alive, None, p, 1)]
  {
    evs := CallStaging(p);
    hide Possible, Reached;
    ThenEnds(evs, Purges);
    assert Reached(INIT, evs).pending.Values == {0} by {
      assert Reached(INIT, evs).pending[Caller(0)] == 0;
    }
    evs := evs + [Ending(Purges)];
    ThenSetsUp(evs, MediaFails);
    evs := evs + [Setup(MediaFails)];
  }

  /** Call 1 is then given the port; call 0's teardown begins. */
  lemma PortTakenAgain(p: nat) returns (evs: seq<Event>)
    ensures Possible(INIT, evs)
    ensures var s := Reached(INIT, evs);
      && s.inUse == map[p := 1] && s.calls.Keys == {0, 1} && s.calls[1] == Call(Binding, New, Alive, None, p, 0)
      && s.calls[0] == Call(Failed, TornDown, Marked(true), None, p, 1)
  {
    evs := PurgedAndFailed(p);
    ThenSetsUp(evs, InboundArrives(1));
    evs := evs + [Setup(InboundArrives(1))];
    ThenSetsUp(evs, PortTaken(p));
    evs := evs + [Setup(PortTaken(p))];
    ThenEnds(evs, TeardownBegins(0));
    evs := evs + [Ending(TeardownBegins(0))];
  }

  /** And gives the port back a second time, under call 1's feet. */
  lemma PortFreedUnderAnotherCall(p: nat) returns (evs: seq<Event>)
    ensures Possible(INIT, evs)
    ensures var s := Reached(INIT, evs);
      && 0 in s.calls && s.calls[0].frees == 2
      && 1 in s.calls && Holds(s.calls[1]) && s.calls[1].port == p && p !in s.inUse
  {
    hide Possible, Reached;
    evs := PortTakenAgain(p);
    ThenEnds(evs, Clears(0));
    evs := evs + [Ending(Clears(0))];
    ThenEnds(evs, HangsDest(0));
    evs := evs + [Ending(HangsDest(0))];
    ThenEnds(evs, FreesPort(0));
    evs := evs + [Ending(FreesPort(0))];
  }

  /** A shutdown ends the ringing during the originate, which then fails: the dial has an outcome,
      and its caller an error. */
  lemma DialFailsTooLate(status: string)
    ensures var evs := [Dialling(DialStarts(0)), Dialling(RingingTaken(0, status)), Dialling(DialFails(0))];
      && Possible(INIT, evs)
      && var s := Reached(INIT, evs);
      0 in s.dials && s.dials[0].status == DialFailed && s.dials[0].outcome == Some(NotConnected(status))
  {
    var e1, e2, e3 := Dialling(DialStarts(0)), Dialling(RingingTaken(0, status)), Dialling(DialFails(0));
    ThenComes(INIT, [], e1);
    assert [] + [e1] == [e1];
    ThenComes(INIT, [e1], e2);
    assert [e1] + [e2] == [e1, e2];
    ThenComes(INIT, [e1, e2], e3);
    assert [e1, e2] + [e3] == [e1, e2, e3];
  }

  /** Call 0 is set up and bridged. */
  lemma BridgedCall(p: nat) returns (evs: seq<Event>)
    ensures Possible(INIT, evs)
    ensures var s := Reached(INIT, evs);
      && s.calls == map[0 := Call(Bridged, InSetup, Alive, None, p, 0)] && s.legs == map[] && s.transfers == {}
      && s.loop == Idle && s.active == map[Caller(0) := 0, Ext(0) := 0] && s.due == {} && s.dueAbort == {}
  {
    evs := CallStaging(p);
    hide Possible, Reached;
    ThenSetsUp(evs, MediaAsked);
    evs := evs + [Setup(MediaAsked)];
    ThenSetsUp(evs, ExtArrives(0));
    evs := evs + [Setup(ExtArrives(0))];
    ThenSetsUp(evs, BridgeMade);
    evs := evs + [Setup(BridgeMade)];
  }

  const CONNECTED := Leg(0, Claimed, true, true, false)

  /** Destination t is dialed for call 0 and answers. */
  lemma ThenAnswers(before: seq<Event>, t: nat) returns (evs: seq<Event>)
    requires Possible(INIT, before)
    requires var s := Reached(INIT, before); 0 in s.calls && s.calls[0].stage == Bridged && t !in s.legs
    ensures Possible(INIT, evs)
    ensures var s, s' := Reached(INIT, before), Reached(INIT, evs);
      && s' == s.(legs := s'.legs, transfers := s'.transfers)
      && s'.legs == s.legs[t := Leg(0, Answered, true, true, false)]
  {
    hide Possible, Reached;
    evs := before;
    ThenMoves(evs, TransferDials(t, 0));
    evs := evs + [Transferring(TransferDials(t, 0))];
    ThenMoves(evs, DestAnswers(t));
    evs := evs + [Transferring(DestAnswers(t))];
    ThenMoves(evs, TakesAnswer(t));
    evs := evs + [Transferring(TakesAnswer(t))];
  }

  /** And is added to its bridge. */
  lemma ThenAdds(before: seq<Event>, t: nat) returns (evs: seq<Event>)
    requires Possible(INIT, before)
    requires var s := Reached(INIT, before);
      && 0 in s.calls && s.calls[0].state != TornDown
      && t in s.legs && s.legs[t] == Leg(0, Answered, true, true, false)
    ensures Possible(INIT, evs)
    ensures var s, s' := Reached(INIT, before), Reached(INIT, evs);
      && s' == s.(legs := s'.legs) && s'.legs == s.legs[t := Leg(0, Added, true, true, false)]
  {
    hide Possible, Reached;
    ThenMoves(before, ChecksCall(t));
    evs := before + [Transferring(ChecksCall(t))];
    ThenMoves(evs, Adds(t));
    evs := evs + [Transferring(Adds(t))];
  }

  /** And is connected to the call. */
  lemma ThenTransfers(before: seq<Event>, t: nat) returns (evs: seq<Event>)
    requires Possible(INIT, before)
    requires var s := Reached(INIT, before);
      && 0 in s.calls && s.calls[0].state != TornDown
      && t in s.legs && s.legs[t] == Leg(0, Answered, true, true, false)
    ensures Possible(INIT, evs)
    ensures var s, s' := Reached(INIT, before), Reached(INIT, evs);
      && s'.legs == s.legs[t := CONNECTED]
      && s'.calls == s.calls[0 := s.calls[0].(transferChannel := Some(t))]
  {
    hide Possible, Reached;
    evs := ThenAdds(before, t);
    ThenMoves(evs, Claims(t));
    evs := evs + [Transferring(Claims(t))];
  }

  /** A call transferred twice forgets the first destination, which stays up. */
  lemma SecondTransferReplacesFirst(p: nat) returns (evs: seq<Event>)
    ensures Possible(INIT, evs)
    ensures var s := Reached(INIT, evs);
      && 0 in s.legs && s.legs[0] == CONNECTED
      && 0 in s.calls && s.calls[0].transferChannel == Some(1)
  {
    hide Possible, Reached;
    evs := BridgedCall(p);
    evs := ThenAnswers(evs, 0);
    evs := ThenTransfers(evs, 0);
    evs := ThenAnswers(evs, 1);
    evs := ThenTransfers(evs, 1);
  }

  /** A destination that hangs up between being added and being connected: it is gone, nobody is to tear
      the call down, and the caller is alone in it. */
  lemma CallerIsLeftAlone(p: nat) returns (evs: seq<Event>)
    ensures Possible(INIT, evs)
    ensures var s := Reached(INIT, evs);
      && 0 in s.legs && s.legs[0].pc == Claimed && !s.legs[0].up
      && 0 in s.calls && s.calls[0].transferChannel == Some(0) && s.calls[0].tear == Alive && s.due == {}
  {
    hide Possible, Reached;
    evs := BridgedCall(p);
    evs := ThenAnswers(evs, 0);
    evs := ThenAdds(evs, 0);
    ThenMoves(evs, DestDestroyed(0));
    evs := evs + [Transferring(DestDestroyed(0))];
    ThenMoves(evs, Claims(0));
    evs := evs + [Transferring(Claims(0))];
  }

  // ---- media that starts late -----------------------------------------------------------------

  /** The caller hangs up when a transfer's destination was just added to the bridge; the media goroutine
      then marks the call torn down as active. */
  lemma MediaRunsLate(p: nat) returns (evs: seq<Event>)
    ensures Possible(INIT, evs)
    ensures var s := Reached(INIT, evs);
      && s.legs == map[0 := Leg(0, Added, true, true, false)]
      && s.calls == map[0 := Call(Bridged, MediaActive, Marked(true), None, p, 0)]
  {
    hide Possible, Reached;
    evs := BridgedCall(p);
    evs := ThenAnswers(evs, 0);
    evs := ThenAdds(evs, 0);
    ThenEnds(evs, StasisEnds(Caller(0)));
    evs := evs + [Ending(StasisEnds(Caller(0)))];
    ThenEnds(evs, TeardownBegins(0));
    evs := evs + [Ending(TeardownBegins(0))];
    ThenEnds(evs, MediaRuns(0));
    evs := evs + [Ending(MediaRuns(0))];
  }

  lemma ThenHungUp(before: seq<Event>) returns (evs: seq<Event>)
    requires Possible(INIT, before)
    requires var s := Reached(INIT, before);
      0 in s.calls && s.calls[0].tear == Marked(true) && s.calls[0].transferChannel == None
    ensures Possible(INIT, evs)
    ensures var s, s' := Reached(INIT, before), Reached(INIT, evs);
      s'.calls == s.calls[0 := s.calls[0].(tear := DestHung)] && s'.legs == s.legs
  {
    hide Possible, Reached;
    ThenEnds(before, Clears(0));
    evs := before + [Ending(Clears(0))];
    ThenEnds(evs, HangsDest(0));
    evs := evs + [Ending(HangsDest(0))];
  }

  lemma ThenTornDown(before: seq<Event>) returns (evs: seq<Event>)
    requires Possible(INIT, before)
    requires var s := Reached(INIT, before);
      0 in s.calls && s.calls[0].tear == Marked(true) && s.calls[0].transferChannel == None
    ensures Possible(INIT, evs)
    ensures var s, s' := Reached(INIT, before), Reached(INIT, evs);
      s'.calls == s.calls[0 := s.calls[0].(tear := Over, frees := s.calls[0].frees + 1)] && s'.legs == s.legs
  {
    hide Possible, Reached;
    evs := ThenHungUp(before);
    ThenEnds(evs, FreesPort(0));
    evs := evs + [Ending(FreesPort(0))];
    ThenEnds(evs, Finishes(0));
    evs := evs + [Ending(Finishes(0))];
  }

  /** So the transfer, its destination added before the hangup, does not see that the call is over, and the
      destination stays up, connected to it. */
  lemma ConnectedToAnEndedCall(p: nat) returns (evs: seq<Event>)
    ensures Possible(INIT, evs)
    ensures var s := Reached(INIT, evs);
      && 0 in s.legs && s.legs[0] == CONNECTED
      && 0 in s.calls && s.calls[0].transferChannel == Some(0) && s.calls[0].tear == Over
  {
    hide Possible, Reached;
    evs := MediaRunsLate(p);
    evs := ThenTornDown(evs);
    ThenMoves(evs, Claims(0));
    evs := evs + [Transferring(Claims(0))];
  }
}
