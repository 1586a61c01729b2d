/** What calls owe: for a dialed call one outcome, whatever else is overtaken. */
module CallOutcomes {
  import opened Wrappers
  import opened CallLifecycle
  import opened CallCore

  // ---- outcomes --------------------------------------------------------------------------

  datatype DialView = DialView(d: Dial, outbound: bool, starting: bool, call: Option<Call>)

  function ViewDial(s: Sys, c: nat): DialView
    requires c in s.dials
  {
    DialView(s.dials[c], c in s.outbound, s.loop == Starting(c), if c in s.calls then Some(s.calls[c]) else None)
  }

  predicate IsOver(k: Call) {
    k.stage == Failed || k.tear == Over
  }

  /** A dial is in `outbound` until it has its outcome; it has none if the dial itself failed. Only the
      agent of a bridged call is started. */
  predicate DialOk(v: DialView) {
    && (v.outbound ==> v.d.outcome == None && v.d.status != DialFailed)
    && (!v.outbound && v.d.status != DialFailed ==> v.d.outcome.Some?)
    && (v.d.status == DialFailed ==> v.d.outcome == None && !v.d.answered)
    && (v.starting ==> v.outbound && v.d.answered)
    && (v.call.Some? ==> v.d.answered && (v.outbound <==> !IsOver(v.call.value)))
    && (v.d.agentStarted ==> v.call.Some? && v.call.value.stage == Bridged)
  }

  ghost predicate DialsSafe(s: Sys) {
    && (forall c :: c in s.dials ==> DialOk(ViewDial(s, c)))
    && s.outbound <= s.dials.Keys
  }

  /** The dial fails after its ringing was already ended: its outcome was delivered, and the
      caller is told nothing was dialed. */
  predicate FailsTooLate(s: Sys, ev: Event) {
    ev.Dialling? && ev.d.DialFails? && ev.d.c !in s.outbound
  }

  lemma ArrivalDial(s: Sys, ev: SetupEvent, c: nat)
    requires SetInOrder(s) && SetupEnabled(s, ev) && s.outbound <= s.dials.Keys
    requires c in s.dials && DialOk(ViewDial(s, c))
    requires ev.InboundArrives? || ev.CalleeAnswers? || ev.AnswerFails? || ev.NoPort?
    ensures c in SetupStep(s, ev).dials && DialOk(ViewDial(SetupStep(s, ev), c))
  {
  }

  lemma PortDial(s: Sys, ev: SetupEvent, c: nat)
    requires SetInOrder(s) && SetupEnabled(s, ev) && s.outbound <= s.dials.Keys
    requires c in s.dials && DialOk(ViewDial(s, c))
    requires ev.PortTaken? || ev.BindFails?
    ensures c in SetupStep(s, ev).dials && DialOk(ViewDial(SetupStep(s, ev), c))
  {
  }

  lemma StagingDial(s: Sys, ev: SetupEvent, c: nat)
    requires SetInOrder(s) && SetupEnabled(s, ev) && s.outbound <= s.dials.Keys
    requires c in s.dials && DialOk(ViewDial(s, c))
    requires !IsArrival(ev)
    ensures c in SetupStep(s, ev).dials && DialOk(ViewDial(SetupStep(s, ev), c))
  {
  }

  lemma TearDial(s: Sys, ev: TearEvent, c: nat)
    requires SetInOrder(s) && TearEnabled(s, ev) && c in s.dials && DialOk(ViewDial(s, c))
    ensures c in TearStep(s, ev).dials && DialOk(ViewDial(TearStep(s, ev), c))
  {
  }

  lemma TransferDial(s: Sys, ev: TransferEvent, c: nat)
    requires TransferEnabled(s, ev) && c in s.dials && DialOk(ViewDial(s, c))
    ensures c in TransferStep(s, ev).dials && DialOk(ViewDial(TransferStep(s, ev), c))
  {
  }

  lemma DialDial(s: Sys, ev: DialEvent, c: nat)
    requires DialEnabled(s, ev) && c in DialStep(s, ev).dials && !FailsTooLate(s, Dialling(ev))
    requires c in s.dials ==> DialOk(ViewDial(s, c))
    ensures DialOk(ViewDial(DialStep(s, ev), c))
  {
  }

  lemma SetupKeepsDials(s: Sys, ev: SetupEvent)
    requires SetupEnabled(s, ev) && s.outbound <= s.dials.Keys
    ensures SetupStep(s, ev).outbound <= SetupStep(s, ev).dials.Keys == s.dials.Keys
  {
  }

  lemma TearKeepsDials(s: Sys, ev: TearEvent)
    requires TearEnabled(s, ev) && s.outbound <= s.dials.Keys
    ensures TearStep(s, ev).outbound <= TearStep(s, ev).dials.Keys == s.dials.Keys
  {
  }

  lemma DialsOf(s: Sys, ev: Event)
    requires Enabled(s, ev) && s.outbound <= s.dials.Keys
    ensures Step(s, ev).outbound <= Step(s, ev).dials.Keys
    ensures !ev.Dialling? ==> Step(s, ev).dials.Keys == s.dials.Keys
  {
    hide SetupStep, TearStep, TransferStep, DialStep, SetupEnabled, TearEnabled, TransferEnabled, DialEnabled;
    match ev {
      case Setup(e) => SetupKeepsDials(s, e);
      case Ending(e) => TearKeepsDials(s, e);
      case Dialling(e) => DialDials(s, e);
      case Transferring(e) => TransferKeepsDials(s, e);
    }
  }

  lemma DialDials(s: Sys, ev: DialEvent)
    requires DialEnabled(s, ev) && s.outbound <= s.dials.Keys
    ensures DialStep(s, ev).outbound <= DialStep(s, ev).dials.Keys
  {
  }

  lemma TransferKeepsDials(s: Sys, ev: TransferEvent)
    requires TransferEnabled(s, ev)
    ensures TransferStep(s, ev).outbound == s.outbound && TransferStep(s, ev).dials == s.dials
  {
  }

  /** A step keeps one outcome for every dial exactly when no dial fails too late. */
  lemma OutcomesExactlyUnlessTooLate(s: Sys, ev: Event)
    requires SetInOrder(s) && Enabled(s, ev) && DialsSafe(s)
    ensures DialsSafe(Step(s, ev)) <==> !FailsTooLate(s, ev)
  {
    hide SetInOrder, SetupStep, TearStep, TransferStep, SetupEnabled, TearEnabled, TransferEnabled, DialOk;
    var s' := Step(s, ev);
    DialsOf(s, ev);
    if FailsTooLate(s, ev) {
      TooLateBreaks(s, ev);
    } else {
      forall c | c in s'.dials ensures DialOk(ViewDial(s', c)) {
        match ev {
          case Setup(e) =>
            if e.PortTaken? || e.BindFails? {
              PortDial(s, e, c);
            } else if IsArrival(e) {
              ArrivalDial(s, e, c);
            } else {
              StagingDial(s, e, c);
            }
          case Ending(e) => TearDial(s, e, c);
          case Transferring(e) => TransferDial(s, e, c);
          case Dialling(e) => DialDial(s, e, c);
        }
      }
    }
  }

  lemma TooLateBreaks(s: Sys, ev: Event)
    requires Enabled(s, ev) && DialsSafe(s) && FailsTooLate(s, ev)
    ensures !DialsSafe(Step(s, ev)) && s.dials[ev.d.c].outcome.Some?
  {
    var s' := Step(s, ev);
    assert DialOk(ViewDial(s, ev.d.c));
    assert !DialOk(ViewDial(s', ev.d.c));
  }

  // ---- runs -------------------------------------------------------------------------------

  /** No dial fails after its ringing was ended. */
  ghost predicate NeverTooLate(s: Sys, evs: seq<Event>)
    requires Possible(s, evs)
    decreases |evs|
  {
    evs != [] ==> !FailsTooLate(s, evs[0]) && NeverTooLate(Step(s, evs[0]), evs[1..])
  }

  lemma {:induction false} RunDials(s: Sys, evs: seq<Event>)
    requires SetInOrder(s) && DialsSafe(s) && Possible(s, evs) && NeverTooLate(s, evs)
    ensures SetInOrder(Reached(s, evs)) && DialsSafe(Reached(s, evs))
    decreases |evs|
  {
    hide SetInOrder, DialsSafe, Enabled, FailsTooLate, Step;
    if evs != [] {
      StepOrder(s, evs[0]);
      OutcomesExactlyUnlessTooLate(s, evs[0]);
      RunDials(Step(s, evs[0]), evs[1..]);
    }
  }

  lemma InitDials()
    ensures SetInOrder(INIT) && DialsSafe(INIT)
  {
  }

  /** A dial that returned without an error has its outcome once its call is over, or once it is no
      longer ringing or answered; a dial that failed never has one. */
  lemma EveryDialHasOneOutcome(evs: seq<Event>, c: nat)
    requires Possible(INIT, evs) && NeverTooLate(INIT, evs) && c in Reached(INIT, evs).dials
    ensures var s := Reached(INIT, evs);
      var d := s.dials[c];
      && (d.status != DialFailed ==> (d.outcome.Some? <==> c !in s.outbound))
      && (d.status == DialFailed ==> d.outcome == None)
      && (c in s.calls ==> (d.outcome.Some? <==> IsOver(s.calls[c])))
  {
    hide Possible, Reached, NeverTooLate, SetInOrder;
    InitDials();
    RunDials(INIT, evs);
    assert DialOk(ViewDial(Reached(INIT, evs), c));
  }

  /** The outcome a step gives, if it gives one. */
  predicate Gives(s: Sys, ev: Event, c: nat, after: Option<Outcome>)
    requires c in s.dials
  {
    var before := s.dials[c].outcome;
    && (before.Some? ==> after == before)
    && (before == None && after.Some? ==>
        (after.value == Connected <==> ev == Ending(Finishes(c)) && s.dials[c].agentStarted))
  }

  lemma SetupGives(s: Sys, ev: SetupEvent, c: nat)
    requires SetupEnabled(s, ev) && c in s.dials
    ensures c in SetupStep(s, ev).dials && Gives(s, Setup(ev), c, SetupStep(s, ev).dials[c].outcome)
  {
  }

  lemma TearGives(s: Sys, ev: TearEvent, c: nat)
    requires TearEnabled(s, ev) && c in s.dials
    ensures c in TearStep(s, ev).dials && Gives(s, Ending(ev), c, TearStep(s, ev).dials[c].outcome)
  {
  }

  lemma DialGives(s: Sys, ev: DialEvent, c: nat)
    requires DialEnabled(s, ev) && c in s.dials
    ensures c in DialStep(s, ev).dials && Gives(s, Dialling(ev), c, DialStep(s, ev).dials[c].outcome)
  {
  }

  /** An outcome once given stays; one is given as Connected exactly when the call is finished with
      its agent started. */
  lemma StepGives(s: Sys, ev: Event, c: nat)
    requires Enabled(s, ev) && c in s.dials
    ensures c in Step(s, ev).dials && Gives(s, ev, c, Step(s, ev).dials[c].outcome)
  {
    hide Gives, SetupStep, TearStep, DialStep, SetupEnabled, TearEnabled, DialEnabled;
    match ev {
      case Setup(e) => SetupGives(s, e, c);
      case Ending(e) => TearGives(s, e, c);
      case Dialling(e) => DialGives(s, e, c);
      case Transferring(e) => TransferGives(s, e, c);
    }
  }

  lemma TransferGives(s: Sys, ev: TransferEvent, c: nat)
    requires TransferEnabled(s, ev) && c in s.dials
    ensures c in TransferStep(s, ev).dials && Gives(s, Transferring(ev), c, TransferStep(s, ev).dials[c].outcome)
  {
  }

  /** What happened, in a run, before its i-th event. */
  ghost predicate Happened(evs: seq<Event>, ev: Event) {
    exists i :: 0 <= i < |evs| && evs[i] == ev
  }

  /** Both happened, the first before the second. */
  ghost predicate HappenedBefore(evs: seq<Event>, first: Event, second: Event) {
    exists i, j :: 0 <= i < j < |evs| && evs[i] == first && evs[j] == second
  }

  lemma HappensAlso(evs: seq<Event>, ev: Event, first: Event)
    ensures Happened(evs + [ev], first) <==> Happened(evs, first) || ev == first
  {
    var all := evs + [ev];
    assert all[|evs|] == ev;
    if i :| 0 <= i < |evs| && evs[i] == first {
      assert all[i] == first;
    }
  }

  lemma HappensBeforeAlso(evs: seq<Event>, ev: Event, first: Event, second: Event)
    ensures HappenedBefore(evs + [ev], first, second)
      <==> HappenedBefore(evs, first, second) || (Happened(evs, first) && ev == second)
  {
    var all := evs + [ev];
    assert all[|evs|] == ev;
    if i, j :| 0 <= i < j < |all| && all[i] == first && all[j] == second {
      assert evs[i] == first;
      assert j < |evs| ==> evs[j] == second;
    }
    if i, j :| 0 <= i < j < |evs| && evs[i] == first && evs[j] == second {
      assert all[i] == first && all[j] == second;
    }
    if ev == second {
      if i :| 0 <= i < |evs| && evs[i] == first {
        assert all[i] == first;
      }
    }
  }

  lemma {:induction false} RunSnoc(s: Sys, evs: seq<Event>, ev: Event)
    requires Possible(s, evs + [ev]) && NeverTooLate(s, evs + [ev])
    ensures Possible(s, evs) && NeverTooLate(s, evs)
    ensures var s1 := Reached(s, evs);
      Enabled(s1, ev) && !FailsTooLate(s1, ev) && Reached(s, evs + [ev]) == Step(s1, ev)
    decreases |evs|
  {
    hide Enabled, FailsTooLate, Step;
    if evs == [] {
      assert [] + [ev] == [ev] && [ev][1..] == [];
    } else {
      assert (evs + [ev])[1..] == evs[1..] + [ev];
      RunSnoc(Step(s, evs[0]), evs[1..], ev);
    }
  }

  /** What the dial says of its agent and its outcome, by what happened. */
  ghost predicate Recounts(s: Sys, evs: seq<Event>, c: nat) {
    var agent, done := Dialling(AgentStarts(c)), Ending(Finishes(c));
    && (Happened(evs, agent) <==> c in s.dials && s.dials[c].agentStarted)
    && (c in s.dials ==> (s.dials[c].outcome == Some(Connected) <==> HappenedBefore(evs, agent, done)))
    && (c !in s.dials ==> !HappenedBefore(evs, agent, done))
  }

  /** The agent of a dial is started by its event alone. */
  lemma StartsAgent(s: Sys, ev: Event, c: nat)
    requires Enabled(s, ev)
    ensures var s' := Step(s, ev);
      && (c in s.dials ==>
          c in s'.dials
          && s'.dials[c].agentStarted == (s.dials[c].agentStarted || ev == Dialling(AgentStarts(c))))
      && (c !in s.dials && c in s'.dials ==> s'.dials[c] == Dial(Dialing, false, false, None))
      && (ev == Dialling(AgentStarts(c)) ==> c in s.dials)
  {
    hide SetupStep, TearStep, TransferStep, DialStep, SetupEnabled, TearEnabled, TransferEnabled, DialEnabled;
    match ev {
      case Setup(e) => SetupStartsNone(s, e, c);
      case Ending(e) => TearStartsNone(s, e, c);
      case Transferring(e) => TransferKeepsDials(s, e);
      case Dialling(e) => DialStartsOwn(s, e, c);
    }
  }

  lemma DialStartsOwn(s: Sys, ev: DialEvent, c: nat)
    requires DialEnabled(s, ev)
    ensures var s' := DialStep(s, ev);
      && (c in s.dials ==>
          c in s'.dials
          && s'.dials[c].agentStarted == (s.dials[c].agentStarted || ev == AgentStarts(c)))
      && (c !in s.dials && c in s'.dials ==> s'.dials[c] == Dial(Dialing, false, false, None))
      && (ev == AgentStarts(c) ==> c in s.dials)
  {
  }

  lemma SetupStartsNone(s: Sys, ev: SetupEvent, c: nat)
    requires SetupEnabled(s, ev)
    ensures var s' := SetupStep(s, ev);
      s'.dials.Keys == s.dials.Keys && (c in s.dials ==> s'.dials[c].agentStarted == s.dials[c].agentStarted)
  {
  }

  lemma TearStartsNone(s: Sys, ev: TearEvent, c: nat)
    requires TearEnabled(s, ev)
    ensures var s' := TearStep(s, ev);
      s'.dials.Keys == s.dials.Keys && (c in s.dials ==> s'.dials[c].agentStarted == s.dials[c].agentStarted)
  {
  }

  /** A call that is being finished gets its outcome, unless its setup failed under its teardown: that
      has given it one, and its agent was never started. */
  lemma FinishesDial(s: Sys, c: nat)
    requires DialsSafe(s) && TearEnabled(s, Finishes(c)) && c in s.dials
    ensures var d, d' := s.dials[c], TearStep(s, Finishes(c)).dials[c];
      if d.outcome == None then d'.outcome == Some(EndOf(d)) else d'.outcome == d.outcome && !d.agentStarted
  {
    assert DialOk(ViewDial(s, c));
  }

  lemma StepRecounts(s: Sys, evs: seq<Event>, ev: Event, c: nat)
    requires DialsSafe(s) && Enabled(s, ev) && Recounts(s, evs, c)
    ensures Recounts(Step(s, ev), evs + [ev], c)
  {
    hide DialsSafe, Enabled, Step, Happened, HappenedBefore;
    var agent, done := Dialling(AgentStarts(c)), Ending(Finishes(c));
    HappensAlso(evs, ev, agent);
    HappensBeforeAlso(evs, ev, agent, done);
    StartsAgent(s, ev, c);
    if c in s.dials {
      StepGives(s, ev, c);
      if ev == done {
        Finishing(s, c);
      }
    }
  }

  lemma Finishing(s: Sys, c: nat)
    requires DialsSafe(s) && Enabled(s, Ending(Finishes(c))) && c in s.dials
    ensures var d, d' := s.dials[c], Step(s, Ending(Finishes(c))).dials[c];
      if d.outcome == None then d'.outcome == Some(EndOf(d)) else d'.outcome == d.outcome && !d.agentStarted
  {
    hide DialsSafe;
    FinishesDial(s, c);
  }

  lemma {:induction false} RunRecounts(evs: seq<Event>, c: nat)
    requires Possible(INIT, evs) && NeverTooLate(INIT, evs)
    ensures Recounts(Reached(INIT, evs), evs, c)
    decreases |evs|
  {
    hide SetInOrder, DialsSafe, Enabled, FailsTooLate, Step, Possible, Reached, NeverTooLate, Recounts;
    if evs == [] {
      NothingHappened(c);
    } else {
      var n := |evs| - 1;
      assert evs == evs[..n] + [evs[n]];
      RunSnoc(INIT, evs[..n], evs[n]);
      RunRecounts(evs[..n], c);
      InitDials();
      RunDials(INIT, evs[..n]);
      StepRecounts(Reached(INIT, evs[..n]), evs[..n], evs[n], c);
    }
  }

  lemma NothingHappened(c: nat)
    ensures Possible(INIT, []) && Recounts(Reached(INIT, []), [], c)
  {
  }

  /** Over whole runs: a dial's outcome is Connected exactly if the call's agent started before the
      call was finished. */
  lemma ConnectedExactlyIfAgentStarted(evs: seq<Event>, c: nat)
    requires Possible(INIT, evs) && NeverTooLate(INIT, evs) && c in Reached(INIT, evs).dials
    ensures Reached(INIT, evs).dials[c].outcome == Some(Connected)
      <==> HappenedBefore(evs, Dialling(AgentStarts(c)), Ending(Finishes(c)))
  {
    hide Possible, Reached, NeverTooLate;
    RunRecounts(evs, c);
  }

  // ---- why a dial ended as it did ---------------------------------------------------------------

  /** What a step that ends dial c says of it: the status its ringing was ended with; how its answered call
      ended; or that it failed. */
  function Why(s: Sys, ev: Event, c: nat): Outcome
    requires c in s.dials
  {
    match ev
    case Dialling(RingingTaken(_, status)) => NotConnected(status)
    case Ending(Finishes(_)) => if s.dials[c].agentStarted then Connected else NotConnected("failed")
    case _ => NotConnected("failed")
  }

  /** The step ends dial c: its ringing, while nobody answered; its finished call; or its setup that failed. */
  predicate Concludes(s: Sys, ev: Event, c: nat) {
    match ev
    case Dialling(RingingTaken(d, _)) => d == c && c in s.outbound && c in s.dials && !s.dials[c].answered
    case Ending(Finishes(d)) => d == c
    case Setup(e) =>
      (e.NoPort? || e.BindFails? || e.MediaFails?) && (s.loop.Starting? || s.loop.SettingUp?) && s.loop.c == c
      && c in s.outbound
    case _ => false
  }

  /** An outcome, once given, stays; one is given exactly by what ends the dial, and says why. */
  lemma OutcomeSaysWhy(s: Sys, ev: Event, c: nat)
    requires Enabled(s, ev) && c in s.dials
    ensures c in Step(s, ev).dials
    ensures var before, after := s.dials[c].outcome, Step(s, ev).dials[c].outcome;
      after == if before.Some? then before else if Concludes(s, ev, c) then Some(Why(s, ev, c)) else None
  {
    hide SetupStep, TearStep, TransferStep, DialStep, SetupEnabled, TearEnabled, TransferEnabled, DialEnabled;
    match ev {
      case Setup(e) => SetupSaysFailed(s, e, c);
      case Ending(e) => TearSaysHow(s, e, c);
      case Dialling(e) => DialSaysStatus(s, e, c);
      case Transferring(e) => TransferKeepsDials(s, e);
    }
  }

  lemma SetupSaysFailed(s: Sys, ev: SetupEvent, c: nat)
    requires SetupEnabled(s, ev) && c in s.dials
    ensures c in SetupStep(s, ev).dials
    ensures var before, after := s.dials[c].outcome, SetupStep(s, ev).dials[c].outcome;
      after == if before.Some? then before
               else if Concludes(s, Setup(ev), c) then Some(NotConnected("failed")) else None
  {
  }

  lemma TearSaysHow(s: Sys, ev: TearEvent, c: nat)
    requires TearEnabled(s, ev) && c in s.dials
    ensures c in TearStep(s, ev).dials
    ensures var before, after := s.dials[c].outcome, TearStep(s, ev).dials[c].outcome;
      if before.Some? || ev != Finishes(c) then after == before
      else after == Some(if s.dials[c].agentStarted then Connected else NotConnected("failed"))
  {
  }

  lemma DialSaysStatus(s: Sys, ev: DialEvent, c: nat)
    requires DialEnabled(s, ev) && c in s.dials
    ensures c in DialStep(s, ev).dials
    ensures var before, after := s.dials[c].outcome, DialStep(s, ev).dials[c].outcome;
      if before.Some? then after == before
      else after == if Concludes(s, Dialling(ev), c) then Some(NotConnected(ev.status)) else None
  {
  }

  /** Dial c ended with a status it was told, or failed. */
  ghost predicate Explained(s: Sys, evs: seq<Event>, c: nat) {
    c in s.dials && s.dials[c].outcome.Some? && s.dials[c].outcome.value.NotConnected? ==>
      var status := s.dials[c].outcome.value.status;
      status == "failed" || Happened(evs, Dialling(RingingTaken(c, status)))
  }

  lemma StepExplained(s: Sys, evs: seq<Event>, ev: Event, c: nat)
    requires Enabled(s, ev) && Explained(s, evs, c)
    ensures Explained(Step(s, ev), evs + [ev], c)
  {
    hide Enabled, Step, Happened;
    if c in s.dials {
      OutcomeSaysWhy(s, ev, c);
      if Step(s, ev).dials[c].outcome.Some? && Step(s, ev).dials[c].outcome.value.NotConnected? {
        HappensAlso(evs, ev, Dialling(RingingTaken(c, Step(s, ev).dials[c].outcome.value.status)));
      }
    } else if c in Step(s, ev).dials {
      NewDialIsOpen(s, ev, c);
    }
  }

  lemma NewDialIsOpen(s: Sys, ev: Event, c: nat)
    requires Enabled(s, ev) && c !in s.dials && c in Step(s, ev).dials
    ensures Step(s, ev).dials[c].outcome == None
  {
    hide SetupStep, TearStep, TransferStep, DialStep, SetupEnabled, TearEnabled, TransferEnabled, DialEnabled;
    match ev {
      case Setup(e) => SetupStartsNone(s, e, c);
      case Ending(e) => TearStartsNone(s, e, c);
      case Transferring(e) => TransferKeepsDials(s, e);
      case Dialling(e) => DialStartsOwn(s, e, c);
    }
  }

  /** Over every run: a dial that did not connect failed, or has the status its ringing was ended with. */
  lemma {:induction false} StatusesAreTrue(evs: seq<Event>, c: nat)
    requires Possible(INIT, evs)
    ensures Explained(Reached(INIT, evs), evs, c)
    decreases |evs|
  {
    hide SetInOrder, DialsSafe, Enabled, Step, Possible, Reached, Explained;
    if evs == [] {
      NothingExplained(c);
    } else {
      var n := |evs| - 1;
      assert evs == evs[..n] + [evs[n]];
      PossibleSnoc(INIT, evs[..n], evs[n]);
      StatusesAreTrue(evs[..n], c);
      StepExplained(Reached(INIT, evs[..n]), evs[..n], evs[n], c);
    }
  }

  lemma {:induction false} PossibleSnoc(s: Sys, evs: seq<Event>, ev: Event)
    requires Possible(s, evs + [ev])
    ensures Possible(s, evs) && Enabled(Reached(s, evs), ev) && Reached(s, evs + [ev]) == Step(Reached(s, evs), ev)
    decreases |evs|
  {
    hide Enabled, Step;
    if evs == [] {
      assert [] + [ev] == [ev] && [ev][1..] == [];
    } else {
      assert (evs + [ev])[1..] == evs[1..] + [ev];
      PossibleSnoc(Step(s, evs[0]), evs[1..], ev);
    }
  }

  lemma NothingExplained(c: nat)
    ensures Possible(INIT, []) && Explained(Reached(INIT, []), [], c)
  {
  }
}
