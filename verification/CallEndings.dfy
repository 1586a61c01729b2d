/** A call that one of its legs has left comes to its end: it is aborted or torn down, its port is given
    back, and its dial has its outcome. */
module CallEndings {
  import opened Wrappers
  import opened CallLifecycle
  import opened CallSafety
  import opened CallCore
  import opened CallPorts
  import opened CallOutcomes

  /** The manager finds the call by either of its legs, as long as nothing has ended it; of a transferred
      call, by the caller's. */
  predicate IsFound(s: Sys, c: nat)
    requires c in s.calls
  {
    match s.calls[c].stage
    case Bridged => Caller(c) in s.active && (Ext(c) in s.active || s.calls[c].transferChannel.Some?)
    case Bridging => s.loop == Building(c) || s.loop == Aborting(c)
    case Listed => Caller(c) in s.pending && Ext(c) in s.pending
    case Staging => Caller(c) in s.pending && Ext(c) in s.pending
    case Staged => (Caller(c) in s.pending && Ext(c) in s.pending) || s.loop == Aborting(c)
    case Binding => true
    case Failed => true
  }

  /** What is found by its legs is that call. */
  predicate OwnEntries(s: Sys, c: nat) {
    && (Caller(c) in s.active ==> s.active[Caller(c)] == c) && (Ext(c) in s.active ==> s.active[Ext(c)] == c)
    && (Caller(c) in s.pending ==> s.pending[Caller(c)] == c) && (Ext(c) in s.pending ==> s.pending[Ext(c)] == c)
  }

  /** A call is found or ending; one that is over has given its port back. */
  predicate IsTracked(s: Sys, c: nat) {
    c in s.calls ==>
      && (IsFound(s, c) || Ends(s, c))
      && (s.calls[c].stage == Failed || s.calls[c].tear == Freed || s.calls[c].tear == Over ==> s.calls[c].frees > 0)
  }

  /** The call has come to an end, or is on the way to it. */
  predicate IsEnding(s: Sys, c: nat) {
    c in s.calls && (s.loop == Aborting(c) || Ends(s, c) || s.calls[c].stage == Failed)
  }

  // ---- one step -------------------------------------------------------------------------------

  lemma ArrivalEntries(s: Sys, ev: SetupEvent, c: nat)
    requires SetupEnabled(s, ev) && OwnEntries(s, c) && IsArrival(ev)
    ensures OwnEntries(SetupStep(s, ev), c)
  {
  }

  lemma StagingEntries(s: Sys, ev: SetupEvent, c: nat)
    requires SetupEnabled(s, ev) && OwnEntries(s, c) && !IsArrival(ev)
    ensures OwnEntries(SetupStep(s, ev), c)
  {
  }

  lemma LeavingEntries(s: Sys, ev: TearEvent, c: nat)
    requires TearEnabled(s, ev) && OwnEntries(s, c) && IsLeaving(ev)
    ensures OwnEntries(TearStep(s, ev), c)
  {
  }

  lemma TeardownEntries(s: Sys, ev: TearEvent, c: nat)
    requires TearEnabled(s, ev) && OwnEntries(s, c) && !IsLeaving(ev)
    ensures OwnEntries(TearStep(s, ev), c)
  {
  }

  lemma TransferEntries(s: Sys, ev: TransferEvent, c: nat)
    requires TransferEnabled(s, ev) && OwnEntries(s, c)
    ensures OwnEntries(TransferStep(s, ev), c)
  {
  }

  lemma DialEntries(s: Sys, ev: DialEvent, c: nat)
    requires DialEnabled(s, ev) && OwnEntries(s, c)
    ensures OwnEntries(DialStep(s, ev), c)
  {
  }

  lemma ArrivalTracks(s: Sys, ev: SetupEvent, c: nat)
    requires SetInOrder(s) && SetupEnabled(s, ev) && IsTracked(s, c) && IsArrival(ev)
    ensures IsTracked(SetupStep(s, ev), c)
  {
  }

  lemma StagingTracks(s: Sys, ev: SetupEvent, c: nat)
    requires SetInOrder(s) && SetupEnabled(s, ev) && IsTracked(s, c) && !IsArrival(ev)
    ensures IsTracked(SetupStep(s, ev), c)
  {
  }

  lemma LeavingTracks(s: Sys, ev: TearEvent, c: nat)
    requires TearEnabled(s, ev) && OwnEntries(s, c) && IsTracked(s, c) && IsLeaving(ev)
    ensures IsTracked(TearStep(s, ev), c)
  {
    if ev.Purges? {
      PurgeFinds(s, c);
    }
  }

  lemma TeardownTracks(s: Sys, ev: TearEvent, c: nat)
    requires TearEnabled(s, ev) && IsTracked(s, c) && !IsLeaving(ev)
    ensures IsTracked(TearStep(s, ev), c)
  {
  }

  lemma TransferTracks(s: Sys, ev: TransferEvent, c: nat)
    requires TransferEnabled(s, ev) && IsTracked(s, c)
    ensures IsTracked(TransferStep(s, ev), c)
  {
  }

  lemma DialTracks(s: Sys, ev: DialEvent, c: nat)
    requires DialEnabled(s, ev) && IsTracked(s, c)
    ensures IsTracked(DialStep(s, ev), c)
  {
  }

  /** What a purge takes is owed its teardown. */
  lemma PurgeFinds(s: Sys, c: nat)
    ensures forall ch :: ch in s.active ==> s.active[ch] in s.active.Values
    ensures forall ch :: ch in s.pending ==> s.pending[ch] in s.pending.Values
  {
  }

  lemma StepEntries(s: Sys, ev: Event, c: nat)
    requires Enabled(s, ev) && OwnEntries(s, c)
    ensures OwnEntries(Step(s, ev), c)
  {
    hide OwnEntries, SetupStep, TearStep, TransferStep, DialStep;
    hide SetupEnabled, TearEnabled, TransferEnabled, DialEnabled;
    match ev {
      case Setup(e) =>
        if IsArrival(e) { ArrivalEntries(s, e, c); } else { StagingEntries(s, e, c); }
      case Ending(e) =>
        if IsLeaving(e) { LeavingEntries(s, e, c); } else { TeardownEntries(s, e, c); }
      case Transferring(e) => TransferEntries(s, e, c);
      case Dialling(e) => DialEntries(s, e, c);
    }
  }

  lemma StepTracks(s: Sys, ev: Event, c: nat)
    requires SetInOrder(s) && Enabled(s, ev) && OwnEntries(s, c) && IsTracked(s, c)
    ensures IsTracked(Step(s, ev), c)
  {
    hide SetInOrder, OwnEntries, IsTracked, SetupStep, TearStep, TransferStep, DialStep;
    hide SetupEnabled, TearEnabled, TransferEnabled, DialEnabled;
    match ev {
      case Setup(e) =>
        if IsArrival(e) { ArrivalTracks(s, e, c); } else { StagingTracks(s, e, c); }
      case Ending(e) =>
        if IsLeaving(e) { LeavingTracks(s, e, c); } else { TeardownTracks(s, e, c); }
      case Transferring(e) => TransferTracks(s, e, c);
      case Dialling(e) => DialTracks(s, e, c);
    }
  }

  lemma SetupEnds(s: Sys, ev: SetupEvent, c: nat)
    requires SetInOrder(s) && SetupEnabled(s, ev) && IsEnding(s, c)
    ensures IsEnding(SetupStep(s, ev), c)
  {
  }

  lemma LeavingEnds(s: Sys, ev: TearEvent, c: nat)
    requires TearEnabled(s, ev) && IsEnding(s, c) && IsLeaving(ev)
    ensures IsEnding(TearStep(s, ev), c)
  {
  }

  lemma TeardownEnds(s: Sys, ev: TearEvent, c: nat)
    requires TearEnabled(s, ev) && IsEnding(s, c) && !IsLeaving(ev)
    ensures IsEnding(TearStep(s, ev), c)
  {
  }

  lemma TransferEnds(s: Sys, ev: TransferEvent, c: nat)
    requires TransferEnabled(s, ev) && IsEnding(s, c)
    ensures IsEnding(TransferStep(s, ev), c)
  {
  }

  lemma DialEnds(s: Sys, ev: DialEvent, c: nat)
    requires DialEnabled(s, ev) && IsEnding(s, c)
    ensures IsEnding(DialStep(s, ev), c)
  {
  }

  /** No way back. */
  lemma StepEnds(s: Sys, ev: Event, c: nat)
    requires SetInOrder(s) && Enabled(s, ev) && IsEnding(s, c)
    ensures IsEnding(Step(s, ev), c)
  {
    hide SetInOrder, IsEnding, SetupStep, TearStep, TransferStep, DialStep;
    hide SetupEnabled, TearEnabled, TransferEnabled, DialEnabled;
    match ev {
      case Setup(e) => SetupEnds(s, e, c);
      case Ending(e) =>
        if IsLeaving(e) { LeavingEnds(s, e, c); } else { TeardownEnds(s, e, c); }
      case Transferring(e) => TransferEnds(s, e, c);
      case Dialling(e) => DialEnds(s, e, c);
    }
  }

  // ---- a leg that leaves ----------------------------------------------------------------------

  /** The event is a leg of the call leaving: the caller's, or the agent's unless the call was
      transferred. */
  predicate Leaves(s: Sys, ev: Event, c: nat) {
    c in s.calls
    && (ev == Ending(StasisEnds(Caller(c)))
        || (ev == Ending(StasisEnds(Ext(c))) && s.calls[c].transferChannel == None))
  }

  lemma LeavingStarts(s: Sys, ev: Event, c: nat)
    requires SetInOrder(s) && Enabled(s, ev) && OwnEntries(s, c) && IsTracked(s, c) && Leaves(s, ev, c)
    requires s.calls[c].stage != Binding && s.calls[c].stage != Listed && s.calls[c].stage != Staging
    ensures IsEnding(Step(s, ev), c)
  {
  }

  /** The event loop is not in the middle of setting a call up when it handles the end of a leg. */
  lemma NotSettingUp(s: Sys, ev: Event, c: nat)
    requires SetInOrder(s) && SettingIsBusy(s, c) && Enabled(s, ev) && Leaves(s, ev, c)
    ensures s.calls[c].stage != Binding && s.calls[c].stage != Listed && s.calls[c].stage != Staging
  {
  }

  predicate SettingIsBusy(s: Sys, c: nat) {
    c in s.calls && (s.calls[c].stage == Binding || s.calls[c].stage == Listed || s.calls[c].stage == Staging) ==>
      s.loop == SettingUp(c)
  }

  lemma SetupBusy(s: Sys, ev: SetupEvent, c: nat)
    requires SetInOrder(s) && SetupEnabled(s, ev) && SettingIsBusy(s, c)
    ensures SettingIsBusy(SetupStep(s, ev), c)
  {
  }

  lemma TearBusy(s: Sys, ev: TearEvent, c: nat)
    requires TearEnabled(s, ev) && SettingIsBusy(s, c)
    ensures SettingIsBusy(TearStep(s, ev), c)
  {
  }

  lemma TransferBusy(s: Sys, ev: TransferEvent, c: nat)
    requires TransferEnabled(s, ev) && SettingIsBusy(s, c)
    ensures SettingIsBusy(TransferStep(s, ev), c)
  {
  }

  lemma DialBusy(s: Sys, ev: DialEvent, c: nat)
    requires DialEnabled(s, ev) && SettingIsBusy(s, c)
    ensures SettingIsBusy(DialStep(s, ev), c)
  {
  }

  lemma StepBusy(s: Sys, ev: Event, c: nat)
    requires SetInOrder(s) && Enabled(s, ev) && SettingIsBusy(s, c)
    ensures SettingIsBusy(Step(s, ev), c)
  {
    hide SetInOrder, SettingIsBusy, SetupStep, TearStep, TransferStep, DialStep;
    hide SetupEnabled, TearEnabled, TransferEnabled, DialEnabled;
    match ev {
      case Setup(e) => SetupBusy(s, e, c);
      case Ending(e) => TearBusy(s, e, c);
      case Transferring(e) => TransferBusy(s, e, c);
      case Dialling(e) => DialBusy(s, e, c);
    }
  }

  // ---- runs -----------------------------------------------------------------------------------

  /** A leg of the call left in the run. */
  ghost predicate WasLeft(s: Sys, evs: seq<Event>, c: nat)
    requires Possible(s, evs)
    decreases |evs|
  {
    evs != [] && (Leaves(s, evs[0], c) || WasLeft(Step(s, evs[0]), evs[1..], c))
  }

  lemma {:induction false} RunEnds(s: Sys, evs: seq<Event>, c: nat)
    requires SetInOrder(s) && Possible(s, evs) && IsEnding(s, c)
    ensures IsEnding(Reached(s, evs), c)
    decreases |evs|
  {
    hide SetInOrder, IsEnding, Enabled, Step;
    if evs != [] {
      StepOrder(s, evs[0]);
      StepEnds(s, evs[0], c);
      RunEnds(Step(s, evs[0]), evs[1..], c);
    }
  }

  lemma {:induction false} RunTracks(s: Sys, evs: seq<Event>, c: nat)
    requires SetInOrder(s) && OwnEntries(s, c) && IsTracked(s, c) && SettingIsBusy(s, c) && Possible(s, evs)
    ensures IsTracked(Reached(s, evs), c)
    ensures WasLeft(s, evs, c) ==> IsEnding(Reached(s, evs), c)
    decreases |evs|
  {
    hide SetInOrder, OwnEntries, IsTracked, SettingIsBusy, IsEnding, Leaves, Enabled, Step;
    if evs != [] {
      StepOrder(s, evs[0]);
      StepEntries(s, evs[0], c);
      StepTracks(s, evs[0], c);
      StepBusy(s, evs[0], c);
      RunTracks(Step(s, evs[0]), evs[1..], c);
      if Leaves(s, evs[0], c) {
        CallOfLeaving(s, evs[0], c);
        NotSettingUp(s, evs[0], c);
        LeavingStarts(s, evs[0], c);
        RunEnds(Step(s, evs[0]), evs[1..], c);
      }
    }
  }

  lemma CallOfLeaving(s: Sys, ev: Event, c: nat)
    requires Leaves(s, ev, c)
    ensures c in s.calls
  {
  }

  lemma InitTracks(c: nat)
    ensures SetInOrder(INIT) && OwnEntries(INIT, c) && IsTracked(INIT, c) && SettingIsBusy(INIT, c)
  {
  }

  /** Over every run, whatever is overtaken in it: once a leg of a call has left, the call is being aborted,
      or its teardown is owed or has begun, or its setup has failed. */
  lemma LeftCallsEnd(evs: seq<Event>, c: nat)
    requires Possible(INIT, evs) && WasLeft(INIT, evs, c)
    ensures IsEnding(Reached(INIT, evs), c)
  {
    hide Possible, Reached, WasLeft, SetInOrder, OwnEntries, IsTracked, SettingIsBusy, IsEnding;
    InitTracks(c);
    RunTracks(INIT, evs, c);
  }

  /** Nothing of the manager is left to be done. */
  predicate AtRest(s: Sys) {
    s.loop == Idle && s.due == {} && s.dueAbort == {}
    && forall c :: c in s.calls ==> s.calls[c].tear == Alive || s.calls[c].tear == Over
  }

  /** Once the manager is at rest: the call is over, and its port was given back -- once, and to the pool,
      unless the exit outside the once-guard was taken under a teardown; and its dial, if it was dialed,
      has its outcome, unless that came before an error. */
  lemma LeftCallsAreOver(evs: seq<Event>, c: nat)
    requires Possible(INIT, evs) && WasLeft(INIT, evs, c) && AtRest(Reached(INIT, evs))
    ensures var s := Reached(INIT, evs);
      && c in s.calls && IsOver(s.calls[c]) && s.calls[c].frees > 0
      && (NeverFails(INIT, evs) ==> s.calls[c].frees == 1 && !(exists p :: p in s.inUse && s.inUse[p] == c))
      && (NeverTooLate(INIT, evs) && c in s.dials ==> s.dials[c].outcome.Some?)
  {
    hide Possible, Reached, WasLeft, SetInOrder, OwnEntries, SettingIsBusy, NeverFails, NeverTooLate, PortsSafe, Core;
    var s := Reached(INIT, evs);
    InitTracks(c);
    RunTracks(INIT, evs, c);
    assert IsOver(s.calls[c]);
    if NeverFails(INIT, evs) {
      OverIsFreed(evs, c);
    }
    if NeverTooLate(INIT, evs) && c in s.dials {
      EveryDialHasOneOutcome(evs, c);
    }
  }

  lemma OverIsFreed(evs: seq<Event>, c: nat)
    requires Possible(INIT, evs) && NeverFails(INIT, evs)
    requires c in Reached(INIT, evs).calls && Reached(INIT, evs).calls[c].frees > 0
    ensures var s := Reached(INIT, evs);
      s.calls[c].frees == 1 && !(exists p :: p in s.inUse && s.inUse[p] == c)
  {
    hide Possible, Reached, NeverFails, Core;
    InitCore();
    InitPorts();
    RunPorts(INIT, evs);
    PortsAreOwned(evs, c, c, 0);
  }

  /** The end of one leg of a bridged call is the end of both: the call is to be torn down, neither of its legs
      is tracked any more, and the end of the other changes nothing. */
  lemma LegsLeaveTogether(s: Sys, ch: Chan, other: Chan)
    requires s.loop == Idle && ch in s.active && other in Legs2(s.active[ch]) && other !in s.pending
    ensures var s' := Step(s, Ending(StasisEnds(ch)));
      && s.active[ch] in s'.due && other !in s'.active
      && Step(s', Ending(StasisEnds(other))) == s'
      && (forall k :: k in s'.active <==> k in s.active && k !in Legs2(s.active[ch]))
  {
    var s' := Step(s, Ending(StasisEnds(ch)));
    assert other !in s'.active && s'.loop == Idle;
  }
}
