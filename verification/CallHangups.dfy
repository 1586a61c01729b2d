/** After a transfer the call is caller and destination: whichever side hangs up, the other goes too --
    as long as the destination was still there when it was connected. */
module CallHangups {
  import opened Wrappers
  import opened CallLifecycle
  import opened CallSafety
  import opened CallCore

  /** A call bridged and not ended: the end of its caller would be noticed; and with a destination
      connected, that is up, and its end would be. */
  predicate MutualOk(s: Sys, c: nat)
    requires c in s.calls
  {
    var k := s.calls[c];
    k.stage == Bridged && !Ends(s, c) ==>
      && Caller(c) in s.active
      && (k.transferChannel.Some? ==>
          var t := k.transferChannel.value;
          Dest(t) in s.active && s.active[Dest(t)] == c && t in s.legs && s.legs[t].up)
  }

  ghost predicate Mutual(s: Sys) {
    forall c :: c in s.calls ==> MutualOk(s, c)
  }

  /** A destination already gone is connected; or a connected one is destroyed before its leaving was
      handled, which Asterisk announces first. */
  predicate Parts(s: Sys, ev: Event) {
    match ev
    case Transferring(Claims(t)) => t in s.legs && !s.legs[t].up && Connects(s, s.legs[t].call)
    case Transferring(DestDestroyed(t)) =>
      t in s.legs && s.legs[t].call in s.calls && !Ends(s, s.legs[t].call)
      && s.calls[s.legs[t].call].transferChannel == Some(t)
    case _ => false
  }

  /** A claim for the call succeeds, and the call goes on. */
  predicate Connects(s: Sys, c: nat) {
    c in s.calls && s.calls[c].state != TornDown && !Ends(s, c)
  }

  // ---- steps ----------------------------------------------------------------------------------

  lemma GetMutual(s: Sys, c: nat)
    requires Mutual(s) && c in s.calls
    ensures MutualOk(s, c)
  {
  }

  lemma ArrivalMutual(s: Sys, ev: SetupEvent, c: nat)
    requires Safe(s) && SetupEnabled(s, ev) && IsArrival(ev) && c in SetupStep(s, ev).calls
    requires c in s.calls ==> MutualOk(s, c)
    ensures MutualOk(SetupStep(s, ev), c)
  {
    hide MapsSafe, CallsSafe, LegsSafe;
  }

  lemma StagingMutual(s: Sys, ev: SetupEvent, c: nat)
    requires Safe(s) && SetupEnabled(s, ev) && !IsArrival(ev) && c in s.calls && MutualOk(s, c)
    ensures c in SetupStep(s, ev).calls && MutualOk(SetupStep(s, ev), c)
  {
    hide MapsSafe, CallsSafe, LegsSafe;
    GetCall(s, c);
    if ev.BridgeMade? {
      GetCall(s, s.loop.c);
    }
  }

  lemma LeavingMutual(s: Sys, ev: TearEvent, c: nat)
    requires Safe(s) && TearEnabled(s, ev) && IsLeaving(ev) && c in s.calls && MutualOk(s, c)
    ensures c in TearStep(s, ev).calls && MutualOk(TearStep(s, ev), c)
  {
    hide MapsSafe, CallsSafe, LegsSafe;
    GetCall(s, c);
    if ev.Purges? && Caller(c) in s.active {
      GetActive(s, Caller(c));
    }
  }

  lemma TeardownMutual(s: Sys, ev: TearEvent, c: nat)
    requires Safe(s) && TearEnabled(s, ev) && !IsLeaving(ev) && c in s.calls && MutualOk(s, c)
    ensures c in TearStep(s, ev).calls && MutualOk(TearStep(s, ev), c)
  {
    hide MapsSafe, CallsSafe, LegsSafe;
    GetCall(s, c);
    GetCall(s, ev.c);
  }

  lemma WaitingKeeps(s: Sys, ev: TransferEvent)
    requires TransferEnabled(s, ev) && !ev.Claims?
    ensures var s' := TransferStep(s, ev);
      s'.calls == s.calls && s'.active == s.active && s'.due == s.due && s'.dueAbort == s.dueAbort
  {
  }

  lemma ConnectedStaysUp(s: Sys, ev: TransferEvent, t: nat)
    requires TransferEnabled(s, ev) && (ev.DestDestroyed? ==> ev.t != t)
    requires t in s.legs && s.legs[t].pc == Claimed && s.legs[t].answered && s.legs[t].up
    ensures t in TransferStep(s, ev).legs && TransferStep(s, ev).legs[t].up
  {
  }

  lemma WaitingMutual(s: Sys, ev: TransferEvent, c: nat)
    requires Safe(s) && TransferEnabled(s, ev) && !ev.Claims? && c in s.calls && MutualOk(s, c)
    requires !Parts(s, Transferring(ev))
    ensures c in TransferStep(s, ev).calls && MutualOk(TransferStep(s, ev), c)
  {
    hide MapsSafe, CallsSafe, LegsSafe, LoopSafe, TransferStep, TransferEnabled;
    WaitingKeeps(s, ev);
    GetCall(s, c);
    if s.calls[c].transferChannel.Some? {
      var t := s.calls[c].transferChannel.value;
      GetLeg(s, t);
      if s.legs[t].up && (ev.DestDestroyed? ==> ev.t != t) {
        ConnectedStaysUp(s, ev, t);
      }
    }
  }

  lemma ClaimMutual(s: Sys, ev: TransferEvent, c: nat)
    requires Safe(s) && TransferEnabled(s, ev) && ev.Claims? && c in s.calls && MutualOk(s, c)
    requires !Parts(s, Transferring(ev))
    ensures c in TransferStep(s, ev).calls && MutualOk(TransferStep(s, ev), c)
  {
    hide MapsSafe, CallsSafe, LegsSafe;
    GetCall(s, c);
    GetLeg(s, ev.t);
  }

  lemma PartsBreaks(s: Sys, ev: TransferEvent)
    requires Safe(s) && TransferEnabled(s, ev) && Mutual(s) && Parts(s, Transferring(ev))
    ensures !Mutual(TransferStep(s, ev))
  {
    hide MapsSafe, CallsSafe, LegsSafe;
    GetLeg(s, ev.t);
    GetMutual(s, s.legs[ev.t].call);
    assert !MutualOk(TransferStep(s, ev), s.legs[ev.t].call);
  }

  lemma DialMutual(s: Sys, ev: DialEvent, c: nat)
    requires DialEnabled(s, ev) && c in s.calls && MutualOk(s, c)
    ensures c in DialStep(s, ev).calls && MutualOk(DialStep(s, ev), c)
  {
  }

  lemma MutualStep(s: Sys, ev: Event, c: nat)
    requires Safe(s) && Enabled(s, ev) && !Parts(s, ev) && c in Step(s, ev).calls
    requires c in s.calls ==> MutualOk(s, c)
    ensures MutualOk(Step(s, ev), c)
  {
    hide Safe, SetupStep, TearStep, TransferStep, DialStep, MutualOk, Parts;
    hide SetupEnabled, TearEnabled, TransferEnabled, DialEnabled;
    match ev {
      case Setup(e) =>
        if IsArrival(e) {
          ArrivalMutual(s, e, c);
        } else {
          SetupKeepsCalls(s, e);
          StagingMutual(s, e, c);
        }
      case Ending(e) =>
        TearKeepsCalls(s, e);
        if IsLeaving(e) { LeavingMutual(s, e, c); } else { TeardownMutual(s, e, c); }
      case Dialling(e) =>
        DialKeepsCalls(s, e);
        DialMutual(s, e, c);
      case Transferring(e) =>
        TransferKeepsCalls(s, e);
        if e.Claims? { ClaimMutual(s, e, c); } else { WaitingMutual(s, e, c); }
    }
  }

  lemma DialKeepsCalls(s: Sys, ev: DialEvent)
    requires DialEnabled(s, ev)
    ensures DialStep(s, ev).calls == s.calls
  {
  }

  /** A step keeps both ends of every call noticed exactly when it connects no destination already gone,
      nor destroys a connected one unannounced. */
  lemma MutualExactlyUnlessParted(s: Sys, ev: Event)
    requires Safe(s) && Enabled(s, ev) && Mutual(s)
    ensures Mutual(Step(s, ev)) <==> !Parts(s, ev)
  {
    hide Safe, SetupStep, TearStep, TransferStep, DialStep, MutualOk, Connects;
    hide SetupEnabled, TearEnabled, TransferEnabled, DialEnabled;
    if Parts(s, ev) {
      PartsBreaks(s, ev.x);
    } else {
      forall c | c in Step(s, ev).calls ensures MutualOk(Step(s, ev), c) {
        MutualStep(s, ev, c);
      }
    }
  }

  // ---- runs -----------------------------------------------------------------------------------

  ghost predicate Together(s: Sys, evs: seq<Event>)
    requires Run(s, evs)
    decreases |evs|
  {
    evs != [] ==> !Parts(s, evs[0]) && Together(Step(s, evs[0]), evs[1..])
  }

  lemma {:induction false} RunMutual(s: Sys, evs: seq<Event>)
    requires Safe(s) && Mutual(s) && Run(s, evs) && Together(s, evs)
    ensures Safe(After(s, evs)) && Mutual(After(s, evs))
    decreases |evs|
  {
    hide Safe, Mutual, Enabled, Overtakes, Parts, Step;
    if evs != [] {
      SafeExactlyUnlessOvertaken(s, evs[0]);
      MutualExactlyUnlessParted(s, evs[0]);
      RunMutual(Step(s, evs[0]), evs[1..]);
    }
  }

  /** Over whole runs, of a call with a destination connected: when either side has gone, the call's
      teardown is owed or has begun; and once everything settled the destination is up exactly if the
      call goes on. */
  lemma HangupsAreMutual(evs: seq<Event>, c: nat)
    requires Run(INIT, evs) && Together(INIT, evs)
    requires c in After(INIT, evs).calls && After(INIT, evs).calls[c].transferChannel.Some?
    ensures var s := After(INIT, evs);
      var t := s.calls[c].transferChannel.value;
      && t in s.legs
      && (!s.legs[t].up || Caller(c) !in s.active ==> Ends(s, c))
      && (Settled(s) && s.due == {} && s.dueAbort == {} ==> (s.legs[t].up <==> s.calls[c].tear == Alive))
  {
    hide Run, After, Together, MapsSafe, CallsSafe, LegsSafe, LoopSafe;
    InitSafe();
    RunMutual(INIT, evs);
    var s := After(INIT, evs);
    GetCall(s, c);
    GetMutual(s, c);
    var t := s.calls[c].transferChannel.value;
    assert HasClaimed(s, t, c);
    GetLeg(s, t);
  }

  // ---- the agent's leg ------------------------------------------------------------------------

  /** Of a call that has a destination connected the agent's leg is no longer registered. */
  predicate AgentGone(s: Sys, c: nat) {
    c in s.calls && s.calls[c].transferChannel.Some? ==> s.calls[c].stage == Bridged && Ext(c) !in s.active
  }

  lemma SetupLegs(s: Sys, ev: SetupEvent)
    requires SetInOrder(s) && LegsCore(s) && SetupEnabled(s, ev)
    ensures LegsCore(SetupStep(s, ev))
  {
  }

  lemma TearLegs(s: Sys, ev: TearEvent)
    requires LegsCore(s) && TearEnabled(s, ev)
    ensures LegsCore(TearStep(s, ev))
  {
  }

  lemma TransferLegs(s: Sys, ev: TransferEvent)
    requires LegsCore(s) && TransferEnabled(s, ev)
    ensures LegsCore(TransferStep(s, ev))
  {
  }

  lemma DialLegs(s: Sys, ev: DialEvent)
    requires LegsCore(s) && DialEnabled(s, ev)
    ensures LegsCore(DialStep(s, ev))
  {
  }

  lemma SetupAgent(s: Sys, ev: SetupEvent, c: nat)
    requires SetInOrder(s) && AgentGone(s, c) && SetupEnabled(s, ev)
    ensures AgentGone(SetupStep(s, ev), c)
  {
  }

  lemma TearAgent(s: Sys, ev: TearEvent, c: nat)
    requires AgentGone(s, c) && TearEnabled(s, ev)
    ensures AgentGone(TearStep(s, ev), c)
  {
  }

  lemma TransferAgent(s: Sys, ev: TransferEvent, c: nat)
    requires LegsCore(s) && AgentGone(s, c) && TransferEnabled(s, ev)
    ensures AgentGone(TransferStep(s, ev), c)
  {
  }

  lemma DialAgent(s: Sys, ev: DialEvent, c: nat)
    requires AgentGone(s, c) && DialEnabled(s, ev)
    ensures AgentGone(DialStep(s, ev), c)
  {
  }

  lemma StepAgent(s: Sys, ev: Event, c: nat)
    requires SetInOrder(s) && LegsCore(s) && AgentGone(s, c) && Enabled(s, ev)
    ensures LegsCore(Step(s, ev)) && AgentGone(Step(s, ev), c)
  {
    hide SetInOrder, LegsCore, AgentGone, SetupStep, TearStep, TransferStep, DialStep;
    hide SetupEnabled, TearEnabled, TransferEnabled, DialEnabled;
    match ev {
      case Setup(e) =>
        SetupLegs(s, e);
        SetupAgent(s, e, c);
      case Ending(e) =>
        TearLegs(s, e);
        TearAgent(s, e, c);
      case Transferring(e) =>
        TransferLegs(s, e);
        TransferAgent(s, e, c);
      case Dialling(e) =>
        DialLegs(s, e);
        DialAgent(s, e, c);
    }
  }

  lemma {:induction false} RunAgent(s: Sys, evs: seq<Event>, c: nat)
    requires SetInOrder(s) && LegsCore(s) && AgentGone(s, c) && Possible(s, evs)
    ensures SetInOrder(Reached(s, evs)) && AgentGone(Reached(s, evs), c)
    decreases |evs|
  {
    hide SetInOrder, LegsCore, AgentGone, Enabled, Step;
    if evs != [] {
      StepOrder(s, evs[0]);
      StepAgent(s, evs[0], c);
      RunAgent(Step(s, evs[0]), evs[1..], c);
    }
  }

  /** Over every run, whatever is overtaken in it: the agent's own leg ending never ends a transferred
      call. */
  lemma AgentLegIsIgnored(evs: seq<Event>, c: nat)
    requires Possible(INIT, evs)
    requires c in Reached(INIT, evs).calls && Reached(INIT, evs).calls[c].transferChannel.Some?
    ensures OnStasisEnds(Reached(INIT, evs), Ext(c)) == Reached(INIT, evs)
  {
    hide Possible, Reached;
    assert SetInOrder(INIT) && LegsCore(INIT) && AgentGone(INIT, c);
    RunAgent(INIT, evs, c);
    assert !IsPending(Reached(INIT, evs), c);
  }
}
