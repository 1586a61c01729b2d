/** What holds of the calls even when a teardown is overtaken by the media goroutine, or a transfer by
    another: how far each call is set up and torn down, and where the manager has it. */
module CallCore {
  import opened Wrappers
  import opened CallLifecycle
  import opened CallSafety

  /** Of a call: its setup and its teardown exclude each other where they must. */
  predicate CoreOk(v: CallView) {
    var k := v.k;
    var ends := v.due || v.dueAbort || k.tear != Alive;
    && v.callerPending == v.extPending
    && (v.callerPending ==> (k.stage == Listed || k.stage == Staging || k.stage == Staged) && !ends)
    && (v.callerActive || v.extActive ==> k.stage == Bridged)
    && (ends ==> k.stage != Binding && k.stage != Failed)
    && (v.dueAbort || k.tear == Marked(false) ==> k.stage != Bridged)
    && (k.stage == Binding || k.stage == Listed || k.stage == Staging ==> v.settingUp)
  }

  ghost predicate CallsCore(s: Sys) {
    forall c :: c in s.calls ==> CoreOk(ViewCall(s, c))
  }

  ghost predicate LegsCore(s: Sys) {
    forall t :: t in s.legs ==> s.legs[t].call in s.calls && s.calls[s.legs[t].call].stage == Bridged
  }

  ghost predicate Core(s: Sys) {
    MapsSafe(s) && LoopSafe(s) && CallsCore(s) && LegsCore(s)
  }

  lemma InitCore()
    ensures Core(INIT)
  {
  }

  // ---- looking up -----------------------------------------------------------------------------

  lemma CoreOf(s: Sys, c: nat)
    requires Core(s) && c in s.calls
    ensures CoreOk(ViewCall(s, c))
  {
  }

  lemma CoreAbsent(s: Sys, c: nat)
    requires Core(s) && c !in s.calls
    ensures Caller(c) !in s.pending && Ext(c) !in s.pending && Caller(c) !in s.active && Ext(c) !in s.active
    ensures c !in s.due && c !in s.dueAbort && s.loop != SettingUp(c)
  {
    hide CallsCore, LegsCore;
    assert Owner(s, Caller(c)) == Some(c) == Owner(s, Ext(c));
  }

  lemma CoreActive(s: Sys, ch: Chan)
    requires Core(s) && ch in s.active
    ensures s.active[ch] in s.calls && s.calls[s.active[ch]].stage == Bridged
  {
    hide CallsCore, CoreOk;
    var c := s.active[ch];
    assert Owner(s, ch) == Some(c);
    match ch {
      case Dest(_) =>
      case Caller(_) => ActiveIsBridged(s, c);
      case Ext(_) => ActiveIsBridged(s, c);
    }
  }

  lemma ActiveIsBridged(s: Sys, c: nat)
    requires Core(s) && c in s.calls && (Caller(c) in s.active || Ext(c) in s.active)
    ensures s.calls[c].stage == Bridged
  {
    hide MapsSafe, LoopSafe, LegsCore;
    assert CoreOk(ViewCall(s, c));
  }

  lemma CorePending(s: Sys, ch: Chan)
    requires Core(s) && ch in s.pending
    ensures s.pending[ch] in s.calls && (ch == Caller(s.pending[ch]) || ch == Ext(s.pending[ch]))
  {
    hide CallsCore, LegsCore;
    assert Owner(s, ch) == Some(s.pending[ch]);
  }

  lemma CoreStaged(s: Sys, ch: Chan)
    requires Core(s) && ch in s.pending && s.loop == Idle
    ensures s.pending[ch] in s.calls && s.calls[s.pending[ch]].stage == Staged
  {
    hide MapsSafe, CallsCore, LegsCore;
    CorePending(s, ch);
    CoreOf(s, s.pending[ch]);
  }

  /** The calls a purge takes. */
  lemma CorePurged(s: Sys, c: nat)
    requires Core(s) && c in s.calls
    ensures c in s.active.Values || c in s.pending.Values ==>
      var stage := s.calls[c].stage; stage == Listed || stage == Staging || stage == Staged || stage == Bridged
  {
    hide MapsSafe, CallsCore, LegsCore, LoopSafe;
    CoreOf(s, c);
    if c in s.active.Values {
      var ch :| ch in s.active && s.active[ch] == c;
      CoreActive(s, ch);
    } else if c in s.pending.Values {
      var ch :| ch in s.pending && s.pending[ch] == c;
      CorePending(s, ch);
    }
  }

  // ---- steps ----------------------------------------------------------------------------------

  /** The exit outside the once-guard, for a call whose teardown is owed or has begun. */
  predicate FailsUnderTeardown(s: Sys, ev: Event) {
    ev == Setup(MediaFails) && s.loop.SettingUp? && Ends(s, s.loop.c)
  }

  lemma ArrivalCore(s: Sys, ev: SetupEvent, c: nat)
    requires Core(s) && SetupEnabled(s, ev) && IsArrival(ev) && c in SetupStep(s, ev).calls
    ensures CoreOk(ViewCall(SetupStep(s, ev), c))
  {
    hide MapsSafe, CallsCore, LegsCore;
    if c in s.calls {
      CoreOf(s, c);
    } else {
      CoreAbsent(s, c);
    }
  }

  lemma StagingCore(s: Sys, ev: SetupEvent, c: nat)
    requires Core(s) && SetupEnabled(s, ev)
    requires ev.Bound? || ev.MarksStaged? || ev.MediaAsked?
    requires c in s.calls
    ensures c in SetupStep(s, ev).calls && CoreOk(ViewCall(SetupStep(s, ev), c))
  {
    hide MapsSafe, CallsCore, LegsCore;
    CoreOf(s, c);
  }

  lemma MediaFailsCore(s: Sys, c: nat)
    requires Core(s) && SetupEnabled(s, MediaFails) && !FailsUnderTeardown(s, Setup(MediaFails)) && c in s.calls
    ensures c in SetupStep(s, MediaFails).calls && CoreOk(ViewCall(SetupStep(s, MediaFails), c))
  {
    hide MapsSafe, CallsCore, LegsCore;
    CoreOf(s, c);
  }

  lemma BridgingCore(s: Sys, ev: SetupEvent, c: nat)
    requires Core(s) && SetupEnabled(s, ev) && (ev.ExtArrives? || ev.BridgeFails? || ev.BridgeMade?)
    requires c in s.calls
    ensures c in SetupStep(s, ev).calls && CoreOk(ViewCall(SetupStep(s, ev), c))
  {
    hide MapsSafe, CallsCore, LegsCore;
    CoreOf(s, c);
  }

  lemma LeavingCore(s: Sys, ev: TearEvent, c: nat)
    requires Core(s) && TearEnabled(s, ev) && IsLeaving(ev) && c in s.calls
    ensures c in TearStep(s, ev).calls && CoreOk(ViewCall(TearStep(s, ev), c))
  {
    hide MapsSafe, CallsCore, LegsCore;
    CoreOf(s, c);
    CorePurged(s, c);
    if ev.StasisEnds? && ev.ch in s.active {
      CoreActive(s, ev.ch);
    }
  }

  lemma TeardownCore(s: Sys, ev: TearEvent, c: nat)
    requires Core(s) && TearEnabled(s, ev) && !IsLeaving(ev) && c in s.calls
    ensures c in TearStep(s, ev).calls && CoreOk(ViewCall(TearStep(s, ev), c))
  {
    hide MapsSafe, CallsCore, LegsCore, LoopSafe;
    CoreOf(s, c);
  }

  /** A transfer moves only what CoreOk does not look at. */
  lemma TransferCore(s: Sys, ev: TransferEvent, c: nat)
    requires Core(s) && TransferEnabled(s, ev) && c in s.calls
    ensures c in TransferStep(s, ev).calls && CoreOk(ViewCall(TransferStep(s, ev), c))
  {
    hide MapsSafe, CallsCore, LegsCore, LoopSafe;
    CoreOf(s, c);
  }

  lemma SetupLoopCore(s: Sys, ev: SetupEvent)
    requires Core(s) && SetupEnabled(s, ev)
    ensures LoopSafe(SetupStep(s, ev))
  {
    hide CallsCore, LegsCore, MapsSafe;
    if ev.ExtArrives? {
      CoreOf(s, ev.c);
    }
  }

  lemma TearLoopCore(s: Sys, ev: TearEvent)
    requires Core(s) && TearEnabled(s, ev)
    ensures LoopSafe(TearStep(s, ev))
  {
    hide CallsCore, LegsCore, MapsSafe, CoreOk;
    if ev.StasisEnds? {
      if ev.ch in s.active {
        CoreActive(s, ev.ch);
      } else if ev.ch in s.pending {
        CoreStaged(s, ev.ch);
      }
    } else if ev.Purges? && s.loop.Building? {
      CorePurged(s, s.loop.c);
    }
  }

  lemma TransferLoopCore(s: Sys, ev: TransferEvent)
    requires Core(s) && TransferEnabled(s, ev)
    ensures LoopSafe(TransferStep(s, ev))
  {
    hide CallsCore, LegsCore, MapsSafe;
  }

  lemma SetupLegsCore(s: Sys, ev: SetupEvent)
    requires Core(s) && SetupEnabled(s, ev)
    ensures LegsCore(SetupStep(s, ev))
  {
    hide CallsCore, MapsSafe;
    if ev.ExtArrives? {
      CoreOf(s, ev.c);
    }
  }

  lemma TearLegsCore(s: Sys, ev: TearEvent)
    requires Core(s) && TearEnabled(s, ev)
    ensures LegsCore(TearStep(s, ev))
  {
    hide CallsCore, MapsSafe, LoopSafe;
  }

  lemma TransferLegsCore(s: Sys, ev: TransferEvent)
    requires Core(s) && TransferEnabled(s, ev)
    ensures LegsCore(TransferStep(s, ev))
  {
    hide CallsCore, MapsSafe, LoopSafe;
  }

  lemma SetupCore(s: Sys, ev: SetupEvent)
    requires Core(s) && SetupEnabled(s, ev) && !FailsUnderTeardown(s, Setup(ev))
    ensures Core(SetupStep(s, ev))
  {
    hide Core, SetupStep, SetupEnabled, CoreOk, ViewCall, FailsUnderTeardown, MapsSafe, LegsCore, LoopSafe;
    var s' := SetupStep(s, ev);
    CoreFrame(s);
    SetupLoopCore(s, ev);
    SetupLegsCore(s, ev);
    if IsArrival(ev) {
      ArrivalMaps(s, ev);
    } else if ev.ExtArrives? || ev.BridgeFails? || ev.BridgeMade? {
      BridgingMaps(s, ev);
    } else if ev.MediaFails? || ev.MediaAsked? {
      StagedMaps(s, ev);
    } else {
      StagingMaps(s, ev);
    }
    forall c | c in s'.calls ensures CoreOk(ViewCall(s', c)) {
      if IsArrival(ev) {
        ArrivalCore(s, ev, c);
      } else {
        SetupKeepsCalls(s, ev);
        if ev.ExtArrives? || ev.BridgeFails? || ev.BridgeMade? {
          BridgingCore(s, ev, c);
        } else if ev.MediaFails? {
          MediaFailsCore(s, c);
        } else {
          StagingCore(s, ev, c);
        }
      }
    }
    CoreByParts(s');
  }

  lemma SetupKeepsCalls(s: Sys, ev: SetupEvent)
    requires SetupEnabled(s, ev) && !IsArrival(ev)
    ensures SetupStep(s, ev).calls.Keys == s.calls.Keys
  {
  }

  lemma TearKeepsCalls(s: Sys, ev: TearEvent)
    requires TearEnabled(s, ev)
    ensures TearStep(s, ev).calls.Keys == s.calls.Keys
  {
  }

  lemma TransferKeepsCalls(s: Sys, ev: TransferEvent)
    requires TransferEnabled(s, ev)
    ensures var s' := TransferStep(s, ev);
      && s'.inUse == s.inUse && s'.due == s.due && s'.dueAbort == s.dueAbort && s'.calls.Keys == s.calls.Keys
      && forall c :: c in s.calls ==> s'.calls[c] == s.calls[c].(transferChannel := s'.calls[c].transferChannel)
  {
  }

  lemma CoreFrame(s: Sys)
    requires Core(s)
    ensures MapsSafe(s) && LoopSafe(s)
  {
  }

  lemma CoreByParts(s: Sys)
    requires MapsSafe(s) && LoopSafe(s) && LegsCore(s) && forall c :: c in s.calls ==> CoreOk(ViewCall(s, c))
    ensures Core(s)
  {
  }

  lemma TearCore(s: Sys, ev: TearEvent)
    requires Core(s) && TearEnabled(s, ev)
    ensures Core(TearStep(s, ev))
  {
    hide Core, TearStep, TearEnabled, CoreOk, ViewCall, MapsSafe, LegsCore, LoopSafe;
    var s' := TearStep(s, ev);
    CoreFrame(s);
    TearLoopCore(s, ev);
    TearLegsCore(s, ev);
    TearKeepsCalls(s, ev);
    if ev.StasisEnds? || ev.AbortClears? {
      LeavingMaps(s, ev);
    } else if IsLeaving(ev) {
      RunningMaps(s, ev);
    } else {
      TeardownMaps(s, ev);
    }
    forall c | c in s'.calls ensures CoreOk(ViewCall(s', c)) {
      if IsLeaving(ev) { LeavingCore(s, ev, c); } else { TeardownCore(s, ev, c); }
    }
    CoreByParts(s');
  }

  lemma TransferringCore(s: Sys, ev: TransferEvent)
    requires Core(s) && TransferEnabled(s, ev)
    ensures Core(TransferStep(s, ev))
  {
    hide Core, TransferStep, TransferEnabled, CoreOk, ViewCall, MapsSafe, LegsCore, LoopSafe;
    var s' := TransferStep(s, ev);
    CoreFrame(s);
    TransferLoopCore(s, ev);
    TransferLegsCore(s, ev);
    TransferKeepsCalls(s, ev);
    if ev.Claims? {
      ClaimingMaps(s, ev);
    } else if ev.ChecksCall? || ev.AddFails? || ev.Adds? || ev.HangsLeg? {
      ConnectingMaps(s, ev);
    } else {
      WaitingMaps(s, ev);
    }
    forall c | c in s'.calls ensures CoreOk(ViewCall(s', c)) {
      TransferCore(s, ev, c);
    }
    CoreByParts(s');
  }

  lemma DialCore(s: Sys, ev: DialEvent)
    requires Core(s) && DialEnabled(s, ev)
    ensures Core(DialStep(s, ev))
  {
    hide CoreOk, MapsSafe, LoopSafe, CallsCore, DialStep, DialEnabled;
    var s' := DialStep(s, ev);
    DialsOnly(s, ev);
    DialKeepsMaps(s, s');
    forall c | c in s'.calls ensures CoreOk(ViewCall(s', c)) {
      assert ViewCall(s', c) == ViewCall(s, c);
      CoreOf(s, c);
    }
    CoreByParts(s');
  }

  lemma DialsOnly(s: Sys, ev: DialEvent)
    requires DialEnabled(s, ev)
    ensures DialStep(s, ev) == s.(dials := DialStep(s, ev).dials, outbound := DialStep(s, ev).outbound)
  {
  }

  lemma DialKeepsMaps(s: Sys, s': Sys)
    requires MapsSafe(s) && LoopSafe(s) && s' == s.(dials := s'.dials, outbound := s'.outbound)
    ensures MapsSafe(s') && LoopSafe(s')
  {
    assert forall ch :: ch in s'.active ==> Owner(s', ch) == Owner(s, ch);
  }

  /** Every step keeps it but the exit outside the once-guard of a call whose teardown is owed or has
      begun. */
  lemma StepCore(s: Sys, ev: Event)
    requires Core(s) && Enabled(s, ev) && !FailsUnderTeardown(s, ev)
    ensures Core(Step(s, ev))
  {
    hide Core, SetupStep, TearStep, TransferStep, DialStep, FailsUnderTeardown;
    hide SetupEnabled, TearEnabled, TransferEnabled, DialEnabled;
    match ev {
      case Setup(e) => SetupCore(s, e);
      case Ending(e) => TearCore(s, e);
      case Transferring(e) => TransferringCore(s, e);
      case Dialling(e) => DialCore(s, e);
    }
  }

  /** That exit always breaks it. */
  lemma CoreExactlyUnlessFailing(s: Sys, ev: Event)
    requires Core(s) && Enabled(s, ev)
    ensures Core(Step(s, ev)) <==> !FailsUnderTeardown(s, ev)
  {
    hide Core, Step, Enabled;
    if FailsUnderTeardown(s, ev) {
      FailingBreaks(s);
    } else {
      StepCore(s, ev);
    }
  }

  lemma FailingBreaks(s: Sys)
    requires Core(s) && Enabled(s, Setup(MediaFails)) && FailsUnderTeardown(s, Setup(MediaFails))
    ensures !Core(Step(s, Setup(MediaFails)))
  {
    hide MapsSafe, LegsCore, LoopSafe;
    assert !CoreOk(ViewCall(Step(s, Setup(MediaFails)), s.loop.c));
  }

  // ---- the order of setup ----------------------------------------------------------------

  /** A call is not there before it is started; it is built from its pending entry, and only what is
      listed or staged has one. */
  ghost predicate SetInOrder(s: Sys) {
    && (s.loop.Starting? ==> s.loop.c !in s.calls)
    && (s.loop.Building? ==> s.loop.c in s.calls && s.calls[s.loop.c].stage == Bridging)
    && (forall c: nat :: Ext(c) in s.pending ==> IsPending(s, c))
  }

  predicate IsPending(s: Sys, c: nat) {
    c in s.calls
    && (s.calls[c].stage == Listed || s.calls[c].stage == Staging || s.calls[c].stage == Staged)
  }

  lemma SetupOrder(s: Sys, ev: SetupEvent)
    requires SetInOrder(s) && SetupEnabled(s, ev)
    ensures SetInOrder(SetupStep(s, ev))
  {
  }

  lemma TearOrder(s: Sys, ev: TearEvent)
    requires SetInOrder(s) && TearEnabled(s, ev)
    ensures SetInOrder(TearStep(s, ev))
  {
  }

  lemma TransferOrder(s: Sys, ev: TransferEvent)
    requires SetInOrder(s) && TransferEnabled(s, ev)
    ensures SetInOrder(TransferStep(s, ev))
  {
  }

  lemma DialOrder(s: Sys, ev: DialEvent)
    requires SetInOrder(s) && DialEnabled(s, ev)
    ensures SetInOrder(DialStep(s, ev))
  {
  }

  /** Every step keeps it. */
  lemma StepOrder(s: Sys, ev: Event)
    requires SetInOrder(s) && Enabled(s, ev)
    ensures SetInOrder(Step(s, ev))
  {
    hide SetInOrder, SetupStep, TearStep, TransferStep, DialStep;
    hide SetupEnabled, TearEnabled, TransferEnabled, DialEnabled;
    match ev {
      case Setup(e) => SetupOrder(s, e);
      case Ending(e) => TearOrder(s, e);
      case Transferring(e) => TransferOrder(s, e);
      case Dialling(e) => DialOrder(s, e);
    }
  }

  // ---- runs -----------------------------------------------------------------------------------

  /** Any events that can happen, one after another. */
  ghost predicate Possible(s: Sys, evs: seq<Event>)
    decreases |evs|
  {
    evs != [] ==> Enabled(s, evs[0]) && Possible(Step(s, evs[0]), evs[1..])
  }

  ghost function Reached(s: Sys, evs: seq<Event>): Sys
    requires Possible(s, evs)
    decreases |evs|
  {
    if evs == [] then s else Reached(Step(s, evs[0]), evs[1..])
  }

  lemma {:induction false} ThenComes(s: Sys, evs: seq<Event>, ev: Event)
    requires Possible(s, evs) && Enabled(Reached(s, evs), ev)
    ensures Possible(s, evs + [ev]) && Reached(s, evs + [ev]) == Step(Reached(s, evs), ev)
    decreases |evs|
  {
    hide Enabled, Step;
    if evs == [] {
      assert [ev][1..] == [];
      assert Possible(Step(s, ev), []);
    } else {
      assert (evs + [ev])[1..] == evs[1..] + [ev];
      ThenComes(Step(s, evs[0]), evs[1..], ev);
    }
  }
}
