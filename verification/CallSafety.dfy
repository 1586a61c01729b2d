/** What holds of the calls in every reachable state, and of the transfers between them. */
module CallSafety {
  import opened Wrappers
  import opened CallLifecycle

  /** The once-guarded teardown of a call is owed, or has begun. */
  predicate Ends(s: Sys, c: nat) {
    c in s.due || c in s.dueAbort || (c in s.calls && s.calls[c].tear != Alive)
  }

  predicate HasClaimed(s: Sys, t: nat, c: nat) {
    t in s.legs && s.legs[t].call == c && s.legs[t].pc == Claimed
  }

  /** One call: itself, and where the manager has it. */
  datatype CallView = CallView(
    k: Call, callerPending: bool, extPending: bool, callerActive: bool, extActive: bool,
    due: bool, dueAbort: bool, settingUp: bool, claimed: bool)

  function ViewCall(s: Sys, c: nat): CallView
    requires c in s.calls
  {
    var k := s.calls[c];
    CallView(k, Caller(c) in s.pending, Ext(c) in s.pending, Caller(c) in s.active, Ext(c) in s.active,
             c in s.due, c in s.dueAbort, s.loop == SettingUp(c),
             k.transferChannel.Some? && HasClaimed(s, k.transferChannel.value, c))
  }

  /** Its channels are registered only while they should be, and its state says when it is over. */
  predicate CallOk(v: CallView) {
    var k := v.k;
    var ends := v.due || v.dueAbort || k.tear != Alive;
    var whole := k.tear == Alive || k.tear == Marked(true);
    && v.callerPending == v.extPending
    && (v.callerPending ==> (k.stage == Listed || k.stage == Staging || k.stage == Staged) && !ends)
    && (v.callerActive ==> k.stage == Bridged && whole)
    && (v.extActive ==> k.stage == Bridged && whole && k.transferChannel == None)
    && (ends ==> k.stage != Binding)
    && (v.dueAbort || k.tear == Marked(false) ==> k.stage != Bridged)
    && (k.stage == Bridged && k.tear != Alive ==> k.state == TornDown)
    && (k.tear == Alive ==> k.state != TornDown)
    && (k.transferChannel.Some? ==> k.stage == Bridged && v.claimed)
    && (k.stage == Binding || k.stage == Listed || k.stage == Staging ==> v.settingUp)
    && (k.tear.Cleared? ==> k.tear.dest == k.transferChannel)
  }

  /** One transfer, its call, and where the manager has it. */
  datatype LegView = LegView(l: Leg, waiting: bool, bridged: bool, isTransfer: bool, tear: Tear, active: bool)

  function ViewLeg(s: Sys, t: nat): LegView
    requires t in s.legs && s.legs[t].call in s.calls
  {
    var k := s.calls[s.legs[t].call];
    LegView(s.legs[t], t in s.transfers, k.stage == Bridged, k.transferChannel == Some(t), k.tear, Dest(t) in s.active)
  }

  /** Its destination is up only while someone is at work on it, or it is connected to a call not
      torn down, or the teardown is about to hang it up. */
  predicate LegOk(v: LegView) {
    var l := v.l;
    && v.bridged
    && (v.waiting <==> l.pc == Waiting)
    && (l.destroyed || l.pc == GaveUp ==> !l.up)
    && (l.pc == Answered || l.pc == Adding || l.pc == Added || l.pc == Claimed ==> l.answered)
    && (l.pc == Claimed ==> v.isTransfer)
    && (l.pc == Claimed && l.up ==> v.tear == Alive || v.tear == Marked(true) || v.tear.Cleared?)
    && (v.active ==> l.pc == Claimed && (v.tear == Alive || v.tear == Marked(true)))
  }

  function Owner(s: Sys, ch: Chan): Option<nat> {
    match ch
    case Caller(c) => Some(c)
    case Ext(c) => Some(c)
    case Dest(t) => if t in s.legs then Some(s.legs[t].call) else None
  }

  ghost predicate MapsSafe(s: Sys) {
    && (forall t :: t in s.legs ==> s.legs[t].call in s.calls)
    && (forall t :: t in s.transfers ==> t in s.legs)
    && (forall ch :: ch in s.active ==> Owner(s, ch) == Some(s.active[ch]) && s.active[ch] in s.calls)
    && (forall ch :: ch in s.pending ==> !ch.Dest? && Owner(s, ch) == Some(s.pending[ch]) && s.pending[ch] in s.calls)
    && s.due <= s.calls.Keys && s.dueAbort <= s.calls.Keys
  }

  ghost predicate LoopSafe(s: Sys) {
    match s.loop
    case Idle => true
    case Starting(c) => c !in s.calls
    case SettingUp(c) =>
      c in s.calls && (s.calls[c].stage == Binding || s.calls[c].stage == Listed || s.calls[c].stage == Staging)
    case Building(c) => c in s.calls && s.calls[c].stage == Bridging && !Ends(s, c)
    case Aborting(c) => c in s.calls && (s.calls[c].stage == Staged || s.calls[c].stage == Bridging)
  }

  ghost predicate CallsSafe(s: Sys) {
    forall c :: c in s.calls ==> CallOk(ViewCall(s, c))
  }

  ghost predicate LegsSafe(s: Sys)
    requires MapsSafe(s)
  {
    forall t :: t in s.legs ==> LegOk(ViewLeg(s, t))
  }

  ghost predicate Safe(s: Sys) {
    MapsSafe(s) && CallsSafe(s) && LegsSafe(s) && LoopSafe(s)
  }

  /** The media goroutine must not overtake a teardown of the same call. And a transfer must not be
      connected over another of the same call. */
  predicate Overtakes(s: Sys, ev: Event) {
    match ev
    case Ending(MediaRuns(c)) => c in s.calls && s.calls[c].tear != Alive
    case Transferring(Claims(t)) => t in s.legs && s.legs[t].call in s.calls && Replaces(s.calls[s.legs[t].call])
    case _ => false
  }

  /** A destination connected now would take the place of one connected before. */
  predicate Replaces(k: Call) {
    k.state != TornDown && k.transferChannel.Some?
  }

  // ---- looking up -----------------------------------------------------------------------

  lemma SafeFrame(s: Sys)
    requires Safe(s)
    ensures MapsSafe(s) && LoopSafe(s)
  {
  }

  lemma GetCall(s: Sys, c: nat)
    requires Safe(s) && c in s.calls
    ensures CallOk(ViewCall(s, c))
  {
  }

  lemma GetLeg(s: Sys, t: nat)
    requires Safe(s) && t in s.legs
    ensures s.legs[t].call in s.calls && LegOk(ViewLeg(s, t))
  {
  }

  lemma GetActive(s: Sys, ch: Chan)
    requires Safe(s) && ch in s.active
    ensures Owner(s, ch) == Some(s.active[ch]) && s.active[ch] in s.calls && s.calls[s.active[ch]].stage == Bridged
  {
    var c := s.active[ch];
    assert Owner(s, ch) == Some(c);
    match ch {
      case Dest(t) => GetLeg(s, t);
      case Caller(d) => GetCall(s, d);
      case Ext(d) => GetCall(s, d);
    }
  }

  lemma GetPending(s: Sys, ch: Chan)
    requires Safe(s) && ch in s.pending
    ensures s.pending[ch] in s.calls && (ch == Caller(s.pending[ch]) || ch == Ext(s.pending[ch]))
  {
  }

  lemma GetStaged(s: Sys, ch: Chan)
    requires Safe(s) && ch in s.pending && s.loop == Idle
    ensures s.pending[ch] in s.calls && s.calls[s.pending[ch]].stage == Staged
  {
    GetPending(s, ch);
    GetCall(s, s.pending[ch]);
  }

  /** The calls a purge takes. */
  lemma GetPurged(s: Sys, c: nat)
    requires Safe(s) && c in s.calls
    ensures c in s.active.Values || c in s.pending.Values ==>
      var stage := s.calls[c].stage; stage == Listed || stage == Staging || stage == Staged || stage == Bridged
  {
    hide MapsSafe, CallsSafe, LegsSafe;
    GetCall(s, c);
    if c in s.active.Values {
      var ch :| ch in s.active && s.active[ch] == c;
      GetActive(s, ch);
    } else if c in s.pending.Values {
      var ch :| ch in s.pending && s.pending[ch] == c;
      GetPending(s, ch);
    }
  }

  lemma GetAbsentLeg(s: Sys, t: nat)
    requires Safe(s) && t !in s.legs
    ensures Dest(t) !in s.active && t !in s.transfers
  {
    assert Owner(s, Dest(t)) == None;
  }

  // ---- a call, over one step --------------------------------------------------------------

  lemma GetAbsent(s: Sys, c: nat)
    requires Safe(s) && c !in s.calls
    ensures Caller(c) !in s.pending && Ext(c) !in s.pending && Caller(c) !in s.active && Ext(c) !in s.active
    ensures c !in s.due && c !in s.dueAbort && s.loop != SettingUp(c)
  {
    assert Owner(s, Caller(c)) == Some(c) == Owner(s, Ext(c));
  }

  lemma ArrivalCall(s: Sys, ev: SetupEvent, c: nat)
    requires Safe(s) && SetupEnabled(s, ev) && c in SetupStep(s, ev).calls
    requires ev.InboundArrives? || ev.CalleeAnswers? || ev.AnswerFails? || ev.NoPort?
    ensures CallOk(ViewCall(SetupStep(s, ev), c))
  {
    hide MapsSafe, CallsSafe, LegsSafe;
    if c in s.calls {
      GetCall(s, c);
    }
  }

  lemma PortCall(s: Sys, ev: SetupEvent, c: nat)
    requires Safe(s) && SetupEnabled(s, ev) && c in SetupStep(s, ev).calls
    requires ev.PortTaken?
    ensures CallOk(ViewCall(SetupStep(s, ev), c))
  {
    hide MapsSafe, CallsSafe, LegsSafe;
    if c in s.calls {
      GetCall(s, c);
    }
    GetAbsent(s, s.loop.c);
  }

  lemma FailureCall(s: Sys, ev: SetupEvent, c: nat)
    requires Safe(s) && SetupEnabled(s, ev) && c in SetupStep(s, ev).calls
    requires ev.BindFails? || ev.MediaFails?
    ensures CallOk(ViewCall(SetupStep(s, ev), c))
  {
    hide SetupStep, SetupEnabled, CallOk, Safe;
    if ev.BindFails? {
      BindFailsCall(s, c);
    } else {
      MediaFailsCall(s, c);
    }
  }

  lemma BindFailsCall(s: Sys, c: nat)
    requires Safe(s) && SetupEnabled(s, BindFails) && c in SetupStep(s, BindFails).calls
    ensures CallOk(ViewCall(SetupStep(s, BindFails), c))
  {
    hide MapsSafe, CallsSafe, LegsSafe;
    GetCall(s, c);
  }

  lemma MediaFailsCall(s: Sys, c: nat)
    requires Safe(s) && SetupEnabled(s, MediaFails)
    requires c in SetupStep(s, MediaFails).calls
    ensures CallOk(ViewCall(SetupStep(s, MediaFails), c))
  {
    hide MapsSafe, CallsSafe, LegsSafe;
    GetCall(s, c);
  }

  lemma StagingCall(s: Sys, ev: SetupEvent, c: nat)
    requires Safe(s) && SetupEnabled(s, ev) && c in SetupStep(s, ev).calls
    requires ev.Bound? || ev.MarksStaged? || ev.MediaAsked?
    ensures CallOk(ViewCall(SetupStep(s, ev), c))
  {
    hide MapsSafe, CallsSafe, LegsSafe;
    if c in s.calls {
      GetCall(s, c);
    }
  }

  lemma BridgingCall(s: Sys, ev: SetupEvent, c: nat)
    requires Safe(s) && SetupEnabled(s, ev) && c in SetupStep(s, ev).calls
    requires ev.ExtArrives? || ev.BridgeFails? || ev.BridgeMade?
    ensures CallOk(ViewCall(SetupStep(s, ev), c))
  {
    hide MapsSafe, CallsSafe, LegsSafe;
    if c in s.calls {
      GetCall(s, c);
    }
  }

  lemma RunningCall(s: Sys, ev: TearEvent, c: nat)
    requires Safe(s) && TearEnabled(s, ev) && !Overtakes(s, Ending(ev)) && c in TearStep(s, ev).calls
    requires ev.AbortClears? || ev.MediaRuns? || ev.MediaDead? || ev.FreesPort?
    ensures CallOk(ViewCall(TearStep(s, ev), c))
  {
    hide MapsSafe, CallsSafe, LegsSafe;
    if c in s.calls {
      GetCall(s, c);
    }
  }

  lemma LeavingCall(s: Sys, ev: TearEvent, c: nat)
    requires Safe(s) && TearEnabled(s, ev) && !Overtakes(s, Ending(ev)) && c in TearStep(s, ev).calls
    requires ev.StasisEnds?
    ensures CallOk(ViewCall(TearStep(s, ev), c))
  {
    hide MapsSafe, CallsSafe, LegsSafe;
    if c in s.calls {
      GetCall(s, c);
    }
    if ev.ch in s.active {
      GetActive(s, ev.ch);
    } else if ev.ch in s.pending {
      GetPending(s, ev.ch);
    }
  }

  lemma PurgedCall(s: Sys, ev: TearEvent, c: nat)
    requires Safe(s) && TearEnabled(s, ev) && !Overtakes(s, Ending(ev)) && c in TearStep(s, ev).calls
    requires ev.Purges?
    ensures CallOk(ViewCall(TearStep(s, ev), c))
  {
    hide MapsSafe, CallsSafe, LegsSafe;
    if c in s.calls {
      GetCall(s, c);
    }
    GetPurged(s, c);
  }

  lemma BeginningCall(s: Sys, ev: TearEvent, c: nat)
    requires Safe(s) && TearEnabled(s, ev) && !Overtakes(s, Ending(ev)) && c in TearStep(s, ev).calls
    requires ev.TeardownBegins? || ev.AbortBegins?
    ensures CallOk(ViewCall(TearStep(s, ev), c))
  {
    hide MapsSafe, CallsSafe, LegsSafe;
    if c in s.calls {
      GetCall(s, c);
    }
  }

  lemma ClearingCall(s: Sys, ev: TearEvent, c: nat)
    requires Safe(s) && TearEnabled(s, ev) && !Overtakes(s, Ending(ev)) && c in TearStep(s, ev).calls
    requires ev.Clears?
    ensures CallOk(ViewCall(TearStep(s, ev), c))
  {
    hide MapsSafe, CallsSafe, LegsSafe;
    if c in s.calls {
      GetCall(s, c);
    }
  }

  lemma EndingCall(s: Sys, ev: TearEvent, c: nat)
    requires Safe(s) && TearEnabled(s, ev) && !Overtakes(s, Ending(ev)) && c in TearStep(s, ev).calls
    requires ev.HangsDest? || ev.Finishes?
    ensures CallOk(ViewCall(TearStep(s, ev), c))
  {
    hide MapsSafe, CallsSafe, LegsSafe;
    if c in s.calls {
      GetCall(s, c);
    }
  }

  lemma TransferringCall(s: Sys, ev: TransferEvent, c: nat)
    requires Safe(s) && TransferEnabled(s, ev) && c in TransferStep(s, ev).calls
    requires ev.TransferDials? || ev.TransferDialFails? || ev.TakesAnswer? || ev.TakesFailure? || ev.ChecksCall?
    ensures CallOk(ViewCall(TransferStep(s, ev), c))
  {
    hide MapsSafe, CallsSafe, LegsSafe, CallOk, LegOk;
    if c in s.calls {
      GetCall(s, c);
    }
    assert ViewCall(TransferStep(s, ev), c) == ViewCall(s, c);
  }

  lemma ConnectingCall(s: Sys, ev: TransferEvent, c: nat)
    requires Safe(s) && TransferEnabled(s, ev) && c in TransferStep(s, ev).calls
    requires ev.AddFails? || ev.Adds? || ev.GivesUp? || ev.HangsLeg?
    ensures CallOk(ViewCall(TransferStep(s, ev), c))
  {
    hide MapsSafe, CallsSafe, LegsSafe, CallOk, LegOk;
    if c in s.calls {
      GetCall(s, c);
    }
    assert ViewCall(TransferStep(s, ev), c) == ViewCall(s, c);
  }

  lemma DestinationCall(s: Sys, ev: TransferEvent, c: nat)
    requires Safe(s) && TransferEnabled(s, ev) && c in TransferStep(s, ev).calls
    requires ev.DestAnswers? || ev.DestDestroyed?
    ensures CallOk(ViewCall(TransferStep(s, ev), c))
  {
    hide MapsSafe, CallsSafe, LegsSafe, CallOk, LegOk;
    if c in s.calls {
      GetCall(s, c);
    }
    assert ViewCall(TransferStep(s, ev), c) == ViewCall(s, c);
  }

  lemma ClaimingCall(s: Sys, ev: TransferEvent, c: nat)
    requires Safe(s) && TransferEnabled(s, ev) && !Overtakes(s, Transferring(ev)) && c in TransferStep(s, ev).calls
    requires ev.Claims?
    ensures CallOk(ViewCall(TransferStep(s, ev), c))
  {
    hide MapsSafe, CallsSafe, LegsSafe;
    GetCall(s, c);
    GetLeg(s, ev.t);
    if c != s.legs[ev.t].call || s.calls[c].state == TornDown {
      OtherClaim(s, ev, c);
    }
  }

  /** A transfer's claim is not seen by other calls, and not by a call torn down. */
  lemma OtherClaim(s: Sys, ev: TransferEvent, c: nat)
    requires TransferEnabled(s, ev) && ev.Claims? && c in s.calls
    requires c != s.legs[ev.t].call || s.calls[c].state == TornDown
    ensures ViewCall(TransferStep(s, ev), c) == ViewCall(s, c)
  {
  }

  // ---- a transfer, over one step ---------------------------------------------------------

  lemma SetupLeg(s: Sys, ev: SetupEvent, t: nat)
    requires Safe(s) && SetupEnabled(s, ev) && t in SetupStep(s, ev).legs
    requires IsArrival(ev)
    ensures var s' := SetupStep(s, ev); s'.legs[t].call in s'.calls && LegOk(ViewLeg(s', t))
  {
    hide MapsSafe, CallsSafe, LegsSafe;
    if t in s.legs {
      GetLeg(s, t);
      GetCall(s, s.legs[t].call);
    }
  }

  lemma SetupLegToo(s: Sys, ev: SetupEvent, t: nat)
    requires Safe(s) && SetupEnabled(s, ev) && t in SetupStep(s, ev).legs
    requires !IsArrival(ev)
    ensures var s' := SetupStep(s, ev); s'.legs[t].call in s'.calls && LegOk(ViewLeg(s', t))
  {
    hide MapsSafe, CallsSafe, LegsSafe;
    if ev.ExtArrives? {
      GetCall(s, ev.c);
    }
    if t in s.legs {
      GetLeg(s, t);
      GetCall(s, s.legs[t].call);
    }
  }

  lemma LeavingLeg(s: Sys, ev: TearEvent, t: nat)
    requires Safe(s) && TearEnabled(s, ev) && !Overtakes(s, Ending(ev)) && t in TearStep(s, ev).legs
    requires ev.StasisEnds? || ev.Purges? || ev.AbortClears?
    ensures var s' := TearStep(s, ev); s'.legs[t].call in s'.calls && LegOk(ViewLeg(s', t))
  {
    hide MapsSafe, CallsSafe, LegsSafe;
    if t in s.legs {
      GetLeg(s, t);
      GetCall(s, s.legs[t].call);
    }
  }

  lemma BeginningLeg(s: Sys, ev: TearEvent, t: nat)
    requires Safe(s) && TearEnabled(s, ev) && !Overtakes(s, Ending(ev)) && t in TearStep(s, ev).legs
    requires ev.MediaRuns? || ev.MediaDead? || ev.TeardownBegins? || ev.AbortBegins?
    ensures var s' := TearStep(s, ev); s'.legs[t].call in s'.calls && LegOk(ViewLeg(s', t))
  {
    hide MapsSafe, CallsSafe, LegsSafe;
    if t in s.legs {
      GetLeg(s, t);
      GetCall(s, s.legs[t].call);
    }
  }

  lemma ClearingLeg(s: Sys, ev: TearEvent, t: nat)
    requires Safe(s) && TearEnabled(s, ev) && !Overtakes(s, Ending(ev)) && t in TearStep(s, ev).legs
    requires ev.Clears? || ev.HangsDest?
    ensures var s' := TearStep(s, ev); s'.legs[t].call in s'.calls && LegOk(ViewLeg(s', t))
  {
    hide MapsSafe, CallsSafe, LegsSafe;
    if t in s.legs {
      GetLeg(s, t);
      GetCall(s, s.legs[t].call);
    }
  }

  lemma EndingLeg(s: Sys, ev: TearEvent, t: nat)
    requires Safe(s) && TearEnabled(s, ev) && !Overtakes(s, Ending(ev)) && t in TearStep(s, ev).legs
    requires ev.FreesPort? || ev.Finishes?
    ensures var s' := TearStep(s, ev); s'.legs[t].call in s'.calls && LegOk(ViewLeg(s', t))
  {
    hide MapsSafe, CallsSafe, LegsSafe;
    if t in s.legs {
      GetLeg(s, t);
      GetCall(s, s.legs[t].call);
    }
  }

  lemma WaitingLeg(s: Sys, ev: TransferEvent, t: nat)
    requires Safe(s) && TransferEnabled(s, ev) && t in TransferStep(s, ev).legs
    requires ev.TransferDials? || ev.TransferDialFails? || ev.TakesAnswer? || ev.TakesFailure?
    ensures var s' := TransferStep(s, ev); s'.legs[t].call in s'.calls && LegOk(ViewLeg(s', t))
  {
    hide MapsSafe, CallsSafe, LegsSafe;
    if t !in s.legs {
      GetAbsentLeg(s, t);
    }
    if t in s.legs {
      GetLeg(s, t);
      GetCall(s, s.legs[t].call);
    }
  }

  lemma ConnectingLeg(s: Sys, ev: TransferEvent, t: nat)
    requires Safe(s) && TransferEnabled(s, ev) && t in TransferStep(s, ev).legs
    requires ev.GivesUp? || ev.ChecksCall? || ev.AddFails? || ev.Adds? || ev.HangsLeg?
    ensures var s' := TransferStep(s, ev); s'.legs[t].call in s'.calls && LegOk(ViewLeg(s', t))
  {
    hide MapsSafe, CallsSafe, LegsSafe;
    if t in s.legs {
      GetLeg(s, t);
      GetCall(s, s.legs[t].call);
    }
  }

  lemma DestinationLeg(s: Sys, ev: TransferEvent, t: nat)
    requires Safe(s) && TransferEnabled(s, ev) && t in TransferStep(s, ev).legs
    requires ev.DestAnswers? || ev.DestDestroyed?
    ensures var s' := TransferStep(s, ev); s'.legs[t].call in s'.calls && LegOk(ViewLeg(s', t))
  {
    hide MapsSafe, CallsSafe, LegsSafe;
    if t in s.legs {
      GetLeg(s, t);
      GetCall(s, s.legs[t].call);
    }
  }

  lemma ClaimLeg(s: Sys, ev: TransferEvent, t: nat)
    requires Safe(s) && TransferEnabled(s, ev) && !Overtakes(s, Transferring(ev)) && t in TransferStep(s, ev).legs
    requires ev.Claims?
    ensures var s' := TransferStep(s, ev); s'.legs[t].call in s'.calls && LegOk(ViewLeg(s', t))
  {
    hide MapsSafe, CallsSafe, LegsSafe;
    GetLeg(s, ev.t);
    GetCall(s, s.legs[ev.t].call);
    if t in s.legs {
      GetLeg(s, t);
      GetCall(s, s.legs[t].call);
    }
  }

  // ---- the maps and the loop ---------------------------------------------------------------

  lemma ArrivalMaps(s: Sys, ev: SetupEvent)
    requires MapsSafe(s) && LoopSafe(s) && SetupEnabled(s, ev)
    requires IsArrival(ev)
    ensures MapsSafe(SetupStep(s, ev))
  {
  }

  lemma StagingMaps(s: Sys, ev: SetupEvent)
    requires MapsSafe(s) && LoopSafe(s) && SetupEnabled(s, ev)
    requires ev.Bound? || ev.MarksStaged?
    ensures MapsSafe(SetupStep(s, ev))
  {
  }

  lemma StagedMaps(s: Sys, ev: SetupEvent)
    requires MapsSafe(s) && LoopSafe(s) && SetupEnabled(s, ev)
    requires ev.MediaFails? || ev.MediaAsked?
    ensures MapsSafe(SetupStep(s, ev))
  {
  }

  lemma BridgingMaps(s: Sys, ev: SetupEvent)
    requires MapsSafe(s) && LoopSafe(s) && SetupEnabled(s, ev)
    requires ev.ExtArrives? || ev.BridgeFails? || ev.BridgeMade?
    ensures MapsSafe(SetupStep(s, ev))
  {
  }

  lemma LeavingMaps(s: Sys, ev: TearEvent)
    requires MapsSafe(s) && LoopSafe(s) && TearEnabled(s, ev)
    requires ev.StasisEnds? || ev.AbortClears?
    ensures MapsSafe(TearStep(s, ev))
  {
  }

  lemma RunningMaps(s: Sys, ev: TearEvent)
    requires MapsSafe(s) && LoopSafe(s) && TearEnabled(s, ev)
    requires ev.MediaRuns? || ev.MediaDead? || ev.Purges?
    ensures MapsSafe(TearStep(s, ev))
  {
  }

  lemma TeardownMaps(s: Sys, ev: TearEvent)
    requires MapsSafe(s) && LoopSafe(s) && TearEnabled(s, ev)
    requires !IsLeaving(ev)
    ensures MapsSafe(TearStep(s, ev))
  {
  }

  lemma WaitingMaps(s: Sys, ev: TransferEvent)
    requires MapsSafe(s) && LoopSafe(s) && TransferEnabled(s, ev)
    requires ev.TransferDials? || ev.TransferDialFails? || ev.TakesAnswer? || ev.TakesFailure? || ev.GivesUp?
             || ev.DestAnswers? || ev.DestDestroyed?
    ensures MapsSafe(TransferStep(s, ev))
  {
  }

  lemma ConnectingMaps(s: Sys, ev: TransferEvent)
    requires MapsSafe(s) && LoopSafe(s) && TransferEnabled(s, ev)
    requires ev.ChecksCall? || ev.AddFails? || ev.Adds? || ev.HangsLeg?
    ensures MapsSafe(TransferStep(s, ev))
  {
  }

  lemma ClaimingMaps(s: Sys, ev: TransferEvent)
    requires MapsSafe(s) && LoopSafe(s) && TransferEnabled(s, ev)
    requires ev.Claims?
    ensures MapsSafe(TransferStep(s, ev))
  {
  }

  lemma SetupLoop(s: Sys, ev: SetupEvent)
    requires Safe(s) && SetupEnabled(s, ev)
    ensures LoopSafe(SetupStep(s, ev))
  {
    hide CallsSafe, LegsSafe, MapsSafe;
    if ev.ExtArrives? {
      GetCall(s, ev.c);
    }
  }

  lemma TearLoop(s: Sys, ev: TearEvent)
    requires Safe(s) && TearEnabled(s, ev)
    ensures LoopSafe(TearStep(s, ev))
  {
    hide CallsSafe, LegsSafe, MapsSafe, CallOk;
    if ev.StasisEnds? {
      if ev.ch in s.active {
        GetActive(s, ev.ch);
      } else if ev.ch in s.pending {
        GetStaged(s, ev.ch);
      }
    } else if ev.Purges? && s.loop.Building? {
      GetPurged(s, s.loop.c);
    }
  }

  lemma TransferLoop(s: Sys, ev: TransferEvent)
    requires Safe(s) && TransferEnabled(s, ev)
    ensures LoopSafe(TransferStep(s, ev))
  {
    hide CallsSafe, LegsSafe, MapsSafe;
  }

  // ---- the theorem -------------------------------------------------------------------------

  lemma SetupSafe(s: Sys, ev: SetupEvent)
    requires Safe(s) && SetupEnabled(s, ev)
    ensures Safe(SetupStep(s, ev))
  {
    hide MapsSafe, Safe, SetupStep, SetupEnabled, CallOk, LegOk, ViewCall, LoopSafe;
    var s' := SetupStep(s, ev);
    SafeFrame(s);
    if IsArrival(ev) {
      ArrivalMaps(s, ev);
    } else if ev.ExtArrives? || ev.BridgeFails? || ev.BridgeMade? {
      BridgingMaps(s, ev);
    } else if ev.MediaFails? || ev.MediaAsked? {
      StagedMaps(s, ev);
    } else {
      StagingMaps(s, ev);
    }
    SetupLoop(s, ev);
    forall c | c in s'.calls ensures CallOk(ViewCall(s', c)) {
      match ev {
        case PortTaken(_) => PortCall(s, ev, c);
        case BindFails => FailureCall(s, ev, c);
        case MediaFails => FailureCall(s, ev, c);
        case InboundArrives(_) => ArrivalCall(s, ev, c);
        case CalleeAnswers(_) => ArrivalCall(s, ev, c);
        case AnswerFails => ArrivalCall(s, ev, c);
        case NoPort => ArrivalCall(s, ev, c);
        case Bound => StagingCall(s, ev, c);
        case MarksStaged => StagingCall(s, ev, c);
        case MediaAsked => StagingCall(s, ev, c);
        case _ => BridgingCall(s, ev, c);
      }
    }
    forall t | t in s'.legs ensures s'.legs[t].call in s'.calls && LegOk(ViewLeg(s', t)) {
      if IsArrival(ev) {
        SetupLeg(s, ev, t);
      } else {
        SetupLegToo(s, ev, t);
      }
    }
    SafeByParts(s');
  }

  lemma SafeByParts(s: Sys)
    requires MapsSafe(s) && LoopSafe(s)
    requires forall c :: c in s.calls ==> CallOk(ViewCall(s, c))
    requires forall t :: t in s.legs ==> s.legs[t].call in s.calls && LegOk(ViewLeg(s, t))
    ensures Safe(s)
  {
  }

  lemma TearSafe(s: Sys, ev: TearEvent)
    requires Safe(s) && TearEnabled(s, ev) && !Overtakes(s, Ending(ev))
    ensures Safe(TearStep(s, ev))
  {
    hide MapsSafe, Safe, TearStep, TearEnabled, Overtakes, CallOk, LegOk, ViewCall, LoopSafe;
    var s' := TearStep(s, ev);
    SafeFrame(s);
    if ev.StasisEnds? || ev.AbortClears? {
      LeavingMaps(s, ev);
    } else if IsLeaving(ev) {
      RunningMaps(s, ev);
    } else {
      TeardownMaps(s, ev);
    }
    TearLoop(s, ev);
    forall c | c in s'.calls ensures CallOk(ViewCall(s', c)) {
      match ev {
        case StasisEnds(_) => LeavingCall(s, ev, c);
        case Purges => PurgedCall(s, ev, c);
        case TeardownBegins(_) => BeginningCall(s, ev, c);
        case AbortBegins(_) => BeginningCall(s, ev, c);
        case Clears(_) => ClearingCall(s, ev, c);
        case HangsDest(_) => EndingCall(s, ev, c);
        case Finishes(_) => EndingCall(s, ev, c);
        case _ => RunningCall(s, ev, c);
      }
    }
    forall t | t in s'.legs ensures s'.legs[t].call in s'.calls && LegOk(ViewLeg(s', t)) {
      match ev {
        case StasisEnds(_) => LeavingLeg(s, ev, t);
        case Purges => LeavingLeg(s, ev, t);
        case AbortClears => LeavingLeg(s, ev, t);
        case Clears(_) => ClearingLeg(s, ev, t);
        case HangsDest(_) => ClearingLeg(s, ev, t);
        case FreesPort(_) => EndingLeg(s, ev, t);
        case Finishes(_) => EndingLeg(s, ev, t);
        case _ => BeginningLeg(s, ev, t);
      }
    }
    SafeByParts(s');
  }

  lemma TransferSafe(s: Sys, ev: TransferEvent)
    requires Safe(s) && TransferEnabled(s, ev) && !Overtakes(s, Transferring(ev))
    ensures Safe(TransferStep(s, ev))
  {
    hide MapsSafe, Safe, TransferStep, TransferEnabled, Overtakes, CallOk, LegOk, ViewCall, LoopSafe;
    var s' := TransferStep(s, ev);
    SafeFrame(s);
    match ev {
      case ChecksCall(_) => ConnectingMaps(s, ev);
      case AddFails(_) => ConnectingMaps(s, ev);
      case Adds(_) => ConnectingMaps(s, ev);
      case HangsLeg(_) => ConnectingMaps(s, ev);
      case Claims(_) => ClaimingMaps(s, ev);
      case _ => WaitingMaps(s, ev);
    }
    TransferLoop(s, ev);
    forall c | c in s'.calls ensures CallOk(ViewCall(s', c)) {
      match ev {
        case Claims(_) => ClaimingCall(s, ev, c);
        case DestAnswers(_) => DestinationCall(s, ev, c);
        case DestDestroyed(_) => DestinationCall(s, ev, c);
        case AddFails(_) => ConnectingCall(s, ev, c);
        case Adds(_) => ConnectingCall(s, ev, c);
        case GivesUp(_) => ConnectingCall(s, ev, c);
        case HangsLeg(_) => ConnectingCall(s, ev, c);
        case _ => TransferringCall(s, ev, c);
      }
    }
    forall t | t in s'.legs ensures s'.legs[t].call in s'.calls && LegOk(ViewLeg(s', t)) {
      match ev {
        case Claims(_) => ClaimLeg(s, ev, t);
        case DestAnswers(_) => DestinationLeg(s, ev, t);
        case DestDestroyed(_) => DestinationLeg(s, ev, t);
        case TransferDials(_, _) => WaitingLeg(s, ev, t);
        case TransferDialFails(_) => WaitingLeg(s, ev, t);
        case TakesAnswer(_) => WaitingLeg(s, ev, t);
        case TakesFailure(_) => WaitingLeg(s, ev, t);
        case _ => ConnectingLeg(s, ev, t);
      }
    }
    SafeByParts(s');
  }

  lemma DialSafe(s: Sys, ev: DialEvent)
    requires Safe(s) && DialEnabled(s, ev)
    ensures Safe(DialStep(s, ev))
  {
    hide MapsSafe, CallsSafe, LegsSafe, CallOk, LegOk;
    var s' := DialStep(s, ev);
    SameCalls(s, s');
  }

  lemma SameCalls(s: Sys, s': Sys)
    requires Safe(s) && s' == s.(dials := s'.dials, outbound := s'.outbound)
    ensures Safe(s')
  {
    hide CallOk, LegOk;
    forall c | c in s'.calls ensures CallOk(ViewCall(s', c)) {
      assert ViewCall(s', c) == ViewCall(s, c);
    }
    forall t | t in s'.legs ensures LegOk(ViewLeg(s', t)) {
      assert ViewLeg(s', t) == ViewLeg(s, t);
    }
    assert forall ch :: ch in s'.active ==> Owner(s', ch) == Owner(s, ch);
  }

  lemma OvertakingBreaks(s: Sys, ev: Event)
    requires Safe(s) && Enabled(s, ev) && Overtakes(s, ev)
    ensures !Safe(Step(s, ev))
  {
    hide MapsSafe, LegsSafe, LoopSafe;
    var s' := Step(s, ev);
    match ev {
      case Ending(e) => assert !CallOk(ViewCall(s', e.c));
      case Transferring(e) => ReplacingBreaks(s, e);
    }
  }

  /** The destination connected before is left up, and its call has forgotten it. */
  lemma ReplacingBreaks(s: Sys, ev: TransferEvent)
    requires Safe(s) && TransferEnabled(s, ev) && ev.Claims? && Replaces(s.calls[s.legs[ev.t].call])
    ensures !Safe(TransferStep(s, ev))
  {
    hide MapsSafe, CallsSafe, LoopSafe;
    var s' := TransferStep(s, ev);
    var c := s.legs[ev.t].call;
    var t := s.calls[c].transferChannel.value;
    GetCall(s, c);
    assert HasClaimed(s, t, c) && t != ev.t;
    assert t in s'.legs && s'.legs[t] == s.legs[t] && s'.calls[c].transferChannel == Some(ev.t);
    assert !LegOk(ViewLeg(s', t));
  }

  /** A step keeps the invariant exactly when it overtakes no teardown of the same call, and replaces
      no destination. */
  lemma SafeExactlyUnlessOvertaken(s: Sys, ev: Event)
    requires Safe(s) && Enabled(s, ev)
    ensures Safe(Step(s, ev)) <==> !Overtakes(s, ev)
  {
    hide Safe, SetupStep, TearStep, TransferStep, DialStep, SetupEnabled, TearEnabled, TransferEnabled, DialEnabled;
    if Overtakes(s, ev) {
      OvertakingBreaks(s, ev);
    } else {
      match ev {
        case Setup(e) => SetupSafe(s, e);
        case Ending(e) => TearSafe(s, e);
        case Dialling(e) => DialSafe(s, e);
        case Transferring(e) => TransferSafe(s, e);
      }
    }
  }

  ghost predicate Run(s: Sys, evs: seq<Event>)
    decreases |evs|
  {
    evs != [] ==> Enabled(s, evs[0]) && !Overtakes(s, evs[0]) && Run(Step(s, evs[0]), evs[1..])
  }

  ghost function After(s: Sys, evs: seq<Event>): Sys
    requires Run(s, evs)
    decreases |evs|
  {
    if evs == [] then s else After(Step(s, evs[0]), evs[1..])
  }

  lemma {:induction false} RunSafe(s: Sys, evs: seq<Event>)
    requires Safe(s) && Run(s, evs)
    ensures Safe(After(s, evs))
    decreases |evs|
  {
    hide Safe, Enabled, Overtakes, Step;
    if evs != [] {
      SafeExactlyUnlessOvertaken(s, evs[0]);
      RunSafe(Step(s, evs[0]), evs[1..]);
    }
  }

  lemma InitSafe()
    ensures Safe(INIT)
  {
  }

  // ---- what it says -------------------------------------------------------------------------

  /** A destination that is up is being worked on, or is connected to its call, which is not torn
      down or has its teardown about to hang the destination up. */
  lemma DestinationsAreAccountedFor(evs: seq<Event>, t: nat)
    requires Run(INIT, evs) && t in After(INIT, evs).legs && After(INIT, evs).legs[t].up
    ensures var s := After(INIT, evs);
      var l := s.legs[t];
      && l.call in s.calls
      && (var k := s.calls[l.call];
      || l.pc == Waiting || l.pc == Answered || l.pc == Adding || l.pc == Added || l.pc == ToHang
      || (k.transferChannel == Some(t) && (k.tear == Alive || k.tear == Marked(true) || k.tear == Cleared(Some(t)))))
  {
    InitSafe();
    RunSafe(INIT, evs);
    var s := After(INIT, evs);
    GetLeg(s, t);
    GetCall(s, s.legs[t].call);
  }

  /** Nothing is left to do: no transfer at work, no teardown under way. */
  ghost predicate Settled(s: Sys) {
    && (forall t :: t in s.legs ==> s.legs[t].pc == Claimed || s.legs[t].pc == GaveUp)
    && (forall c :: c in s.calls ==> s.calls[c].tear == Alive || s.calls[c].tear == Over)
  }

  /** Once everything settled: a destination is connected to a call not torn down, or hung up. */
  lemma SettledDestinations(evs: seq<Event>, t: nat)
    requires Run(INIT, evs) && Settled(After(INIT, evs)) && t in After(INIT, evs).legs && After(INIT, evs).legs[t].up
    ensures var s := After(INIT, evs);
      var l := s.legs[t];
      l.call in s.calls && s.calls[l.call].transferChannel == Some(t) && s.calls[l.call].tear == Alive
  {
    hide Run, After;
    DestinationsAreAccountedFor(evs, t);
  }

  /** Once its teardown has been through the maps, nothing in `active` or `pending` is the call's. */
  lemma TornDownLeavesNothing(evs: seq<Event>, c: nat, ch: Chan)
    requires Run(INIT, evs) && c in After(INIT, evs).calls
    requires var tear := After(INIT, evs).calls[c].tear; tear != Alive && tear != Marked(true)
    ensures var s := After(INIT, evs);
      (ch in s.active ==> s.active[ch] != c) && (ch in s.pending ==> s.pending[ch] != c)
  {
    hide Run, After, MapsSafe, CallsSafe, LegsSafe, LoopSafe;
    InitSafe();
    RunSafe(INIT, evs);
    var s := After(INIT, evs);
    GetCall(s, c);
    if ch in s.active {
      GetActive(s, ch);
      if ch.Dest? {
        GetLeg(s, ch.t);
      }
    }
    if ch in s.pending {
      GetPending(s, ch);
    }
  }
}
