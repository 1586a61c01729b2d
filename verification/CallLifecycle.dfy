/** The calls of one manager: the event loop, the timers and purges, the media goroutines, the
    dials and the transfers, each locked region and each ARI round trip one step. A call, its
    caller's channel and (outbound) its dial share one number; a transfer and the destination's
    channel share one. */
module CallLifecycle {
  import opened Wrappers

  datatype Chan = Caller(c: nat) | Ext(c: nat) | Dest(t: nat)

  /** What the event loop is in the middle of. */
  datatype Loop = Idle | Starting(c: nat) | SettingUp(c: nat) | Building(c: nat) | Aborting(c: nat)

  /** How far setting a call up got: port taken, in pending, marked as staged, externalMedia asked
      for, its channel arrived, bridged; or setup failed. */
  datatype Stage = Binding | Listed | Staging | Staged | Bridging | Bridged | Failed

  /** The session's own state. */
  datatype State = New | InSetup | MediaActive | TornDown

  /** The once-guarded teardown: full, or abort's. */
  datatype Tear = Alive | Marked(full: bool) | Cleared(dest: Option<nat>) | DestHung | Freed | Over

  /** frees: how often its port was given back. */
  datatype Call = Call(stage: Stage, state: State, tear: Tear, transferChannel: Option<nat>, port: nat, frees: nat)

  datatype Outcome = Connected | NotConnected(status: string)

  datatype DialStatus = Dialing | Dialed | DialFailed

  datatype Dial = Dial(status: DialStatus, answered: bool, agentStarted: bool, outcome: Option<Outcome>)

  /** A transfer: waiting for its destination, connecting it, done with it. */
  datatype Pc = Waiting | Answered | Adding | Added | Claimed | ToHang | GaveUp

  datatype Leg = Leg(call: nat, pc: Pc, up: bool, answered: bool, destroyed: bool)

  datatype Sys = Sys(
    loop: Loop, calls: map<nat, Call>, active: map<Chan, nat>, pending: map<Chan, nat>,
    due: set<nat>, dueAbort: set<nat>, inUse: map<nat, nat>,
    dials: map<nat, Dial>, outbound: set<nat>, legs: map<nat, Leg>, transfers: set<nat>)

  const INIT := Sys(Idle, map[], map[], map[], {}, {}, map[], map[], {}, map[], {})

  /** Setting a call up, on the event loop. */
  datatype SetupEvent =
    | InboundArrives(c: nat)
    | CalleeAnswers(c: nat)
    | AnswerFails
    | NoPort
    | PortTaken(p: nat)
    | BindFails
    | Bound
    | MarksStaged
    | MediaFails
    | MediaAsked
    | ExtArrives(c: nat)
    | BridgeFails
    | BridgeMade

  /** What ends a call, and the steps of its teardown. */
  datatype TearEvent =
    | StasisEnds(ch: Chan)
    | AbortClears
    | MediaRuns(c: nat)
    | MediaDead(c: nat)
    | Purges
    | TeardownBegins(c: nat)
    | AbortBegins(c: nat)
    | Clears(c: nat)
    | HangsDest(c: nat)
    | FreesPort(c: nat)
    | Finishes(c: nat)

  datatype DialEvent =
    | DialStarts(c: nat)
    | DialFails(c: nat)
    | DialReturns(c: nat)
    | RingingTaken(c: nat, status: string)
    | AgentStarts(c: nat)

  datatype TransferEvent =
    | TransferDials(t: nat, c: nat)
    | TransferDialFails(t: nat)
    | DestAnswers(t: nat)
    | DestDestroyed(t: nat)
    | TakesAnswer(t: nat)
    | TakesFailure(t: nat)
    | GivesUp(t: nat)
    | ChecksCall(t: nat)
    | AddFails(t: nat)
    | Adds(t: nat)
    | Claims(t: nat)
    | HangsLeg(t: nat)

  datatype Event = Setup(s: SetupEvent) | Ending(e: TearEvent) | Dialling(d: DialEvent) | Transferring(x: TransferEvent)

  function Legs2(c: nat): set<Chan> {
    {Caller(c), Ext(c)}
  }

  // ---- setting a call up (the event loop) ------------------------------------------------

  function SetCall(s: Sys, c: nat, k: Call): Sys {
    s.(calls := s.calls[c := k])
  }

  /** The once-guarded end of a dial. */
  function Finish(d: Dial, o: Outcome): Dial {
    if d.outcome.None? then d.(outcome := Some(o)) else d
  }

  function SetupFailed(s: Sys, c: nat): Sys {
    if c in s.outbound && c in s.dials then
      s.(outbound := s.outbound - {c}, dials := s.dials[c := Finish(s.dials[c], NotConnected("failed"))])
    else s
  }

  function OnCalleeAnswers(s: Sys, c: nat): Sys {
    if c in s.outbound && c in s.dials then
      s.(loop := Starting(c), dials := s.dials[c := s.dials[c].(answered := true)])
    else s
  }

  function OnPortTaken(s: Sys, c: nat, p: nat): Sys {
    s.(loop := SettingUp(c), calls := s.calls[c := Call(Binding, New, Alive, None, p, 0)], inUse := s.inUse[p := c])
  }

  function OnBindFails(s: Sys, c: nat): Sys
    requires c in s.calls
  {
    var k := s.calls[c];
    SetupFailed(s.(loop := Idle, calls := s.calls[c := k.(stage := Failed, frees := k.frees + 1)],
                   inUse := s.inUse - {k.port}), c)
  }

  function OnBound(s: Sys, c: nat): Sys
    requires c in s.calls
  {
    s.(calls := s.calls[c := s.calls[c].(stage := Listed)], pending := s.pending[Ext(c) := c][Caller(c) := c])
  }

  /** Whatever happened to the call since it can be found. */
  function OnMarksStaged(s: Sys, c: nat): Sys
    requires c in s.calls
  {
    s.(calls := s.calls[c := s.calls[c].(stage := Staging, state := InSetup)])
  }

  /** The exit outside the once-guard. */
  function OnMediaFails(s: Sys, c: nat): Sys
    requires c in s.calls
  {
    var k := s.calls[c];
    SetupFailed(s.(loop := Idle, pending := s.pending - Legs2(c),
                   calls := s.calls[c := k.(stage := Failed, frees := k.frees + 1)],
                   inUse := s.inUse - {k.port}), c)
  }

  function OnMediaAsked(s: Sys, c: nat): Sys
    requires c in s.calls
  {
    s.(loop := Idle, calls := s.calls[c := s.calls[c].(stage := Staged)])
  }

  /** Only the pending externalMedia leg counts; any other channel is a new call. */
  function OnExtArrives(s: Sys, c: nat): Sys
    requires c in s.calls
  {
    s.(loop := Building(c), pending := s.pending - Legs2(c), calls := s.calls[c := s.calls[c].(stage := Bridging)])
  }

  function OnBridgeMade(s: Sys, c: nat): Sys
    requires c in s.calls
  {
    s.(loop := Idle, calls := s.calls[c := s.calls[c].(stage := Bridged)],
        active := s.active[Caller(c) := c][Ext(c) := c])
  }

  /** A channel left: its bridged call is torn down, or its staged call aborted. */
  function OnStasisEnds(s: Sys, ch: Chan): Sys {
    s.(active := if ch in s.active then s.active - Legs2(s.active[ch]) else s.active,
       due := if ch in s.active then s.due + {s.active[ch]} else s.due,
       loop := if ch !in s.active && ch in s.pending then Aborting(s.pending[ch]) else s.loop)
  }

  function OnAbortClears(s: Sys, c: nat): Sys {
    s.(loop := Idle, pending := s.pending - Legs2(c), dueAbort := s.dueAbort + {c})
  }

  // ---- tearing down ----------------------------------------------------------------

  /** A reconnect or the shutdown: every tracked call is to be torn down, both maps emptied. */
  function OnPurges(s: Sys): Sys {
    s.(due := s.due + s.active.Values + s.pending.Values, active := map[], pending := map[])
  }

  /** The first to get here runs the teardown; everyone else is done. */
  function Begins(s: Sys, c: nat, full: bool): Sys
    requires c in s.calls
  {
    var k := s.calls[c];
    s.(due := if full then s.due - {c} else s.due,
       dueAbort := if full then s.dueAbort else s.dueAbort - {c},
       calls := if k.tear == Alive then s.calls[c := k.(state := TornDown, tear := Marked(full))] else s.calls)
  }

  function DestOf(transfer: Option<nat>): set<Chan> {
    if transfer.Some? then {Dest(transfer.value)} else {}
  }

  function OnClears(s: Sys, c: nat): Sys
    requires c in s.calls
  {
    var k := s.calls[c];
    s.(active := s.active - Legs2(c) - DestOf(k.transferChannel), pending := s.pending - Legs2(c),
       calls := s.calls[c := k.(tear := Cleared(k.transferChannel))])
  }

  function OnHangsDest(s: Sys, c: nat): Sys
    requires c in s.calls && s.calls[c].tear.Cleared?
  {
    var k := s.calls[c];
    s.(calls := s.calls[c := k.(tear := DestHung)],
       legs := if k.tear.dest.Some? then HungUp(s.legs, k.tear.dest.value) else s.legs)
  }

  function HungUp(legs: map<nat, Leg>, t: nat): map<nat, Leg> {
    if t in legs then legs[t := legs[t].(up := false)] else legs
  }

  function OnFreesPort(s: Sys, c: nat): Sys
    requires c in s.calls
  {
    var k := s.calls[c];
    s.(calls := s.calls[c := k.(tear := Freed, frees := k.frees + 1)], inUse := s.inUse - {k.port})
  }

  function OnFinishes(s: Sys, c: nat): Sys
    requires c in s.calls
  {
    s.(calls := s.calls[c := s.calls[c].(tear := Over)],
       outbound := s.outbound - {c},
       dials := if c in s.dials then s.dials[c := Finish(s.dials[c], EndOf(s.dials[c]))] else s.dials)
  }

  /** How a call that was answered ended: its agent's, if it had one by now. */
  function EndOf(d: Dial): Outcome {
    if d.agentStarted then Connected else NotConnected("failed")
  }

  // ---- dials ------------------------------------------------------------------------

  function OnRingingTaken(s: Sys, c: nat, status: string): Sys {
    if c in s.outbound && c in s.dials && !s.dials[c].answered then
      s.(outbound := s.outbound - {c}, dials := s.dials[c := Finish(s.dials[c], NotConnected(status))])
    else s
  }

  // ---- transfers --------------------------------------------------------------------

  function SetLeg(s: Sys, t: nat, l: Leg): Sys {
    s.(legs := s.legs[t := l])
  }

  /** The StasisStart of a destination: whoever waits is told; else it is hung up. */
  function OnDestAnswers(s: Sys, t: nat): Sys
    requires t in s.legs
  {
    var l := s.legs[t];
    SetLeg(s, t, l.(answered := l.answered || t in s.transfers, up := l.up && t in s.transfers))
  }

  function OnDestDestroyed(s: Sys, t: nat): Sys
    requires t in s.legs
  {
    SetLeg(s, t, s.legs[t].(up := false, destroyed := s.legs[t].destroyed || t in s.transfers))
  }

  function Forgets(s: Sys, t: nat, pc: Pc): Sys
    requires t in s.legs
  {
    s.(transfers := s.transfers - {t}, legs := s.legs[t := s.legs[t].(pc := pc)])
  }

  /** Re-checked under the lock the teardown reads transferChannel with. */
  function OnClaims(s: Sys, t: nat): Sys
    requires t in s.legs && s.legs[t].call in s.calls
  {
    var l := s.legs[t];
    var k := s.calls[l.call];
    var torn := k.state == TornDown;
    s.(legs := s.legs[t := l.(pc := if torn then ToHang else Claimed)],
       calls := if torn then s.calls else s.calls[l.call := k.(transferChannel := Some(t))],
       active := if torn then s.active else s.active[Dest(t) := l.call] - {Ext(l.call)})
  }

  predicate IsArrival(ev: SetupEvent) {
    ev.InboundArrives? || ev.CalleeAnswers? || ev.AnswerFails? || ev.NoPort? || ev.PortTaken? || ev.BindFails?
  }

  predicate IsLeaving(ev: TearEvent) {
    ev.StasisEnds? || ev.AbortClears? || ev.MediaRuns? || ev.MediaDead? || ev.Purges?
  }

  // ---- one step -----------------------------------------------------------------------

  // When an event can happen: who acts, and what the environment grants. An originate that fails
  // leaves no channel; a call is transferred after it was bridged.

  predicate SetupEnabled(s: Sys, ev: SetupEvent) {
    match ev
    case InboundArrives(c) => s.loop == Idle && c !in s.calls && c !in s.dials
    case CalleeAnswers(c) =>
      s.loop == Idle && c in s.dials && !s.dials[c].answered && s.dials[c].status != DialFailed && c !in s.calls
    case AnswerFails => s.loop.Starting? && s.loop.c !in s.dials
    case NoPort => s.loop.Starting?
    case PortTaken(p) => s.loop.Starting? && p !in s.inUse
    case BindFails => s.loop.SettingUp? && s.loop.c in s.calls && s.calls[s.loop.c].stage == Binding
    case Bound => s.loop.SettingUp? && s.loop.c in s.calls && s.calls[s.loop.c].stage == Binding
    case MarksStaged => s.loop.SettingUp? && s.loop.c in s.calls && s.calls[s.loop.c].stage == Listed
    case MediaFails => s.loop.SettingUp? && s.loop.c in s.calls && s.calls[s.loop.c].stage == Staging
    case MediaAsked => s.loop.SettingUp? && s.loop.c in s.calls && s.calls[s.loop.c].stage == Staging
    case ExtArrives(c) => s.loop == Idle && c in s.calls && Ext(c) in s.pending
    case BridgeFails => s.loop.Building?
    case BridgeMade => s.loop.Building? && s.loop.c in s.calls
  }

  predicate TearEnabled(s: Sys, ev: TearEvent) {
    match ev
    case StasisEnds(_) => s.loop == Idle
    case AbortClears => s.loop.Aborting?
    case MediaRuns(c) => c in s.calls && s.calls[c].stage == Bridged && s.calls[c].state != MediaActive
    case MediaDead(c) => c in s.calls && s.calls[c].stage == Bridged
    case Purges => true
    case TeardownBegins(c) => c in s.due && c in s.calls
    case AbortBegins(c) => c in s.dueAbort && c in s.calls
    case Clears(c) => c in s.calls && s.calls[c].tear == Marked(true)
    case HangsDest(c) => c in s.calls && s.calls[c].tear.Cleared?
    case FreesPort(c) => c in s.calls && (s.calls[c].tear == DestHung || s.calls[c].tear == Marked(false))
    case Finishes(c) => c in s.calls && s.calls[c].tear == Freed
  }

  predicate DialEnabled(s: Sys, ev: DialEvent) {
    match ev
    case DialStarts(c) => c !in s.dials && c !in s.calls && (s.loop.Starting? ==> s.loop.c != c)
    case DialFails(c) => c in s.dials && s.dials[c].status == Dialing && !s.dials[c].answered
    case DialReturns(c) => c in s.dials && s.dials[c].status == Dialing
    case RingingTaken(c, _) => c in s.dials && s.dials[c].status != DialFailed
    case AgentStarts(c) => c in s.calls && s.calls[c].stage == Bridged && c in s.dials
  }

  predicate TransferEnabled(s: Sys, ev: TransferEvent) {
    match ev
    case TransferDials(t, c) => t !in s.legs && c in s.calls && s.calls[c].stage == Bridged
    case _ => ev.t in s.legs && s.legs[ev.t].call in s.calls && LegEnabled(s.legs[ev.t], ev)
  }

  predicate LegEnabled(l: Leg, ev: TransferEvent) {
    match ev
    case TransferDials(_, _) => false
    case TransferDialFails(_) => l.pc == Waiting && !l.answered && !l.destroyed && l.up
    case DestAnswers(_) => l.up && !l.answered
    case DestDestroyed(_) => true
    case TakesAnswer(_) => l.pc == Waiting && l.answered
    case TakesFailure(_) => l.pc == Waiting && l.destroyed
    case GivesUp(_) => l.pc == Waiting
    case ChecksCall(_) => l.pc == Answered
    case AddFails(_) => l.pc == Adding
    case Adds(_) => l.pc == Adding
    case Claims(_) => l.pc == Added
    case HangsLeg(_) => l.pc == ToHang
  }

  predicate Enabled(s: Sys, ev: Event) {
    match ev
    case Setup(e) => SetupEnabled(s, e)
    case Ending(e) => TearEnabled(s, e)
    case Dialling(e) => DialEnabled(s, e)
    case Transferring(e) => TransferEnabled(s, e)
  }

  function SetupStep(s: Sys, ev: SetupEvent): Sys
    requires SetupEnabled(s, ev)
  {
    match ev
    case InboundArrives(c) => s.(loop := Starting(c))
    case CalleeAnswers(c) => OnCalleeAnswers(s, c)
    case AnswerFails => s.(loop := Idle)
    case NoPort => SetupFailed(s.(loop := Idle), s.loop.c)
    case PortTaken(p) => OnPortTaken(s, s.loop.c, p)
    case BindFails => OnBindFails(s, s.loop.c)
    case Bound => OnBound(s, s.loop.c)
    case MarksStaged => OnMarksStaged(s, s.loop.c)
    case MediaFails => OnMediaFails(s, s.loop.c)
    case MediaAsked => OnMediaAsked(s, s.loop.c)
    case ExtArrives(c) => OnExtArrives(s, c)
    case BridgeFails => s.(loop := Aborting(s.loop.c))
    case BridgeMade => OnBridgeMade(s, s.loop.c)
  }

  function TearStep(s: Sys, ev: TearEvent): Sys
    requires TearEnabled(s, ev)
  {
    match ev
    case StasisEnds(ch) => OnStasisEnds(s, ch)
    case AbortClears => OnAbortClears(s, s.loop.c)
    case MediaRuns(c) => SetCall(s, c, s.calls[c].(state := MediaActive))
    case MediaDead(c) => s.(due := s.due + {c})
    case Purges => OnPurges(s)
    case TeardownBegins(c) => Begins(s, c, true)
    case AbortBegins(c) => Begins(s, c, false)
    case Clears(c) => OnClears(s, c)
    case HangsDest(c) => OnHangsDest(s, c)
    case FreesPort(c) => OnFreesPort(s, c)
    case Finishes(c) => OnFinishes(s, c)
  }

  function DialStep(s: Sys, ev: DialEvent): Sys
    requires DialEnabled(s, ev)
  {
    match ev
    case DialStarts(c) => s.(outbound := s.outbound + {c}, dials := s.dials[c := Dial(Dialing, false, false, None)])
    case DialFails(c) => s.(outbound := s.outbound - {c}, dials := s.dials[c := s.dials[c].(status := DialFailed)])
    case DialReturns(c) => s.(dials := s.dials[c := s.dials[c].(status := Dialed)])
    case RingingTaken(c, status) => OnRingingTaken(s, c, status)
    case AgentStarts(c) => s.(dials := s.dials[c := s.dials[c].(agentStarted := true)])
  }

  function TransferStep(s: Sys, ev: TransferEvent): Sys
    requires TransferEnabled(s, ev)
  {
    match ev
    case TransferDials(t, c) =>
      s.(transfers := s.transfers + {t},
         legs := s.legs[t := Leg(c, Waiting, true, false, false)])
    case TransferDialFails(t) =>
      s.(transfers := s.transfers - {t},
         legs := s.legs[t := s.legs[t].(pc := GaveUp, up := false)])
    case DestAnswers(t) => OnDestAnswers(s, t)
    case DestDestroyed(t) => OnDestDestroyed(s, t)
    case TakesAnswer(t) => Forgets(s, t, Answered)
    case TakesFailure(t) => Forgets(s, t, GaveUp)
    case GivesUp(t) => Forgets(s, t, ToHang)
    case ChecksCall(t) =>
      SetLeg(s, t, s.legs[t].(pc := if s.calls[s.legs[t].call].state == TornDown then ToHang else Adding))
    case AddFails(t) => SetLeg(s, t, s.legs[t].(pc := ToHang))
    case Adds(t) => SetLeg(s, t, s.legs[t].(pc := Added))
    case Claims(t) => OnClaims(s, t)
    case HangsLeg(t) => SetLeg(s, t, s.legs[t].(pc := GaveUp, up := false))
  }

  function Step(s: Sys, ev: Event): Sys
    requires Enabled(s, ev)
  {
    match ev
    case Setup(e) => SetupStep(s, e)
    case Ending(e) => TearStep(s, e)
    case Dialling(e) => DialStep(s, e)
    case Transferring(e) => TransferStep(s, e)
  }
}
