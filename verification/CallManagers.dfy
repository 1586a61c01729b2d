/** The manager's maps as an object; each locked region is a method proved to take a step of
    CallLifecycle, and what is made of them is proved to take those steps in order. */
module CallManagers {
  import opened Wrappers
  import opened CallLifecycle

  ghost function Ringing(outbound: set<nat>, dials: map<nat, Dial>): set<nat> {
    set c | c in outbound && c in dials && !dials[c].answered
  }

  function EndedIf(ends: bool, d: Dial): Dial {
    if ends then Finish(d, NotConnected("failed")) else d
  }

  /** A whole teardown with nothing in between. */
  ghost function TornDownAlone(s: Sys, c: nat): Sys
    requires c in s.calls
  {
    var begun := Begins(s, c, true);
    if s.calls[c].tear != Alive then begun
    else OnFinishes(OnFreesPort(OnHangsDest(OnClears(begun, c), c), c), c)
  }

  ghost function Destroyed(s: Sys, ch: Chan, status: string): Sys {
    match ch
    case Caller(c) => OnRingingTaken(s, c, status)
    case Dest(t) => if t in s.legs then OnDestDestroyed(s, t) else s
    case Ext(_) => s
  }

  class Manager {
    var loop: Loop
    var calls: map<nat, Call>
    var active: map<Chan, nat>
    var pending: map<Chan, nat>
    var due: set<nat>
    var dueAbort: set<nat>
    var inUse: map<nat, nat>
    var dials: map<nat, Dial>
    var outbound: set<nat>
    var legs: map<nat, Leg>
    var transfers: set<nat>

    ghost function Model(): Sys
      reads this
    {
      Sys(loop, calls, active, pending, due, dueAbort, inUse, dials, outbound, legs, transfers)
    }

    constructor ()
      ensures Model() == INIT
    {
      loop, calls, active, pending, due, dueAbort := Idle, map[], map[], map[], {}, {};
      inUse, dials, outbound, legs, transfers := map[], map[], {}, map[], {};
    }

    /** The end of a channel: what the two lookups decide. */
    method OnStasisEnd(ch: Chan)
      modifies this`active, this`due, this`loop
      ensures Model() == OnStasisEnds(old(Model()), ch)
    {
      if ch in active {
        var c := active[ch];
        active := active - {Caller(c), Ext(c)};
        due := due + {c};
        return;
      }
      if ch in pending {
        loop := Aborting(pending[ch]);
      }
    }

    /** The once-guard: the first to get here runs the teardown, with the state already set. */
    method BeginTeardown(c: nat) returns (runs: bool)
      requires c in calls
      modifies this`due, this`calls
      ensures Model() == Begins(old(Model()), c, true) && runs == (old(calls[c].tear) == Alive)
    {
      due := due - {c};
      runs := calls[c].tear == Alive;
      if runs {
        calls := calls[c := calls[c].(state := TornDown, tear := Marked(true))];
      }
    }

    /** A teardown from its guard to the end of its dial: the maps, the transfer's destination, the port. */
    method Teardown(c: nat)
      requires c in calls
      modifies this
      ensures Model() == TornDownAlone(old(Model()), c)
    {
      var runs := BeginTeardown(c);
      if !runs {
        return;
      }
      var transferChannel := ClearMaps(c);
      HangUpDestination(c, transferChannel);
      FreePort(c);
      FinishOutbound(c);
    }

    method HangUpDestination(c: nat, transferChannel: Option<nat>)
      requires c in calls && calls[c].tear == Cleared(transferChannel)
      modifies this`calls, this`legs
      ensures Model() == OnHangsDest(old(Model()), c)
    {
      calls := calls[c := calls[c].(tear := DestHung)];
      if transferChannel.Some? && transferChannel.value in legs {
        legs := legs[transferChannel.value := legs[transferChannel.value].(up := false)];
      }
    }

    method FreePort(c: nat)
      requires c in calls
      modifies this`calls, this`inUse
      ensures Model() == OnFreesPort(old(Model()), c)
    {
      inUse := inUse - {calls[c].port};
      calls := calls[c := calls[c].(tear := Freed, frees := calls[c].frees + 1)];
    }

    /** The map cleanup of a teardown; which destination it is to hang up. */
    method ClearMaps(c: nat) returns (transferChannel: Option<nat>)
      requires c in calls
      modifies this`active, this`pending, this`calls
      ensures Model() == OnClears(old(Model()), c) && transferChannel == old(calls[c].transferChannel)
    {
      active := active - {Caller(c)};
      active := active - {Ext(c)};
      pending := pending - {Caller(c)};
      pending := pending - {Ext(c)};
      transferChannel := calls[c].transferChannel;
      if transferChannel.Some? {
        active := active - {Dest(transferChannel.value)};
      }
      calls := calls[c := calls[c].(tear := Cleared(transferChannel))];
      assert active == old(active) - Legs2(c) - DestOf(transferChannel);
      assert pending == old(pending) - Legs2(c);
    }

    /** Every tracked call is to be torn down; both maps start anew. */
    method PurgeMaps()
      modifies this`active, this`pending, this`due
      ensures Model() == OnPurges(old(Model()))
    {
      var fromActive := ValuesOf(active);
      var fromPending := ValuesOf(pending);
      active := map[];
      pending := map[];
      due := due + fromActive + fromPending;
    }

    method ValuesOf(m: map<Chan, nat>) returns (seen: set<nat>)
      ensures seen == m.Values
    {
      seen := {};
      var keys := m.Keys;
      while keys != {}
        invariant keys <= m.Keys
        invariant forall c :: c in seen ==> c in m.Values
        invariant forall ch :: ch in m.Keys - keys ==> m[ch] in seen
        decreases |keys|
      {
        var ch :| ch in keys;
        seen := seen + {m[ch]};
        keys := keys - {ch};
      }
      forall c | c in m.Values ensures c in seen {
        var ch :| ch in m && m[ch] == c;
        assert ch in m.Keys - keys;
      }
    }

    method TakeRinging(c: nat, status: string) returns (taken: bool)
      modifies this`outbound, this`dials
      ensures Model() == OnRingingTaken(old(Model()), c, status)
      ensures taken == (c in old(outbound) && c in old(dials) && !old(dials[c].answered))
    {
      if c !in outbound || c !in dials || dials[c].answered {
        return false;
      }
      outbound := outbound - {c};
      dials := dials[c := Finish(dials[c], NotConnected(status))];
      return true;
    }

    /** Every dialed call still ringing is ended; the answered ones are left. */
    method HangupRingingOutbound()
      modifies this`outbound, this`dials
      ensures outbound == old(outbound) - Ringing(old(outbound), old(dials))
      ensures dials.Keys == old(dials.Keys)
      ensures forall c :: c in dials ==> dials[c] == EndedIf(c in Ringing(old(outbound), old(dials)), old(dials[c]))
    {
      var ringing := set c | c in outbound && c in dials && !dials[c].answered;
      ghost var all := Ringing(outbound, dials);
      assert ringing == all;
      while ringing != {}
        invariant ringing <= all
        invariant outbound == old(outbound) - (all - ringing)
        invariant dials.Keys == old(dials.Keys)
        invariant forall c :: c in dials ==> dials[c] == EndedIf(c in all - ringing, old(dials[c]))
        decreases |ringing|
      {
        var c :| c in ringing;
        var taken := TakeRinging(c, "failed");
        ringing := ringing - {c};
      }
      assert all - ringing == all;
    }

    method OnOutboundAnswered(c: nat) returns (waited: bool)
      modifies this`loop, this`dials
      ensures Model() == OnCalleeAnswers(old(Model()), c) && waited == (c in outbound && c in old(dials))
    {
      waited := c in outbound && c in dials;
      if waited {
        dials := dials[c := dials[c].(answered := true)];
        loop := Starting(c);
      }
    }

    /** The exits of a setup whose socket cannot be bound, and whose externalMedia request fails. */
    method BindFailed(c: nat)
      requires c in calls
      modifies this`loop, this`calls, this`inUse, this`outbound, this`dials
      ensures Model() == OnBindFails(old(Model()), c)
    {
      GiveUp(c);
    }

    method MediaFailed(c: nat)
      requires c in calls
      modifies this`loop, this`calls, this`inUse, this`pending, this`outbound, this`dials
      ensures Model() == OnMediaFails(old(Model()), c)
    {
      pending := pending - {Ext(c)};
      pending := pending - {Caller(c)};
      assert pending == old(pending) - Legs2(c);
      GiveUp(c);
    }

    method GiveUp(c: nat)
      requires c in calls
      modifies this`loop, this`calls, this`inUse, this`outbound, this`dials
      ensures Model() == OnBindFails(old(Model()), c)
    {
      loop := Idle;
      inUse := inUse - {calls[c].port};
      calls := calls[c := calls[c].(stage := Failed, frees := calls[c].frees + 1)];
      OutboundSetupFailed(c);
    }

    method OutboundSetupFailed(c: nat)
      modifies this`outbound, this`dials
      ensures Model() == SetupFailed(old(Model()), c)
    {
      if c in outbound && c in dials {
        outbound := outbound - {c};
        dials := dials[c := Finish(dials[c], NotConnected("failed"))];
      }
    }

    method FinishOutbound(c: nat)
      requires c in calls
      modifies this`calls, this`outbound, this`dials
      ensures Model() == OnFinishes(old(Model()), c)
    {
      calls := calls[c := calls[c].(tear := Over)];
      outbound := outbound - {c};
      if c in dials {
        dials := dials[c := Finish(dials[c], if dials[c].agentStarted then Connected else NotConnected("failed"))];
      }
    }

    method OnTransferLegAnswered(t: nat)
      requires t in legs
      modifies this`legs
      ensures Model() == OnDestAnswers(old(Model()), t)
    {
      if t !in transfers {
        legs := legs[t := legs[t].(up := false)];
        return;
      }
      legs := legs[t := legs[t].(answered := true)];
    }

    method OnTransferLegDestroyed(t: nat)
      requires t in legs
      modifies this`legs
      ensures Model() == OnDestDestroyed(old(Model()), t)
    {
      legs := legs[t := legs[t].(up := false)];
      if t in transfers {
        legs := legs[t := legs[t].(destroyed := true)];
      }
    }

    /** The end of a channel: of a dial still ringing, or of a transfer's destination. */
    method OnChannelDestroyed(ch: Chan, status: string)
      modifies this`outbound, this`dials, this`legs
      ensures Model() == Destroyed(old(Model()), ch, status)
    {
      match ch {
        case Caller(c) => var taken := TakeRinging(c, status);
        case Dest(t) =>
          if t in legs {
            OnTransferLegDestroyed(t);
          }
        case Ext(_) =>
      }
    }

    /** The locked region of connecting a transfer. */
    method ClaimTransfer(t: nat) returns (connected: bool)
      requires t in legs && legs[t].call in calls
      modifies this`legs, this`calls, this`active
      ensures Model() == OnClaims(old(Model()), t) && connected == (old(calls[legs[t].call].state) != TornDown)
    {
      var c := legs[t].call;
      if calls[c].state == TornDown {
        legs := legs[t := legs[t].(pc := ToHang)];
        return false;
      }
      calls := calls[c := calls[c].(transferChannel := Some(t))];
      active := active[Dest(t) := c];
      active := active - {Ext(c)};
      legs := legs[t := legs[t].(pc := Claimed)];
      return true;
    }
  }
}
