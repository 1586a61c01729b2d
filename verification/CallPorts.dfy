/** What calls own: a media port each, given back once. */
module CallPorts {
  import opened Wrappers
  import opened CallLifecycle
  import opened CallSafety
  import opened CallCore

  // ---- ports --------------------------------------------------------------------------

  /** The call's port has not been given back. */
  predicate Holds(k: Call) {
    k.stage != Failed && k.tear != Freed && k.tear != Over
  }

  /** Its teardown has yet to give the port back. */
  predicate OwesPort(s: Sys, c: nat)
    requires c in s.calls
  {
    var tear := s.calls[c].tear;
    tear.Marked? || tear.Cleared? || tear.DestHung? || (tear == Alive && (c in s.due || c in s.dueAbort))
  }

  /** The port was given back exactly once, or is still held; and is held if it is to be given back. */
  predicate PortOk(s: Sys, c: nat)
    requires c in s.calls
  {
    var k := s.calls[c];
    k.frees == (if Holds(k) then 0 else 1) && (OwesPort(s, c) ==> Holds(k))
  }

  /** The ports in use are exactly those of the calls that hold one, each its own. */
  ghost predicate PortsInUse(s: Sys) {
    && (forall c :: c in s.calls && Holds(s.calls[c]) ==> s.calls[c].port in s.inUse && s.inUse[s.calls[c].port] == c)
    && (forall p :: p in s.inUse ==>
          s.inUse[p] in s.calls && Holds(s.calls[s.inUse[p]]) && s.calls[s.inUse[p]].port == p)
  }

  ghost predicate PortsSafe(s: Sys) {
    (forall c :: c in s.calls ==> PortOk(s, c)) && PortsInUse(s)
  }

  // One lemma for a call's port, one for the ports in use; by what the event does.

  lemma ArrivalPort(s: Sys, ev: SetupEvent, c: nat)
    requires Core(s) && SetupEnabled(s, ev) && IsArrival(ev)
    requires c in SetupStep(s, ev).calls && (c in s.calls ==> PortOk(s, c))
    ensures PortOk(SetupStep(s, ev), c)
  {
    hide CallsCore, LegsCore, MapsSafe;
    if c in s.calls {
      CoreOf(s, c);
    } else {
      CoreAbsent(s, c);
    }
  }

  lemma StagingPort(s: Sys, ev: SetupEvent, c: nat)
    requires Core(s) && SetupEnabled(s, ev) && !IsArrival(ev) && !FailsUnderTeardown(s, Setup(ev))
    requires c in s.calls && PortOk(s, c)
    ensures c in SetupStep(s, ev).calls && PortOk(SetupStep(s, ev), c)
  {
    hide CallsCore, LegsCore, MapsSafe;
    CoreOf(s, c);
  }

  lemma LeavingPort(s: Sys, ev: TearEvent, c: nat)
    requires Core(s) && TearEnabled(s, ev) && IsLeaving(ev)
    requires c in s.calls && PortOk(s, c)
    ensures c in TearStep(s, ev).calls && PortOk(TearStep(s, ev), c)
  {
    hide CallsCore, LegsCore, MapsSafe;
    CoreOf(s, c);
    CorePurged(s, c);
    if ev.StasisEnds? && ev.ch in s.active {
      CoreActive(s, ev.ch);
    }
  }

  lemma TeardownPort(s: Sys, ev: TearEvent, c: nat)
    requires Core(s) && TearEnabled(s, ev) && !IsLeaving(ev)
    requires c in s.calls && PortOk(s, c)
    ensures c in TearStep(s, ev).calls && PortOk(TearStep(s, ev), c)
  {
    hide CallsCore, LegsCore, MapsSafe;
    CoreOf(s, c);
  }

  lemma ArrivalInUse(s: Sys, ev: SetupEvent)
    requires Core(s) && SetupEnabled(s, ev) && IsArrival(ev) && PortsInUse(s)
    ensures PortsInUse(SetupStep(s, ev))
  {
    hide CallsCore, LegsCore, MapsSafe;
    if ev.BindFails? {
      CoreOf(s, s.loop.c);
    } else if ev.PortTaken? {
      TakenInUse(s, ev.p);
    } else {
      hide Core, PortsInUse;
      ArrivalKeepsPorts(s, ev);
      SamePorts(s, SetupStep(s, ev));
    }
  }

  lemma TakenInUse(s: Sys, p: nat)
    requires Core(s) && SetupEnabled(s, PortTaken(p)) && PortsInUse(s)
    ensures PortsInUse(SetupStep(s, PortTaken(p)))
  {
    hide CallsCore, LegsCore, MapsSafe;
  }

  lemma ArrivalKeepsPorts(s: Sys, ev: SetupEvent)
    requires SetupEnabled(s, ev) && IsArrival(ev) && !ev.BindFails? && !ev.PortTaken?
    ensures SetupStep(s, ev).inUse == s.inUse && SetupStep(s, ev).calls == s.calls
  {
  }

  lemma StagingInUse(s: Sys, ev: SetupEvent)
    requires Core(s) && SetupEnabled(s, ev) && !IsArrival(ev) && !FailsUnderTeardown(s, Setup(ev)) && PortsInUse(s)
    ensures PortsInUse(SetupStep(s, ev))
  {
    hide CallsCore, LegsCore, MapsSafe;
    if ev.MediaFails? {
      CoreOf(s, s.loop.c);
    } else {
      hide Core, PortsInUse;
      StagingKeepsPorts(s, ev);
      SamePorts(s, SetupStep(s, ev));
    }
  }

  lemma StagingKeepsPorts(s: Sys, ev: SetupEvent)
    requires Core(s) && SetupEnabled(s, ev) && !IsArrival(ev) && !ev.MediaFails?
    ensures var s' := SetupStep(s, ev);
      s'.inUse == s.inUse && s'.calls.Keys == s.calls.Keys
      && forall c :: c in s.calls ==> s'.calls[c].port == s.calls[c].port && Holds(s'.calls[c]) == Holds(s.calls[c])
  {
    hide CallsCore, LegsCore, MapsSafe;
    if s.loop.SettingUp? {
      CoreOf(s, s.loop.c);
    } else if ev.ExtArrives? {
      CoreOf(s, ev.c);
    }
  }

  lemma SamePorts(s: Sys, s': Sys)
    requires PortsInUse(s) && s'.inUse == s.inUse && s'.calls.Keys == s.calls.Keys
    requires forall c :: c in s.calls ==> s'.calls[c].port == s.calls[c].port && Holds(s'.calls[c]) == Holds(s.calls[c])
    ensures PortsInUse(s')
  {
  }

  lemma LeavingInUse(s: Sys, ev: TearEvent)
    requires TearEnabled(s, ev) && IsLeaving(ev) && PortsInUse(s)
    ensures PortsInUse(TearStep(s, ev))
  {
  }

  lemma TeardownInUse(s: Sys, ev: TearEvent)
    requires Core(s) && TearEnabled(s, ev) && !IsLeaving(ev) && PortsInUse(s)
    ensures PortsInUse(TearStep(s, ev))
  {
    hide CallsCore, LegsCore, MapsSafe;
    if ev.FreesPort? {
      FreeingInUse(s, ev.c);
    }
  }

  lemma FreeingInUse(s: Sys, c: nat)
    requires Core(s) && TearEnabled(s, FreesPort(c)) && PortsInUse(s)
    ensures PortsInUse(TearStep(s, FreesPort(c)))
  {
    hide CallsCore, LegsCore, MapsSafe;
    CoreOf(s, c);
  }

  lemma SetupPorts(s: Sys, ev: SetupEvent)
    requires Core(s) && SetupEnabled(s, ev) && !FailsUnderTeardown(s, Setup(ev)) && PortsSafe(s)
    ensures PortsSafe(SetupStep(s, ev))
  {
    hide Core, SetupStep, SetupEnabled, PortOk, PortsInUse;
    var s' := SetupStep(s, ev);
    if IsArrival(ev) { ArrivalInUse(s, ev); } else { StagingInUse(s, ev); }
    forall c | c in s'.calls ensures PortOk(s', c) {
      if IsArrival(ev) {
        ArrivalPort(s, ev, c);
      } else {
        SetupKeepsCalls(s, ev);
        StagingPort(s, ev, c);
      }
    }
  }

  lemma TearPorts(s: Sys, ev: TearEvent)
    requires Core(s) && TearEnabled(s, ev) && PortsSafe(s)
    ensures PortsSafe(TearStep(s, ev))
  {
    hide Core, TearStep, TearEnabled, PortOk, PortsInUse;
    var s' := TearStep(s, ev);
    if IsLeaving(ev) { LeavingInUse(s, ev); } else { TeardownInUse(s, ev); }
    TearKeepsCalls(s, ev);
    forall c | c in s'.calls ensures PortOk(s', c) {
      if IsLeaving(ev) { LeavingPort(s, ev, c); } else { TeardownPort(s, ev, c); }
    }
  }

  lemma TransferPorts(s: Sys, ev: TransferEvent)
    requires TransferEnabled(s, ev) && PortsSafe(s)
    ensures PortsSafe(TransferStep(s, ev))
  {
    hide PortsInUse, TransferStep, TransferEnabled;
    var s' := TransferStep(s, ev);
    TransferKeepsCalls(s, ev);
    SamePorts(s, s');
    assert forall c :: c in s'.calls ==> PortOk(s', c) == PortOk(s, c);
  }

  lemma DialPorts(s: Sys, ev: DialEvent)
    requires DialEnabled(s, ev) && PortsSafe(s)
    ensures PortsSafe(DialStep(s, ev))
  {
  }

  lemma FailingBreaksPorts(s: Sys)
    requires SetupEnabled(s, MediaFails) && PortsSafe(s) && FailsUnderTeardown(s, Setup(MediaFails))
    ensures !PortsSafe(SetupStep(s, MediaFails))
  {
    var c := s.loop.c;
    assert PortOk(s, c);
    assert !PortOk(SetupStep(s, MediaFails), c);
  }

  /** A step keeps ports in order exactly when it is not the failed-externalMedia exit of a call
      whose teardown is owed or has begun. */
  lemma PortsExactlyUnlessFailing(s: Sys, ev: Event)
    requires Core(s) && Enabled(s, ev) && PortsSafe(s)
    ensures PortsSafe(Step(s, ev)) <==> !FailsUnderTeardown(s, ev)
  {
    hide Core, PortsSafe, SetupStep, TearStep, TransferStep, DialStep;
    hide SetupEnabled, TearEnabled, TransferEnabled, DialEnabled, Ends;
    if FailsUnderTeardown(s, ev) {
      FailingBreaksPorts(s);
    } else {
      match ev {
        case Setup(e) => SetupPorts(s, e);
        case Ending(e) => TearPorts(s, e);
        case Transferring(e) => TransferPorts(s, e);
        case Dialling(e) => DialPorts(s, e);
      }
    }
  }

  /** Nothing fails to ask for its externalMedia while it is being torn down. */
  ghost predicate NeverFails(s: Sys, evs: seq<Event>)
    requires Possible(s, evs)
    decreases |evs|
  {
    evs != [] ==> !FailsUnderTeardown(s, evs[0]) && NeverFails(Step(s, evs[0]), evs[1..])
  }

  lemma {:induction false} RunPorts(s: Sys, evs: seq<Event>)
    requires Core(s) && PortsSafe(s) && Possible(s, evs) && NeverFails(s, evs)
    ensures Core(Reached(s, evs)) && PortsSafe(Reached(s, evs))
    decreases |evs|
  {
    hide Core, PortsSafe, Enabled, FailsUnderTeardown, Step;
    if evs != [] {
      StepCore(s, evs[0]);
      PortsExactlyUnlessFailing(s, evs[0]);
      RunPorts(Step(s, evs[0]), evs[1..]);
    }
  }

  lemma InitPorts()
    ensures PortsSafe(INIT)
  {
  }

  /** Over every run, whatever else is overtaken in it: the ports in use are those of the calls that have
      not given theirs back; no two calls share one; and a call gives its port back once: not before
      its setup failed or its teardown got there, and never again. */
  lemma PortsAreOwned(evs: seq<Event>, c: nat, d: nat, p: nat)
    requires Possible(INIT, evs) && NeverFails(INIT, evs)
    ensures var s := Reached(INIT, evs);
      && (p in s.inUse <==> exists k :: k in s.calls && Holds(s.calls[k]) && s.calls[k].port == p)
      && (c in s.calls && d in s.calls && Holds(s.calls[c]) && Holds(s.calls[d]) && s.calls[c].port == s.calls[d].port
          ==> c == d)
      && (c in s.calls ==> s.calls[c].frees == if Holds(s.calls[c]) then 0 else 1)
  {
    hide Possible, Reached, NeverFails, Core;
    InitCore();
    InitPorts();
    RunPorts(INIT, evs);
    assert c in Reached(INIT, evs).calls ==> PortOk(Reached(INIT, evs), c);
  }
}
