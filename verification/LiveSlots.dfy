/** The calls that hold slots are as bounded as the sets: no slot that still counts is forgotten while its
    call has it, so with a clock that does not go back the limits are limits on calls. */
module LiveSlots {
  import opened SlotLimits

  /** When each slot was taken, in its organization's set and in Vaani's, and the latest time seen. */
  datatype Log = Log(org: map<string, int>, capacity: map<string, int>, clock: int)

  predicate Clocked(ev: Event) {
    ev.TakesCapacity? || ev.TakesOrg?
  }

  function NextLog(log: Log, ev: Event): Log {
    match ev
    case TakesCapacity(id, now) => log.(capacity := log.capacity[id := now], clock := now)
    case TakesOrg(id, now, _) => log.(org := log.org[id := now], clock := now)
    case _ => log
  }

  function LogAfter(log: Log, evs: seq<Event>): Log
    decreases |evs|
  {
    if evs == [] then log else LogAfter(NextLog(log, evs[0]), evs[1..])
  }

  /** The clock does not go back. */
  predicate Ticking(clock: int, evs: seq<Event>)
    decreases |evs|
  {
    evs != [] ==>
      if Clocked(evs[0]) then clock <= evs[0].now && Ticking(evs[0].now, evs[1..]) else Ticking(clock, evs[1..])
  }

  predicate HoldsCapacity(s: Sys, id: string) {
    id in s.phase && (s.phase[id] == HasCapacity || s.phase[id] == Held || s.phase[id] == Full)
  }

  predicate HoldsOrg(s: Sys, id: string) {
    id in s.phase && id in s.org && s.phase[id] == Held
  }

  /** Whoever has a slot that still counts is in the set, with the time it was taken. */
  predicate IsKept(maxCalls: nat, s: Sys, log: Log, id: string) {
    && (HoldsOrg(s, id) ==>
        && id in log.org && log.org[id] <= log.clock
        && (log.org[id] > log.clock - STALE ==> id in OrgSlots(s, s.org[id]))
        && (id in OrgSlots(s, s.org[id]) ==> OrgSlots(s, s.org[id])[id] == log.org[id]))
    && (maxCalls > 0 && HoldsCapacity(s, id) ==>
        && id in log.capacity && log.capacity[id] <= log.clock
        && (log.capacity[id] > log.clock - STALE ==> id in s.capacity)
        && (id in s.capacity ==> s.capacity[id] == log.capacity[id]))
  }

  lemma TakesOrgKeeps(maxCalls: nat, s: Sys, log: Log, ev: Event, id: string)
    requires Enabled(s, ev) && ev.TakesOrg? && log.clock <= ev.now && IsKept(maxCalls, s, log, id)
    ensures IsKept(maxCalls, Step(maxCalls, s, ev), NextLog(log, ev), id)
  {
    hide Take, Live;
    TakeIsExact(OrgSlots(s, s.org[ev.id]), ev.now, ev.limit, ev.id);
    LiveIs(OrgSlots(s, s.org[ev.id]), ev.now, id);
  }

  lemma TakesCapacityKeeps(maxCalls: nat, s: Sys, log: Log, ev: Event, id: string)
    requires Enabled(s, ev) && ev.TakesCapacity? && log.clock <= ev.now && IsKept(maxCalls, s, log, id)
    ensures IsKept(maxCalls, Step(maxCalls, s, ev), NextLog(log, ev), id)
  {
    hide Take, Live;
    TakeIsExact(s.capacity, ev.now, maxCalls, ev.id);
    LiveIs(s.capacity, ev.now, id);
  }

  lemma LiveIs(slots: Slots, now: int, id: string)
    ensures id in Live(slots, now) <==> id in slots && slots[id] > now - STALE
  {
  }

  lemma OthersKeep(maxCalls: nat, s: Sys, log: Log, ev: Event, id: string)
    requires Enabled(s, ev) && !Clocked(ev) && IsKept(maxCalls, s, log, id)
    ensures IsKept(maxCalls, Step(maxCalls, s, ev), NextLog(log, ev), id)
  {
  }

  lemma {:induction false} RunKeeps(maxCalls: nat, s: Sys, log: Log, evs: seq<Event>, id: string)
    requires Run(maxCalls, s, evs) && Ticking(log.clock, evs) && IsKept(maxCalls, s, log, id)
    ensures IsKept(maxCalls, After(maxCalls, s, evs), LogAfter(log, evs), id)
    decreases |evs|
  {
    hide Step, Enabled, IsKept;
    if evs != [] {
      if evs[0].TakesOrg? {
        TakesOrgKeeps(maxCalls, s, log, evs[0], id);
      } else if evs[0].TakesCapacity? {
        TakesCapacityKeeps(maxCalls, s, log, evs[0], id);
      } else {
        OthersKeep(maxCalls, s, log, evs[0], id);
      }
      RunKeeps(maxCalls, Step(maxCalls, s, evs[0]), NextLog(log, evs[0]), evs[1..], id);
    }
  }

  /** The calls of an organization, and Vaani's, with slots that still count at time now. */
  ghost function HeldBy(s: Sys, log: Log, org: nat, now: int): set<string> {
    set id | id in s.phase && HoldsOrg(s, id) && s.org[id] == org && id in log.org && log.org[id] > now - STALE
  }

  ghost function HeldByAll(s: Sys, log: Log, now: int): set<string> {
    set id | id in s.phase && HoldsCapacity(s, id) && id in log.capacity && log.capacity[id] > now - STALE
  }

  lemma {:induction false} SubsetIsSmaller<T>(a: set<T>, b: set<T>)
    requires a <= b
    ensures |a| <= |b|
    decreases |a|
  {
    if a != {} {
      var x :| x in a;
      SubsetIsSmaller(a - {x}, b - {x});
    }
  }

  /** Over every interleaving, with a clock that does not go back: at any time from then on, the calls of an
      organization holding slots that still count are no more than the limit passed when its newest slot
      was taken; and all such calls no more than Vaani's cap. */
  lemma CallsAreBounded(maxCalls: nat, evs: seq<Event>, org: nat, start: int, now: int)
    requires Run(maxCalls, INIT, evs) && Ticking(start, evs)
    requires LogAfter(Log(map[], map[], start), evs).clock <= now
    ensures var s, log := After(maxCalls, INIT, evs), LogAfter(Log(map[], map[], start), evs);
      && |HeldBy(s, log, org, now)| <= Granted(s, org)
      && (maxCalls > 0 ==> |HeldByAll(s, log, now)| <= maxCalls)
  {
    hide Run, After, LogAfter, Ticking, IsKept, OrgSlots, Granted;
    var log0 := Log(map[], map[], start);
    var s, log := After(maxCalls, INIT, evs), LogAfter(log0, evs);
    SlotsAreBounded(maxCalls, evs, org, "");
    forall id ensures IsKept(maxCalls, s, log, id) {
      NobodyHolds(maxCalls, log0, id);
      RunKeeps(maxCalls, INIT, log0, evs, id);
    }
    forall id | id in HeldBy(s, log, org, now) ensures id in OrgSlots(s, org).Keys {
      KeptInOrg(maxCalls, s, log, id, now);
    }
    SubsetIsSmaller(HeldBy(s, log, org, now), OrgSlots(s, org).Keys);
    KeysOf(OrgSlots(s, org));
    if maxCalls > 0 {
      forall id | id in HeldByAll(s, log, now) ensures id in s.capacity.Keys {
        KeptInAll(maxCalls, s, log, id, now);
      }
      SubsetIsSmaller(HeldByAll(s, log, now), s.capacity.Keys);
      KeysOf(s.capacity);
    }
  }

  lemma NobodyHolds(maxCalls: nat, log: Log, id: string)
    ensures IsKept(maxCalls, INIT, log, id)
  {
  }

  lemma KeptInOrg(maxCalls: nat, s: Sys, log: Log, id: string, now: int)
    requires IsKept(maxCalls, s, log, id) && log.clock <= now
    requires HoldsOrg(s, id) && id in log.org && log.org[id] > now - STALE
    ensures id in OrgSlots(s, s.org[id])
  {
  }

  lemma KeptInAll(maxCalls: nat, s: Sys, log: Log, id: string, now: int)
    requires maxCalls > 0 && IsKept(maxCalls, s, log, id) && log.clock <= now
    requires HoldsCapacity(s, id) && id in log.capacity && log.capacity[id] > now - STALE
    ensures id in s.capacity
  {
  }
}
