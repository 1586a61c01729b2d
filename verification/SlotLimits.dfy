/** Concurrency slots: two sorted sets, Vaani's own capacity and one per organization, changed in
    separate scripts by any number of acquires and releases at once; and the limiter as an object. */
module SlotLimits {
  import opened Wrappers
  import Rates = RateWindow

  /** When a slot stops counting. */
  const STALE := 1200

  /** The slots of one key, and when each was taken. */
  type Slots = map<string, int>

  function Fresh(slots: Slots, now: int): Slots {
    map id | id in slots && slots[id] > now - STALE :: slots[id]
  }

  /** The script: trim, count, and add if there is room. */
  function Take(slots: Slots, now: int, limit: nat, id: string): (Slots, bool) {
    var kept := Fresh(slots, now);
    if |kept| < limit then (kept[id := now], true) else (kept, false)
  }

  function Drop(slots: Slots, id: string): Slots {
    slots - {id}
  }

  // ---- interleaved acquires and releases ---------------------------------------------------

  /** An acquire or a release under way: the capacity taken, both taken, the organization full, and
      the release of the two halves. */
  datatype Phase = Begun | HasCapacity | Held | Full | Refused | Releasing | Released

  /** org: the organization a slot is for; orgs: the slots of each; phase: how far each slot id is;
      granted: the limit passed when an organization's newest slot was taken, for the record. */
  datatype Sys = Sys(
    capacity: Slots, orgs: map<nat, Slots>, phase: map<string, Phase>, org: map<string, nat>, granted: map<nat, nat>)

  /** limit: the organization's, lowered by the campaign's own. */
  datatype Event =
    | Begins(id: string, org: nat)
    | TakesCapacity(id: string, now: int)
    | TakesOrg(id: string, now: int, limit: nat)
    | DropsCapacity(id: string)
    | Releases(id: string)
    | ReleasesOrg(id: string)

  function OrgSlots(s: Sys, org: nat): Slots {
    if org in s.orgs then s.orgs[org] else map[]
  }

  function Granted(s: Sys, org: nat): nat {
    if org in s.granted then s.granted[org] else 0
  }

  predicate Enabled(s: Sys, ev: Event) {
    match ev
    case Begins(id, _) => id !in s.phase
    case TakesCapacity(id, _) => id in s.phase && s.phase[id] == Begun
    case TakesOrg(id, _, _) => id in s.phase && s.phase[id] == HasCapacity && id in s.org
    case DropsCapacity(id) => id in s.phase && s.phase[id] == Full
    case Releases(id) => id in s.phase && s.phase[id] == Held
    case ReleasesOrg(id) => id in s.phase && s.phase[id] == Releasing && id in s.org
  }

  /** maxCalls: Vaani's own cap, first (none if it is 0); then the organization's; refused there, the cap is given
      back. */
  function Step(maxCalls: nat, s: Sys, ev: Event): Sys
    requires Enabled(s, ev)
  {
    match ev
    case Begins(id, org) => s.(phase := s.phase[id := Begun], org := s.org[id := org])
    case TakesCapacity(id, now) =>
      var (capacity, ok) := if maxCalls > 0 then Take(s.capacity, now, maxCalls, id) else (s.capacity, true);
      s.(capacity := capacity, phase := s.phase[id := if ok then HasCapacity else Refused])
    case TakesOrg(id, now, limit) =>
      var (slots, ok) := Take(OrgSlots(s, s.org[id]), now, limit, id);
      s.(orgs := s.orgs[s.org[id] := slots], phase := s.phase[id := if ok then Held else Full],
         granted := if ok then s.granted[s.org[id] := limit] else s.granted)
    case DropsCapacity(id) =>
      s.(capacity := if maxCalls > 0 then Drop(s.capacity, id) else s.capacity, phase := s.phase[id := Refused])
    case Releases(id) =>
      s.(capacity := if maxCalls > 0 then Drop(s.capacity, id) else s.capacity, phase := s.phase[id := Releasing])
    case ReleasesOrg(id) =>
      s.(orgs := s.orgs[s.org[id] := Drop(OrgSlots(s, s.org[id]), id)], phase := s.phase[id := Released])
  }

  ghost predicate Sizes(maxCalls: nat, s: Sys) {
    && (maxCalls > 0 ==> |s.capacity| <= maxCalls)
    && (maxCalls == 0 ==> s.capacity == map[])
    && (forall o :: o in s.orgs ==> |s.orgs[o]| <= Granted(s, o))
  }

  /** id is in a set only while its acquire or release says so, and only in its organization's. */
  predicate MemberOk(s: Sys, id: string, o: nat) {
    && (id in s.capacity ==>
        id in s.phase
        && (s.phase[id] == HasCapacity || s.phase[id] == Held || s.phase[id] == Full))
    && (id in OrgSlots(s, o) ==>
        id in s.phase && id in s.org && s.org[id] == o && (s.phase[id] == Held || s.phase[id] == Releasing))
  }

  /** Never more slots than the limits; and who is refused or has released is in neither set. */
  ghost predicate Safe(maxCalls: nat, s: Sys) {
    Sizes(maxCalls, s) && forall id, o :: MemberOk(s, id, o)
  }

  const INIT := Sys(map[], map[], map[], map[], map[])

  lemma {:induction false} SubmapIsSmaller(a: Slots, b: Slots)
    requires forall id :: id in a ==> id in b
    ensures |a| <= |b|
    decreases |b|
  {
    if id :| id in a {
      SubmapIsSmaller(a - {id}, b - {id});
      assert |a - {id}| == |a| - 1 && |b - {id}| == |b| - 1 by {
        OneLess(a, id);
        OneLess(b, id);
      }
    } else {
      assert a == map[];
    }
  }

  lemma OneLess(a: Slots, id: string)
    requires id in a
    ensures |a - {id}| == |a| - 1
  {
    assert a == (a - {id})[id := a[id]];
  }

  /** Whatever limit the others were taken under. */
  lemma TakeFits(slots: Slots, now: int, limit: nat, id: string)
    ensures var (slots', ok) := Take(slots, now, limit, id); |slots'| <= if ok then limit else |slots|
  {
    SubmapIsSmaller(Fresh(slots, now), slots);
  }

  lemma DropFits(slots: Slots, id: string)
    ensures |Drop(slots, id)| <= |slots|
  {
    SubmapIsSmaller(Drop(slots, id), slots);
  }

  lemma StepSizes(maxCalls: nat, s: Sys, ev: Event)
    requires Sizes(maxCalls, s) && Enabled(s, ev)
    ensures Sizes(maxCalls, Step(maxCalls, s, ev))
  {
    hide Take, Drop;
    NoSlots();
    match ev {
      case Begins(id, org) =>
      case TakesCapacity(id, now) => TakeFits(s.capacity, now, maxCalls, id);
      case TakesOrg(id, now, limit) => TakeFits(OrgSlots(s, s.org[id]), now, limit, id);
      case ReleasesOrg(id) => DropFits(OrgSlots(s, s.org[id]), id);
      case _ => DropFits(s.capacity, ev.id);
    }
  }

  lemma StepMember(maxCalls: nat, s: Sys, ev: Event, id: string, o: nat)
    requires Enabled(s, ev) && MemberOk(s, id, o) && (maxCalls == 0 ==> s.capacity == map[])
    ensures MemberOk(Step(maxCalls, s, ev), id, o)
  {
    hide Take, Drop;
    match ev {
      case Begins(_, _) =>
      case TakesCapacity(x, now) => TakeMembers(s.capacity, now, maxCalls, x);
      case TakesOrg(x, now, limit) => TakeMembers(OrgSlots(s, s.org[x]), now, limit, x);
      case ReleasesOrg(x) => DropMembers(OrgSlots(s, s.org[x]), x);
      case _ => DropMembers(s.capacity, ev.id);
    }
  }

  /** Under any interleaving of acquires and releases. */
  lemma StepSafe(maxCalls: nat, s: Sys, ev: Event)
    requires Safe(maxCalls, s) && Enabled(s, ev)
    ensures Safe(maxCalls, Step(maxCalls, s, ev))
  {
    hide MemberOk, Step, Enabled;
    StepSizes(maxCalls, s, ev);
    var s' := Step(maxCalls, s, ev);
    forall id, o: nat ensures MemberOk(s', id, o) {
      StepMember(maxCalls, s, ev, id, o);
    }
  }

  lemma NoSlots()
    ensures var none: Slots := map[]; |none| == 0
  {
  }

  lemma TakeMembers(slots: Slots, now: int, limit: nat, id: string)
    ensures forall x :: x in Take(slots, now, limit, id).0 ==> x in slots || (x == id && Take(slots, now, limit, id).1)
  {
  }

  lemma DropMembers(slots: Slots, id: string)
    ensures forall x :: x in Drop(slots, id) <==> x in slots && x != id
  {
  }

  ghost predicate Run(maxCalls: nat, s: Sys, evs: seq<Event>)
    decreases |evs|
  {
    evs != [] ==> Enabled(s, evs[0]) && Run(maxCalls, Step(maxCalls, s, evs[0]), evs[1..])
  }

  ghost function After(maxCalls: nat, s: Sys, evs: seq<Event>): Sys
    requires Run(maxCalls, s, evs)
    decreases |evs|
  {
    if evs == [] then s else After(maxCalls, Step(maxCalls, s, evs[0]), evs[1..])
  }

  lemma {:induction false} RunSafe(maxCalls: nat, s: Sys, evs: seq<Event>)
    requires Safe(maxCalls, s) && Run(maxCalls, s, evs)
    ensures Safe(maxCalls, After(maxCalls, s, evs))
    decreases |evs|
  {
    hide Safe, Step, Enabled;
    if evs != [] {
      StepSafe(maxCalls, s, evs[0]);
      RunSafe(maxCalls, Step(maxCalls, s, evs[0]), evs[1..]);
    }
  }

  /** At no point, stale slots included, does an organization have more than the limit passed when its
      newest slot was taken, nor Vaani more than its cap; a refused or released slot is in neither set. */
  lemma SlotsAreBounded(maxCalls: nat, evs: seq<Event>, org: nat, id: string)
    requires Run(maxCalls, INIT, evs)
    ensures var s := After(maxCalls, INIT, evs);
      && |OrgSlots(s, org)| <= Granted(s, org)
      && (maxCalls > 0 ==> |s.capacity| <= maxCalls)
      && (id in s.phase && (s.phase[id] == Refused || s.phase[id] == Released) ==>
          id !in s.capacity && id !in OrgSlots(s, org))
  {
    hide Run, After;
    RunSafe(maxCalls, INIT, evs);
    NoSlots();
    assert MemberOk(After(maxCalls, INIT, evs), id, org);
  }

  lemma GrantedUnderHighest(maxCalls: nat, s: Sys, ev: Event, org: nat, highest: nat)
    requires Enabled(s, ev) && Granted(s, org) <= highest && (ev.TakesOrg? ==> ev.limit <= highest)
    ensures Granted(Step(maxCalls, s, ev), org) <= highest
  {
    hide Take, Drop;
  }

  lemma SafeSize(maxCalls: nat, s: Sys, org: nat)
    requires Safe(maxCalls, s)
    ensures |OrgSlots(s, org)| <= Granted(s, org)
  {
    hide MemberOk;
    NoSlots();
  }

  /** So no organization ever has more than the highest limit passed for anyone. */
  lemma {:induction false} SlotsAreUnderHighest(maxCalls: nat, s: Sys, evs: seq<Event>, org: nat, highest: nat)
    requires Safe(maxCalls, s) && Run(maxCalls, s, evs) && Granted(s, org) <= highest
    requires forall i :: 0 <= i < |evs| && evs[i].TakesOrg? ==> evs[i].limit <= highest
    ensures |OrgSlots(After(maxCalls, s, evs), org)| <= highest
    decreases |evs|
  {
    hide Safe, Step, Enabled, Granted, OrgSlots;
    if evs == [] {
      SafeSize(maxCalls, s, org);
    } else {
      StepSafe(maxCalls, s, evs[0]);
      GrantedUnderHighest(maxCalls, s, evs[0], org, highest);
      SlotsAreUnderHighest(maxCalls, Step(maxCalls, s, evs[0]), evs[1..], org, highest);
    }
  }

  /** The ids still counting at time now. */
  ghost function Live(slots: Slots, now: int): set<string> {
    set id | id in slots && slots[id] > now - STALE
  }

  /** Trimming keeps those, as they are, and no other. */
  lemma FreshIsLive(slots: Slots, now: int)
    ensures Fresh(slots, now).Keys == Live(slots, now) && |Fresh(slots, now)| == |Live(slots, now)|
    ensures forall id :: id in Live(slots, now) ==> Fresh(slots, now)[id] == slots[id]
  {
    KeysOf(Fresh(slots, now));
  }

  lemma KeysOf(slots: Slots)
    ensures |slots| == |slots.Keys|
  {
  }

  /** A script takes the slot exactly if fewer than the limit still count, and forgets only those that do
      not. */
  lemma TakeIsExact(slots: Slots, now: int, limit: nat, id: string)
    ensures var (slots', ok) := Take(slots, now, limit, id);
      && (ok <==> |Live(slots, now)| < limit)
      && (forall x :: x in slots' <==> x in Live(slots, now) || (ok && x == id))
      && (forall x :: x in slots' ==> slots'[x] == if ok && x == id then now else slots[x])
  {
    hide Fresh, Live;
    FreshIsLive(slots, now);
    var kept := Fresh(slots, now);
    assert forall x :: x in kept <==> x in kept.Keys;
    LiveAreThere(slots, now);
  }

  lemma LiveAreThere(slots: Slots, now: int)
    ensures forall x :: x in Live(slots, now) ==> x in slots
  {
  }

  lemma TakeIs(slots: Slots, now: int, limit: nat, id: string)
    ensures var kept := Fresh(slots, now);
      Take(slots, now, limit, id) == if |kept| < limit then (kept[id := now], true) else (kept, false)
  {
  }

  lemma TakenBack(slots: Slots, now: int, id: string)
    requires id !in slots
    ensures Drop(Fresh(slots, now)[id := now], id) == Fresh(slots, now)
  {
  }

  // ---- one acquire by itself ------------------------------------------------------------------

  class Limiter {
    const maxCalls: nat
    var capacity: Slots
    var orgs: map<nat, Slots>
    var rates: map<nat, Rates.Rate>

    constructor (maxCalls: nat)
      ensures this.maxCalls == maxCalls && capacity == map[] && orgs == map[] && rates == map[]
    {
      this.maxCalls := maxCalls;
      capacity, orgs, rates := map[], map[], map[];
    }

    ghost function Of(org: nat): Slots
      reads this
    {
      if org in orgs then orgs[org] else map[]
    }

    method AcquireToken(org: nat, now: int, perSecond: nat) returns (ok: bool)
      modifies this`rates
      ensures var (rate, accepted) := Rates.Acquire(if org in old(rates) then old(rates)[org] else Rates.EMPTY, now,
          perSecond);
        rates == old(rates)[org := rate] && ok == accepted
    {
      var rate := if org in rates then rates[org] else Rates.EMPTY;
      var live := if now >= rate.expires then {} else rate.members;
      var kept := set m | m in live && m > now - Rates.WINDOW;
      assert kept == Rates.Trim(Rates.Live(rate, now), now);
      ok := |kept| < perSecond;
      if ok {
        rates := rates[org := Rates.Rate(kept + {now}, now + 2 * Rates.WINDOW)];
      } else {
        rates := rates[org := Rates.Rate(if now >= rate.expires then {} else kept, rate.expires)];
      }
    }

    /** The script on Vaani's own key, if there is a cap. */
    method TakeCapacity(now: int, id: string) returns (ok: bool)
      modifies this`capacity
      ensures capacity == if maxCalls > 0 then Take(old(capacity), now, maxCalls, id).0 else old(capacity)
      ensures ok == (maxCalls == 0 || Take(old(capacity), now, maxCalls, id).1)
    {
      hide Take;
      if maxCalls == 0 {
        return true;
      }
      var taken := Take(capacity, now, maxCalls, id);
      capacity := taken.0;
      return taken.1;
    }

    /** The script on the organization's key. */
    method TakeOrg(org: nat, now: int, limit: nat, id: string) returns (ok: bool)
      modifies this`orgs
      ensures var (slots, taken) := Take(old(Of(org)), now, limit, id); orgs == old(orgs)[org := slots] && ok == taken
    {
      hide Take;
      var slots := if org in orgs then orgs[org] else map[];
      var taken := Take(slots, now, limit, id);
      orgs := orgs[org := taken.0];
      return taken.1;
    }

    method DropCapacity(id: string)
      modifies this`capacity
      ensures capacity == if maxCalls > 0 then Drop(old(capacity), id) else old(capacity)
    {
      if maxCalls > 0 {
        capacity := Drop(capacity, id);
      }
    }

    /** Refused, the sets are as they were, but for stale slots trimmed. */
    method AcquireSlot(org: nat, now: int, limit: nat, id: string) returns (ok: bool)
      requires id !in capacity && id !in Of(org)
      modifies this`capacity, this`orgs
      ensures ok <==> |Live(old(Of(org)), now)| < limit && (maxCalls == 0 || |Live(old(capacity), now)| < maxCalls)
      ensures ok ==> forall x :: x in Of(org) <==>
          x == id || (x in old(Of(org)) && old(Of(org))[x] > now - STALE)
      ensures forall x :: x in old(Of(org)) && old(Of(org))[x] > now - STALE ==>
          x in Of(org) && Of(org)[x] == old(Of(org))[x]
      ensures ok ==> Of(org) == Fresh(old(Of(org)), now)[id := now] && |Fresh(old(Of(org)), now)| < limit
      ensures ok && maxCalls > 0 ==>
        capacity == Fresh(old(capacity), now)[id := now] && |Fresh(old(capacity), now)| < maxCalls
      ensures !ok ==> Of(org) == old(Of(org)) || Of(org) == Fresh(old(Of(org)), now)
      ensures !ok && maxCalls > 0 ==> capacity == Fresh(old(capacity), now)
      ensures !ok ==> |Fresh(old(Of(org)), now)| >= limit || (maxCalls > 0 && |Fresh(old(capacity), now)| >= maxCalls)
      ensures maxCalls == 0 ==> capacity == old(capacity)
      ensures forall o :: o != org ==> Of(o) == old(Of(o))
    {
      hide Take, Drop, Fresh;
      TakeIs(capacity, now, maxCalls, id);
      TakeIs(Of(org), now, limit, id);
      TakenBack(capacity, now, id);
      FreshIsLive(capacity, now);
      FreshIsLive(Of(org), now);
      ok := TakeCapacity(now, id);
      if !ok {
        return;
      }
      ok := TakeOrg(org, now, limit, id);
      if !ok {
        DropCapacity(id);
      }
    }

    method ReleaseSlot(org: nat, id: string)
      modifies this`capacity, this`orgs
      ensures capacity == if maxCalls > 0 then Drop(old(capacity), id) else old(capacity)
      ensures Of(org) == Drop(old(Of(org)), id) && forall o :: o != org ==> Of(o) == old(Of(o))
    {
      if maxCalls > 0 {
        capacity := Drop(capacity, id);
      }
      if org in orgs {
        orgs := orgs[org := Drop(orgs[org], id)];
      }
    }
  }
}
