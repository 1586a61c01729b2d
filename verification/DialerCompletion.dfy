/** A campaign is completed only when nothing of it is left, for good; the in-flight counts and the
    concurrency slots are exactly those of the calls being placed and in flight -- as long as no dial
    returns an error after its call was over. */
module DialerCompletion {
  import opened Wrappers
  import opened DialerSpec
  import opened DialerSafety

  // ---- the in-flight count -------------------------------------------------------------

  ghost function CallsOf(s: Sys, c: nat): set<nat> {
    set q | q in s.calls && s.calls[q].campaign == c
  }

  ghost predicate CountsSafe(s: Sys) {
    forall c: nat :: Inflight(s, c) == |CallsOf(s, c)|
  }

  lemma OneMore(s: Sys, s': Sys, c: nat, q: nat, d: nat)
    requires q !in s.calls && s'.calls.Keys == s.calls.Keys + {q} && s'.calls[q].campaign == d
    requires forall p :: p in s.calls ==> s'.calls[p].campaign == s.calls[p].campaign
    ensures |CallsOf(s', c)| == |CallsOf(s, c)| + if c == d then 1 else 0
  {
    assert CallsOf(s', c) == if c == d then CallsOf(s, c) + {q} else CallsOf(s, c);
  }

  lemma OneLess(s: Sys, s': Sys, c: nat, q: nat)
    requires q in s.calls && s'.calls == s.calls - {q}
    ensures |CallsOf(s', c)| == |CallsOf(s, c)| - if c == s.calls[q].campaign then 1 else 0
  {
    assert CallsOf(s', c) == CallsOf(s, c) - {q};
  }

  lemma SameCountOfDrain(s: Sys, ev: Event, c: nat)
    requires Enabled(s, ev) && !ev.Counts? && !ev.Uncounts? && !ev.Finishes? && !ev.Crashes?
    requires IsDrain(ev)
    ensures var s' := Step(s, ev);
      s'.calls.Keys == s.calls.Keys && s'.inflight == s.inflight
      && forall p :: p in s.calls ==> s'.calls[p].campaign == s.calls[p].campaign
  {
    hide KeyTaken, OpenWork;
  }

  lemma SameCountOfDialing(s: Sys, ev: Event, c: nat)
    requires Enabled(s, ev) && !ev.Counts? && !ev.Uncounts? && !ev.Finishes? && !ev.Crashes?
    requires IsDialing(ev)
    ensures var s' := Step(s, ev);
      s'.calls.Keys == s.calls.Keys && s'.inflight == s.inflight
      && forall p :: p in s.calls ==> s'.calls[p].campaign == s.calls[p].campaign
  {
    hide KeyTaken, OpenWork;
  }

  lemma SameCountOfClosing(s: Sys, ev: Event, c: nat)
    requires Enabled(s, ev) && !ev.Counts? && !ev.Uncounts? && !ev.Finishes? && !ev.Crashes?
    requires IsClosing(ev)
    ensures var s' := Step(s, ev);
      s'.calls.Keys == s.calls.Keys && s'.inflight == s.inflight
      && forall p :: p in s.calls ==> s'.calls[p].campaign == s.calls[p].campaign
  {
    hide KeyTaken, OpenWork;
  }

  lemma SameCountOfCall(s: Sys, ev: Event, c: nat)
    requires Enabled(s, ev) && !ev.Counts? && !ev.Uncounts? && !ev.Finishes? && !ev.Crashes?
    requires !IsDrain(ev) && !IsDialing(ev) && !IsClosing(ev)
    ensures var s' := Step(s, ev);
      s'.calls.Keys == s.calls.Keys && s'.inflight == s.inflight
      && forall p :: p in s.calls ==> s'.calls[p].campaign == s.calls[p].campaign
  {
    hide KeyTaken, OpenWork;
  }

  lemma SameCount(s: Sys, ev: Event, c: nat)
    requires Enabled(s, ev) && !ev.Counts? && !ev.Uncounts? && !ev.Finishes? && !ev.Crashes?
    ensures var s' := Step(s, ev);
      s'.calls.Keys == s.calls.Keys && s'.inflight == s.inflight
      && forall p :: p in s.calls ==> s'.calls[p].campaign == s.calls[p].campaign
  {
    hide Safe, Step, Enabled, OpenWork, DoneOk, CallsOf;
    if IsDrain(ev) {
      SameCountOfDrain(s, ev, c);
    } else if IsDialing(ev) {
      SameCountOfDialing(s, ev, c);
    } else if IsClosing(ev) {
      SameCountOfClosing(s, ev, c);
    } else {
      SameCountOfCall(s, ev, c);
    }
  }

  /** A dial comes back with an error though its call was over: both ends of the call give back what
      it had. */
  predicate FailsLate(s: Sys, ev: Event) {
    ev.Uncounts? && ev.c in s.drains && s.drains[ev.c].Failing? && !StillLive(s, s.drains[ev.c].q)
  }

  /** And the count has calls of others in it. */
  predicate Miscounts(s: Sys, ev: Event) {
    FailsLate(s, ev) && Inflight(s, ev.c) > 0
  }

  lemma StepCount(s: Sys, ev: Event, c: nat)
    requires Safe(s) && Enabled(s, ev) && !Miscounts(s, ev) && Inflight(s, c) == |CallsOf(s, c)|
    ensures Inflight(Step(s, ev), c) == |CallsOf(Step(s, ev), c)|
  {
    hide RowsSafe, LinesSafe, KeyTaken, OpenWork, CallsOf;
    var s' := Step(s, ev);
    if ev.Counts? {
      CountsCount(s, ev.c, c);
    } else if ev.Uncounts? {
      UncountsCount(s, ev.c, c);
    } else if ev.Finishes? {
      OneLess(s, s', c, ev.q);
    } else if ev.Crashes? {
      NoCalls(s', c);
    } else {
      hide Step;
      SameCount(s, ev, c);
      SameCallsOf(s, s', c);
    }
  }

  lemma CountsCount(s: Sys, d: nat, c: nat)
    requires Safe(s) && Enabled(s, Counts(d)) && Inflight(s, c) == |CallsOf(s, c)|
    ensures Inflight(Step(s, Counts(d)), c) == |CallsOf(Step(s, Counts(d)), c)|
  {
    hide RowsSafe, LinesSafe, KeyTaken, OpenWork, CallsOf;
    GetRow(s, s.drains[d].q);
    OneMore(s, Step(s, Counts(d)), c, s.drains[d].q, d);
  }

  lemma UncountsCount(s: Sys, d: nat, c: nat)
    requires Safe(s) && Enabled(s, Uncounts(d)) && !Miscounts(s, Uncounts(d)) && Inflight(s, c) == |CallsOf(s, c)|
    ensures Inflight(Step(s, Uncounts(d)), c) == |CallsOf(Step(s, Uncounts(d)), c)|
  {
    hide RowsSafe, LinesSafe, KeyTaken, OpenWork, CallsOf;
    var q, s' := s.drains[d].q, Step(s, Uncounts(d));
    if StillLive(s, q) {
      GetRow(s, q);
      OneLess(s, s', c, q);
    } else {
      SameCallsOf(s, s', c);
    }
  }

  lemma MiscountBreaks(s: Sys, ev: Event)
    requires Enabled(s, ev) && Miscounts(s, ev) && CountsSafe(s)
    ensures !CountsSafe(Step(s, ev))
  {
    hide KeyTaken, OpenWork, CallsOf;
    SameCallsOf(s, Step(s, ev), ev.c);
    assert Inflight(Step(s, ev), ev.c) != |CallsOf(Step(s, ev), ev.c)|;
  }

  /** A step keeps the in-flight counts exactly unless a dial returns an error after its call was over
      while calls are in flight. */
  lemma CountsExactlyUnlessLate(s: Sys, ev: Event)
    requires Safe(s) && Enabled(s, ev) && CountsSafe(s)
    ensures CountsSafe(Step(s, ev)) <==> !Miscounts(s, ev)
  {
    hide Safe, Step, Enabled, CallsOf, Miscounts, Inflight;
    if Miscounts(s, ev) {
      MiscountBreaks(s, ev);
    } else {
      forall c: nat ensures Inflight(Step(s, ev), c) == |CallsOf(Step(s, ev), c)| {
        StepCount(s, ev, c);
      }
    }
  }

  lemma NoCalls(s: Sys, c: nat)
    requires s.calls == map[]
    ensures CallsOf(s, c) == {}
  {
  }

  lemma SameCallsOf(s: Sys, s': Sys, c: nat)
    requires s'.calls.Keys == s.calls.Keys && forall p :: p in s.calls ==> s'.calls[p].campaign == s.calls[p].campaign
    ensures CallsOf(s', c) == CallsOf(s, c)
  {
  }

  // ---- completion -----------------------------------------------------------------------

  /** What a campaign's completion check has seen so far still holds; and a completed campaign has
      nothing left, and no drain that could start anything. */
  ghost predicate DoneOk(s: Sys, c: nat) {
    var checked := if c in s.drains && s.drains[c].Checking? then s.drains[c].step else 0;
    var completed := c in s.campaigns && s.campaigns[c].state == Completed;
    && (checked >= 2 || completed ==> CallsOf(s, c) == {})
    && (checked >= 3 || completed ==> !OpenWork(s.rows, c))
    && (completed && c in s.drains ==> s.drains[c] == Looking || s.drains[c].Checking?)
  }

  /** Rows of a campaign that only close, or were open before. */
  lemma NothingOpens(rows: map<nat, Row>, rows': map<nat, Row>, c: nat)
    requires !OpenWork(rows, c) && forall q :: OpenRow(rows', q, c) ==> OpenRow(rows, q, c)
    ensures !OpenWork(rows', c)
  {
    forall q ensures !OpenRow(rows', q, c) {
      assert OpenRow(rows, q, c) ==> q in rows && OpenWork(rows, c);
    }
  }

  /** What can open a row of the campaign: a retry of one of its calls, or its drain giving one back. */
  ghost predicate MayOpen(s: Sys, ev: Event, c: nat) {
    (ev.Settles? && CallsOf(s, c) != {}) || (ev.Marks? && c in s.drains && s.drains[c].Marking?)
  }

  lemma OpensOnlyOfDrain(s: Sys, ev: Event, c: nat, q: nat)
    requires Safe(s) && Enabled(s, ev) && OpenRow(Step(s, ev).rows, q, c)
    requires IsDrain(ev)
    ensures OpenRow(s.rows, q, c) || MayOpen(s, ev, c)
  {
    hide RowsSafe, LinesSafe, KeyTaken, OpenWork;
  }

  lemma OpensOnlyOfDialing(s: Sys, ev: Event, c: nat, q: nat)
    requires Safe(s) && Enabled(s, ev) && OpenRow(Step(s, ev).rows, q, c)
    requires IsDialing(ev)
    ensures OpenRow(s.rows, q, c) || MayOpen(s, ev, c)
  {
    hide RowsSafe, LinesSafe, KeyTaken, OpenWork;
  }

  lemma OpensOnlyOfClosing(s: Sys, ev: Event, c: nat, q: nat)
    requires Safe(s) && Enabled(s, ev) && OpenRow(Step(s, ev).rows, q, c)
    requires IsClosing(ev)
    ensures OpenRow(s.rows, q, c) || MayOpen(s, ev, c)
  {
    hide RowsSafe, LinesSafe, KeyTaken, OpenWork;
  }

  lemma OpensOnlyOfCall(s: Sys, ev: Event, c: nat, q: nat)
    requires Safe(s) && Enabled(s, ev) && OpenRow(Step(s, ev).rows, q, c)
    requires !IsDrain(ev) && !IsDialing(ev) && !IsClosing(ev)
    ensures OpenRow(s.rows, q, c) || MayOpen(s, ev, c)
  {
    hide RowsSafe, LinesSafe, KeyTaken, OpenWork;
    if ev.Settles? {
      GetRow(s, ev.q);
      assert ev.q in CallsOf(s, s.rows[ev.q].campaign);
    }
  }

  lemma OpensOnly(s: Sys, ev: Event, c: nat, q: nat)
    requires Safe(s) && Enabled(s, ev) && OpenRow(Step(s, ev).rows, q, c)
    ensures OpenRow(s.rows, q, c) || MayOpen(s, ev, c)
  {
    hide Safe, Step, Enabled, OpenWork, DoneOk, CallsOf;
    if IsDrain(ev) {
      OpensOnlyOfDrain(s, ev, c, q);
    } else if IsDialing(ev) {
      OpensOnlyOfDialing(s, ev, c, q);
    } else if IsClosing(ev) {
      OpensOnlyOfClosing(s, ev, c, q);
    } else {
      OpensOnlyOfCall(s, ev, c, q);
    }
  }

  lemma FewerCalls(s: Sys, s': Sys, c: nat)
    requires forall q :: q in s'.calls ==> q in s.calls && s'.calls[q].campaign == s.calls[q].campaign
    ensures CallsOf(s', c) <= CallsOf(s, c)
  {
  }

  lemma CallsGrowOnly(s: Sys, ev: Event, c: nat)
    requires Enabled(s, ev) && CallsOf(s, c) == {}
    ensures CallsOf(Step(s, ev), c) == {} || (ev == Counts(c) && s.drains[c].Recorded?)
  {
    hide KeyTaken, OpenWork, CallsOf;
    if ev.Counts? {
      if ev.c != c {
        CountsGrows(s, ev.c, c);
      }
    } else if ev.Uncounts? || ev.Finishes? || ev.Crashes? {
      FewerCalls(s, Step(s, ev), c);
    } else {
      hide Step;
      SameCount(s, ev, c);
      SameCallsOf(s, Step(s, ev), c);
    }
  }

  lemma CountsGrows(s: Sys, d: nat, c: nat)
    requires Enabled(s, Counts(d)) && CallsOf(s, c) == {} && d != c
    ensures CallsOf(Step(s, Counts(d)), c) == {}
  {
    hide KeyTaken, OpenWork;
    var s' := Step(s, Counts(d));
    forall q ensures q !in CallsOf(s', c) {
      assert q !in CallsOf(s, c);
    }
  }

  /** How a drain comes to where it is in its completion check. */
  predicate CheckMoves(s: Sys, ev: Event, s': Sys, c: nat) {
    c in s'.drains && s'.drains[c].Checking? ==>
      || (ev == NothingDue(c) && s'.drains[c].step == 1)
      || (c in s.drains && s.drains[c].Checking?
          && (s.drains[c].step == s'.drains[c].step || (ev == Checks(c) && s'.drains[c].step == s.drains[c].step + 1)))
  }

  lemma CheckMovesOfDrain(s: Sys, ev: Event, c: nat)
    requires Enabled(s, ev) && IsDrain(ev)
    ensures CheckMoves(s, ev, Step(s, ev), c)
  {
    hide KeyTaken, OpenWork;
  }

  lemma CheckMovesOfDialing(s: Sys, ev: Event, c: nat)
    requires Enabled(s, ev) && IsDialing(ev)
    ensures CheckMoves(s, ev, Step(s, ev), c)
  {
    hide KeyTaken, OpenWork;
  }

  lemma CheckMovesOfClosing(s: Sys, ev: Event, c: nat)
    requires Enabled(s, ev) && IsClosing(ev)
    ensures CheckMoves(s, ev, Step(s, ev), c)
  {
    hide KeyTaken, OpenWork;
  }

  lemma CheckMovesOfCall(s: Sys, ev: Event, c: nat)
    requires Enabled(s, ev) && !IsDrain(ev) && !IsDialing(ev) && !IsClosing(ev)
    ensures CheckMoves(s, ev, Step(s, ev), c)
  {
    hide KeyTaken, OpenWork;
  }

  lemma DrainMoves(s: Sys, ev: Event, c: nat)
    requires Enabled(s, ev)
    ensures CheckMoves(s, ev, Step(s, ev), c)
  {
    hide Step, Enabled, CheckMoves;
    if IsDrain(ev) {
      CheckMovesOfDrain(s, ev, c);
    } else if IsDialing(ev) {
      CheckMovesOfDialing(s, ev, c);
    } else if IsClosing(ev) {
      CheckMovesOfClosing(s, ev, c);
    } else {
      CheckMovesOfCall(s, ev, c);
    }
  }

  lemma CheckSees(s: Sys, c: nat)
    requires Enabled(s, Checks(c)) && Inflight(s, c) == |CallsOf(s, c)|
    ensures var s', n := Step(s, Checks(c)), s.drains[c].step;
      && s'.rows == s.rows && s'.calls == s.calls
      && (c in s'.drains ==>
          n < 4 && s'.drains[c] == Checking(n + 1)
          && (if n == 2 then !OpenWork(s.rows, c) else CallsOf(s, c) == {}))
      && (s'.campaigns[c].state == Completed ==> s.campaigns[c].state == Completed || n >= 4)
  {
    hide OpenWork;
  }

  lemma StepDone(s: Sys, ev: Event, c: nat)
    requires Safe(s) && Enabled(s, ev) && DoneOk(s, c) && Inflight(s, c) == |CallsOf(s, c)|
    ensures DoneOk(Step(s, ev), c)
  {
    hide RefsSafe, RowsSafe, LinesSafe, KeyTaken, OpenWork, CallsOf, Step, Inflight;
    var s' := Step(s, ev);
    if CallsOf(s, c) == {} {
      CallsGrowOnly(s, ev, c);
    }
    if !OpenWork(s.rows, c) && !MayOpen(s, ev, c) {
      forall q | OpenRow(s'.rows, q, c) ensures OpenRow(s.rows, q, c) {
        OpensOnly(s, ev, c, q);
      }
      NothingOpens(s.rows, s'.rows, c);
    }
    DrainMoves(s, ev, c);
    if ev == Checks(c) {
      CheckSees(s, c);
    } else {
      StaysCompleted(s, ev, c);
    }
  }

  predicate IsCompleted(s: Sys, c: nat) {
    c in s.campaigns && s.campaigns[c].state == Completed
  }

  /** A drain that has started nothing. */
  predicate IdleDrain(s: Sys, c: nat) {
    c in s.drains ==> s.drains[c] == Looking || s.drains[c].Checking?
  }

  predicate CompletedAlike(s: Sys, s': Sys, c: nat) {
    (IsCompleted(s', c) <==> IsCompleted(s, c)) && (IsCompleted(s, c) && IdleDrain(s, c) ==> IdleDrain(s', c))
  }

  /** Only a check completes a campaign; and no drain of a completed campaign takes a slot. */
  lemma StaysCompletedOfDrain(s: Sys, ev: Event, c: nat)
    requires Enabled(s, ev) && ev != Checks(c)
    requires IsDrain(ev)
    ensures CompletedAlike(s, Step(s, ev), c)
  {
    hide KeyTaken, OpenWork;
  }

  lemma StaysCompletedOfDialing(s: Sys, ev: Event, c: nat)
    requires Enabled(s, ev) && ev != Checks(c)
    requires IsDialing(ev)
    ensures CompletedAlike(s, Step(s, ev), c)
  {
    hide KeyTaken, OpenWork;
  }

  lemma StaysCompletedOfClosing(s: Sys, ev: Event, c: nat)
    requires Enabled(s, ev) && ev != Checks(c)
    requires IsClosing(ev)
    ensures CompletedAlike(s, Step(s, ev), c)
  {
    hide KeyTaken, OpenWork;
  }

  lemma StaysCompletedOfCall(s: Sys, ev: Event, c: nat)
    requires Enabled(s, ev) && ev != Checks(c)
    requires !IsDrain(ev) && !IsDialing(ev) && !IsClosing(ev)
    ensures CompletedAlike(s, Step(s, ev), c)
  {
    hide KeyTaken, OpenWork;
  }

  lemma StaysCompleted(s: Sys, ev: Event, c: nat)
    requires Enabled(s, ev) && ev != Checks(c)
    ensures CompletedAlike(s, Step(s, ev), c)
  {
    hide Safe, Step, Enabled, OpenWork, DoneOk, CallsOf;
    if IsDrain(ev) {
      StaysCompletedOfDrain(s, ev, c);
    } else if IsDialing(ev) {
      StaysCompletedOfDialing(s, ev, c);
    } else if IsClosing(ev) {
      StaysCompletedOfClosing(s, ev, c);
    } else {
      StaysCompletedOfCall(s, ev, c);
    }
  }

  // ---- the slots ------------------------------------------------------------------------

  /** The slot a drain holds itself. */
  function HeldBy(pc: Pc): Option<nat> {
    match pc
    case HasSlot(slot) => Some(slot)
    case Claimed(_, slot) => Some(slot)
    case Recorded(_, slot) => Some(slot)
    case Freeing(_, slot) => Some(slot)
    case _ => None
  }

  /** The slot a call in flight holds. */
  function HeldFor(k: Call): Option<nat> {
    if k.stage == Live || k.stage == Over then Some(k.slot) else None
  }

  /** A slot is held by exactly the one it is registered to. */
  predicate SlotOk(s: Sys, slot: nat) {
    slot in s.slots ==>
      match s.slots[slot]
      case Drain(c) => c in s.drains && HeldBy(s.drains[c]) == Some(slot)
      case CallOf(q) => q in s.calls && HeldFor(s.calls[q]) == Some(slot)
      case Leaked => true
  }

  /** Whoever holds a slot is registered with it. */
  ghost predicate HoldersSafe(s: Sys) {
    && (forall c :: c in s.drains && HeldBy(s.drains[c]).Some? ==>
          HeldBy(s.drains[c]).value in s.slots && s.slots[HeldBy(s.drains[c]).value] == Drain(c))
    && (forall q :: q in s.calls && HeldFor(s.calls[q]).Some? ==>
          HeldFor(s.calls[q]).value in s.slots && s.slots[HeldFor(s.calls[q]).value] == CallOf(q))
  }

  ghost predicate SlotsSafe(s: Sys) {
    (forall slot :: slot in s.slots ==> SlotOk(s, slot)) && HoldersSafe(s)
  }

  lemma StepSlotOfDrain(s: Sys, ev: Event, slot: nat)
    requires Safe(s) && Enabled(s, ev) && SlotOk(s, slot)
    requires IsDrain(ev)
    ensures SlotOk(Step(s, ev), slot)
  {
    hide RowsSafe, LinesSafe, KeyTaken, OpenWork;
  }

  lemma StepSlotOfDialing(s: Sys, ev: Event, slot: nat)
    requires Safe(s) && Enabled(s, ev) && SlotOk(s, slot)
    requires IsDialing(ev)
    ensures SlotOk(Step(s, ev), slot)
  {
    hide RowsSafe, LinesSafe, KeyTaken, OpenWork;
    if ev.Counts? || ev.Uncounts? {
      GetRow(s, s.drains[ev.c].q);
    }
  }

  lemma StepSlotOfClosing(s: Sys, ev: Event, slot: nat)
    requires Safe(s) && Enabled(s, ev) && SlotOk(s, slot)
    requires IsClosing(ev)
    ensures SlotOk(Step(s, ev), slot)
  {
    hide RowsSafe, LinesSafe, KeyTaken, OpenWork;
  }

  lemma StepSlotOfCall(s: Sys, ev: Event, slot: nat)
    requires Safe(s) && Enabled(s, ev) && SlotOk(s, slot)
    requires !IsDrain(ev) && !IsDialing(ev) && !IsClosing(ev)
    ensures SlotOk(Step(s, ev), slot)
  {
    hide RowsSafe, LinesSafe, KeyTaken, OpenWork;
  }

  lemma StepSlot(s: Sys, ev: Event, slot: nat)
    requires Safe(s) && Enabled(s, ev) && SlotOk(s, slot)
    ensures SlotOk(Step(s, ev), slot)
  {
    hide Safe, Step, Enabled, OpenWork, DoneOk, CallsOf;
    if IsDrain(ev) {
      StepSlotOfDrain(s, ev, slot);
    } else if IsDialing(ev) {
      StepSlotOfDialing(s, ev, slot);
    } else if IsClosing(ev) {
      StepSlotOfClosing(s, ev, slot);
    } else {
      StepSlotOfCall(s, ev, slot);
    }
  }

  lemma StepDrainHoldsOfDrain(s: Sys, ev: Event, c: nat)
    requires Safe(s) && Enabled(s, ev) && HoldersSafe(s) && !FailsLate(s, ev)
    requires IsDrain(ev)
    requires c in Step(s, ev).drains && HeldBy(Step(s, ev).drains[c]).Some?
    ensures var s', slot := Step(s, ev), HeldBy(Step(s, ev).drains[c]).value;
      slot in s'.slots && s'.slots[slot] == Drain(c)
  {
    hide RowsSafe, LinesSafe, KeyTaken, OpenWork;
  }

  lemma StepDrainHoldsOfDialing(s: Sys, ev: Event, c: nat)
    requires Safe(s) && Enabled(s, ev) && HoldersSafe(s) && !FailsLate(s, ev)
    requires IsDialing(ev)
    requires c in Step(s, ev).drains && HeldBy(Step(s, ev).drains[c]).Some?
    ensures var s', slot := Step(s, ev), HeldBy(Step(s, ev).drains[c]).value;
      slot in s'.slots && s'.slots[slot] == Drain(c)
  {
    hide RowsSafe, LinesSafe, KeyTaken, OpenWork;
    if ev.Counts? || ev.Uncounts? {
      GetRow(s, s.drains[ev.c].q);
    }
  }

  lemma StepDrainHoldsOfClosing(s: Sys, ev: Event, c: nat)
    requires Safe(s) && Enabled(s, ev) && HoldersSafe(s) && !FailsLate(s, ev)
    requires IsClosing(ev)
    requires c in Step(s, ev).drains && HeldBy(Step(s, ev).drains[c]).Some?
    ensures var s', slot := Step(s, ev), HeldBy(Step(s, ev).drains[c]).value;
      slot in s'.slots && s'.slots[slot] == Drain(c)
  {
    hide RowsSafe, LinesSafe, KeyTaken, OpenWork;
  }

  lemma StepDrainHoldsOfCall(s: Sys, ev: Event, c: nat)
    requires Safe(s) && Enabled(s, ev) && HoldersSafe(s) && !FailsLate(s, ev)
    requires !IsDrain(ev) && !IsDialing(ev) && !IsClosing(ev)
    requires c in Step(s, ev).drains && HeldBy(Step(s, ev).drains[c]).Some?
    ensures var s', slot := Step(s, ev), HeldBy(Step(s, ev).drains[c]).value;
      slot in s'.slots && s'.slots[slot] == Drain(c)
  {
    hide RowsSafe, LinesSafe, KeyTaken, OpenWork;
  }

  lemma StepDrainHolds(s: Sys, ev: Event, c: nat)
    requires Safe(s) && Enabled(s, ev) && HoldersSafe(s) && !FailsLate(s, ev)
    requires c in Step(s, ev).drains && HeldBy(Step(s, ev).drains[c]).Some?
    ensures var s', slot := Step(s, ev), HeldBy(Step(s, ev).drains[c]).value;
      slot in s'.slots && s'.slots[slot] == Drain(c)
  {
    hide Safe, Step, Enabled, OpenWork, DoneOk, CallsOf;
    if IsDrain(ev) {
      StepDrainHoldsOfDrain(s, ev, c);
    } else if IsDialing(ev) {
      StepDrainHoldsOfDialing(s, ev, c);
    } else if IsClosing(ev) {
      StepDrainHoldsOfClosing(s, ev, c);
    } else {
      StepDrainHoldsOfCall(s, ev, c);
    }
  }

  lemma StepCallHoldsOfDrain(s: Sys, ev: Event, q: nat)
    requires Safe(s) && Enabled(s, ev) && HoldersSafe(s) && !FailsLate(s, ev)
    requires IsDrain(ev)
    requires q in Step(s, ev).calls && HeldFor(Step(s, ev).calls[q]).Some?
    ensures var s', slot := Step(s, ev), HeldFor(Step(s, ev).calls[q]).value;
      slot in s'.slots && s'.slots[slot] == CallOf(q)
  {
    hide RowsSafe, LinesSafe, KeyTaken, OpenWork;
  }

  lemma StepCallHoldsOfDialing(s: Sys, ev: Event, q: nat)
    requires Safe(s) && Enabled(s, ev) && HoldersSafe(s) && !FailsLate(s, ev)
    requires IsDialing(ev)
    requires q in Step(s, ev).calls && HeldFor(Step(s, ev).calls[q]).Some?
    ensures var s', slot := Step(s, ev), HeldFor(Step(s, ev).calls[q]).value;
      slot in s'.slots && s'.slots[slot] == CallOf(q)
  {
    hide RowsSafe, LinesSafe, KeyTaken, OpenWork;
    if ev.Counts? || ev.Uncounts? {
      GetRow(s, s.drains[ev.c].q);
    }
  }

  lemma StepCallHoldsOfClosing(s: Sys, ev: Event, q: nat)
    requires Safe(s) && Enabled(s, ev) && HoldersSafe(s) && !FailsLate(s, ev)
    requires IsClosing(ev)
    requires q in Step(s, ev).calls && HeldFor(Step(s, ev).calls[q]).Some?
    ensures var s', slot := Step(s, ev), HeldFor(Step(s, ev).calls[q]).value;
      slot in s'.slots && s'.slots[slot] == CallOf(q)
  {
    hide RowsSafe, LinesSafe, KeyTaken, OpenWork;
  }

  lemma StepCallHoldsOfCall(s: Sys, ev: Event, q: nat)
    requires Safe(s) && Enabled(s, ev) && HoldersSafe(s) && !FailsLate(s, ev)
    requires !IsDrain(ev) && !IsDialing(ev) && !IsClosing(ev)
    requires q in Step(s, ev).calls && HeldFor(Step(s, ev).calls[q]).Some?
    ensures var s', slot := Step(s, ev), HeldFor(Step(s, ev).calls[q]).value;
      slot in s'.slots && s'.slots[slot] == CallOf(q)
  {
    hide RowsSafe, LinesSafe, KeyTaken, OpenWork;
  }

  lemma StepCallHolds(s: Sys, ev: Event, q: nat)
    requires Safe(s) && Enabled(s, ev) && HoldersSafe(s) && !FailsLate(s, ev)
    requires q in Step(s, ev).calls && HeldFor(Step(s, ev).calls[q]).Some?
    ensures var s', slot := Step(s, ev), HeldFor(Step(s, ev).calls[q]).value;
      slot in s'.slots && s'.slots[slot] == CallOf(q)
  {
    hide Safe, Step, Enabled, OpenWork, DoneOk, CallsOf;
    if IsDrain(ev) {
      StepCallHoldsOfDrain(s, ev, q);
    } else if IsDialing(ev) {
      StepCallHoldsOfDialing(s, ev, q);
    } else if IsClosing(ev) {
      StepCallHoldsOfClosing(s, ev, q);
    } else {
      StepCallHoldsOfCall(s, ev, q);
    }
  }

  lemma AnySlotOk(s: Sys, slot: nat)
    requires SlotsSafe(s)
    ensures SlotOk(s, slot)
  {
  }

  lemma StepSlots(s: Sys, ev: Event)
    requires Safe(s) && Enabled(s, ev) && SlotsSafe(s) && !FailsLate(s, ev)
    ensures SlotsSafe(Step(s, ev))
  {
    hide Safe, Step, Enabled, SlotOk, FailsLate;
    var s' := Step(s, ev);
    forall slot | slot in s'.slots ensures SlotOk(s', slot) {
      AnySlotOk(s, slot);
      StepSlot(s, ev, slot);
    }
    forall c | c in s'.drains && HeldBy(s'.drains[c]).Some?
      ensures HeldBy(s'.drains[c]).value in s'.slots && s'.slots[HeldBy(s'.drains[c]).value] == Drain(c)
    {
      StepDrainHolds(s, ev, c);
    }
    forall q | q in s'.calls && HeldFor(s'.calls[q]).Some?
      ensures HeldFor(s'.calls[q]).value in s'.slots && s'.slots[HeldFor(s'.calls[q]).value] == CallOf(q)
    {
      StepCallHolds(s, ev, q);
    }
  }

  lemma LateBreaksSlots(s: Sys, ev: Event)
    requires Safe(s) && Enabled(s, ev) && SlotsSafe(s) && FailsLate(s, ev)
    ensures !SlotsSafe(Step(s, ev))
  {
    hide RowsSafe, LinesSafe, KeyTaken, OpenWork;
    var c, s' := ev.c, Step(s, ev);
    var slot := s.drains[c].slot;
    assert HeldBy(s'.drains[c]) == Some(slot) && s'.slots == s.slots;
    AnySlotOk(s, slot);
  }

  /** A step keeps every slot with its one holder exactly unless a dial returns an error after its call
      was over. */
  lemma SlotsExactlyUnlessLate(s: Sys, ev: Event)
    requires Safe(s) && Enabled(s, ev) && SlotsSafe(s)
    ensures SlotsSafe(Step(s, ev)) <==> !FailsLate(s, ev)
  {
    hide Safe, Step, Enabled, SlotsSafe, FailsLate;
    if FailsLate(s, ev) {
      LateBreaksSlots(s, ev);
    } else {
      StepSlots(s, ev);
    }
  }

  // ---- runs -----------------------------------------------------------------------------

  /** No step miscounts. */
  ghost predicate CountedRun(s: Sys, evs: seq<Event>)
    decreases |evs|
  {
    evs != [] ==> Enabled(s, evs[0]) && !Miscounts(s, evs[0]) && CountedRun(Step(s, evs[0]), evs[1..])
  }

  /** No dial returns an error after its call was over. */
  ghost predicate TimelyRun(s: Sys, evs: seq<Event>)
    decreases |evs|
  {
    evs != [] ==> Enabled(s, evs[0]) && !FailsLate(s, evs[0]) && TimelyRun(Step(s, evs[0]), evs[1..])
  }

  /** What is timely is counted. */
  lemma {:induction false} TimelyRuns(s: Sys, evs: seq<Event>)
    requires TimelyRun(s, evs)
    ensures CountedRun(s, evs) && Run(s, evs)
    decreases |evs|
  {
    hide Enabled, Step, FailsLate;
    if evs != [] {
      TimelyRuns(Step(s, evs[0]), evs[1..]);
    }
  }

  ghost predicate Counted(s: Sys) {
    Safe(s) && CountsSafe(s) && forall c :: DoneOk(s, c)
  }

  ghost predicate Fresh(s: Sys) {
    Loaded(s) && forall c :: c in s.campaigns ==> s.campaigns[c].state != Completed
  }

  lemma FreshIsCounted(s: Sys)
    requires Fresh(s)
    ensures Counted(s) && SlotsSafe(s)
  {
    hide RowsSafe, LinesSafe;
    LoadedSafe(s);
    forall c ensures CallsOf(s, c) == {} {
    }
  }

  lemma StepCounted(s: Sys, ev: Event)
    requires Counted(s) && Enabled(s, ev) && !Miscounts(s, ev)
    ensures Counted(Step(s, ev))
  {
    hide Safe, Step, Enabled, DoneOk, Inflight, CallsOf, Miscounts;
    var s' := Step(s, ev);
    StepSafe(s, ev);
    CountsExactlyUnlessLate(s, ev);
    forall c: nat ensures DoneOk(s', c) {
      StepDone(s, ev, c);
    }
  }

  lemma {:induction false} RunCounted(s: Sys, evs: seq<Event>)
    requires Counted(s) && CountedRun(s, evs)
    ensures Run(s, evs) && Counted(After(s, evs))
    decreases |evs|
  {
    hide Counted, Step, Enabled, Miscounts;
    if evs != [] {
      StepCounted(s, evs[0]);
      RunCounted(Step(s, evs[0]), evs[1..]);
    }
  }

  lemma {:induction false} CompletedStays(s: Sys, evs: seq<Event>, c: nat)
    requires Run(s, evs) && IsCompleted(s, c)
    ensures IsCompleted(After(s, evs), c)
    decreases |evs|
  {
    hide Enabled, Step;
    if evs != [] {
      StepStaysCompleted(s, evs[0], c);
      CompletedStays(Step(s, evs[0]), evs[1..], c);
    }
  }

  lemma StepStaysCompleted(s: Sys, ev: Event, c: nat)
    requires Enabled(s, ev) && IsCompleted(s, c)
    ensures IsCompleted(Step(s, ev), c)
  {
    hide KeyTaken, OpenWork;
    if ev != Checks(c) {
      hide Step;
      StaysCompleted(s, ev, c);
    }
  }

  /** A completed campaign has no contact queued or being handled and no call unfinished, and
      however the dialer goes on it never has again. */
  lemma CompletedMeansDone(s: Sys, evs: seq<Event>, more: seq<Event>, c: nat)
    requires Fresh(s) && CountedRun(s, evs) && Run(s, evs)
    requires IsCompleted(After(s, evs), c) && CountedRun(After(s, evs), more) && Run(After(s, evs), more)
    ensures var s' := After(After(s, evs), more);
      IsCompleted(s', c) && !OpenWork(s'.rows, c) && CallsOf(s', c) == {}
  {
    hide Run, After, CountedRun, Fresh, Safe, OpenWork, CallsOf, CountsSafe;
    FreshIsCounted(s);
    RunCounted(s, evs);
    RunCounted(After(s, evs), more);
    CompletedStays(After(s, evs), more, c);
    assert DoneOk(After(After(s, evs), more), c);
  }

  /** The in-flight count of a campaign is the number of its calls being placed or unfinished. */
  lemma CountsAreExact(s: Sys, evs: seq<Event>, c: nat)
    requires Fresh(s) && CountedRun(s, evs) && Run(s, evs)
    ensures Inflight(After(s, evs), c) == |CallsOf(After(s, evs), c)|
  {
    hide Run, After, CountedRun, Fresh, Safe, CallsOf, DoneOk;
    FreshIsCounted(s);
    RunCounted(s, evs);
  }

  ghost predicate Slotted(s: Sys) {
    Safe(s) && SlotsSafe(s)
  }

  lemma {:induction false} RunSlotted(s: Sys, evs: seq<Event>)
    requires Slotted(s) && TimelyRun(s, evs)
    ensures Run(s, evs) && Slotted(After(s, evs))
    decreases |evs|
  {
    hide Safe, SlotsSafe, Step, Enabled, FailsLate;
    if evs != [] {
      StepSafe(s, evs[0]);
      SlotsExactlyUnlessLate(s, evs[0]);
      RunSlotted(Step(s, evs[0]), evs[1..]);
    }
  }

  /** Every slot taken by this process is held by exactly one drain or call, and every holder's slot is
      taken. */
  lemma SlotsAreExact(s: Sys, evs: seq<Event>)
    requires Fresh(s) && TimelyRun(s, evs) && Run(s, evs)
    ensures SlotsSafe(After(s, evs))
  {
    hide Run, After, TimelyRun, Fresh, Safe, SlotsSafe, Counted;
    FreshIsCounted(s);
    FreshIsSafe(s);
    RunSlotted(s, evs);
  }

  lemma FreshIsSafe(s: Sys)
    requires Fresh(s)
    ensures Safe(s)
  {
    hide RowsSafe, LinesSafe;
    LoadedSafe(s);
  }

  /** Over every run, late errors or not: no slot leaks -- one that is taken has a holder in this
      process, which is still to free it, or was left to expire by a crash. */
  lemma NoSlotLeaks(s: Sys, evs: seq<Event>, slot: nat)
    requires Fresh(s) && Run(s, evs)
    ensures SlotOk(After(s, evs), slot)
  {
    hide Run, After, Fresh, Safe, Counted, SlotOk;
    FreshIsCounted(s);
    FreshIsSafe(s);
    AnySlotOk(s, slot);
    RunSlotOk(s, evs, slot);
  }

  lemma {:induction false} RunSlotOk(s: Sys, evs: seq<Event>, slot: nat)
    requires Safe(s) && SlotOk(s, slot) && Run(s, evs)
    ensures SlotOk(After(s, evs), slot)
    decreases |evs|
  {
    hide Safe, SlotOk, Step, Enabled;
    if evs != [] {
      StepSafe(s, evs[0]);
      StepSlot(s, evs[0], slot);
      RunSlotOk(Step(s, evs[0]), evs[1..], slot);
    }
  }
}
