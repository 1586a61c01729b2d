/** What the dialer gets done: a due row is dialed, a call's end gives everything back, an empty campaign is
    completed; a slot is freed by its holder alone, and a campaign changes state only so. */
module DialerProgress {
  import opened Wrappers
  import opened DialerSpec
  import opened DialerSafety
  import opened DialerCompletion
  import H = DialerHazards

  // ---- steps one after the other ------------------------------------------------------------

  /** These events can come one after the other, and lead there. */
  ghost predicate Leads(s: Sys, evs: seq<Event>, s': Sys) {
    Run(s, evs) && After(s, evs) == s'
  }

  lemma Nothing(s: Sys)
    ensures Leads(s, [], s)
  {
  }

  lemma Then(s: Sys, evs: seq<Event>, s': Sys, ev: Event)
    requires Leads(s, evs, s') && Enabled(s', ev)
    ensures Leads(s, evs + [ev], Step(s', ev))
  {
    hide Enabled, Step, Run, After;
    H.ThenComes(s, evs, ev);
  }

  // ---- a row is dialed ------------------------------------------------------------------------

  /** The row is queued in campaign c, and its time has come, if it has one. */
  predicate MayBeDialed(r: Row, c: nat, now: int) {
    r.campaign == c && r.state == Queued && match r.at case None => true case Some(at) => at <= now
  }

  /** The drain looks for the next contact, and can have this one. */
  predicate CanDial(s: Sys, c: nat, q: nat, slot: nat, now: int) {
    && AtPc(s, c) && s.drains[c] == Looking && c in s.campaigns && s.campaigns[c].state == Running
    && slot !in s.slots && q in s.rows && MayBeDialed(s.rows[q], c, now)
  }

  function Taking(c: nat, q: nat, slot: nat, now: int): seq<Event> {
    [TakesSlot(c, slot), Claims(c, q, now), Records(c)]
  }

  lemma RowIsTaken(s: Sys, c: nat, q: nat, slot: nat, now: int) returns (s': Sys)
    requires CanDial(s, c, q, slot, now)
    ensures Leads(s, Taking(c, q, slot, now), s')
    ensures s' == s.(drains := s.drains[c := Recorded(q, slot)], runs := s.runs + {q},
                     slots := s.slots[slot := Drain(c)], rows := s.rows[q := s.rows[q].(state := Processing)])
  {
    hide Leads, OpenWork, FailingOn, KeyTaken;
    Nothing(s);
    Then(s, [], s, TakesSlot(c, slot));
    var s1 := Step(s, TakesSlot(c, slot));
    Then(s, [] + [TakesSlot(c, slot)], s1, Claims(c, q, now));
    var s2 := Step(s1, Claims(c, q, now));
    Then(s, [] + [TakesSlot(c, slot)] + [Claims(c, q, now)], s2, Records(c));
    s' := Step(s2, Records(c));
    assert [] + [TakesSlot(c, slot)] + [Claims(c, q, now)] + [Records(c)] == Taking(c, q, slot, now);
    assert s'.drains == s.drains[c := Recorded(q, slot)];
  }

  lemma RowIsCalled(s: Sys, evs: seq<Event>, s1: Sys, c: nat, q: nat, slot: nat) returns (s': Sys)
    requires Leads(s, evs, s1) && AtPc(s1, c) && s1.drains[c] == Recorded(q, slot) && q in s1.rows
    ensures Leads(s, evs + [Counts(c)] + [Dials(c)], s')
    ensures s' == s1.(drains := s1.drains[c := Dialing(q, slot)], calls := s1.calls[q := Call(c, slot, Live)],
                      inflight := AddInflight(s1, c, 1), slots := s1.slots[slot := CallOf(q)],
                      rows := s1.rows[q := s1.rows[q].(dials := s1.rows[q].dials + 1)])
  {
    hide Leads, OpenWork, FailingOn, KeyTaken, AddInflight;
    Then(s, evs, s1, Counts(c));
    var s2 := Step(s1, Counts(c));
    Then(s, evs + [Counts(c)], s2, Dials(c));
    s' := Step(s2, Dials(c));
    assert s'.drains == s1.drains[c := Dialing(q, slot)];
  }

  /** The row ends in this state, dialed once more. */
  function Dialed(s: Sys, q: nat, state: RowState): map<nat, Row>
    requires q in s.rows
  {
    s.rows[q := s.rows[q].(state := state, dials := s.rows[q].dials + 1)]
  }

  lemma CallIsPlaced(s: Sys, evs: seq<Event>, s2: Sys, c: nat, q: nat, slot: nat) returns (s': Sys)
    requires Leads(s, evs, s2) && AtPc(s2, c) && s2.drains[c] == Dialing(q, slot) && q in s2.rows
    ensures Leads(s, evs + [Returns(c, true)] + [Marks(c, true)], s')
    ensures s' == s2.(drains := s2.drains[c := Looking], rows := s2.rows[q := s2.rows[q].(state := Processed)])
  {
    hide Leads, OpenWork, FailingOn, KeyTaken;
    Then(s, evs, s2, Returns(c, true));
    var s3 := Step(s2, Returns(c, true));
    Then(s, evs + [Returns(c, true)], s3, Marks(c, true));
    s' := Step(s3, Marks(c, true));
    assert s'.drains == s2.drains[c := Looking];
  }

  /** The drain's own steps dial a row that is due while there is a free slot: it ends processed, dialed once
      more, with its run; its call is in flight with the slot; and the drain looks for the next. */
  lemma DueRowIsDialed(s: Sys, c: nat, q: nat, slot: nat, now: int) returns (s': Sys)
    requires CanDial(s, c, q, slot, now)
    ensures Leads(s, Taking(c, q, slot, now) + [Counts(c)] + [Dials(c)] + [Returns(c, true)] + [Marks(c, true)], s')
    ensures s' == s.(runs := s.runs + {q}, calls := s.calls[q := Call(c, slot, Live)], rows := Dialed(s, q, Processed),
                     inflight := AddInflight(s, c, 1), slots := s.slots[slot := CallOf(q)])
  {
    hide Leads, AddInflight, Taking;
    var evs := Taking(c, q, slot, now);
    var s1 := RowIsTaken(s, c, q, slot, now);
    var s2 := RowIsCalled(s, evs, s1, c, q, slot);
    SameInflight(s1, s, c, 1);
    var evs2 := evs + [Counts(c)] + [Dials(c)];
    s' := CallIsPlaced(s, evs2, s2, c, q, slot);
    assert s'.drains == s.drains && s'.rows == Dialed(s, q, Processed) && s'.slots == s.slots[slot := CallOf(q)];
  }

  function Undoing(c: nat): seq<Event> {
    [Returns(c, false), Uncounts(c), FreesFailed(c), Marks(c, true)]
  }

  lemma CallIsUndone(s: Sys, evs: seq<Event>, s2: Sys, c: nat, q: nat, slot: nat) returns (s': Sys)
    requires Leads(s, evs, s2) && AtPc(s2, c) && s2.drains[c] == Dialing(q, slot) && StillLive(s2, q)
    ensures Leads(s, evs + [Returns(c, false)] + [Uncounts(c)] + [FreesFailed(c)], s')
    ensures s' == s2.(drains := s2.drains[c := Marking(q, FailedRow)], calls := s2.calls - {q},
                      inflight := AddInflight(s2, c, -1), slots := s2.slots - {slot})
  {
    hide Leads, OpenWork, FailingOn, KeyTaken, AddInflight;
    Then(s, evs, s2, Returns(c, false));
    var s3 := Step(s2, Returns(c, false));
    Then(s, evs + [Returns(c, false)], s3, Uncounts(c));
    var s4 := Step(s3, Uncounts(c));
    Then(s, evs + [Returns(c, false)] + [Uncounts(c)], s4, FreesFailed(c));
    s' := Step(s4, FreesFailed(c));
    assert s'.drains == s2.drains[c := Marking(q, FailedRow)] && s'.slots == s2.slots - {slot};
    SameInflight(s3, s2, c, -1);
  }

  lemma RowIsFailed(s: Sys, evs: seq<Event>, s2: Sys, c: nat, q: nat, slot: nat) returns (s': Sys)
    requires Leads(s, evs, s2) && AtPc(s2, c) && s2.drains[c] == Dialing(q, slot) && StillLive(s2, q) && q in s2.rows
    ensures Leads(s, evs + Undoing(c), s')
    ensures s' == s2.(drains := s2.drains[c := Looking], calls := s2.calls - {q}, slots := s2.slots - {slot},
                      inflight := AddInflight(s2, c, -1), rows := s2.rows[q := s2.rows[q].(state := FailedRow)])
  {
    hide Leads, AddInflight;
    var s3 := CallIsUndone(s, evs, s2, c, q, slot);
    var all := evs + [Returns(c, false)] + [Uncounts(c)] + [FreesFailed(c)];
    Then(s, all, s3, Marks(c, true));
    s' := Step(s3, Marks(c, true));
    assert all + [Marks(c, true)] == evs + Undoing(c);
    assert s'.drains == s2.drains[c := Looking];
  }

  lemma SameInflight(s: Sys, s': Sys, c: nat, n: int)
    requires s.inflight == s'.inflight
    ensures AddInflight(s, c, n) == AddInflight(s', c, n)
  {
  }

  lemma CountedAndNot(s: Sys, s2: Sys, c: nat)
    requires (c in s.inflight ==> s.inflight[c] > 0) && s2.inflight == AddInflight(s, c, 1)
    ensures AddInflight(s2, c, -1) == s.inflight
  {
  }

  /** A dial that fails: the row is failed, and the slot, the count and the call are as before. */
  lemma FailedDialGivesBack(s: Sys, c: nat, q: nat, slot: nat, now: int) returns (s': Sys)
    requires CanDial(s, c, q, slot, now) && q !in s.calls && (c in s.inflight ==> s.inflight[c] > 0)
    ensures Leads(s, Taking(c, q, slot, now) + [Counts(c)] + [Dials(c)] + Undoing(c), s')
    ensures s' == s.(runs := s.runs + {q}, rows := Dialed(s, q, FailedRow))
  {
    hide Leads, AddInflight, Undoing, Taking;
    var evs := Taking(c, q, slot, now);
    var s1 := RowIsTaken(s, c, q, slot, now);
    var s2 := RowIsCalled(s, evs, s1, c, q, slot);
    SameInflight(s1, s, c, 1);
    CountedAndNot(s, s2, c);
    s' := RowIsFailed(s, evs + [Counts(c)] + [Dials(c)], s2, c, q, slot);
    assert s'.calls == s.calls && s'.slots == s.slots;
    assert s'.drains == s.drains && s'.rows == Dialed(s, q, FailedRow);
  }

  /** And no other row: over every run the row claimed was queued, in that campaign, and not before its time. */
  lemma OnlyDueRowsAreClaimed(s: Sys, evs: seq<Event>, c: nat, q: nat, now: int)
    requires Run(s, evs) && Enabled(After(s, evs), Claims(c, q, now))
    ensures q in After(s, evs).rows && MayBeDialed(After(s, evs).rows[q], c, now)
  {
    hide Run, After;
  }

  // ---- a campaign is completed ----------------------------------------------------------------

  /** Nobody else in between: a drain that finds nothing due gives its slot back and stops, and completes the
      campaign exactly if it runs, nothing is in flight and no row is open. */
  lemma EmptyCampaignCompletes(s: Sys, c: nat, slot: nat) returns (evs: seq<Event>, s': Sys)
    requires AtPc(s, c) && s.drains[c] == HasSlot(slot) && c in s.campaigns
    ensures Leads(s, evs, s') && |evs| > 0 && evs[0] == NothingDue(c)
    ensures forall i :: 1 <= i < |evs| ==> evs[i] == Checks(c)
    ensures var done := s.campaigns[c].state == Running && Inflight(s, c) == 0 && !OpenWork(s.rows, c);
      && s' == s.(drains := s.drains - {c}, slots := s.slots - {slot}, campaigns := s'.campaigns)
      && s'.campaigns == s.campaigns[c := s.campaigns[c].(state := if done then Completed else s.campaigns[c].state)]
  {
    hide Leads, OpenWork, FailingOn, KeyTaken;
    Nothing(s);
    Then(s, [], s, NothingDue(c));
    evs, s' := [] + [NothingDue(c)], Step(s, NothingDue(c));
    while c in s'.drains
      invariant Leads(s, evs, s') && |evs| > 0 && evs[0] == NothingDue(c) && s'.up
      invariant forall i :: 1 <= i < |evs| ==> evs[i] == Checks(c)
      invariant s' == s.(drains := s'.drains, slots := s.slots - {slot}, campaigns := s'.campaigns)
      invariant s'.drains - {c} == s.drains - {c}
      invariant if c in s'.drains then
          && s'.campaigns == s.campaigns && s'.drains[c].Checking? && s'.drains[c].step <= 4
          && (s'.drains[c].step > 1 ==> Inflight(s, c) == 0) && (s'.drains[c].step > 2 ==> !OpenWork(s.rows, c))
        else var done := s.campaigns[c].state == Running && Inflight(s, c) == 0 && !OpenWork(s.rows, c);
          s'.campaigns
          == s.campaigns[c := s.campaigns[c].(state := if done then Completed else s.campaigns[c].state)]
      decreases if c in s'.drains then 5 - s'.drains[c].step else -1
    {
      Then(s, evs, s', Checks(c));
      evs, s' := evs + [Checks(c)], Step(s', Checks(c));
    }
  }

  // ---- what frees a slot, and what moves a campaign ---------------------------------------------

  /** Its holder frees the slot: the drain that took it, or the call that got it. */
  predicate Frees(s: Sys, ev: Event, slot: nat) {
    match ev
    case NothingDue(c) => c in s.drains && HeldBy(s.drains[c]) == Some(slot)
    case ClaimFails(c, _, _) => c in s.drains && HeldBy(s.drains[c]) == Some(slot)
    case NoNumber(c) => c in s.drains && HeldBy(s.drains[c]) == Some(slot)
    case GivesBack(c, _) => c in s.drains && HeldBy(s.drains[c]) == Some(slot)
    case FreesFailed(c) => c in s.drains && HeldBy(s.drains[c]) == Some(slot)
    case FreesSlot(q) => q in s.calls && HeldFor(s.calls[q]) == Some(slot)
    case _ => false
  }

  /** A slot is taken by a drain that looks for a contact, and freed by its holder alone; a crash leaves every
      slot taken. */
  lemma SlotsMoveExactly(s: Sys, ev: Event, slot: nat)
    requires Safe(s) && SlotsSafe(s) && Enabled(s, ev)
    ensures slot in Step(s, ev).slots
       <==> (ev.TakesSlot? && ev.slot == slot) || (slot in s.slots && !Frees(s, ev, slot))
  {
    hide Safe, SlotsSafe, Step, Enabled, Frees;
    if ev.Counts? || ev.Uncounts? {
      DialingMovesNone(s, ev, slot);
    } else if IsDrain(ev) {
      DrainMoves(s, ev, slot);
    } else if IsClosing(ev) || IsDialing(ev) {
      ClosingMoves(s, ev, slot);
    } else {
      CallMoves(s, ev, slot);
    }
  }

  lemma DialingMovesNone(s: Sys, ev: Event, slot: nat)
    requires Safe(s) && SlotsSafe(s) && Enabled(s, ev) && (ev.Counts? || ev.Uncounts?)
    ensures (slot in Step(s, ev).slots <==> slot in s.slots) && !Frees(s, ev, slot)
  {
    hide RowsSafe, LinesSafe, KeyTaken, OpenWork;
    var q := s.drains[ev.c].q;
    GetRow(s, q);
    if ev.Uncounts? && StillLive(s, q) {
      assert HeldFor(s.calls[q]) == Some(s.drains[ev.c].slot);
    } else if ev.Counts? {
      assert HeldBy(s.drains[ev.c]) == Some(s.drains[ev.c].slot);
    }
  }

  lemma DrainMoves(s: Sys, ev: Event, slot: nat)
    requires SlotsSafe(s) && Enabled(s, ev) && IsDrain(ev)
    ensures slot in Step(s, ev).slots
       <==> (ev.TakesSlot? && ev.slot == slot) || (slot in s.slots && !Frees(s, ev, slot))
  {
    hide KeyTaken, OpenWork;
  }

  lemma ClosingMoves(s: Sys, ev: Event, slot: nat)
    requires SlotsSafe(s) && Enabled(s, ev) && (IsClosing(ev) || ev.Dials? || ev.Returns?)
    ensures slot in Step(s, ev).slots
       <==> (ev.TakesSlot? && ev.slot == slot) || (slot in s.slots && !Frees(s, ev, slot))
  {
    hide KeyTaken, OpenWork;
  }

  lemma CallMoves(s: Sys, ev: Event, slot: nat)
    requires SlotsSafe(s) && Enabled(s, ev) && !IsDrain(ev) && !IsDialing(ev) && !IsClosing(ev)
    ensures slot in Step(s, ev).slots
       <==> (ev.TakesSlot? && ev.slot == slot) || (slot in s.slots && !Frees(s, ev, slot))
  {
    hide KeyTaken, OpenWork;
  }

  /** A campaign's state changes when it is switched, or completed by the last check of its drain. */
  lemma CampaignsMoveExactly(s: Sys, ev: Event, c: nat)
    requires Enabled(s, ev) && c in s.campaigns
    ensures var s' := Step(s, ev);
      c in s'.campaigns && s'.campaigns[c].state
        == match ev
           case Switches(d, to) => if d == c then to else s.campaigns[c].state
           case Checks(d) =>
             if d == c && s.drains[c].step >= 4 && s.campaigns[c].state == Running then Completed
             else s.campaigns[c].state
           case _ => s.campaigns[c].state
  {
    hide KeyTaken, OpenWork, Step;
    match ev {
      case Switches(_, _) => SwitchMoves(s, ev, c);
      case Checks(_) => LastCheckMoves(s, ev, c);
      case _ =>
        if IsDrain(ev) || IsDialing(ev) {
          DrainKeepsCampaigns(s, ev);
        } else {
          OthersKeepCampaigns(s, ev);
        }
    }
  }

  lemma SwitchMoves(s: Sys, ev: Event, c: nat)
    requires Enabled(s, ev) && ev.Switches?
    ensures Step(s, ev).campaigns == s.campaigns[ev.c := s.campaigns[ev.c].(state := ev.to)]
  {
  }

  lemma LastCheckMoves(s: Sys, ev: Event, c: nat)
    requires Enabled(s, ev) && ev.Checks?
    ensures Step(s, ev).campaigns
      == if s.drains[ev.c].step >= 4 && s.campaigns[ev.c].state == Running
         then s.campaigns[ev.c := s.campaigns[ev.c].(state := Completed)] else s.campaigns
  {
    hide KeyTaken, OpenWork;
  }

  lemma DrainKeepsCampaigns(s: Sys, ev: Event)
    requires Enabled(s, ev) && (IsDrain(ev) || IsDialing(ev))
    ensures Step(s, ev).campaigns == s.campaigns
  {
    hide KeyTaken, OpenWork, SetRow, AddInflight;
  }

  lemma OthersKeepCampaigns(s: Sys, ev: Event)
    requires Enabled(s, ev) && !IsDrain(ev) && !IsDialing(ev) && !ev.Switches? && !ev.Checks?
    ensures Step(s, ev).campaigns == s.campaigns
  {
    hide KeyTaken, OpenWork, SetRow, AddInflight, Recovered, AddRetry;
  }
}
