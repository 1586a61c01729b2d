/** What a dial that returns an error after its call was over does to a campaign: it is completed with
    a call in flight. */
module DialerHazards {
  import opened Wrappers
  import opened DialerSpec
  import opened DialerSafety
  import opened DialerCompletion

  lemma {:induction false} ThenComes(s: Sys, evs: seq<Event>, ev: Event)
    requires Run(s, evs) && Enabled(After(s, evs), ev)
    ensures Run(s, evs + [ev]) && After(s, evs + [ev]) == Step(After(s, evs), ev)
    decreases |evs|
  {
    hide Enabled, Step;
    if evs == [] {
      assert [ev][1..] == [];
      assert Run(Step(s, ev), []);
    } else {
      assert (evs + [ev])[1..] == evs[1..] + [ev];
      ThenComes(Step(s, evs[0]), evs[1..], ev);
    }
  }

  function Contact(source: string, state: RowState, dials: nat): Row {
    Row(0, source, 0, None, None, state, dials)
  }

  /** One campaign with two contacts, as loaded. */
  const LOADED := Sys(
    map[0 := Campaign(Running, 0)], map[0 := Contact("a", Queued, 0), 1 := Contact("b", Queued, 0)], {},
    false, map[], map[], map[], map[])

  lemma LoadedIsFresh()
    ensures Fresh(LOADED)
  {
    assert "a"[0] != "b"[0];
  }


  /** The parts of the state that decide what comes next. */
  ghost predicate At(s: Sys, pc: Pc, calls: map<nat, Call>, inflight: map<nat, nat>, slots: set<nat>) {
    && s.up && s.drains == map[0 := pc] && s.calls == calls && s.inflight == inflight && s.slots.Keys == slots
    && s.campaigns == map[0 := Campaign(Running, 0)] && s.rows.Keys == {0, 1}
  }

  lemma RowIsClaimed(before: seq<Event>, q: nat, calls: map<nat, Call>, inflight: map<nat, nat>, slots: set<nat>)
    returns (evs: seq<Event>)
    requires Run(LOADED, before) && At(After(LOADED, before), Looking, calls, inflight, slots)
    requires q < 2 && q !in slots && Due(After(LOADED, before).rows[q], 0, 0)
    ensures Run(LOADED, evs)
    ensures var s, s' := After(LOADED, before), After(LOADED, evs);
      && At(s', Claimed(q, q), calls, inflight, slots + {q})
      && s'.rows == s.rows[q := s.rows[q].(state := Processing)]
  {
    hide Run, After, KeyTaken, OpenWork, FailingOn;
    ThenComes(LOADED, before, TakesSlot(0, q));
    evs := before + [TakesSlot(0, q)];
    ThenComes(LOADED, evs, Claims(0, q, 0));
    evs := evs + [Claims(0, q, 0)];
  }

  lemma RowIsCounted(before: seq<Event>, q: nat, calls: map<nat, Call>, inflight: map<nat, nat>, n: nat,
      slots: set<nat>)
    returns (evs: seq<Event>)
    requires Run(LOADED, before) && At(After(LOADED, before), Claimed(q, q), calls, inflight, slots)
    requires q < 2 && inflight == if n == 0 then map[] else map[0 := n]
    ensures Run(LOADED, evs)
    ensures var s, s' := After(LOADED, before), After(LOADED, evs);
      At(s', Placing(q, q), calls[q := Call(0, q, Live)], map[0 := n + 1], slots + {q}) && s'.rows == s.rows
  {
    hide Run, After, KeyTaken, OpenWork, FailingOn;
    ThenComes(LOADED, before, Records(0));
    evs := before + [Records(0)];
    ThenComes(LOADED, evs, Counts(0));
    evs := evs + [Counts(0)];
  }

  lemma RowIsDialed(before: seq<Event>, q: nat, calls: map<nat, Call>, inflight: map<nat, nat>, n: nat, slots: set<nat>)
    returns (evs: seq<Event>)
    requires Run(LOADED, before) && At(After(LOADED, before), Claimed(q, q), calls, inflight, slots)
    requires q < 2 && inflight == if n == 0 then map[] else map[0 := n]
    ensures Run(LOADED, evs)
    ensures var s, s' := After(LOADED, before), After(LOADED, evs);
      && At(s', Dialing(q, q), calls[q := Call(0, q, Live)], map[0 := n + 1], slots + {q})
      && s'.rows == s.rows[q := s.rows[q].(dials := s.rows[q].dials + 1)]
  {
    hide Run, After, KeyTaken, OpenWork, FailingOn;
    evs := RowIsCounted(before, q, calls, inflight, n, slots);
    ThenComes(LOADED, evs, Dials(0));
    evs := evs + [Dials(0)];
  }

  const CALL_0 := Call(0, 0, Live)

  /** The first contact is being called; the second is being dialed. */
  lemma TwoAreDialed() returns (evs: seq<Event>)
    ensures Run(LOADED, evs)
    ensures var s := After(LOADED, evs);
      && At(s, Dialing(1, 1), map[0 := CALL_0, 1 := Call(0, 1, Live)], map[0 := 2], {0, 1})
      && s.rows == map[0 := Contact("a", Processed, 1), 1 := Contact("b", Processing, 1)]
  {
    hide Run, After, KeyTaken, OpenWork, FailingOn, Step, Enabled;
    evs := Started();
    evs := RowIsClaimed(evs, 0, map[], map[], {});
    evs := RowIsDialed(evs, 0, map[], map[], 0, {0});
    evs := RowIsPlaced(evs);
    evs := RowIsClaimed(evs, 1, map[0 := CALL_0], map[0 := 1], {0});
    evs := RowIsDialed(evs, 1, map[0 := CALL_0], map[0 := 1], 1, {0, 1});
  }

  lemma Started() returns (evs: seq<Event>)
    ensures evs == [Recovers(true), Scans(0)] && Run(LOADED, evs)
    ensures At(After(LOADED, evs), Looking, map[], map[], {}) && After(LOADED, evs).rows == LOADED.rows
  {
    hide KeyTaken, OpenWork, FailingOn;
    ThenComes(LOADED, [], Recovers(true));
    assert [] + [Recovers(true)] == [Recovers(true)];
    ThenComes(LOADED, [Recovers(true)], Scans(0));
    evs := [Recovers(true)] + [Scans(0)];
  }

  lemma RowIsPlaced(before: seq<Event>) returns (evs: seq<Event>)
    requires Run(LOADED, before) && At(After(LOADED, before), Dialing(0, 0), map[0 := CALL_0], map[0 := 1], {0})
    ensures Run(LOADED, evs) && At(After(LOADED, evs), Looking, map[0 := CALL_0], map[0 := 1], {0})
    ensures var s, s' := After(LOADED, before), After(LOADED, evs);
      s'.rows == s.rows[0 := s.rows[0].(state := Processed)]
  {
    hide Run, After, KeyTaken, OpenWork, FailingOn;
    ThenComes(LOADED, before, Returns(0, true));
    evs := before + [Returns(0, true)];
    ThenComes(LOADED, evs, Marks(0, true));
    evs := evs + [Marks(0, true)];
  }

  /** The second call is over before its dial returns, which it does with an error: in flight are two
      calls, and the count says one. */
  lemma ErrorComesLate() returns (evs: seq<Event>)
    ensures Run(LOADED, evs)
    ensures var s := After(LOADED, evs);
      && At(s, Freeing(1, 1), map[0 := CALL_0, 1 := Call(0, 1, Over)], map[0 := 1], {0, 1})
      && s.rows == map[0 := Contact("a", Processed, 1), 1 := Contact("b", Processing, 1)]
  {
    hide Run, After, KeyTaken, OpenWork;
    evs := TwoAreDialed();
    ThenComes(LOADED, evs, CallEnds(1));
    evs := evs + [CallEnds(1)];
    ThenComes(LOADED, evs, Returns(0, false));
    evs := evs + [Returns(0, false)];
    ThenComes(LOADED, evs, Uncounts(0));
    evs := evs + [Uncounts(0)];
  }

  /** The end of the second call takes the count to none, with the first call still in flight. */
  lemma CountIsGone() returns (evs: seq<Event>)
    ensures Run(LOADED, evs)
    ensures var s := After(LOADED, evs);
      && At(s, Freeing(1, 1), map[0 := CALL_0], map[], {0})
      && s.rows == map[0 := Contact("a", Processed, 1), 1 := Contact("b", Processing, 1)]
  {
    hide Run, After, KeyTaken, OpenWork, FailingOn;
    evs := ErrorComesLate();
    ThenComes(LOADED, evs, FreesSlot(1));
    evs := evs + [FreesSlot(1)];
    ThenComes(LOADED, evs, Settles(1, false, 2, 0));
    evs := evs + [Settles(1, false, 2, 0)];
    ThenComes(LOADED, evs, Finishes(1));
    evs := evs + [Finishes(1)];
  }

  /** So the drain, finding nothing due, starts the completion check. */
  lemma NothingIsDue() returns (evs: seq<Event>)
    ensures Run(LOADED, evs)
    ensures var s := After(LOADED, evs);
      && At(s, Checking(1), map[0 := CALL_0], map[], {0})
      && s.rows == map[0 := Contact("a", Processed, 1), 1 := Contact("b", FailedRow, 1)]
  {
    hide Run, After, KeyTaken, OpenWork, FailingOn;
    evs := CountIsGone();
    ThenComes(LOADED, evs, FreesFailed(0));
    evs := evs + [FreesFailed(0)];
    ThenComes(LOADED, evs, Marks(0, true));
    evs := evs + [Marks(0, true)];
    ThenComes(LOADED, evs, TakesSlot(0, 2));
    evs := evs + [TakesSlot(0, 2)];
    ThenComes(LOADED, evs, NothingDue(0));
    evs := evs + [NothingDue(0)];
  }

  lemma NoOpenWork(s: Sys)
    requires s.rows == map[0 := Contact("a", Processed, 1), 1 := Contact("b", FailedRow, 1)]
    ensures !OpenWork(s.rows, 0)
  {
  }

  /** And completes the campaign with a call in flight. */
  lemma CompletedTooEarly() returns (evs: seq<Event>)
    ensures Fresh(LOADED) && Run(LOADED, evs)
    ensures var s := After(LOADED, evs); IsCompleted(s, 0) && StillLive(s, 0)
  {
    hide Run, After, KeyTaken, OpenWork, FailingOn, Fresh;
    LoadedIsFresh();
    evs := NothingIsDue();
    NoOpenWork(After(LOADED, evs));
    ThenComes(LOADED, evs, Checks(0));
    evs := evs + [Checks(0)];
    ThenComes(LOADED, evs, Checks(0));
    evs := evs + [Checks(0)];
    ThenComes(LOADED, evs, Checks(0));
    evs := evs + [Checks(0)];
    ThenComes(LOADED, evs, Checks(0));
    evs := evs + [Checks(0)];
  }
}
