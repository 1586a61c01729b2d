/** At most one dial a row over every run with crashes, and at most one try more than the retries
    allowed for a contact. */
module DialerSafety {
  import opened Wrappers
  import opened DialerSpec

  /** A row, whether it has a run, what its campaign's drain is doing with it, its call. */
  datatype RowView = RowView(r: Row, hasRun: bool, pc: Option<Pc>, call: Option<Call>)

  function PcOf(s: Sys, c: nat, q: nat): Option<Pc> {
    if c in s.drains && AtRow(s.drains[c]) && s.drains[c].q == q then Some(s.drains[c]) else None
  }

  function ViewRow(s: Sys, q: nat): RowView
    requires q in s.rows
  {
    RowView(s.rows[q], q in s.runs, PcOf(s, s.rows[q].campaign, q), if q in s.calls then Some(s.calls[q]) else None)
  }

  /** Dialed once at most, and only after its run was recorded; a queued row was never dialed and
      nobody has it. */
  predicate RowOk(v: RowView) {
    && v.r.dials <= 1
    && (v.r.state == Queued ==> v.r.dials == 0 && v.pc == None && v.call == None)
    && (v.r.dials == 1 ==> v.hasRun)
    && (v.call.Some? ==>
        v.hasRun && v.call.value.campaign == v.r.campaign
        && (v.r.dials == 1 || (v.pc.Some? && v.pc.value.Placing?)))
    && (v.call.Some? && v.call.value.stage != Live ==> v.r.dials == 1)
    && (v.pc.Some? ==> v.r.state == Processing && PcOk(v, v.pc.value))
  }

  predicate PcOk(v: RowView, pc: Pc) {
    match pc
    case Claimed(_, _) => v.r.dials == 0 && v.call == None
    case Recorded(_, _) => v.r.dials == 0 && v.call == None && v.hasRun
    case Placing(_, slot) => v.r.dials == 0 && v.call.Some? && v.hasRun && v.call.value.slot == slot
        && v.call.value.stage == Live
    case Dialing(_, slot) => v.r.dials == 1 && (v.call.Some? ==> v.call.value.slot == slot)
    case Failing(_, slot) => v.r.dials == 1 && (v.call.Some? ==> v.call.value.slot == slot)
    case Freeing(_, _) => v.r.dials == 1
    case Marking(_, to) =>
      && to != Processing
      && (to == Queued ==> v.r.dials == 0 && v.call == None)
      && (to == Processed ==> v.r.dials == 1)
    case _ => true
  }

  ghost predicate RefsSafe(s: Sys) {
    && (forall c :: c in s.drains && AtRow(s.drains[c]) ==>
        s.drains[c].q in s.rows && s.rows[s.drains[c].q].campaign == c)
    && (forall q :: q in s.calls ==> q in s.rows)
    && (!s.up ==> s.drains == map[] && s.calls == map[])
  }

  ghost predicate RowsSafe(s: Sys) {
    forall q :: q in s.rows ==> RowOk(ViewRow(s, q))
  }

  // ---- lineage ---------------------------------------------------------------------------

  /** A retry row follows from its parent; its parent had tries left. */
  predicate LineOk(s: Sys, q: nat)
    requires q in s.rows
  {
    var r := s.rows[q];
    match r.parent
    case None => r.count == 0
    case Some(p) =>
      && p in s.rows && r.campaign == s.rows[p].campaign && r.count == s.rows[p].count + 1
      && r.source == RetrySource(s.rows[p].source, r.count)
      && r.campaign in s.campaigns && r.count <= s.campaigns[r.campaign].maxRetries
  }

  ghost predicate KeysUnique(rows: map<nat, Row>) {
    forall a, b :: a in rows && b in rows && SameKey(rows[a], rows[b]) ==> a == b
  }

  predicate SameKey(a: Row, b: Row) {
    a.campaign == b.campaign && a.source == b.source && a.count == b.count
  }

  ghost predicate LinesSafe(s: Sys) {
    && (forall q :: q in s.rows ==> LineOk(s, q))
    && KeysUnique(s.rows)
  }

  ghost predicate Safe(s: Sys) {
    RefsSafe(s) && RowsSafe(s) && LinesSafe(s)
  }

  /** The campaigns as loaded, before any dialing. */
  ghost predicate Loaded(s: Sys) {
    && !s.up && s.drains == map[] && s.calls == map[] && s.inflight == map[] && s.slots == map[] && s.runs == {}
    && (forall q :: q in s.rows ==>
          s.rows[q] == Row(s.rows[q].campaign, s.rows[q].source, 0, None, None, Queued, 0))
    && KeysUnique(s.rows)
  }

  lemma LoadedSafe(s: Sys)
    requires Loaded(s)
    ensures Safe(s)
  {
  }

  // ---- steps -----------------------------------------------------------------------------

  lemma GetRow(s: Sys, q: nat)
    requires Safe(s) && q in s.rows
    ensures RowOk(ViewRow(s, q)) && LineOk(s, q)
  {
  }

  predicate IsDrain(ev: Event) {
    ev.Scans? || ev.Stops? || ev.TakesSlot? || ev.NothingDue? || ev.ClaimFails? || ev.Claims? || ev.NoNumber?
    || ev.GivesBack? || ev.Records?
  }

  predicate IsDialing(ev: Event) {
    ev.Counts? || ev.Dials? || ev.Returns? || ev.Uncounts?
  }

  predicate IsClosing(ev: Event) {
    ev.FreesFailed? || ev.Marks? || ev.Checks?
  }

  lemma DrainRow(s: Sys, ev: Event, q: nat)
    requires Safe(s) && Enabled(s, ev) && IsDrain(ev) && !ev.Claims? && !ev.ClaimFails? && q in Step(s, ev).rows
    ensures q in s.rows && RowOk(ViewRow(Step(s, ev), q))
  {
    hide RowsSafe, LinesSafe, KeyTaken, OpenWork;
    GetRow(s, q);
  }

  lemma ClaimsRow(s: Sys, ev: Event, q: nat)
    requires Safe(s) && Enabled(s, ev) && (ev.Claims? || ev.ClaimFails?) && q in Step(s, ev).rows
    ensures q in s.rows && RowOk(ViewRow(Step(s, ev), q))
  {
    hide RowsSafe, LinesSafe, KeyTaken, OpenWork;
    GetRow(s, q);
  }

  lemma DialingRow(s: Sys, ev: Event, q: nat)
    requires Safe(s) && Enabled(s, ev) && (ev.Counts? || ev.Dials?) && q in Step(s, ev).rows
    ensures q in s.rows && RowOk(ViewRow(Step(s, ev), q))
  {
    hide RowsSafe, LinesSafe, KeyTaken, OpenWork;
    GetRow(s, q);
  }

  lemma DialedRow(s: Sys, ev: Event, q: nat)
    requires Safe(s) && Enabled(s, ev) && (ev.Returns? || ev.Uncounts?) && q in Step(s, ev).rows
    ensures q in s.rows && RowOk(ViewRow(Step(s, ev), q))
  {
    hide RowsSafe, LinesSafe, KeyTaken, OpenWork;
    GetRow(s, q);
  }

  lemma FreesRow(s: Sys, ev: Event, q: nat)
    requires Safe(s) && Enabled(s, ev) && ev.FreesFailed? && q in Step(s, ev).rows
    ensures q in s.rows && RowOk(ViewRow(Step(s, ev), q))
  {
    hide RowsSafe, LinesSafe, KeyTaken, OpenWork;
    GetRow(s, q);
  }

  lemma ChecksRow(s: Sys, ev: Event, q: nat)
    requires Safe(s) && Enabled(s, ev) && ev.Checks? && q in Step(s, ev).rows
    ensures q in s.rows && RowOk(ViewRow(Step(s, ev), q))
  {
    hide RowsSafe, LinesSafe, KeyTaken, OpenWork;
    GetRow(s, q);
  }

  lemma MarksRow(s: Sys, ev: Event, q: nat)
    requires Safe(s) && Enabled(s, ev) && ev.Marks? && q in Step(s, ev).rows
    ensures q in s.rows && RowOk(ViewRow(Step(s, ev), q))
  {
    hide RowsSafe, LinesSafe;
    GetRow(s, q);
  }

  lemma CallRow(s: Sys, ev: Event, q: nat)
    requires Safe(s) && Enabled(s, ev) && (ev.CallEnds? || ev.FreesSlot?) && q in Step(s, ev).rows
    ensures q in s.rows && RowOk(ViewRow(Step(s, ev), q))
  {
    hide RowsSafe, LinesSafe, KeyTaken, OpenWork;
    GetRow(s, q);
  }

  lemma OtherRow(s: Sys, ev: Event, q: nat)
    requires Safe(s) && Enabled(s, ev) && (ev.Finishes? || ev.Switches? || ev.Crashes?) && q in Step(s, ev).rows
    ensures q in s.rows && RowOk(ViewRow(Step(s, ev), q))
  {
    hide RowsSafe, LinesSafe, KeyTaken, OpenWork;
    GetRow(s, q);
  }

  lemma SettlesRow(s: Sys, ev: Event, q: nat)
    requires Safe(s) && Enabled(s, ev) && ev.Settles? && q in Step(s, ev).rows
    ensures RowOk(ViewRow(Step(s, ev), q))
  {
    hide RowsSafe, LinesSafe, KeyTaken;
    if q in s.rows {
      GetRow(s, q);
    }
  }

  lemma RecoversRow(s: Sys, ev: Event, q: nat)
    requires Safe(s) && Enabled(s, ev) && ev.Recovers? && q in Step(s, ev).rows
    ensures q in s.rows && RowOk(ViewRow(Step(s, ev), q))
  {
    hide RowsSafe, LinesSafe;
    assert q in s.rows;
    GetRow(s, q);
  }

  lemma DrainRefs(s: Sys, ev: Event)
    requires Safe(s) && Enabled(s, ev) && IsDrain(ev)
    ensures RefsSafe(Step(s, ev))
  {
    hide RowsSafe, LinesSafe, KeyTaken, OpenWork;
  }

  lemma DialingRefs(s: Sys, ev: Event)
    requires Safe(s) && Enabled(s, ev) && IsDialing(ev)
    ensures RefsSafe(Step(s, ev))
  {
    hide RowsSafe, LinesSafe, KeyTaken, OpenWork;
  }

  lemma ClosingRefs(s: Sys, ev: Event)
    requires Safe(s) && Enabled(s, ev) && IsClosing(ev)
    ensures RefsSafe(Step(s, ev))
  {
    hide RowsSafe, LinesSafe, KeyTaken, OpenWork;
  }

  lemma CallRefs(s: Sys, ev: Event)
    requires Safe(s) && Enabled(s, ev)
    requires !IsDrain(ev) && !IsDialing(ev) && !IsClosing(ev)
    ensures RefsSafe(Step(s, ev))
  {
    hide RowsSafe, LinesSafe, KeyTaken, OpenWork;
  }

  lemma StepRefs(s: Sys, ev: Event)
    requires Safe(s) && Enabled(s, ev)
    ensures RefsSafe(Step(s, ev))
  {
    hide Safe, RefsSafe, Step, Enabled;
    if IsDrain(ev) {
      DrainRefs(s, ev);
    } else if IsDialing(ev) {
      DialingRefs(s, ev);
    } else if IsClosing(ev) {
      ClosingRefs(s, ev);
    } else {
      CallRefs(s, ev);
    }
  }

  // ---- retries -------------------------------------------------------------------------

  /** The rows but for state and dials. */
  predicate SameLine(a: Row, b: Row) {
    a == b.(state := a.state, dials := a.dials)
  }

  lemma SameLines(s: Sys, s': Sys)
    requires LinesSafe(s) && s'.rows.Keys == s.rows.Keys
    requires forall q :: q in s.rows ==> SameLine(s'.rows[q], s.rows[q])
    requires forall c :: c in s.campaigns ==>
        c in s'.campaigns && s'.campaigns[c].maxRetries == s.campaigns[c].maxRetries
    ensures LinesSafe(s')
  {
    forall q | q in s'.rows ensures LineOk(s', q) {
      assert LineOk(s, q);
      assert SameLine(s'.rows[q], s.rows[q]);
      if s.rows[q].parent.Some? {
        assert SameLine(s'.rows[s.rows[q].parent.value], s.rows[s.rows[q].parent.value]);
      }
    }
    forall a, b | a in s'.rows && b in s'.rows && SameKey(s'.rows[a], s'.rows[b]) ensures a == b {
      assert SameLine(s'.rows[a], s.rows[a]) && SameLine(s'.rows[b], s.rows[b]);
      assert SameKey(s.rows[a], s.rows[b]);
    }
  }

  lemma RetryLines(s: Sys, q: nat, id: nat, at: int)
    requires LinesSafe(s) && q in s.rows && id !in s.rows && s.rows[q].campaign in s.campaigns
    requires s.rows[q].count < s.campaigns[s.rows[q].campaign].maxRetries
    ensures LinesSafe(s.(rows := AddRetry(s.rows, q, id, at)))
  {
    hide RetrySource, KeyTaken, KeysUnique;
    var s' := s.(rows := AddRetry(s.rows, q, id, at));
    RetryUnique(s.rows, q, id, at);
    forall a | a in s'.rows ensures LineOk(s', a) {
      if a in s.rows {
        RetryLine(s, q, id, at, a);
      }
    }
  }

  lemma RetryLine(s: Sys, q: nat, id: nat, at: int, a: nat)
    requires q in s.rows && id !in s.rows && a in s.rows && LineOk(s, a)
    ensures LineOk(s.(rows := AddRetry(s.rows, q, id, at)), a)
  {
    hide RetrySource, KeyTaken;
  }

  lemma RetryUnique(rows: map<nat, Row>, q: nat, id: nat, at: int)
    requires KeysUnique(rows) && q in rows && id !in rows
    ensures KeysUnique(AddRetry(rows, q, id, at))
  {
    hide RetrySource;
    var rows' := AddRetry(rows, q, id, at);
    forall a, b | a in rows' && b in rows' && SameKey(rows'[a], rows'[b]) ensures a == b {
      if a in rows && b in rows {
        assert SameKey(rows[a], rows[b]);
      }
    }
  }

  lemma SettlesLines(s: Sys, ev: Event)
    requires Safe(s) && Enabled(s, ev) && ev.Settles?
    ensures LinesSafe(Step(s, ev))
  {
    hide LinesSafe, RowsSafe, KeyTaken, OpenWork, RetrySource, AddRetry;
    var r := s.rows[ev.q];
    if ev.retry && r.count < s.campaigns[r.campaign].maxRetries {
      RetryLines(s, ev.q, ev.id, ev.at);
      SameLines(s.(rows := AddRetry(s.rows, ev.q, ev.id, ev.at)), Step(s, ev));
    } else {
      SameLines(s, Step(s, ev));
    }
  }

  lemma StepLines(s: Sys, ev: Event)
    requires Safe(s) && Enabled(s, ev)
    ensures LinesSafe(Step(s, ev))
  {
    hide LinesSafe, RowsSafe, RefsSafe, Step, Enabled;
    if ev.Settles? {
      SettlesLines(s, ev);
    } else {
      var s' := Step(s, ev);
      KeepsRetries(s, ev);
      forall q ensures (q in s.rows <==> q in s'.rows) && (q in s.rows ==> SameLine(s'.rows[q], s.rows[q])) {
        KeepsLine(s, ev, q);
      }
      SameLines(s, s');
    }
  }

  predicate LineKept(s: Sys, s': Sys, q: nat) {
    (q in s.rows <==> q in s'.rows) && (q in s.rows ==> SameLine(s'.rows[q], s.rows[q]))
  }

  lemma KeepsLineOfDrain(s: Sys, ev: Event, q: nat)
    requires Enabled(s, ev) && IsDrain(ev)
    ensures LineKept(s, Step(s, ev), q)
  {
    hide KeyTaken, OpenWork;
  }

  lemma KeepsLineOfDialing(s: Sys, ev: Event, q: nat)
    requires Enabled(s, ev) && IsDialing(ev)
    ensures LineKept(s, Step(s, ev), q)
  {
    hide KeyTaken, OpenWork;
  }

  lemma KeepsLineOfClosing(s: Sys, ev: Event, q: nat)
    requires Enabled(s, ev) && IsClosing(ev)
    ensures LineKept(s, Step(s, ev), q)
  {
    hide KeyTaken, OpenWork;
  }

  lemma KeepsLineOfCall(s: Sys, ev: Event, q: nat)
    requires Enabled(s, ev) && !IsDrain(ev) && !IsDialing(ev) && !IsClosing(ev) && !ev.Settles?
    ensures LineKept(s, Step(s, ev), q)
  {
    hide KeyTaken, OpenWork;
  }

  lemma KeepsLine(s: Sys, ev: Event, q: nat)
    requires Enabled(s, ev) && !ev.Settles?
    ensures LineKept(s, Step(s, ev), q)
  {
    hide Step, Enabled, LineKept;
    if IsDrain(ev) {
      KeepsLineOfDrain(s, ev, q);
    } else if IsDialing(ev) {
      KeepsLineOfDialing(s, ev, q);
    } else if IsClosing(ev) {
      KeepsLineOfClosing(s, ev, q);
    } else {
      KeepsLineOfCall(s, ev, q);
    }
  }

  lemma KeepsCampaigns(s: Sys, ev: Event)
    requires Enabled(s, ev) && (IsDrain(ev) || IsDialing(ev))
    ensures Step(s, ev).campaigns == s.campaigns
  {
    hide KeyTaken, OpenWork;
  }

  lemma KeepsRetries(s: Sys, ev: Event)
    requires Enabled(s, ev)
    ensures var s' := Step(s, ev);
      forall c :: c in s.campaigns ==> c in s'.campaigns && s'.campaigns[c].maxRetries == s.campaigns[c].maxRetries
  {
    hide KeyTaken, OpenWork;
    if IsDrain(ev) || IsDialing(ev) {
      KeepsCampaigns(s, ev);
    }
  }

  lemma StepSafe(s: Sys, ev: Event)
    requires Safe(s) && Enabled(s, ev)
    ensures Safe(Step(s, ev))
  {
    hide Safe, RefsSafe, LinesSafe, RowOk, ViewRow, Step, Enabled;
    var s' := Step(s, ev);
    StepRefs(s, ev);
    StepLines(s, ev);
    forall q | q in s'.rows ensures RowOk(ViewRow(s', q)) {
      if ev.Claims? || ev.ClaimFails? {
        ClaimsRow(s, ev, q);
      } else if IsDrain(ev) {
        DrainRow(s, ev, q);
      } else if ev.Counts? || ev.Dials? {
        DialingRow(s, ev, q);
      } else if ev.Returns? || ev.Uncounts? {
        DialedRow(s, ev, q);
      } else if ev.Marks? {
        MarksRow(s, ev, q);
      } else if ev.FreesFailed? {
        FreesRow(s, ev, q);
      } else if ev.Checks? {
        ChecksRow(s, ev, q);
      } else if ev.Settles? {
        SettlesRow(s, ev, q);
      } else if ev.Recovers? {
        RecoversRow(s, ev, q);
      } else if ev.CallEnds? || ev.FreesSlot? {
        CallRow(s, ev, q);
      } else {
        OtherRow(s, ev, q);
      }
    }
    AllSafe(s');
  }

  lemma AllSafe(s: Sys)
    requires RefsSafe(s) && LinesSafe(s) && forall q :: q in s.rows ==> RowOk(ViewRow(s, q))
    ensures Safe(s)
  {
  }

  // ---- runs ----------------------------------------------------------------------------

  ghost predicate Run(s: Sys, evs: seq<Event>)
    decreases |evs|
  {
    evs != [] ==> Enabled(s, evs[0]) && Run(Step(s, evs[0]), evs[1..])
  }

  ghost function After(s: Sys, evs: seq<Event>): Sys
    requires Run(s, evs)
    decreases |evs|
  {
    if evs == [] then s else After(Step(s, evs[0]), evs[1..])
  }

  lemma {:induction false} RunSafe(s: Sys, evs: seq<Event>)
    requires Safe(s) && Run(s, evs)
    ensures Safe(After(s, evs))
    decreases |evs|
  {
    hide Safe, Enabled, Step;
    if evs != [] {
      StepSafe(s, evs[0]);
      RunSafe(Step(s, evs[0]), evs[1..]);
    }
  }

  /** With a crash between any two steps, and recovery after each: every row is dialed at most once,
      after its run was recorded. */
  lemma DialedAtMostOnce(s: Sys, evs: seq<Event>, q: nat)
    requires Loaded(s) && Run(s, evs) && q in After(s, evs).rows
    ensures var s' := After(s, evs);
      s'.rows[q].dials <= 1 && (s'.rows[q].dials == 1 ==> q in s'.runs && s'.rows[q].state != Queued)
  {
    hide Run, After, Loaded;
    LoadedSafe(s);
    RunSafe(s, evs);
    GetRow(After(s, evs), q);
  }

  // ---- contacts --------------------------------------------------------------------------

  /** The contact a row comes from. */
  ghost function Contact(s: Sys, q: nat): nat
    requires LinesSafe(s) && q in s.rows
    decreases s.rows[q].count
  {
    assert LineOk(s, q);
    match s.rows[q].parent
    case None => q
    case Some(p) => Contact(s, p)
  }

  /** A contact has at most one row for each number of tries: every row has at most one retry. */
  lemma {:induction false} OneRowEachTry(s: Sys, a: nat, b: nat)
    requires LinesSafe(s) && a in s.rows && b in s.rows
    requires Contact(s, a) == Contact(s, b) && s.rows[a].count == s.rows[b].count
    ensures a == b
    decreases s.rows[a].count
  {
    hide RetrySource;
    assert LineOk(s, a) && LineOk(s, b);
    if s.rows[a].parent.Some? {
      var p := s.rows[a].parent.value;
      assert LineOk(s, p);
      OneRowEachTry(s, p, s.rows[b].parent.value);
      assert SameKey(s.rows[a], s.rows[b]);
    }
  }

  lemma {:induction false} ContactOf(s: Sys, q: nat)
    requires LinesSafe(s) && q in s.rows
    ensures Contact(s, q) in s.rows && s.rows[Contact(s, q)].campaign == s.rows[q].campaign
    decreases s.rows[q].count
  {
    assert LineOk(s, q);
    if s.rows[q].parent.Some? {
      ContactOf(s, s.rows[q].parent.value);
    }
  }

  /** The rows of contact o that were dialed. */
  ghost function DialedRows(s: Sys, o: nat): set<nat>
    requires LinesSafe(s)
  {
    set q | q in s.rows && Contact(s, q) == o && s.rows[q].dials > 0
  }

  /** Those of the first n tries. */
  ghost function EarlyRows(s: Sys, o: nat, n: nat): set<nat>
    requires LinesSafe(s)
  {
    set q | q in DialedRows(s, o) && s.rows[q].count < n
  }

  lemma {:induction false} FewRows(s: Sys, o: nat, n: nat)
    requires LinesSafe(s)
    ensures |EarlyRows(s, o, n)| <= n
    decreases n
  {
    hide LinesSafe, Contact;
    if n == 0 {
      assert EarlyRows(s, o, 0) == {};
    } else {
      var before, now := EarlyRows(s, o, n - 1), EarlyRows(s, o, n);
      FewRows(s, o, n - 1);
      if q :| q in now && s.rows[q].count == n - 1 {
        forall b | b in now ensures b in before + {q} {
          if s.rows[b].count == n - 1 {
            OneRowEachTry(s, b, q);
          }
        }
        assert now <= before + {q};
        Smaller(now, before + {q});
      } else {
        assert now == before;
      }
    }
  }

  lemma Smaller(a: set<nat>, b: set<nat>)
    requires a <= b
    ensures |a| <= |b|
  {
    assert b == a + (b - a);
  }

  lemma CountBound(s: Sys, q: nat)
    requires Safe(s) && q in s.rows && s.rows[q].campaign in s.campaigns
    ensures s.rows[q].count <= s.campaigns[s.rows[q].campaign].maxRetries
  {
    GetRow(s, q);
  }

  /** Each contact is dialed at most once more than its campaign's retries, crashes included. */
  lemma ContactDialedAtMost(s: Sys, evs: seq<Event>, o: nat)
    requires Loaded(s) && Run(s, evs) && o in After(s, evs).rows
    requires After(s, evs).rows[o].campaign in After(s, evs).campaigns
    ensures var s' := After(s, evs);
      LinesSafe(s') && |DialedRows(s', o)| <= s'.campaigns[s'.rows[o].campaign].maxRetries + 1
  {
    hide Run, After, Loaded, RowOk, LineOk, Contact;
    LoadedSafe(s);
    RunSafe(s, evs);
    var s' := After(s, evs);
    var max := s'.campaigns[s'.rows[o].campaign].maxRetries;
    FewRows(s', o, max + 1);
    forall q | q in DialedRows(s', o) ensures q in EarlyRows(s', o, max + 1) {
      ContactOf(s', q);
      CountBound(s', q);
    }
    assert EarlyRows(s', o, max + 1) == DialedRows(s', o);
  }
}
