/** No contact is lost: one that was never dialed, and of which no run was recorded, is queued, or is being
    handled, or somebody is to blame. */
module DialerContacts {
  import opened Wrappers
  import opened DialerSpec
  import opened DialerSafety

  /** Who is: the rows marked as having no number, and those whose mark, claim or recovery failed in the
      database. */
  datatype Blame = Blame(noNumber: set<nat>, left: set<nat>)

  const NO_BLAME := Blame({}, {})

  ghost function LeftProcessing(s: Sys): set<nat> {
    set q | q in s.rows && s.rows[q].state == Processing
  }

  ghost function NextBlame(s: Sys, b: Blame, ev: Event): Blame
    requires Enabled(s, ev)
  {
    match ev
    case NoNumber(c) => b.(noNumber := b.noNumber + {s.drains[c].q})
    case Marks(c, ok) => if ok then b else b.(left := b.left + {s.drains[c].q})
    case ClaimFails(_, lost, _) => if lost.Some? then b.(left := b.left + {lost.value}) else b
    case Recovers(ok) => if ok then b else b.(left := b.left + LeftProcessing(s))
    case _ => b
  }

  ghost function BlameAfter(s: Sys, b: Blame, evs: seq<Event>): Blame
    requires Run(s, evs)
    decreases |evs|
  {
    if evs == [] then b else BlameAfter(Step(s, evs[0]), NextBlame(s, b, evs[0]), evs[1..])
  }

  /** A row never dialed and without a run: its drain has it, or it is queued, failed for want of a number,
      or left in processing -- by a crash to be recovered from, or by a failure. */
  predicate IsKept(s: Sys, b: Blame, q: nat)
    requires q in s.rows
  {
    var r, pc := s.rows[q], PcOf(s, s.rows[q].campaign, q);
    match pc
    case Some(at) => at.Marking? && at.to == FailedRow ==> q in b.noNumber
    case None =>
      match r.state
      case Queued => true
      case Processing => !s.up || q in b.left
      case FailedRow => q in b.noNumber
      case Processed => false
  }

  predicate Keeps(s: Sys, b: Blame, q: nat) {
    q in s.rows && s.rows[q].dials == 0 && q !in s.runs ==> IsKept(s, b, q)
  }

  // ---- one step -----------------------------------------------------------------------------

  lemma ClaimsKeep(s: Sys, b: Blame, ev: Event, q: nat)
    requires Safe(s) && Enabled(s, ev) && Keeps(s, b, q) && (ev.Claims? || ev.ClaimFails?)
    ensures Keeps(Step(s, ev), NextBlame(s, b, ev), q)
  {
    hide RowsSafe, LinesSafe, KeyTaken, OpenWork;
    if q in s.rows {
      GetRow(s, q);
    }
  }

  lemma DrainKeeps(s: Sys, b: Blame, ev: Event, q: nat)
    requires Safe(s) && Enabled(s, ev) && Keeps(s, b, q) && IsDrain(ev) && !ev.Claims? && !ev.ClaimFails?
    ensures Keeps(Step(s, ev), NextBlame(s, b, ev), q)
  {
    hide RowsSafe, LinesSafe, KeyTaken, OpenWork;
    if q in s.rows {
      GetRow(s, q);
    }
  }

  lemma DialingKeeps(s: Sys, b: Blame, ev: Event, q: nat)
    requires Safe(s) && Enabled(s, ev) && Keeps(s, b, q) && IsDialing(ev)
    ensures Keeps(Step(s, ev), NextBlame(s, b, ev), q)
  {
    hide RowsSafe, LinesSafe, KeyTaken, OpenWork;
    if q in s.rows {
      GetRow(s, q);
    }
  }

  lemma ClosingKeeps(s: Sys, b: Blame, ev: Event, q: nat)
    requires Safe(s) && Enabled(s, ev) && Keeps(s, b, q) && IsClosing(ev)
    ensures Keeps(Step(s, ev), NextBlame(s, b, ev), q)
  {
    hide RowsSafe, LinesSafe, KeyTaken, OpenWork;
    if q in s.rows {
      GetRow(s, q);
    }
  }

  lemma SettlesKeep(s: Sys, b: Blame, ev: Event, q: nat)
    requires Safe(s) && Enabled(s, ev) && Keeps(s, b, q) && ev.Settles?
    ensures Keeps(Step(s, ev), NextBlame(s, b, ev), q)
  {
    hide RowsSafe, LinesSafe, KeyTaken, OpenWork, RetrySource;
    if q in s.rows {
      GetRow(s, q);
    }
  }

  lemma CallKeeps(s: Sys, b: Blame, ev: Event, q: nat)
    requires Safe(s) && Enabled(s, ev) && Keeps(s, b, q) && (ev.CallEnds? || ev.FreesSlot? || ev.Finishes?)
    ensures Keeps(Step(s, ev), NextBlame(s, b, ev), q)
  {
    hide RowsSafe, LinesSafe, KeyTaken, OpenWork;
  }

  lemma RestartKeeps(s: Sys, b: Blame, ev: Event, q: nat)
    requires Safe(s) && Enabled(s, ev) && Keeps(s, b, q) && (ev.Switches? || ev.Crashes? || ev.Recovers?)
    ensures Keeps(Step(s, ev), NextBlame(s, b, ev), q)
  {
    hide RowsSafe, LinesSafe, KeyTaken, OpenWork;
    if q in s.rows {
      GetRow(s, q);
    }
  }

  lemma StepKeeps(s: Sys, b: Blame, ev: Event, q: nat)
    requires Safe(s) && Enabled(s, ev) && Keeps(s, b, q)
    ensures Keeps(Step(s, ev), NextBlame(s, b, ev), q)
  {
    hide Safe, Keeps, Step, Enabled, NextBlame;
    if ev.Claims? || ev.ClaimFails? {
      ClaimsKeep(s, b, ev, q);
    } else if IsDrain(ev) {
      DrainKeeps(s, b, ev, q);
    } else if IsDialing(ev) {
      DialingKeeps(s, b, ev, q);
    } else if IsClosing(ev) {
      ClosingKeeps(s, b, ev, q);
    } else if ev.Settles? {
      SettlesKeep(s, b, ev, q);
    } else if ev.CallEnds? || ev.FreesSlot? || ev.Finishes? {
      CallKeeps(s, b, ev, q);
    } else {
      RestartKeeps(s, b, ev, q);
    }
  }

  // ---- runs ---------------------------------------------------------------------------------

  lemma {:induction false} RunKeeps(s: Sys, b: Blame, evs: seq<Event>, q: nat)
    requires Safe(s) && Run(s, evs) && Keeps(s, b, q)
    ensures Keeps(After(s, evs), BlameAfter(s, b, evs), q)
    decreases |evs|
  {
    hide Safe, Keeps, Enabled, Step, NextBlame;
    if evs != [] {
      StepSafe(s, evs[0]);
      StepKeeps(s, b, evs[0], q);
      RunKeeps(Step(s, evs[0]), NextBlame(s, b, evs[0]), evs[1..], q);
    }
  }

  lemma LoadedKeeps(s: Sys, q: nat)
    requires Loaded(s)
    ensures Keeps(s, NO_BLAME, q)
  {
  }

  /** Over every run, crashes included: a contact's row that was never dialed and has no run is queued; or its
      drain is handling it; or it was marked as having no number; or it is left in processing, by a crash
      that is still to be recovered from, or because the database failed a mark, a claim or the recovery. */
  lemma NoContactIsLost(s: Sys, evs: seq<Event>, q: nat)
    requires Loaded(s) && Run(s, evs) && q in After(s, evs).rows
    requires After(s, evs).rows[q].dials == 0 && q !in After(s, evs).runs
    ensures var s', b := After(s, evs), BlameAfter(s, NO_BLAME, evs);
      var r := s'.rows[q];
      || r.state == Queued
      || (r.campaign in s'.drains && AtRow(s'.drains[r.campaign]) && s'.drains[r.campaign].q == q)
      || (r.state == FailedRow && q in b.noNumber)
      || (r.state == Processing && (!s'.up || q in b.left))
  {
    hide Run, After, Loaded, Safe, BlameAfter;
    LoadedSafe(s);
    LoadedKeeps(s, q);
    RunKeeps(s, NO_BLAME, evs, q);
  }

  /** And a recovery that succeeds queues every such row that a crash left. */
  lemma RecoveryQueues(s: Sys, q: nat)
    requires Enabled(s, Recovers(true)) && q in s.rows && s.rows[q].state == Processing
    ensures var s' := Step(s, Recovers(true));
      q in s'.rows && s'.rows[q] == s.rows[q].(state := if q in s.runs then Processed else Queued)
  {
  }

  // ---- retries --------------------------------------------------------------------------------

  /** A call that never connected and may be retried, with tries left: its retry row is there, queued and due
      when asked for, unless it was there already. */
  lemma RetryIsScheduled(s: Sys, q: nat, id: nat, at: int)
    requires Enabled(s, Settles(q, true, id, at)) && s.rows[q].count < s.campaigns[s.rows[q].campaign].maxRetries
    ensures var s', r := Step(s, Settles(q, true, id, at)), s.rows[q];
      var source := RetrySource(r.source, r.count + 1);
      && KeyTaken(s'.rows, r.campaign, source, r.count + 1)
      && (!KeyTaken(s.rows, r.campaign, source, r.count + 1) ==>
          id in s'.rows && s'.rows[id] == Row(r.campaign, source, r.count + 1, Some(q), Some(at), Queued, 0))
  {
    hide RetrySource;
    var s', r := Step(s, Settles(q, true, id, at)), s.rows[q];
    if !KeyTaken(s.rows, r.campaign, RetrySource(r.source, r.count + 1), r.count + 1) {
      assert s'.rows[id].source == RetrySource(r.source, r.count + 1);
    }
  }
}
