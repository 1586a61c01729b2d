/** The campaign dialer: the rows of the queue, the drain of each campaign, the calls placed, and the
    process that may crash between any two steps. Each SQL statement and each locked region is one
    step. */
module DialerSpec {
  import opened Wrappers

  datatype RowState = Queued | Processing | Processed | FailedRow

  /** A contact's row; at: not before then. dials counts, for the record, how often it was dialed. */
  datatype Row = Row(
    campaign: nat, source: string, count: nat, parent: Option<nat>, at: Option<int>, state: RowState, dials: nat)

  datatype CampaignState = Running | Paused | Completed

  datatype Campaign = Campaign(state: CampaignState, maxRetries: nat)

  /** Where a campaign's drain is: q the row, slot the concurrency slot it took for it. */
  datatype Pc =
    | Looking
    | HasSlot(slot: nat)
    | Claimed(q: nat, slot: nat)
    | Recorded(q: nat, slot: nat)
    | Placing(q: nat, slot: nat)
    | Dialing(q: nat, slot: nat)
    | Failing(q: nat, slot: nat)
    | Freeing(q: nat, slot: nat)
    | Marking(q: nat, to: RowState)
    | Checking(step: nat)

  datatype Stage = Live | Over | Freed | Settled

  /** A call from its in-flight count to the end of that: of which campaign, its slot. */
  datatype Call = Call(campaign: nat, slot: nat, stage: Stage)

  datatype Holder = Drain(c: nat) | CallOf(q: nat) | Leaked

  datatype Sys = Sys(
    campaigns: map<nat, Campaign>, rows: map<nat, Row>, runs: set<nat>,
    up: bool, drains: map<nat, Pc>, calls: map<nat, Call>, inflight: map<nat, nat>, slots: map<nat, Holder>)

  datatype Event =
    | Scans(c: nat)
    | Stops(c: nat)
    | TakesSlot(c: nat, slot: nat)
    | NothingDue(c: nat)
    | ClaimFails(c: nat, lost: Option<nat>, now: int)
    | Claims(c: nat, q: nat, now: int)
    | NoNumber(c: nat)
    | GivesBack(c: nat, recorded: bool)
    | Records(c: nat)
    | Counts(c: nat)
    | Dials(c: nat)
    | Returns(c: nat, ok: bool)
    | Uncounts(c: nat)
    | FreesFailed(c: nat)
    | Marks(c: nat, ok: bool)
    | Checks(c: nat)
    | CallEnds(q: nat)
    | FreesSlot(q: nat)
    | Settles(q: nat, retry: bool, id: nat, at: int)
    | Finishes(q: nat)
    | Switches(c: nat, to: CampaignState)
    | Crashes
    | Recovers(ok: bool)

  function Inflight(s: Sys, c: nat): nat {
    if c in s.inflight then s.inflight[c] else 0
  }

  /** addInflight: a count that falls to 0 is dropped. */
  function AddInflight(s: Sys, c: nat, n: int): map<nat, nat> {
    var total := Inflight(s, c) + n;
    if total <= 0 then s.inflight - {c} else s.inflight[c := total]
  }

  function SetPc(s: Sys, c: nat, pc: Pc): Sys {
    s.(drains := s.drains[c := pc])
  }

  function SetRow(s: Sys, q: nat, state: RowState): map<nat, Row> {
    if q in s.rows then s.rows[q := s.rows[q].(state := state)] else s.rows
  }

  // ---- the retry row's key -----------------------------------------------------------

  function Digits(n: nat): string {
    if n < 10 then [('0' as int + n) as char] else Digits(n / 10) + [('0' as int + n % 10) as char]
  }

  function RetrySource(source: string, n: nat): string {
    source + "_retry_" + Digits(n)
  }

  /** Some row has the unique key (campaign, source, retry count). */
  predicate KeyTaken(rows: map<nat, Row>, campaign: nat, source: string, count: nat) {
    exists q :: q in rows && rows[q].campaign == campaign && rows[q].source == source && rows[q].count == count
  }

  /** The retry of row q as a new row id, unless it exists already. */
  function AddRetry(rows: map<nat, Row>, q: nat, id: nat, at: int): map<nat, Row>
    requires q in rows
  {
    var r := rows[q];
    var n := r.count + 1;
    if KeyTaken(rows, r.campaign, RetrySource(r.source, n), n) then rows
    else rows[id := Row(r.campaign, RetrySource(r.source, n), n, Some(q), Some(at), Queued, 0)]
  }

  /** The row can be claimed now. */
  predicate Due(r: Row, c: nat, now: int) {
    r.campaign == c && r.state == Queued && (r.at.Some? ==> r.at.value <= now)
  }

  // ---- steps ----------------------------------------------------------------------

  predicate AtRow(pc: Pc) {
    pc.Claimed? || pc.Recorded? || pc.Placing? || pc.Dialing? || pc.Failing? || pc.Freeing? || pc.Marking?
  }

  /** The dial of row q came back with an error. */
  predicate FailingOn(s: Sys, q: nat) {
    exists c :: c in s.drains && s.drains[c].Failing? && s.drains[c].q == q
  }

  predicate OpenRow(rows: map<nat, Row>, q: nat, c: nat) {
    q in rows && rows[q].campaign == c && (rows[q].state == Queued || rows[q].state == Processing)
  }

  predicate OpenWork(rows: map<nat, Row>, c: nat) {
    exists q :: q in rows && OpenRow(rows, q, c)
  }

  predicate AtPc(s: Sys, c: nat) {
    s.up && c in s.drains
  }

  /** A claim that fails may have marked its row before it did. A dial may be over before it returns,
      even with an error, but not after its error. */
  predicate Enabled(s: Sys, ev: Event) {
    match ev
    case Scans(c) => s.up && c in s.campaigns && c !in s.drains
    case Stops(c) => AtPc(s, c) && s.drains[c] == Looking
    case TakesSlot(c, slot) =>
      AtPc(s, c) && s.drains[c] == Looking && c in s.campaigns && s.campaigns[c].state == Running && slot !in s.slots
    case NothingDue(c) => AtPc(s, c) && s.drains[c].HasSlot?
    case ClaimFails(c, lost, now) =>
      AtPc(s, c) && s.drains[c].HasSlot? && (lost.Some? ==> lost.value in s.rows && Due(s.rows[lost.value], c, now))
    case Claims(c, q, now) => AtPc(s, c) && s.drains[c].HasSlot? && q in s.rows && Due(s.rows[q], c, now)
    case NoNumber(c) => AtPc(s, c) && s.drains[c].Claimed?
    case GivesBack(c, _) => AtPc(s, c) && s.drains[c].Claimed?
    case Records(c) => AtPc(s, c) && s.drains[c].Claimed?
    case Counts(c) => AtPc(s, c) && s.drains[c].Recorded?
    case Dials(c) => AtPc(s, c) && s.drains[c].Placing? && s.drains[c].q in s.rows
    case Returns(c, _) => AtPc(s, c) && s.drains[c].Dialing?
    case Uncounts(c) => AtPc(s, c) && s.drains[c].Failing?
    case FreesFailed(c) => AtPc(s, c) && s.drains[c].Freeing?
    case Marks(c, _) => AtPc(s, c) && s.drains[c].Marking?
    case Checks(c) => AtPc(s, c) && s.drains[c].Checking? && c in s.campaigns
    case CallEnds(q) =>
      s.up && q in s.calls && s.calls[q].stage == Live && q in s.rows && s.rows[q].dials > 0 && !FailingOn(s, q)
    case FreesSlot(q) => s.up && q in s.calls && s.calls[q].stage == Over
    case Settles(q, _, id, _) => s.up && q in s.calls && s.calls[q].stage == Freed && q in s.rows && id !in s.rows
                              && s.rows[q].campaign in s.campaigns
    case Finishes(q) => s.up && q in s.calls && s.calls[q].stage == Settled
    case Switches(c, to) => c in s.campaigns && s.campaigns[c].state != Completed && to != Completed
    case Crashes => true
    case Recovers(_) => !s.up
  }

  function Step(s: Sys, ev: Event): Sys
    requires Enabled(s, ev)
  {
    match ev
    case Scans(c) => SetPc(s, c, Looking)
    case Stops(c) => s.(drains := s.drains - {c})
    case TakesSlot(c, slot) => s.(drains := s.drains[c := HasSlot(slot)], slots := s.slots[slot := Drain(c)])
    case NothingDue(c) => s.(drains := s.drains[c := Checking(1)], slots := s.slots - {s.drains[c].slot})
    case ClaimFails(c, lost, _) =>
      s.(drains := s.drains - {c}, slots := s.slots - {s.drains[c].slot},
         rows := if lost.Some? then SetRow(s, lost.value, Processing) else s.rows)
    case Claims(c, q, _) => s.(drains := s.drains[c := Claimed(q, s.drains[c].slot)], rows := SetRow(s, q, Processing))
    case NoNumber(c) =>
      s.(drains := s.drains[c := Marking(s.drains[c].q, FailedRow)], slots := s.slots - {s.drains[c].slot})
    case GivesBack(c, recorded) =>
      s.(drains := s.drains[c := Marking(s.drains[c].q, Queued)], slots := s.slots - {s.drains[c].slot},
         runs := if recorded then s.runs + {s.drains[c].q} else s.runs)
    case Records(c) =>
      s.(drains := s.drains[c := Recorded(s.drains[c].q, s.drains[c].slot)], runs := s.runs + {s.drains[c].q})
    case Counts(c) => OnCounts(s, c, s.drains[c].q, s.drains[c].slot)
    case Dials(c) => OnDials(s, c, s.drains[c].q, s.drains[c].slot)
    case Returns(c, ok) =>
      var (q, slot) := (s.drains[c].q, s.drains[c].slot);
      s.(drains := s.drains[c := if ok then Marking(q, Processed) else Failing(q, slot)])
    case Uncounts(c) => OnUncounts(s, c, s.drains[c].q, s.drains[c].slot)
    case FreesFailed(c) =>
      s.(drains := s.drains[c := Marking(s.drains[c].q, FailedRow)], slots := s.slots - {s.drains[c].slot})
    case Marks(c, ok) => OnMarks(s, c, s.drains[c].q, s.drains[c].to, ok)
    case Checks(c) => OnChecks(s, c, s.drains[c].step)
    case CallEnds(q) => s.(calls := s.calls[q := s.calls[q].(stage := Over)])
    case FreesSlot(q) => s.(calls := s.calls[q := s.calls[q].(stage := Freed)], slots := s.slots - {s.calls[q].slot})
    case Settles(q, retry, id, at) => OnSettles(s, q, retry, id, at)
    case Finishes(q) => s.(calls := s.calls - {q}, inflight := AddInflight(s, s.calls[q].campaign, -1))
    case Switches(c, to) => s.(campaigns := s.campaigns[c := s.campaigns[c].(state := to)])
    case Crashes => OnCrashes(s)
    case Recovers(ok) => s.(up := true, rows := if ok then Recovered(s.rows, s.runs) else s.rows)
  }

  /** Counted in flight before it is dialed; from here the call has the slot. */
  function OnCounts(s: Sys, c: nat, q: nat, slot: nat): Sys {
    s.(drains := s.drains[c := Placing(q, slot)], calls := s.calls[q := Call(c, slot, Live)],
       inflight := AddInflight(s, c, 1), slots := s.slots[slot := CallOf(q)])
  }

  function OnDials(s: Sys, c: nat, q: nat, slot: nat): Sys
    requires q in s.rows
  {
    s.(drains := s.drains[c := Dialing(q, slot)], rows := s.rows[q := s.rows[q].(dials := s.rows[q].dials + 1)])
  }

  /** The call is not over yet. */
  predicate StillLive(s: Sys, q: nat) {
    q in s.calls && s.calls[q].stage == Live
  }

  /** A dial that failed is no longer in flight, whatever became of its call meanwhile; one that is
      not over never will be, and its slot is the drain's to free again. */
  function OnUncounts(s: Sys, c: nat, q: nat, slot: nat): Sys {
    var live := StillLive(s, q);
    s.(drains := s.drains[c := Freeing(q, slot)], calls := if live then s.calls - {q} else s.calls,
       inflight := AddInflight(s, c, -1), slots := if live then s.slots[slot := Drain(c)] else s.slots)
  }

  /** The row's new state, if the database takes it; given back, the drain stops. */
  function OnMarks(s: Sys, c: nat, q: nat, to: RowState, ok: bool): Sys {
    s.(drains := if to == Queued then s.drains - {c} else s.drains[c := Looking],
       rows := if ok then SetRow(s, q, to) else s.rows)
  }

  /** maybeComplete: nothing in flight, no open work, still nothing in flight, then completed if
      still running. */
  function OnChecks(s: Sys, c: nat, step: nat): Sys
    requires c in s.campaigns
  {
    var goOn := step < 4 && if step == 2 then !OpenWork(s.rows, c) else Inflight(s, c) == 0;
    s.(drains := if goOn then s.drains[c := Checking(step + 1)] else s.drains - {c},
       campaigns := if step >= 4 && s.campaigns[c].state == Running
           then s.campaigns[c := s.campaigns[c].(state := Completed)]
                    else s.campaigns)
  }

  /** A call that never connected: its retry, if it has any left. */
  function OnSettles(s: Sys, q: nat, retry: bool, id: nat, at: int): Sys
    requires q in s.calls && q in s.rows && s.rows[q].campaign in s.campaigns
  {
    s.(calls := s.calls[q := s.calls[q].(stage := Settled)],
       rows := if retry && s.rows[q].count < s.campaigns[s.rows[q].campaign].maxRetries then AddRetry(s.rows, q, id, at)
               else s.rows)
  }

  /** The process's memory is gone; the slots it held are left to expire. */
  function OnCrashes(s: Sys): Sys {
    s.(up := false, drains := map[], calls := map[], inflight := map[], slots := map k | k in s.slots :: Leaked)
  }

  /** Rows left processing: dialed at most, if they have a run; back to the queue if not. */
  function Recovered(rows: map<nat, Row>, runs: set<nat>): map<nat, Row> {
    map q | q in rows :: RecoveredRow(rows[q], q in runs)
  }

  function RecoveredRow(r: Row, hasRun: bool): Row {
    if r.state != Processing then r else r.(state := if hasRun then Processed else Queued)
  }
}
