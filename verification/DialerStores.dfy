/** The dialer's statements on the database and its locked regions as objects, proved to be the
    steps of DialerSpec. */
module DialerStores {
  import opened Wrappers
  import opened DialerSpec

  /** The order rows are claimed in: scheduled ones first, the earliest first, then as loaded. */
  predicate Precedes(rows: map<nat, Row>, a: nat, b: nat)
    requires a in rows && b in rows
  {
    match (rows[a].at, rows[b].at)
    case (Some(x), Some(y)) => x < y || (x == y && a < b)
    case (Some(_), None) => true
    case (None, Some(_)) => false
    case (None, None) => a < b
  }

  /** That orders all rows: one with a time before one without, the earlier time first, else as loaded. */
  lemma ClaimOrder(rows: map<nat, Row>, a: nat, b: nat, c: nat)
    requires a in rows && b in rows && c in rows
    ensures a != b ==> (Precedes(rows, a, b) <==> !Precedes(rows, b, a))
    ensures Precedes(rows, a, b) && Precedes(rows, b, c) ==> Precedes(rows, a, c)
    ensures rows[a].at.Some? && (rows[b].at.None? || rows[a].at.value < rows[b].at.value) ==> Precedes(rows, a, b)
    ensures rows[a].at == rows[b].at && a < b ==> Precedes(rows, a, b)
  {
    if rows[a].at.Some? && rows[b].at.Some? {
      assert rows[a].at == rows[b].at <==> rows[a].at.value == rows[b].at.value;
    }
  }

  ghost function InState(rows: map<nat, Row>, c: nat, state: RowState): set<nat> {
    set q | q in rows && rows[q].campaign == c && rows[q].state == state
  }

  ghost function LeftProcessing(rows: map<nat, Row>, runs: set<nat>, hasRun: bool): set<nat> {
    set q | q in rows && rows[q].state == Processing && (q in runs) == hasRun
  }

  lemma OneLess(all: set<nat>, left: set<nat>, q: nat)
    requires q in left
    ensures |all - (left - {q})| == |all - left| + if q in all then 1 else 0
  {
    assert all - (left - {q}) == if q in all then (all - left) + {q} else all - left;
  }

  class Store {
    var rows: map<nat, Row>
    var runs: set<nat>
    var campaigns: map<nat, Campaign>
    var processedRows: map<nat, nat>
    var failedRows: map<nat, nat>

    /** The first due row of campaign c, marked processing; none if none is due. */
    method ClaimRun(c: nat, now: int) returns (claimed: Option<nat>)
      modifies this`rows
      ensures claimed == None ==> rows == old(rows) && forall q :: q in rows ==> !Due(rows[q], c, now)
      ensures claimed.Some? ==>
        var first := claimed.value;
        && first in old(rows) && Due(old(rows)[first], c, now)
        && (forall q :: q in old(rows) && Due(old(rows)[q], c, now) && q != first ==> Precedes(old(rows), first, q))
        && rows == old(rows)[first := old(rows)[first].(state := Processing)]
    {
      claimed := FirstDue(c, now);
      if claimed.Some? {
        rows := rows[claimed.value := rows[claimed.value].(state := Processing)];
      }
    }

    method FirstDue(c: nat, now: int) returns (first: Option<nat>)
      ensures first == None ==> forall q :: q in rows ==> !Due(rows[q], c, now)
      ensures first.Some? ==> first.value in rows && Due(rows[first.value], c, now)
      ensures first.Some? ==>
        forall q :: q in rows && Due(rows[q], c, now) && q != first.value ==> Precedes(rows, first.value, q)
    {
      first := None;
      var left := rows.Keys;
      while left != {}
        invariant left <= rows.Keys
        invariant first == None ==> forall q :: q in rows.Keys - left ==> !Due(rows[q], c, now)
        invariant first.Some? ==> first.value in rows && Due(rows[first.value], c, now)
        invariant first.Some? ==>
          forall q :: q in rows.Keys - left && Due(rows[q], c, now) && q != first.value ==>
              Precedes(rows, first.value, q)
        decreases |left|
      {
        var q :| q in left;
        left := left - {q};
        if Due(rows[q], c, now) && (first == None || Precedes(rows, q, first.value)) {
          first := Some(q);
        }
      }
    }

    method CountRow(counts: map<nat, nat>, c: nat) returns (counts': map<nat, nat>)
      ensures counts' == Counted(counts, c)
    {
      counts' := counts[c := (if c in counts then counts[c] else 0) + 1];
    }

    /** A claimed row's new state, counted in its campaign; not ok: no such row, or no state to move to. */
    method SetRunState(q: nat, state: RowState) returns (ok: bool)
      modifies this`rows, this`processedRows, this`failedRows
      ensures ok == (q in old(rows) && state != Processing)
      ensures rows == if ok then old(rows)[q := old(rows)[q].(state := state)] else old(rows)
      ensures processedRows ==
        if ok && state == Processed then Counted(old(processedRows), old(rows)[q].campaign) else old(processedRows)
      ensures failedRows ==
        if ok && state == FailedRow then Counted(old(failedRows), old(rows)[q].campaign) else old(failedRows)
    {
      if q !in rows || state == Processing {
        return false;
      }
      var c := rows[q].campaign;
      rows := rows[q := rows[q].(state := state)];
      match state {
        case Processed => processedRows := CountRow(processedRows, c);
        case FailedRow => failedRows := CountRow(failedRows, c);
        case _ =>
      }
      return true;
    }

    method AddFailedRow(c: nat)
      modifies this`failedRows
      ensures failedRows == Counted(old(failedRows), c)
    {
      failedRows := CountRow(failedRows, c);
    }

    /** A retry of row q due at `at`, unless there is one; id: the next row id. */
    method ScheduleRetry(q: nat, id: nat, at: int)
      requires q in rows && id !in rows
      modifies this`rows
      ensures rows == AddRetry(old(rows), q, id, at)
    {
      var r := rows[q];
      var source := RetrySource(r.source, r.count + 1);
      var taken := false;
      var left := rows.Keys;
      while left != {}
        invariant left <= rows.Keys && rows == old(rows)
        invariant taken ==> KeyTaken(rows, r.campaign, source, r.count + 1)
        invariant !taken ==> forall p :: p in rows.Keys - left ==>
          !(rows[p].campaign == r.campaign && rows[p].source == source && rows[p].count == r.count + 1)
        decreases |left|
      {
        var p :| p in left;
        left := left - {p};
        if rows[p].campaign == r.campaign && rows[p].source == source && rows[p].count == r.count + 1 {
          taken := true;
        }
      }
      if !taken {
        rows := rows[id := Row(r.campaign, source, r.count + 1, Some(q), Some(at), Queued, 0)];
      }
    }

    method CountRows(c: nat, state: RowState) returns (n: nat)
      ensures n == |InState(rows, c, state)|
    {
      n := 0;
      var left := rows.Keys;
      ghost var all := InState(rows, c, state);
      assert all - left == {};
      while left != {}
        invariant left <= rows.Keys && n == |all - left|
        decreases |left|
      {
        var q :| q in left;
        OneLess(all, left, q);
        if rows[q].campaign == c && rows[q].state == state {
          n := n + 1;
        }
        left := left - {q};
      }
      assert all - left == all;
    }

    /** How many of campaign c's rows are still to be called, and being handled. */
    method OpenWork(c: nat) returns (queued: nat, processing: nat)
      ensures queued == |InState(rows, c, Queued)| && processing == |InState(rows, c, Processing)|
      ensures queued == 0 && processing == 0 <==> !DialerSpec.OpenWork(rows, c)
    {
      queued := CountRows(c, Queued);
      processing := CountRows(c, Processing);
      OpenIsInState(rows, c);
    }

    /** Completed, if it was still running. */
    method CompleteCampaign(c: nat) returns (done: bool)
      modifies this`campaigns
      ensures done == (c in old(campaigns) && old(campaigns)[c].state == Running)
      ensures campaigns == if done then old(campaigns)[c := old(campaigns)[c].(state := Completed)] else old(campaigns)
    {
      if c !in campaigns || campaigns[c].state != Running {
        return false;
      }
      campaigns := campaigns[c := campaigns[c].(state := Completed)];
      return true;
    }

    method CountLeft(hasRun: bool) returns (n: nat)
      ensures n == |LeftProcessing(rows, runs, hasRun)|
    {
      n := 0;
      var left := rows.Keys;
      ghost var all := LeftProcessing(rows, runs, hasRun);
      assert all - left == {};
      while left != {}
        invariant left <= rows.Keys && n == |all - left|
        decreases |left|
      {
        var q :| q in left;
        OneLess(all, left, q);
        if rows[q].state == Processing && (q in runs) == hasRun {
          n := n + 1;
        }
        left := left - {q};
      }
      assert all - left == all;
    }

    /** After a restart: rows left processing, with a run or without. */
    method RecoverContacts() returns (requeued: nat, processed: nat)
      modifies this`rows
      ensures rows == Recovered(old(rows), runs)
      ensures rows.Keys == old(rows.Keys)
      ensures forall q :: q in rows ==>
        && rows[q] == old(rows)[q].(state := rows[q].state)
        && (old(rows)[q].state != Processing ==> rows[q] == old(rows)[q])
        && (old(rows)[q].state == Processing ==>
            (rows[q].state == Queued <==> q !in runs) && (rows[q].state == Processed <==> q in runs))
      ensures requeued == |LeftProcessing(old(rows), runs, false)|
          && processed == |LeftProcessing(old(rows), runs, true)|
    {
      requeued := CountLeft(false);
      processed := CountLeft(true);
      var left := rows.Keys;
      ghost var was := rows;
      while left != {}
        invariant left <= was.Keys == rows.Keys
        invariant forall q :: q in was ==> rows[q] == if q in left then was[q] else RecoveredRow(was[q], q in runs)
        decreases |left|
      {
        var q :| q in left;
        if rows[q].state == Processing {
          rows := rows[q := rows[q].(state := if q in runs then Processed else Queued)];
        }
        left := left - {q};
      }
    }
  }

  lemma OpenIsInState(rows: map<nat, Row>, c: nat)
    ensures |InState(rows, c, Queued)| == 0 && |InState(rows, c, Processing)| == 0 <==> !OpenWork(rows, c)
  {
    var open := InState(rows, c, Queued) + InState(rows, c, Processing);
    forall q ensures q in open <==> OpenRow(rows, q, c) {
    }
    if |InState(rows, c, Queued)| == 0 && |InState(rows, c, Processing)| == 0 {
      assert open == {};
    }
    if q :| q in open {
      assert OpenWork(rows, c);
    }
  }

  function Counted(counts: map<nat, nat>, c: nat): map<nat, nat> {
    counts[c := (if c in counts then counts[c] else 0) + 1]
  }

  class Runner {
    const store: Store
    var draining: set<nat>
    var inflight: map<nat, nat>
    var liveRuns: set<nat>

    constructor (s: Store)
      ensures store == s && draining == {} && inflight == map[] && liveRuns == {}
    {
      store, draining, inflight, liveRuns := s, {}, map[], {};
    }

    method AddInflight(c: nat, n: int)
      modifies this`inflight
      ensures inflight == if Count(old(inflight), c) + n <= 0 then old(inflight) - {c}
                          else old(inflight)[c := Count(old(inflight), c) + n]
    {
      var total := (if c in inflight then inflight[c] else 0) + n;
      if total <= 0 {
        inflight := inflight - {c};
      } else {
        inflight := inflight[c := total];
      }
    }

    /** One drain per campaign: started unless one is at work. */
    method StartDrain(c: nat) returns (started: bool)
      modifies this`draining
      ensures started == (c !in old(draining)) && draining == old(draining) + {c}
    {
      started := c !in draining;
      draining := draining + {c};
    }

    /** A scan starts a drain for every campaign found that has none at work, one each. */
    method Scan(found: seq<nat>) returns (started: seq<nat>)
      modifies this`draining
      ensures forall c :: c in started <==> c in found && c !in old(draining)
      ensures forall i, j :: 0 <= i < j < |started| ==> started[i] != started[j]
      ensures forall c :: c in draining <==> c in old(draining) || c in found
    {
      started := [];
      for i := 0 to |found|
        invariant forall c :: c in started <==> c in found[..i] && c !in old(draining)
        invariant forall j, k :: 0 <= j < k < |started| ==> started[j] != started[k]
        invariant forall c :: c in draining <==> c in old(draining) || c in found[..i]
      {
        assert found[..i + 1] == found[..i] + [found[i]];
        var free := StartDrain(found[i]);
        if free {
          started := started + [found[i]];
        }
      }
      assert found[..|found|] == found;
    }

    /** The end of a placed call: the retry of one that never connected, or its last failure counted; then
        it is no longer live nor in flight. */
    method Finished(c: nat, q: nat, run: nat, connected: bool, eligible: bool, maxRetries: nat, id: nat, at: int)
      requires q in store.rows && id !in store.rows
      modifies this`inflight, this`liveRuns, store`rows, store`failedRows
      ensures liveRuns == old(liveRuns) - {run}
      ensures inflight == if Count(old(inflight), c) <= 1 then old(inflight) - {c}
                          else old(inflight)[c := Count(old(inflight), c) - 1]
      ensures var retries, left := !connected && eligible, old(store.rows)[q].count < maxRetries;
        && store.rows == (if retries && left then AddRetry(old(store.rows), q, id, at) else old(store.rows))
        && store.failedRows == (if retries && !left then Counted(old(store.failedRows), c) else old(store.failedRows))
    {
      if !connected && eligible {
        if store.rows[q].count >= maxRetries {
          store.AddFailedRow(c);
        } else {
          store.ScheduleRetry(q, id, at);
        }
      }
      Track(run, false);
      AddInflight(c, -1);
    }

    method Track(run: nat, live: bool)
      modifies this`liveRuns
      ensures liveRuns == if live then old(liveRuns) + {run} else old(liveRuns) - {run}
    {
      if live {
        liveRuns := liveRuns + {run};
      } else {
        liveRuns := liveRuns - {run};
      }
    }

    method InFlight(c: nat) returns (n: nat)
      ensures n == Count(inflight, c)
    {
      n := if c in inflight then inflight[c] else 0;
    }

    /** Completed exactly when running, with nothing in flight and no open work. */
    method MaybeComplete(c: nat) returns (done: bool)
      modifies store`campaigns
      ensures done == (Count(inflight, c) == 0 && !OpenWork(store.rows, c)
                       && c in old(store.campaigns) && old(store.campaigns)[c].state == Running)
      ensures store.campaigns ==
        if done then old(store.campaigns)[c := old(store.campaigns)[c].(state := Completed)] else old(store.campaigns)
    {
      var n := InFlight(c);
      if n > 0 {
        return false;
      }
      var queued, processing := store.OpenWork(c);
      if queued > 0 || processing > 0 {
        return false;
      }
      n := InFlight(c);
      if n > 0 {
        return false;
      }
      done := store.CompleteCampaign(c);
    }
  }

  function Count(inflight: map<nat, nat>, c: nat): nat {
    if c in inflight then inflight[c] else 0
  }
}
