/** Variable extractions in the background, and the end-of-call extraction that waits for them. */
module Extractions {

  /** started, ended: the background extractions; pending: those the end of the call waits for, in
      order, once it has taken its snapshot; waited: how many of them it has seen end; final: the
      end-of-call extraction runs; gaveUp: the wait ran out. */
  datatype Sys = Sys(
    started: seq<nat>, ended: set<nat>, extracting: seq<nat>, done: bool, pending: seq<nat>,
    waited: nat, final: bool, gaveUp: bool)

  const INIT := Sys([], {}, [], false, [], 0, false, false)

  datatype Event = Starts(id: nat) | Ends(id: nat) | Snapshots | SeesEnd | GivesUp | RunsFinal

  predicate Enabled(s: Sys, ev: Event) {
    match ev
    case Starts(id) => id !in s.started
    case Ends(id) => id in s.started
    case Snapshots => !s.done
    case SeesEnd => s.done && !s.gaveUp && !s.final && s.waited < |s.pending| && s.pending[s.waited] in s.ended
    case GivesUp => s.done && !s.gaveUp && !s.final && s.waited < |s.pending|
    case RunsFinal => s.done && !s.gaveUp && !s.final && s.waited == |s.pending|
  }

  /** The flag and the list change under one lock: a start after the snapshot starts nothing. */
  function Step(s: Sys, ev: Event): Sys {
    match ev
    case Starts(id) => if s.done then s else s.(extracting := s.extracting + [id], started := s.started + [id])
    case Ends(id) => s.(ended := s.ended + {id})
    case Snapshots => s.(pending := s.extracting, done := true)
    case SeesEnd => s.(waited := s.waited + 1)
    case GivesUp => s.(gaveUp := true)
    case RunsFinal => s.(final := true)
  }

  ghost predicate Safe(s: Sys) {
    && s.extracting == s.started
    && (s.done ==> s.pending == s.started)
    && (!s.done ==> s.pending == [] && s.waited == 0 && !s.final)
    && s.waited <= |s.pending|
    && (forall i :: 0 <= i < s.waited ==> s.pending[i] in s.ended)
    && (s.final ==> s.waited == |s.pending|)
  }

  lemma StepSafe(s: Sys, ev: Event)
    requires Safe(s) && Enabled(s, ev)
    ensures Safe(Step(s, ev))
  {
  }

  ghost predicate Run(s: Sys, evs: seq<Event>)
    decreases |evs|
  {
    evs != [] ==> Enabled(s, evs[0]) && Run(Step(s, evs[0]), evs[1..])
  }

  ghost function After(s: Sys, evs: seq<Event>): Sys
    decreases |evs|
  {
    if evs == [] then s else After(Step(s, evs[0]), evs[1..])
  }

  lemma {:induction false} RunSafe(s: Sys, evs: seq<Event>)
    requires Safe(s) && Run(s, evs)
    ensures Safe(After(s, evs))
    decreases |evs|
  {
    hide Safe, Enabled, Step;
    if evs != [] {
      StepSafe(s, evs[0]);
      RunSafe(Step(s, evs[0]), evs[1..]);
    }
  }

  /** The extractions asked for before the call's end took its snapshot. */
  function AskedInTime(evs: seq<Event>): seq<nat> {
    if evs == [] || evs[0].Snapshots? then []
    else (if evs[0].Starts? then [evs[0].id] else []) + AskedInTime(evs[1..])
  }

  lemma StepStarts(s: Sys, ev: Event)
    requires !s.done
    ensures Step(s, ev).started == s.started + (if ev.Starts? then [ev.id] else [])
    ensures Step(s, ev).done == ev.Snapshots?
  {
  }

  lemma {:induction false} StartsInTime(s: Sys, evs: seq<Event>)
    requires !s.done && Run(s, evs)
    ensures After(s, evs).started == s.started + AskedInTime(evs)
    decreases |evs|
  {
    hide Step, Enabled;
    if evs == [] {
    } else if evs[0].Snapshots? {
      StepStarts(s, evs[0]);
      NoneStartsAfter(Step(s, evs[0]), evs[1..]);
    } else {
      StepStarts(s, evs[0]);
      StartsInTime(Step(s, evs[0]), evs[1..]);
      var first := if evs[0].Starts? then [evs[0].id] else [];
      assert s.started + first + AskedInTime(evs[1..]) == s.started + (first + AskedInTime(evs[1..]));
    }
  }

  /** Exactly the extractions asked for before the call's end are started, in order, and the call's end waits
      for just these: it runs its own when it has seen each of them end, or never if it gave up. */
  lemma ExactlyThoseAreAwaited(evs: seq<Event>)
    requires Run(INIT, evs)
    ensures var s := After(INIT, evs);
      && s.started == AskedInTime(evs)
      && (s.done ==> s.pending == AskedInTime(evs))
      && (s.done && !s.gaveUp && !s.final && (forall id :: id in AskedInTime(evs) ==> id in s.ended) ==>
          Enabled(s, if s.waited < |s.pending| then SeesEnd else RunsFinal))
  {
    InitSafe();
    RunSafe(INIT, evs);
    StartsInTime(INIT, evs);
  }

  lemma InitSafe()
    ensures Safe(INIT)
  {
  }

  /** When the end-of-call extraction runs, every extraction ever started has ended; and from the
      snapshot on no other starts. */
  lemma FinalComesLast(evs: seq<Event>, more: seq<Event>, id: nat)
    requires Run(INIT, evs) && Run(After(INIT, evs), more)
    ensures var s, s' := After(INIT, evs), After(After(INIT, evs), more);
      && (s.final && id in s.started ==> id in s.ended)
      && (s.done ==> s'.started == s.started)
  {
    RunSafe(INIT, evs);
    NoneStartsAfter(After(INIT, evs), more);
  }

  lemma {:induction false} NoneStartsAfter(s: Sys, evs: seq<Event>)
    ensures s.done ==> After(s, evs).started == s.started && After(s, evs).done
    decreases |evs|
  {
    if evs != [] {
      NoneStartsAfter(Step(s, evs[0]), evs[1..]);
    }
  }
}
