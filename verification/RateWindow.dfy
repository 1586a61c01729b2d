/** The sliding one-second window of call starts: a sorted set whose members are their own
    timestamps, trimmed, counted and added to in one script. */
module RateWindow {

  /** Ticks of the clock in the window. */
  const WINDOW := 1_000_000_000

  /** The set, and when Redis drops the key. */
  datatype Rate = Rate(members: set<int>, expires: int)

  const EMPTY := Rate({}, 0)

  function Live(r: Rate, now: int): set<int> {
    if now >= r.expires then {} else r.members
  }

  function Trim(members: set<int>, now: int): set<int> {
    set m | m in members && m > now - WINDOW
  }

  /** The script: trim, count, and add if there is room. */
  function Acquire(r: Rate, now: int, perSecond: nat): (Rate, bool) {
    var kept := Trim(Live(r, now), now);
    if |kept| < perSecond then (Rate(kept + {now}, now + 2 * WINDOW), true)
    else (r.(members := if now >= r.expires then {} else kept), false)
  }

  /** One attempt: when, and the rate its campaign passes. */
  datatype Try = Try(at: int, perSecond: nat)

  /** A run of attempts of one organization: the set after it, and the starts accepted, in order. */
  function After(tries: seq<Try>): Rate {
    if tries == [] then EMPTY
    else
      var n := |tries| - 1;
      Acquire(After(tries[..n]), tries[n].at, tries[n].perSecond).0
  }

  function Accepted(tries: seq<Try>): seq<int> {
    if tries == [] then []
    else
      var n := |tries| - 1;
      var before := Accepted(tries[..n]);
      if Accepts(tries[..n], tries[n]) then before + [tries[n].at] else before
  }

  predicate Accepts(before: seq<Try>, a: Try) {
    Acquire(After(before), a.at, a.perSecond).1
  }

  function Times(tries: seq<Try>): seq<int> {
    seq(|tries|, i requires 0 <= i < |tries| => tries[i].at)
  }

  /** The rate passed at the last start accepted in the window; 0 if none was. */
  function LastRate(tries: seq<Try>, from: int): nat {
    if tries == [] then 0
    else
      var n := |tries| - 1;
      if Accepts(tries[..n], tries[n]) && from < tries[n].at <= from + WINDOW then tries[n].perSecond
      else LastRate(tries[..n], from)
  }

  predicate NonDecreasing(times: seq<int>) {
    forall i, j :: 0 <= i < j < |times| ==> times[i] <= times[j]
  }

  predicate Increasing(times: seq<int>) {
    forall i, j :: 0 <= i < j < |times| ==> times[i] < times[j]
  }

  /** The starts in the half-open window (from, from + WINDOW]. */
  function InWindow(starts: seq<int>, from: int): nat {
    if starts == [] then 0
    else
      var n := |starts| - 1;
      InWindow(starts[..n], from) + (if from < starts[n] <= from + WINDOW then 1 else 0)
  }

  /** Their distinct times. */
  ghost function TimesInWindow(starts: seq<int>, from: int): set<int> {
    set t | t in starts && from < t <= from + WINDOW
  }

  // ---- the set against the log of starts ---------------------------------------------------

  /** What is left in the set are the accepted times still in the window. */
  ghost predicate Tracks(r: Rate, starts: seq<int>, now: int) {
    && (forall t :: t in starts ==> t <= now && t <= r.expires - 2 * WINDOW)
    && (forall m :: m in r.members ==> m in starts)
    && (forall t :: t in starts && t > now - WINDOW ==> t in r.members)
  }

  /** Expiry never drops an entry that still counts. */
  lemma ExpiryIsHarmless(r: Rate, starts: seq<int>, before: int, now: int)
    requires Tracks(r, starts, before) && before <= now
    ensures Trim(Live(r, now), now) == Trim(r.members, now) == set t | t in starts && t > now - WINDOW
  {
    forall t | t in starts && t > now - WINDOW ensures t in Trim(Live(r, now), now) {
    }
  }

  lemma AcquireTracks(r: Rate, starts: seq<int>, before: int, now: int, perSecond: nat)
    requires Tracks(r, starts, before) && before <= now
    ensures var (r', ok) := Acquire(r, now, perSecond);
      Tracks(r', if ok then starts + [now] else starts, now)
  {
    ExpiryIsHarmless(r, starts, before, now);
  }

  lemma TimesSplit(tries: seq<Try>)
    requires tries != []
    ensures var n := |tries| - 1;
      Times(tries) == Times(tries[..n]) + [tries[n].at] && Times(tries)[..n] == Times(tries[..n])
  {
  }

  lemma {:induction false} RunTracks(tries: seq<Try>)
    requires NonDecreasing(Times(tries))
    ensures tries != [] ==> Tracks(After(tries), Accepted(tries), tries[|tries| - 1].at)
    ensures tries == [] ==> Accepted(tries) == []
    decreases |tries|
  {
    hide Acquire, Tracks;
    if tries != [] {
      var n := |tries| - 1;
      TimesSplit(tries);
      RunTracks(tries[..n]);
      var before := if n == 0 then tries[0].at else tries[n - 1].at;
      if n == 0 {
        StartTracks(tries[0].at);
      } else {
        assert Times(tries)[n - 1] <= Times(tries)[n];
      }
      AcquireTracks(After(tries[..n]), Accepted(tries[..n]), before, tries[n].at, tries[n].perSecond);
    }
  }

  lemma StartTracks(now: int)
    ensures Tracks(EMPTY, [], now)
  {
  }

  // ---- the bound ---------------------------------------------------------------------------

  lemma Prefixes(tries: seq<Try>)
    requires tries != []
    ensures var before := tries[..|tries| - 1];
      && (NonDecreasing(Times(tries)) ==> NonDecreasing(Times(before)))
      && (Increasing(Times(tries)) ==> Increasing(Times(before)))
      && (NonDecreasing(Times(tries)) ==> forall t :: t in Times(before) ==> t <= tries[|tries| - 1].at)
      && (Increasing(Times(tries)) ==> forall t :: t in Times(before) ==> t < tries[|tries| - 1].at)
  {
    TimesSplit(tries);
    var all, n := Times(tries), |tries| - 1;
    assert forall i :: 0 <= i < n ==> Times(tries[..n])[i] == all[i];
    assert all[n] == tries[n].at;
  }

  lemma Appends(starts: seq<int>, now: int)
    ensures NonDecreasing(starts) && (forall t :: t in starts ==> t <= now) ==> NonDecreasing(starts + [now])
    ensures Increasing(starts) && (forall t :: t in starts ==> t < now) ==> Increasing(starts + [now])
  {
    assert forall i :: 0 <= i < |starts| ==> starts[i] in starts;
  }

  lemma {:induction false} AcceptedComeFrom(tries: seq<Try>)
    ensures forall t :: t in Accepted(tries) ==> t in Times(tries)
    ensures NonDecreasing(Times(tries)) ==> NonDecreasing(Accepted(tries))
    ensures Increasing(Times(tries)) ==> Increasing(Accepted(tries))
    decreases |tries|
  {
    hide Accepts, NonDecreasing, Increasing, Times;
    if tries == [] {
      NoneInOrder();
    } else {
      var n := |tries| - 1;
      var before := Accepted(tries[..n]);
      AcceptedComeFrom(tries[..n]);
      Prefixes(tries);
      TimesSplit(tries);
      Appends(before, tries[n].at);
    }
  }

  lemma NoneInOrder()
    ensures NonDecreasing([]) && Increasing([])
  {
  }

  lemma Subset(a: set<int>, b: set<int>)
    requires a <= b
    ensures |a| <= |b|
  {
    assert b == a + (b - a);
  }

  /** Whatever the clock repeats, no window has more different times accepted than the rate passed at the
      last of them. */
  lemma {:induction false} FewTimes(tries: seq<Try>, from: int)
    requires NonDecreasing(Times(tries))
    ensures |TimesInWindow(Accepted(tries), from)| <= LastRate(tries, from)
    decreases |tries|
  {
    hide Acquire, NonDecreasing, Times;
    if tries == [] {
      assert TimesInWindow([], from) == {};
    } else {
      var n := |tries| - 1;
      var before, now := tries[..n], tries[n].at;
      Prefixes(tries);
      FewTimes(before, from);
      if Accepts(before, tries[n]) && from < now <= from + WINDOW {
        OneMoreTime(before, tries[n], from);
      } else {
        assert TimesInWindow(Accepted(tries), from) == TimesInWindow(Accepted(before), from);
      }
    }
  }

  lemma LastTime(before: seq<Try>, now: int)
    requires before != [] && forall t :: t in Times(before) ==> t <= now
    ensures before[|before| - 1].at <= now
  {
    var all := Times(before);
    assert all[|before| - 1] == before[|before| - 1].at && all[|before| - 1] in all;
  }

  /** What the script counts at attempt a: the accepted times still in its window. */
  lemma CountsTheWindow(before: seq<Try>, a: Try)
    requires NonDecreasing(Times(before)) && forall t :: t in Times(before) ==> t <= a.at
    ensures Trim(Live(After(before), a.at), a.at) == set t | t in Accepted(before) && t > a.at - WINDOW
  {
    hide After, Accepted, NonDecreasing, Times, Tracks;
    RunTracks(before);
    if before == [] {
      StartTracks(a.at);
      NothingYet();
      ExpiryIsHarmless(After(before), Accepted(before), a.at, a.at);
    } else {
      LastTime(before, a.at);
      ExpiryIsHarmless(After(before), Accepted(before), before[|before| - 1].at, a.at);
    }
  }

  /** What the set holds when attempt a finds room: the accepted times of its window, fewer than its rate. */
  lemma FindsRoom(before: seq<Try>, a: Try) returns (kept: set<int>)
    requires NonDecreasing(Times(before)) && (forall t :: t in Times(before) ==> t <= a.at) && Accepts(before, a)
    ensures |kept| < a.perSecond && kept == set t | t in Accepted(before) && t > a.at - WINDOW
  {
    hide After, Accepted, NonDecreasing, Times;
    CountsTheWindow(before, a);
    kept := Trim(Live(After(before), a.at), a.at);
  }

  /** A start is refused exactly when as many different times as its rate were accepted in the second
      up to it. */
  lemma RefusedExactlyWhenFull(before: seq<Try>, a: Try)
    requires NonDecreasing(Times(before)) && forall t :: t in Times(before) ==> t <= a.at
    ensures !Accepts(before, a) <==> |TimesInWindow(Accepted(before), a.at - WINDOW)| >= a.perSecond
  {
    hide After, Accepted, NonDecreasing, Times;
    CountsTheWindow(before, a);
    AcceptedComeFrom(before);
    assert TimesInWindow(Accepted(before), a.at - WINDOW) == Trim(Live(After(before), a.at), a.at);
  }

  lemma NothingYet()
    ensures After([]) == EMPTY && Accepted([]) == []
  {
  }

  lemma OneMoreTime(before: seq<Try>, a: Try, from: int)
    requires NonDecreasing(Times(before)) && (forall t :: t in Times(before) ==> t <= a.at) && Accepts(before, a)
    requires from < a.at <= from + WINDOW
    ensures |TimesInWindow(Accepted(before) + [a.at], from)| <= a.perSecond
  {
    hide Accepts, Accepted, NonDecreasing, Times;
    var kept := FindsRoom(before, a);
    Subset(TimesInWindow(Accepted(before) + [a.at], from), kept + {a.at});
  }

  lemma OneMoreStart(starts: seq<int>, t: int, from: int)
    requires Increasing(starts + [t])
    ensures Increasing(starts)
    ensures InWindow(starts + [t], from) == InWindow(starts, from) + (if from < t <= from + WINDOW then 1 else 0)
    ensures t !in TimesInWindow(starts, from)
    ensures TimesInWindow(starts + [t], from)
      == TimesInWindow(starts, from) + (if from < t <= from + WINDOW then {t} else {})
  {
    var all := starts + [t];
    assert all[..|starts|] == starts && all[|starts|] == t;
    assert forall i :: 0 <= i < |starts| ==> all[i] == starts[i];
  }

  lemma {:induction false} DistinctCount(starts: seq<int>, from: int)
    requires Increasing(starts)
    ensures InWindow(starts, from) == |TimesInWindow(starts, from)|
    decreases |starts|
  {
    hide Increasing;
    if starts == [] {
      assert TimesInWindow([], from) == {};
    } else {
      var n := |starts| - 1;
      assert starts == starts[..n] + [starts[n]];
      OneMoreStart(starts[..n], starts[n], from);
      hide InWindow, TimesInWindow;
      DistinctCount(starts[..n], from);
    }
  }

  /** With distinct timestamps, no half-open one-second window holds more starts than the rate passed at
      the last of them. */
  lemma RateIsBounded(tries: seq<Try>, from: int)
    requires Increasing(Times(tries))
    ensures InWindow(Accepted(tries), from) <= LastRate(tries, from)
  {
    AcceptedComeFrom(tries);
    FewTimes(tries, from);
    DistinctCount(Accepted(tries), from);
  }

  /** So none holds more than the highest rate passed. */
  lemma {:induction false} RateIsUnderHighest(tries: seq<Try>, from: int, highest: nat)
    requires forall i :: 0 <= i < |tries| ==> tries[i].perSecond <= highest
    ensures LastRate(tries, from) <= highest
    ensures Increasing(Times(tries)) ==> InWindow(Accepted(tries), from) <= highest
    decreases |tries|
  {
    if tries != [] {
      RateIsUnderHighest(tries[..|tries| - 1], from, highest);
    }
    if Increasing(Times(tries)) {
      RateIsBounded(tries, from);
    }
  }

  // ---- equal timestamps -----------------------------------------------------------------------

  /** n attempts at one time. */
  function Repeat(t: int, n: nat, perSecond: nat): seq<Try> {
    seq(n, _ => Try(t, perSecond))
  }

  /** All attempts made at one timestamp are accepted, once two starts a second are allowed. */
  lemma {:induction false} OneInstant(t: int, n: nat, perSecond: nat)
    requires perSecond >= 2
    ensures Accepted(Repeat(t, n, perSecond)) == Times(Repeat(t, n, perSecond))
    ensures n > 0 ==> After(Repeat(t, n, perSecond)) == Rate({t}, t + 2 * WINDOW)
    decreases n
  {
    if n > 0 {
      OneInstant(t, n - 1, perSecond);
      var all, fewer := Repeat(t, n, perSecond), Repeat(t, n - 1, perSecond);
      assert all[..n - 1] == fewer;
      TimesSplit(all);
      var r := After(fewer);
      var kept := Trim(Live(r, t), t);
      assert kept <= {t};
      Subset(kept, {t});
      assert kept + {t} == {t};
    }
  }

  lemma {:induction false} CountRepeat(t: int, n: nat, perSecond: nat)
    ensures InWindow(Times(Repeat(t, n, perSecond)), t - 1) == n
    decreases n
  {
    if n > 0 {
      CountRepeat(t, n - 1, perSecond);
      assert Repeat(t, n, perSecond)[..n - 1] == Repeat(t, n - 1, perSecond);
      TimesSplit(Repeat(t, n, perSecond));
    }
  }

  /** The same rate at every attempt. */
  predicate AllPass(tries: seq<Try>, perSecond: nat) {
    forall i :: 0 <= i < |tries| ==> tries[i].perSecond == perSecond
  }

  ghost predicate BoundedOn(perSecond: nat, tries: seq<Try>) {
    forall from: int :: InWindow(Accepted(tries), from) <= perSecond
  }

  /** With perSecond at most 1 an accepted start refuses every other at its timestamp. */
  lemma {:induction false} OnePerInstant(tries: seq<Try>, perSecond: nat)
    requires NonDecreasing(Times(tries)) && perSecond <= 1 && AllPass(tries, perSecond)
    ensures Increasing(Accepted(tries))
    decreases |tries|
  {
    hide Acquire, NonDecreasing, Increasing, Times;
    if tries == [] {
      NoneInOrder();
    } else {
      var n := |tries| - 1;
      Prefixes(tries);
      OnePerInstant(tries[..n], perSecond);
      AcceptedComeFrom(tries[..n]);
      if Accepts(tries[..n], tries[n]) {
        NoneYet(tries[..n], tries[n]);
        Appends(Accepted(tries[..n]), tries[n].at);
      }
    }
  }

  lemma NoneYet(before: seq<Try>, a: Try)
    requires NonDecreasing(Times(before)) && (forall t :: t in Times(before) ==> t <= a.at)
    requires a.perSecond <= 1 && Accepts(before, a)
    ensures forall t :: t in Accepted(before) ==> t < a.at
  {
    hide Accepts, Accepted, NonDecreasing, Times;
    var kept := FindsRoom(before, a);
    assert kept == {};
    forall t | t in Accepted(before) ensures t < a.at {
      assert t !in kept;
    }
  }

  /** Two or more a second allowed, one more than allowed at one instant: all are accepted. */
  lemma EqualTimesSlipThrough(perSecond: nat)
    requires perSecond > 1
    ensures InWindow(Accepted(Repeat(0, perSecond + 1, perSecond)), -1) == perSecond + 1
  {
    OneInstant(0, perSecond + 1, perSecond);
    CountRepeat(0, perSecond + 1, perSecond);
  }

  /** Every run of a non-decreasing clock at one rate keeps the bound exactly when at most one start a
      second is allowed: with two, equal timestamps count once. */
  lemma BoundedExactlyWithoutTies(perSecond: nat)
    ensures (forall tries :: NonDecreasing(Times(tries)) && AllPass(tries, perSecond) ==> BoundedOn(perSecond, tries))
       <==> perSecond <= 1
  {
    if perSecond <= 1 {
      forall tries | NonDecreasing(Times(tries)) && AllPass(tries, perSecond) ensures BoundedOn(perSecond, tries) {
        forall from: int ensures InWindow(Accepted(tries), from) <= perSecond {
          OnePerInstant(tries, perSecond);
          FewTimes(tries, from);
          RateIsUnderHighest(tries, from, perSecond);
          DistinctCount(Accepted(tries), from);
        }
      }
    } else {
      var tries := Repeat(0, perSecond + 1, perSecond);
      EqualTimesSlipThrough(perSecond);
      assert NonDecreasing(Times(tries)) && AllPass(tries, perSecond);
      assert InWindow(Accepted(tries), -1) == perSecond + 1;
      assert !BoundedOn(perSecond, tries);
    }
  }
}
