/** The FreeSWITCH event-socket client: one command at a time and its reply, and events passed on
    through an unbounded queue; reader, pump and sender run at once. */
module EslClients {
  import opened Wrappers

  /** What the server sends, by the number of the command answered or of the event. */
  datatype Item = Reply(cmd: nat) | Event(e: nat) | Disconnect | Ignored

  datatype Sender = Idle | Waiting(cmd: nat)

  /** Reading, about to signal that the queue has an event, or stopped. */
  datatype Reader = Reading | Signalling | Stopped

  datatype Pump = Swapping | Delivering(batch: seq<nat>) | Sleeping | Exited

  /** asked: the commands the server has not answered yet; wire: what it sent and is not read yet;
      replies: the one-slot reply channel; received, delivered: the events read and passed on, and
      results: what each Send returned, for the record. */
  datatype Sys = Sys(
    asked: seq<nat>, wire: seq<Item>, replies: Option<nat>, sender: Sender, closed: bool,
    reader: Reader, queue: seq<nat>, ready: bool, pump: Pump,
    received: seq<nat>, delivered: seq<nat>, results: seq<(nat, Option<nat>)>)

  const INIT := Sys([], [], None, Idle, false, Reading, [], false, Swapping, [], [], [])

  datatype Step =
    | Sends(cmd: nat)
    | Answers
    | Posts(item: Item)
    | Reads
    | ReadFails
    | Signals
    | GetsReply
    | SeesClosed
    | TimesOut
    | Closes
    | Swaps
    | Delivers
    | Wakes
    | Exits

  function Return(s: Sys, cmd: nat, reply: Option<nat>): Sys {
    s.(sender := Idle, results := s.results + [(cmd, reply)])
  }

  /** One message off the wire. A reply nobody asked for ends the connection. */
  function OnRead(s: Sys): Sys
    requires s.wire != []
  {
    var rest := s.(wire := s.wire[1..]);
    match s.wire[0]
    case Reply(cmd) =>
      if s.replies == None then rest.(replies := Some(cmd))
      else rest.(closed := true, reader := Stopped)
    case Event(e) => rest.(queue := s.queue + [e], received := s.received + [e], reader := Signalling)
    case Disconnect => rest.(closed := true, reader := Stopped)
    case Ignored => rest
  }

  /** The server answers each command once, in order; a Send starts only while the connection is open. */
  predicate Enabled(s: Sys, st: Step) {
    match st
    case Sends(_) => s.sender == Idle && !s.closed
    case Answers => s.asked != []
    case Posts(item) => !item.Reply?
    case Reads => s.reader == Reading && s.wire != []
    case ReadFails => s.reader == Reading
    case Signals => s.reader == Signalling
    case GetsReply => s.sender.Waiting? && s.replies.Some?
    case SeesClosed => s.sender.Waiting? && s.closed
    case TimesOut => s.sender.Waiting?
    case Closes => true
    case Swaps => s.pump == Swapping
    case Delivers => s.pump.Delivering? && s.pump.batch != []
    case Wakes => s.pump == Sleeping && s.ready
    case Exits => s.closed && (s.pump == Sleeping || (s.pump.Delivering? && s.pump.batch != []))
  }

  function Next(s: Sys, st: Step): Sys
    requires Enabled(s, st)
  {
    match st
    case Sends(cmd) => s.(sender := Waiting(cmd), asked := s.asked + [cmd])
    case Answers => s.(asked := s.asked[1..], wire := s.wire + [Reply(s.asked[0])])
    case Posts(item) => s.(wire := s.wire + [item])
    case Reads => OnRead(s)
    case ReadFails => s.(closed := true, reader := Stopped)
    case Signals => s.(ready := true, reader := Reading)
    case GetsReply => Return(s.(replies := None), s.sender.cmd, s.replies)
    case SeesClosed => Return(s, s.sender.cmd, None)
    case TimesOut => Return(s.(closed := true), s.sender.cmd, None)
    case Closes => s.(closed := true)
    case Swaps => s.(queue := [], pump := if s.queue == [] then Sleeping else Delivering(s.queue))
    case Delivers =>
      var rest := s.pump.batch[1..];
      s.(delivered := s.delivered + [s.pump.batch[0]], pump := if rest == [] then Sleeping else Delivering(rest))
    case Wakes => s.(ready := false, pump := Swapping)
    case Exits => s.(pump := Exited)
  }

  // ---- pairing ---------------------------------------------------------------------------

  function RepliesOn(wire: seq<Item>): seq<nat> {
    if wire == [] then []
    else (if wire[0].Reply? then [wire[0].cmd] else []) + RepliesOn(wire[1..])
  }

  /** The answers still to come, oldest first. */
  function ToCome(s: Sys): seq<nat> {
    (if s.replies.Some? then [s.replies.value] else []) + RepliesOn(s.wire) + s.asked
  }

  /** The one answer to come is that of the command waited for, and there is none with nothing
      waited for, while the connection is open. Every reply returned is its command's. */
  ghost predicate Paired(s: Sys) {
    && (s.sender == Idle && !s.closed ==> ToCome(s) == [])
    && (s.sender.Waiting? ==> ToCome(s) == [s.sender.cmd])
    && (forall i :: 0 <= i < |s.results| ==> s.results[i].1 in {None, Some(s.results[i].0)})
  }

  lemma {:induction false} RepliesOnAppend(a: seq<Item>, item: Item)
    ensures RepliesOn(a + [item]) == RepliesOn(a) + (if item.Reply? then [item.cmd] else [])
  {
    if a == [] {
      assert a + [item] == [item] && [item][1..] == [];
    } else {
      RepliesOnAppend(a[1..], item);
      assert (a + [item])[1..] == a[1..] + [item];
    }
  }

  /** Moving along the wire changes nothing of what is to come. */
  lemma AnswerMoves(s: Sys)
    requires s.asked != []
    ensures ToCome(Next(s, Answers)) == ToCome(s)
  {
    RepliesOnAppend(s.wire, Reply(s.asked[0]));
    var r := if s.replies.Some? then [s.replies.value] else [];
    assert r + (RepliesOn(s.wire) + [s.asked[0]]) + s.asked[1..]
      == r + RepliesOn(s.wire) + ([s.asked[0]] + s.asked[1..]);
    assert s.asked == [s.asked[0]] + s.asked[1..];
  }

  lemma PostMoves(s: Sys, item: Item)
    requires !item.Reply?
    ensures ToCome(Next(s, Posts(item))) == ToCome(s)
  {
    RepliesOnAppend(s.wire, item);
  }

  lemma ReadMoves(s: Sys)
    requires Enabled(s, Reads) && (s.wire[0].Reply? ==> s.replies == None)
    ensures ToCome(Next(s, Reads)) == ToCome(s)
  {
    var rest := RepliesOn(s.wire[1..]);
    if s.wire[0].Reply? {
      assert RepliesOn(s.wire) == [s.wire[0].cmd] + rest;
      assert [] + ([s.wire[0].cmd] + rest) + s.asked == [s.wire[0].cmd] + rest + s.asked;
    } else {
      assert RepliesOn(s.wire) == rest;
    }
  }

  lemma ToComeParts(s: Sys)
    ensures |ToCome(s)| == (if s.replies.Some? then 1 else 0) + |RepliesOn(s.wire)| + |s.asked|
    ensures s.replies.Some? ==> ToCome(s)[0] == s.replies.value
  {
  }

  /** A reply always finds the channel empty, unless nothing is waited for any more: the reader never
      fails for a reply nobody asked for. */
  lemma RepliesFindRoom(s: Sys)
    requires Paired(s) && s.wire != [] && s.wire[0].Reply? && (s.sender.Waiting? || !s.closed)
    ensures s.replies == None
  {
    ToComeParts(s);
    assert |RepliesOn(s.wire)| >= 1;
  }

  lemma SenderPaired(s: Sys, st: Step)
    requires Paired(s) && Enabled(s, st) && (st.Sends? || st.GetsReply? || st.SeesClosed? || st.TimesOut?)
    ensures Paired(Next(s, st))
  {
    hide RepliesOn;
    ToComeParts(s);
  }

  lemma WirePaired(s: Sys, st: Step)
    requires Paired(s) && Enabled(s, st) && (st.Answers? || st.Posts? || st.Reads?)
    ensures Paired(Next(s, st))
  {
    hide RepliesOn, ToCome;
    match st {
      case Answers => AnswerMoves(s);
      case Posts(item) => PostMoves(s, item);
      case Reads =>
        if s.sender.Waiting? || !s.closed {
          if s.wire[0].Reply? {
            RepliesFindRoom(s);
          }
          ReadMoves(s);
        }
        ReadsOn(s);
    }
  }

  lemma QuietPaired(s: Sys, st: Step)
    requires Paired(s) && Enabled(s, st)
    requires st.ReadFails? || st.Signals? || st.Closes? || st.Swaps? || st.Delivers? || st.Wakes? || st.Exits?
    ensures Paired(Next(s, st))
  {
    hide RepliesOn;
    assert ToCome(Next(s, st)) == ToCome(s);
  }

  lemma NextPaired(s: Sys, st: Step)
    requires Paired(s) && Enabled(s, st)
    ensures Paired(Next(s, st))
  {
    hide Paired, Next, Enabled;
    if st.Sends? || st.GetsReply? || st.SeesClosed? || st.TimesOut? {
      SenderPaired(s, st);
    } else if st.Answers? || st.Posts? || st.Reads? {
      WirePaired(s, st);
    } else {
      QuietPaired(s, st);
    }
  }

  lemma ReadsOn(s: Sys)
    requires Enabled(s, Reads)
    ensures s.closed ==> Next(s, Reads).closed
    ensures Next(s, Reads).sender == s.sender && Next(s, Reads).results == s.results
  {
  }

  // ---- events ----------------------------------------------------------------------------

  function Batch(p: Pump): seq<nat> {
    if p.Delivering? then p.batch else []
  }

  /** Nothing lost, nothing reordered; and a queued event is on its way: the pump sleeps only with
      an empty queue, or with a signal raised or about to be. */
  ghost predicate EventsSafe(s: Sys) {
    && (s.pump != Exited ==> s.delivered + Batch(s.pump) + s.queue == s.received)
    && s.delivered <= s.received
    && (s.pump == Sleeping && s.queue != [] ==> s.ready || s.reader == Signalling)
    && (s.pump.Delivering? ==> s.pump.batch != [])
    && (s.queue != [] && s.pump.Delivering? ==> s.ready || s.reader == Signalling)
  }

  lemma ReadEvents(s: Sys)
    requires EventsSafe(s) && Enabled(s, Reads)
    ensures EventsSafe(Next(s, Reads))
  {
    var flow := s.delivered + Batch(s.pump);
    if s.wire[0].Event? {
      assert flow + (s.queue + [s.wire[0].e]) == flow + s.queue + [s.wire[0].e];
    }
  }

  lemma DeliverEvents(s: Sys)
    requires EventsSafe(s) && Enabled(s, Delivers)
    ensures EventsSafe(Next(s, Delivers))
  {
    var b := s.pump.batch;
    assert s.delivered + [b[0]] + b[1..] + s.queue == s.delivered + b + s.queue;
    assert s.delivered + [b[0]] <= s.delivered + b + s.queue;
  }

  lemma NextEvents(s: Sys, st: Step)
    requires EventsSafe(s) && Enabled(s, st)
    ensures EventsSafe(Next(s, st))
  {
    if st.Reads? {
      ReadEvents(s);
    } else if st.Delivers? {
      DeliverEvents(s);
    }
  }

  // ---- runs ------------------------------------------------------------------------------

  ghost predicate Run(s: Sys, steps: seq<Step>)
    decreases |steps|
  {
    steps != [] ==> Enabled(s, steps[0]) && Run(Next(s, steps[0]), steps[1..])
  }

  ghost function After(s: Sys, steps: seq<Step>): Sys
    requires Run(s, steps)
    decreases |steps|
  {
    if steps == [] then s else After(Next(s, steps[0]), steps[1..])
  }

  lemma {:induction false} RunSafe(s: Sys, steps: seq<Step>)
    requires Paired(s) && EventsSafe(s) && Run(s, steps)
    ensures Paired(After(s, steps)) && EventsSafe(After(s, steps))
    decreases |steps|
  {
    hide Paired, EventsSafe, Enabled, Next;
    if steps != [] {
      NextPaired(s, steps[0]);
      NextEvents(s, steps[0]);
      RunSafe(Next(s, steps[0]), steps[1..]);
    }
  }

  lemma InitIsSafe()
    ensures Paired(INIT) && EventsSafe(INIT)
  {
  }

  // ---- what was sent and posted ----------------------------------------------------------

  /** The commands of the run, in order. */
  function Commands(steps: seq<Step>): seq<nat> {
    if steps == [] then []
    else
      var n := |steps| - 1;
      Commands(steps[..n]) + (if steps[n].Sends? then [steps[n].cmd] else [])
  }

  /** The events the server posted, in order. */
  function PostedBy(steps: seq<Step>): seq<nat> {
    if steps == [] then []
    else
      var n := |steps| - 1;
      PostedBy(steps[..n]) + (if steps[n].Posts? && steps[n].item.Event? then [steps[n].item.e] else [])
  }

  function EventsOn(wire: seq<Item>): seq<nat> {
    if wire == [] then []
    else (if wire[0].Event? then [wire[0].e] else []) + EventsOn(wire[1..])
  }

  lemma {:induction false} EventsOnAppend(a: seq<Item>, item: Item)
    ensures EventsOn(a + [item]) == EventsOn(a) + (if item.Event? then [item.e] else [])
  {
    if a == [] {
      assert a + [item] == [item] && [item][1..] == [];
    } else {
      EventsOnAppend(a[1..], item);
      assert (a + [item])[1..] == a[1..] + [item];
    }
  }

  /** Something that closes the connection. */
  predicate Disturbs(st: Step) {
    st.ReadFails? || st.TimesOut? || st.Closes? || (st.Posts? && st.item == Disconnect)
  }

  predicate Undisturbed(steps: seq<Step>) {
    forall i :: 0 <= i < |steps| ==> !Disturbs(steps[i])
  }

  /** Each command sent has returned, in order, but the one waited for; without a reply only if the
      connection is closed. */
  ghost predicate Answered(s: Sys, sent: seq<nat>) {
    && |sent| == |s.results| + (if s.sender.Waiting? then 1 else 0)
    && (s.sender.Waiting? ==> s.sender.cmd == sent[|s.results|])
    && (forall i :: 0 <= i < |s.results| ==> s.results[i].0 == sent[i])
    && (!s.closed ==> forall i :: 0 <= i < |s.results| ==> s.results[i].1 == Some(sent[i]))
  }

  /** Every event posted was read or is on the wire. */
  ghost predicate Accounted(s: Sys, posted: seq<nat>) {
    s.received + EventsOn(s.wire) == posted
  }

  lemma NextAnswered(s: Sys, st: Step, sent: seq<nat>)
    requires Paired(s) && Answered(s, sent) && Enabled(s, st)
    ensures Answered(Next(s, st), sent + (if st.Sends? then [st.cmd] else []))
  {
    hide RepliesOn;
    ToComeParts(s);
    assert sent + [] == sent;
    if st.Reads? {
      ReadsOn(s);
    }
  }

  lemma ReadAccounted(s: Sys, posted: seq<nat>)
    requires Accounted(s, posted) && Enabled(s, Reads)
    ensures Accounted(Next(s, Reads), posted)
  {
    var e := if s.wire[0].Event? then [s.wire[0].e] else [];
    assert s.received + (e + EventsOn(s.wire[1..])) == s.received + e + EventsOn(s.wire[1..]);
  }

  lemma NextAccounted(s: Sys, st: Step, posted: seq<nat>)
    requires Accounted(s, posted) && Enabled(s, st)
    ensures Accounted(Next(s, st), posted + (if st.Posts? && st.item.Event? then [st.item.e] else []))
  {
    assert posted + [] == posted;
    match st {
      case Posts(item) =>
        EventsOnAppend(s.wire, item);
        assert s.received + (EventsOn(s.wire) + (if item.Event? then [item.e] else []))
          == posted + (if item.Event? then [item.e] else []);
      case Answers => EventsOnAppend(s.wire, Reply(s.asked[0]));
      case Reads => ReadAccounted(s, posted);
      case _ =>
    }
  }

  /** Nothing closes an undisturbed connection: no answer finds the reply channel full. */
  lemma NextOpen(s: Sys, st: Step)
    requires Paired(s) && Enabled(s, st) && !Disturbs(st) && !s.closed && Disconnect !in s.wire
    ensures !Next(s, st).closed && Disconnect !in Next(s, st).wire
  {
    hide RepliesOn;
    if st.Reads? && s.wire[0].Reply? {
      RepliesFindRoom(s);
    }
  }

  lemma {:induction false} AfterAppend(s: Sys, steps: seq<Step>, st: Step)
    requires Run(s, steps + [st])
    ensures Run(s, steps) && Enabled(After(s, steps), st) && After(s, steps + [st]) == Next(After(s, steps), st)
    decreases |steps|
  {
    hide Next, Enabled;
    if steps == [] {
      assert steps + [st] == [st] && [st][1..] == [];
    } else {
      assert (steps + [st])[0] == steps[0] && (steps + [st])[1..] == steps[1..] + [st];
      AfterAppend(Next(s, steps[0]), steps[1..], st);
    }
  }

  lemma {:induction false} RunAnswered(steps: seq<Step>)
    requires Run(INIT, steps)
    ensures Answered(After(INIT, steps), Commands(steps)) && Accounted(After(INIT, steps), PostedBy(steps))
    ensures Undisturbed(steps) ==> !After(INIT, steps).closed && Disconnect !in After(INIT, steps).wire
    decreases |steps|
  {
    hide Run, After, Paired, EventsSafe, Answered, Accounted, Enabled, Next, Disturbs;
    InitIsSafe();
    if steps == [] {
      StartAnswered();
    } else {
      var n := |steps| - 1;
      assert steps == steps[..n] + [steps[n]];
      AfterAppend(INIT, steps[..n], steps[n]);
      RunAnswered(steps[..n]);
      RunSafe(INIT, steps[..n]);
      var s := After(INIT, steps[..n]);
      NextAnswered(s, steps[n], Commands(steps[..n]));
      NextAccounted(s, steps[n], PostedBy(steps[..n]));
      if Undisturbed(steps) {
        assert !Disturbs(steps[n]);
        assert Undisturbed(steps[..n]);
        NextOpen(s, steps[n]);
      }
    }
  }

  lemma StartAnswered()
    ensures Run(INIT, []) && After(INIT, []) == INIT && Answered(INIT, []) && Accounted(INIT, [])
  {
  }

  /** Over every run: the Sends return in the order they were made, and while the connection is open
      each has returned its own command's reply; and nothing but a disconnect, a failed read, a timeout
      or a close ends the connection. */
  lemma SendsAreAnswered(steps: seq<Step>)
    requires Run(INIT, steps)
    ensures var s, sent := After(INIT, steps), Commands(steps);
      && |sent| == |s.results| + (if s.sender.Waiting? then 1 else 0)
      && (forall i :: 0 <= i < |s.results| ==> s.results[i].0 == sent[i])
      && (!s.closed ==> forall i :: 0 <= i < |s.results| ==> s.results[i].1 == Some(sent[i]))
      && (Undisturbed(steps) ==> !s.closed)
  {
    hide Run, After, Accounted;
    RunAnswered(steps);
  }

  /** Over every run: while a Send waits on an open connection, its answer is still owed by the server,
      on the wire or in the reply channel, once and as the only one. */
  lemma AnswerIsOnItsWay(steps: seq<Step>)
    requires Run(INIT, steps) && After(INIT, steps).sender.Waiting?
    ensures var s := After(INIT, steps);
      (if s.replies.Some? then [s.replies.value] else []) + RepliesOn(s.wire) + s.asked == [s.sender.cmd]
  {
    hide Run, After, EventsSafe, RepliesOn;
    InitIsSafe();
    RunSafe(INIT, steps);
  }

  /** Over every run: every reply a Send returned answers its own command. */
  lemma RepliesPair(steps: seq<Step>, i: nat)
    requires Run(INIT, steps) && i < |After(INIT, steps).results|
    ensures var result := After(INIT, steps).results[i]; result.1 in {None, Some(result.0)}
  {
    hide Run, After, EventsSafe;
    InitIsSafe();
    RunSafe(INIT, steps);
  }

  /** Over every run: until the pump exits, the events delivered, being delivered, queued and still on
      the wire are those the server posted, in order; the delivered ones always are the first of them;
      and no queued event is stranded while the pump sleeps. */
  lemma EventsFlow(steps: seq<Step>)
    requires Run(INIT, steps)
    ensures var s, posted := After(INIT, steps), PostedBy(steps);
      && (s.pump != Exited ==> s.delivered + Batch(s.pump) + s.queue + EventsOn(s.wire) == posted)
      && s.delivered <= posted
      && (s.pump == Sleeping && s.queue != [] ==> s.ready || s.reader == Signalling)
  {
    hide Run, After, Paired, Answered, EventsOn, PostedBy;
    InitIsSafe();
    RunSafe(INIT, steps);
    RunAnswered(steps);
    PrefixOfPosted(After(INIT, steps), PostedBy(steps));
  }

  lemma PrefixOfPosted(s: Sys, posted: seq<nat>)
    requires Accounted(s, posted) && s.delivered <= s.received
    ensures s.delivered <= posted
  {
    hide EventsOn;
    assert forall i :: 0 <= i < |s.received| ==> posted[i] == s.received[i];
  }

  /** After a timeout no later Send returns a reply. */
  lemma {:induction false} NoReplyAfterTimeout(s: Sys, steps: seq<Step>)
    requires s.closed && s.sender == Idle && Run(s, steps)
    ensures After(s, steps).results == s.results && After(s, steps).closed
    decreases |steps|
  {
    if steps != [] {
      assert Next(s, steps[0]).closed && Next(s, steps[0]).sender == Idle && Next(s, steps[0]).results == s.results;
      NoReplyAfterTimeout(Next(s, steps[0]), steps[1..]);
    }
  }

  lemma TimeoutClosesForGood(s: Sys, steps: seq<Step>)
    requires Enabled(s, TimesOut) && Run(Next(s, TimesOut), steps)
    ensures After(Next(s, TimesOut), steps).results == s.results + [(s.sender.cmd, None)]
  {
    NoReplyAfterTimeout(Next(s, TimesOut), steps);
  }

  // ---- the client ------------------------------------------------------------------------

  class Client {
    var replies: Option<nat>
    var queue: seq<nat>
    var ready: bool
    var closed: bool
    /** The events passed on. */
    var events: seq<nat>

    constructor ()
      ensures replies == None && queue == [] && !ready && !closed && events == []
    {
      replies, queue, ready, closed, events := None, [], false, false, [];
    }

    /** The first failure counts. */
    method Fail()
      modifies this`closed
      ensures closed
    {
      closed := true;
    }

    /** The reader's turn; goOn: it reads on. */
    method ReadOne(item: Item) returns (goOn: bool)
      modifies this`replies, this`queue, this`ready, this`closed
      ensures match item
        case Reply(cmd) =>
          && queue == old(queue) && ready == old(ready) && goOn == (old(replies) == None)
          && replies == (if goOn then Some(cmd) else old(replies)) && closed == (old(closed) || !goOn)
        case Event(e) => goOn && queue == old(queue) + [e] && ready && replies == old(replies) && closed == old(closed)
        case Disconnect => !goOn && closed && queue == old(queue) && ready == old(ready) && replies == old(replies)
        case Ignored => goOn && unchanged(this)
    {
      match item {
        case Reply(cmd) =>
          if replies.Some? {
            Fail();
            return false;
          }
          replies := Some(cmd);
        case Event(e) =>
          queue := queue + [e];
          ready := true;
        case Disconnect =>
          Fail();
          return false;
        case Ignored =>
      }
      return true;
    }

    /** One round of the pump: the whole queue, or until the connection closes (stop: how many it
        gets to deliver before that). */
    method PumpRound(stop: nat) returns (exited: bool)
      modifies this`queue, this`events
      ensures queue == [] && exited == (stop < |old(queue)|)
      ensures events == old(events) + if exited then old(queue)[..stop] else old(queue)
    {
      var q := queue;
      queue := [];
      var i := 0;
      while i < |q|
        invariant i <= |q| && i <= stop && queue == [] && events == old(events) + q[..i]
      {
        if i == stop {
          return true;
        }
        assert q[..i + 1] == q[..i] + [q[i]];
        events := events + [q[i]];
        i := i + 1;
      }
      assert q[..|q|] == q;
      return false;
    }
  }
}
