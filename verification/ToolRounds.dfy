/** One LLM turn: the model is asked, its tools run, and it is asked again with their results. */
module ToolRounds {
  import opened Runes
  import opened Messages

  const MAX_TOOL_ROUNDS := 5

  datatype Action = Continue | EndCall | Transferred

  /** What comes of running a tool. */
  datatype ToolRun = ToolRun(result: Text, action: Action)

  /** What round i comes to: the stream fails; or the model says something and calls tools, which
      run with these results. cutBefore, cutAfter: the turn was cancelled while the model answered,
      or while the tools ran. */
  datatype Round = Round(failed: bool, said: Text, calls: seq<ToolCall>, runs: seq<ToolRun>, cutBefore: bool,
      cutAfter: bool)

  type Script = s: seq<Round> | |s| == MAX_TOOL_ROUNDS && forall i :: 0 <= i < |s| ==> |s[i].runs| == |s[i].calls|
    witness [Round(false, [], [], [], false, false), Round(false, [], [], [], false, false),
             Round(false, [], [], [], false, false), Round(false, [], [], [], false, false),
             Round(false, [], [], [], false, false)]

  /** How the turn ends: given up silently, given up with the call still to end, or reported. */
  datatype Ended = Cancelled | CancelledEnding | Reported(msgs: seq<Message>, endCall: bool, failed: bool)

  function Results(calls: seq<ToolCall>, runs: seq<ToolRun>): (rs: seq<Message>)
    requires |calls| == |runs|
    ensures |rs| == |calls|
  {
    seq(|calls|, i requires 0 <= i < |calls| => Message(Tool, runs[i].result, [], calls[i].id))
  }

  /** A round's block in the conversation. */
  function Block(said: Text, r: Round): seq<Message>
    requires |r.calls| == |r.runs|
  {
    [Message(Assistant, said, r.calls, "")] + Results(r.calls, r.runs)
  }

  predicate Acts(runs: seq<ToolRun>, a: Action) {
    exists i :: 0 <= i < |runs| && runs[i].action == a
  }

  /** Round i runs tools. */
  predicate RunsTools(s: Script, i: nat)
    requires i < MAX_TOOL_ROUNDS
  {
    !s[i].cutBefore && !s[i].failed && s[i].calls != [] && i < MAX_TOOL_ROUNDS - 1
  }

  /** Round i is followed by another. */
  predicate GoesOn(s: Script, i: nat)
    requires i < MAX_TOOL_ROUNDS
  {
    RunsTools(s, i) && !s[i].cutAfter && !Acts(s[i].runs, EndCall) && !Acts(s[i].runs, Transferred)
  }

  /** The last round asked. */
  function LastRound(s: Script, i: nat): (n: nat)
    requires i < MAX_TOOL_ROUNDS
    ensures i <= n < MAX_TOOL_ROUNDS && !GoesOn(s, n) && forall j :: i <= j < n ==> GoesOn(s, j)
    decreases MAX_TOOL_ROUNDS - i
  {
    if GoesOn(s, i) then LastRound(s, i + 1) else i
  }

  /** The tool messages of rounds [0, n): with what was said alongside the calls, or without. */
  function Blocks(s: Script, n: nat, withText: bool): seq<Message>
    requires n <= MAX_TOOL_ROUNDS
  {
    if n == 0 then [] else Blocks(s, n - 1, withText) + Block(if withText then s[n - 1].said else [], s[n - 1])
  }

  /** What the turn comes to: decided by its last round. */
  function Outcome(s: Script, hangupOnFailure: bool, endNode: bool): Ended {
    var n := LastRound(s, 0);
    var ends := RunsTools(s, n) && Acts(s[n].runs, EndCall);
    var failed := s[n].failed;
    if s[n].cutBefore then Cancelled
    else if RunsTools(s, n) && s[n].cutAfter then if ends then CancelledEnding else Cancelled
    else Reported(Blocks(s, if RunsTools(s, n) then n + 1 else n, false),
                  ends || (failed && !SpokeBefore(s, n + 1) && hangupOnFailure) || endNode, failed)
  }

  predicate SpokeBefore(s: Script, n: nat)
    requires n <= MAX_TOOL_ROUNDS
  {
    exists j :: 0 <= j < n && s[j].said != []
  }

  // ---- whole blocks --------------------------------------------------------------

  lemma BlockIsWhole(said: Text, r: Round)
    requires |r.calls| == |r.runs| && r.calls != []
    ensures WholeBlocks(Block(said, r))
  {
    var b := Block(said, r);
    assert b[1..|r.calls| + 1] == Results(r.calls, r.runs);
    assert b[|r.calls| + 1..] == [];
    FirstBlock(b, |r.calls|);
  }

  lemma {:induction false} BlocksAreWhole(s: Script, n: nat, withText: bool)
    requires n <= MAX_TOOL_ROUNDS && forall j :: 0 <= j < n ==> s[j].calls != []
    ensures WholeBlocks(Blocks(s, n, withText))
    decreases n
  {
    hide WholeBlocks, Block;
    if n == 0 {
      NoBlocks();
    } else {
      BlocksAreWhole(s, n - 1, withText);
      BlockIsWhole(if withText then s[n - 1].said else [], s[n - 1]);
      WholeBlocksAppend(Blocks(s, n - 1, withText), Block(if withText then s[n - 1].said else [], s[n - 1]));
    }
  }

  lemma NoBlocks()
    ensures WholeBlocks([])
  {
  }

  /** What a turn reports to the memory, and every request it makes, are whole blocks: each
      assistant message with calls is followed at once by one result per call, in order. */
  lemma TurnsAreWhole(s: Script, hangupOnFailure: bool, endNode: bool, history: seq<Message>, i: nat)
    requires WholeBlocks(history) && i <= LastRound(s, 0)
    ensures WholeBlocks(history + Blocks(s, i, true))
    ensures var e := Outcome(s, hangupOnFailure, endNode); e.Reported? ==> WholeBlocks(e.msgs)
  {
    hide WholeBlocks, Blocks, Acts;
    var n := LastRound(s, 0);
    BlocksAreWhole(s, i, true);
    WholeBlocksAppend(history, Blocks(s, i, true));
    BlocksAreWhole(s, if RunsTools(s, n) then n + 1 else n, false);
  }

  /** The same message without the text said alongside its calls. */
  function Silenced(msgs: seq<Message>): seq<Message> {
    seq(|msgs|, i requires 0 <= i < |msgs| => if msgs[i].role == Tool then msgs[i] else msgs[i].(content := []))
  }

  /** The copy kept for the memory is what the model saw, less what it said. */
  lemma {:induction false} MemorySilencesRequests(s: Script, n: nat)
    requires n <= MAX_TOOL_ROUNDS
    ensures Silenced(Blocks(s, n, true)) == Blocks(s, n, false)
    decreases n
  {
    if n > 0 {
      MemorySilencesRequests(s, n - 1);
      assert Silenced(Block(s[n - 1].said, s[n - 1])) == Block([], s[n - 1]);
      assert Silenced(Blocks(s, n - 1, true) + Block(s[n - 1].said, s[n - 1]))
        == Silenced(Blocks(s, n - 1, true)) + Silenced(Block(s[n - 1].said, s[n - 1]));
    }
  }

  // ---- every call and its result --------------------------------------------------

  /** Where round j's messages start. */
  function Offset(s: Script, j: nat): nat
    requires j <= MAX_TOOL_ROUNDS
  {
    if j == 0 then 0 else Offset(s, j - 1) + 1 + |s[j - 1].calls|
  }

  /** Round j's messages are where they should be: the calls with what was said alongside (if text),
      and call i's result, under its id. */
  predicate HasRound(msgs: seq<Message>, s: Script, j: nat, text: bool)
    requires j < MAX_TOOL_ROUNDS
  {
    var at := Offset(s, j);
    && at + |s[j].calls| < |msgs|
    && msgs[at] == Message(Assistant, if text then s[j].said else [], s[j].calls, "")
    && forall i :: 0 <= i < |s[j].calls| ==>
      msgs[at + 1 + i] == Message(Tool, s[j].runs[i].result, [], s[j].calls[i].id)
  }

  lemma {:induction false} BlocksHaveRounds(s: Script, n: nat, text: bool)
    requires n <= MAX_TOOL_ROUNDS
    ensures |Blocks(s, n, text)| == Offset(s, n)
    ensures forall j: nat :: j < n ==> HasRound(Blocks(s, n, text), s, j, text)
    decreases n
  {
    hide HasRound, Block;
    if n > 0 {
      var before, block := Blocks(s, n - 1, text), Block(if text then s[n - 1].said else [], s[n - 1]);
      BlocksHaveRounds(s, n - 1, text);
      forall j: nat | j < n - 1 ensures HasRound(before + block, s, j, text) {
        Longer(before, block, s, j, text);
      }
      BlockHasRound(before, s, n - 1, text);
    }
  }

  lemma BlockHasRound(before: seq<Message>, s: Script, j: nat, text: bool)
    requires j < MAX_TOOL_ROUNDS && |before| == Offset(s, j)
    ensures var block := Block(if text then s[j].said else [], s[j]);
      HasRound(before + block, s, j, text) && |block| == |s[j].calls| + 1
  {
  }

  lemma Longer(a: seq<Message>, b: seq<Message>, s: Script, j: nat, text: bool)
    requires j < MAX_TOOL_ROUNDS && HasRound(a, s, j, text)
    ensures HasRound(a + b, s, j, text)
  {
  }

  /** The model answered round j with calls, and they were run: not those of the fifth. */
  predicate CallsRun(s: Script, j: nat)
    requires j < MAX_TOOL_ROUNDS
  {
    !s[j].cutBefore && !s[j].failed && s[j].calls != [] && j < 4
  }

  /** Round j ends the turn: cut, failed, without calls or the last, or by what a tool asked for. */
  predicate Stops(s: Script, j: nat)
    requires j < MAX_TOOL_ROUNDS
  {
    || !CallsRun(s, j)
    || s[j].cutAfter
    || exists i :: 0 <= i < |s[j].runs| && s[j].runs[i].action != Continue
  }

  /** Nothing was said up to round n. */
  predicate Silent(s: Script, n: nat)
    requires n < MAX_TOOL_ROUNDS
  {
    forall j: nat :: j <= n ==> s[j].said == []
  }

  /** A turn asks up to the first round that stops it. Not cut there, it reports every call run and
      its result, round after round and nothing else; and it ends the call exactly if a tool asked
      for that, the node does, or it failed with nothing said and a failure hangs up. */
  lemma EveryCallIsReported(s: Script, hangupOnFailure: bool, endNode: bool, n: nat)
    requires n < MAX_TOOL_ROUNDS && Stops(s, n) && forall j: nat :: j < n ==> !Stops(s, j)
    ensures var e := Outcome(s, hangupOnFailure, endNode);
      var ends := CallsRun(s, n) && exists i :: 0 <= i < |s[n].runs| && s[n].runs[i].action == EndCall;
      && (e.Reported? <==> !s[n].cutBefore && !(CallsRun(s, n) && s[n].cutAfter))
      && (e == CancelledEnding <==> ends && s[n].cutAfter)
      && (e.Reported? ==>
         && |e.msgs| == Offset(s, if CallsRun(s, n) then n + 1 else n)
         && (forall j: nat :: j <= n && CallsRun(s, j) ==> HasRound(e.msgs, s, j, false))
         && e.failed == s[n].failed
         && (e.endCall <==> ends || endNode || (s[n].failed && hangupOnFailure && Silent(s, n))))
  {
    hide Blocks, HasRound;
    StopsWhereLast(s, n);
    var rounds := if RunsTools(s, n) then n + 1 else n;
    BlocksHaveRounds(s, rounds, false);
    assert SpokeBefore(s, n + 1) <==> exists j :: 0 <= j < n + 1 && s[j].said != [];
    forall j: nat | j <= n && CallsRun(s, j) ensures j < rounds {
    }
  }

  lemma StopsWhereLast(s: Script, n: nat)
    requires n < MAX_TOOL_ROUNDS && Stops(s, n) && forall j: nat :: j < n ==> !Stops(s, j)
    ensures LastRound(s, 0) == n
  {
    forall j: nat | j <= n ensures Stops(s, j) <==> !GoesOn(s, j) {
      if Stops(s, j) && CallsRun(s, j) && !s[j].cutAfter {
        var i :| 0 <= i < |s[j].runs| && s[j].runs[i].action != Continue;
        assert s[j].runs[i].action in {EndCall, Transferred};
      }
    }
    LastIs(s, 0, n);
  }

  // ---- the loop -------------------------------------------------------------------

  lemma LastIs(s: Script, i: nat, n: nat)
    requires i <= n < MAX_TOOL_ROUNDS && !GoesOn(s, n) && forall j :: i <= j < n ==> GoesOn(s, j)
    ensures LastRound(s, i) == n
  {
  }

  class Turn {
    /** What the model is sent next, and the copy kept for the memory. */
    var history: seq<Message>
    var toolMsgs: seq<Message>

    constructor (h: seq<Message>)
      ensures history == h && toolMsgs == []
    {
      history, toolMsgs := h, [];
    }

    /** Both gain the calls, then each call's result as its tool ends. */
    method RunTools(r: Round) returns (endCall: bool, transferred: bool)
      requires |r.calls| == |r.runs|
      modifies this
      ensures history == old(history) + Block(r.said, r) && toolMsgs == old(toolMsgs) + Block([], r)
      ensures endCall == Acts(r.runs, EndCall) && transferred == Acts(r.runs, Transferred)
    {
      history := history + [Message(Assistant, r.said, r.calls, "")];
      toolMsgs := toolMsgs + [Message(Assistant, [], r.calls, "")];
      endCall, transferred := false, false;
      ghost var h, m, results := history, toolMsgs, Results(r.calls, r.runs);
      for i := 0 to |r.calls|
        invariant history == h + results[..i] && toolMsgs == m + results[..i]
        invariant endCall == Acts(r.runs[..i], EndCall) && transferred == Acts(r.runs[..i], Transferred)
      {
        var run := r.runs[i];
        var msg := Message(Tool, run.result, [], r.calls[i].id);
        history := history + [msg];
        toolMsgs := toolMsgs + [msg];
        ActsNext(r.runs, i, EndCall);
        ActsNext(r.runs, i, Transferred);
        assert results[..i + 1] == results[..i] + [msg];
        endCall := endCall || run.action == EndCall;
        transferred := transferred || run.action == Transferred;
      }
      assert results[..|r.calls|] == results && r.runs[..|r.calls|] == r.runs;
    }

    method RunLLMTurn(s: Script, hangupOnFailure: bool, endNode: bool) returns (ended: Ended)
      requires toolMsgs == []
      modifies this
      ensures ended == Outcome(s, hangupOnFailure, endNode)
      ensures var n := LastRound(s, 0);
        history == old(history) + Blocks(s, if RunsTools(s, n) then n + 1 else n, true)
    {
      hide Acts, Block;
      var endCall, spoke, failed, round := false, false, false, 0;
      while true
        invariant round < MAX_TOOL_ROUNDS && forall j :: 0 <= j < round ==> GoesOn(s, j)
        invariant history == old(history) + Blocks(s, round, true) && toolMsgs == Blocks(s, round, false)
        invariant spoke == SpokeBefore(s, round) && !endCall && !failed
        decreases MAX_TOOL_ROUNDS - round
      {
        var r := s[round];
        spoke := spoke || r.said != [];
        if r.cutBefore {
          LastIs(s, 0, round);
          return Cancelled;
        }
        if r.failed {
          failed := true;
          LastIs(s, 0, round);
          break;
        }
        if r.calls == [] || round == MAX_TOOL_ROUNDS - 1 {
          LastIs(s, 0, round);
          break;
        }
        var ends, transferred := RunTools(r);
        endCall := ends;
        assert old(history) + Blocks(s, round, true) + Block(r.said, r) == old(history) + Blocks(s, round + 1, true);
        if r.cutAfter {
          LastIs(s, 0, round);
          return if endCall then CancelledEnding else Cancelled;
        }
        if endCall || transferred {
          LastIs(s, 0, round);
          break;
        }
        round := round + 1;
      }
      if failed && !spoke {
        endCall := endCall || hangupOnFailure;
      }
      return Reported(toolMsgs, endCall || endNode, failed);
    }
  }

  lemma ActsNext(runs: seq<ToolRun>, i: nat, a: Action)
    requires i < |runs|
    ensures Acts(runs[..i + 1], a) == (Acts(runs[..i], a) || runs[i].action == a)
  {
    assert runs[..i + 1] == runs[..i] + [runs[i]];
    if Acts(runs[..i], a) {
      var j :| 0 <= j < i && runs[..i][j].action == a;
      assert runs[..i + 1][j].action == a;
    }
    assert runs[..i + 1][i] == runs[i];
  }
}
