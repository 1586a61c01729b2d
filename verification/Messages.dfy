/** The LLM's conversation messages, and the shape the conversation memory always has. */
module Messages {
  import opened Runes

  datatype Role = System | User | Assistant | Tool

  datatype ToolCall = ToolCall(id: string, kind: string, name: string, args: string, extra: string)

  datatype Message = Message(role: Role, content: Text, calls: seq<ToolCall>, callId: string)

  function Said(role: Role, content: Text): Message {
    Message(role, content, [], "")
  }

  /** The result of one tool call. */
  predicate Answers(m: Message, call: ToolCall) {
    m.role == Tool && m.callId == call.id && m.calls == []
  }

  /** results are the results of calls, one each, in order. */
  predicate AnswersAll(calls: seq<ToolCall>, results: seq<Message>) {
    |calls| == |results| && forall i :: 0 <= i < |calls| ==> Answers(results[i], calls[i])
  }

  /** Whole blocks: a plain message, or an assistant message with calls followed at once by
      exactly one result per call, in order. */
  predicate WholeBlocks(h: seq<Message>)
    decreases |h|
  {
    if h == [] then true
    else if h[0].role == Tool then false
    else if h[0].calls == [] then WholeBlocks(h[1..])
    else
      var n := |h[0].calls|;
      && h[0].role == Assistant
      && n < |h|
      && AnswersAll(h[0].calls, h[1..n + 1])
      && WholeBlocks(h[n + 1..])
  }

  /** The first block is whole, and so is the rest. */
  lemma FirstBlock(h: seq<Message>, n: nat)
    requires h != [] && h[0].role != Tool && n == |h[0].calls| && n < |h|
    requires n > 0 ==> h[0].role == Assistant && AnswersAll(h[0].calls, h[1..n + 1])
    requires WholeBlocks(h[n + 1..])
    ensures WholeBlocks(h)
  {
  }

  lemma {:induction false} WholeBlocksAppend(a: seq<Message>, b: seq<Message>)
    requires WholeBlocks(a) && WholeBlocks(b)
    ensures WholeBlocks(a + b)
    decreases |a|
  {
    hide AnswersAll;
    if a == [] {
      assert a + b == b;
    } else {
      var n := |a[0].calls|;
      Slices(a, b, n);
      WholeBlocksAppend(a[n + 1..], b);
      FirstBlock(a + b, n);
    }
  }

  lemma Slices<T>(a: seq<T>, b: seq<T>, n: nat)
    requires n < |a|
    ensures (a + b)[n + 1..] == a[n + 1..] + b && (a + b)[1..n + 1] == a[1..n + 1] && (a + b)[0] == a[0]
  {
  }

  lemma PlainMessageIsWhole(m: Message)
    requires m.role != Tool && m.calls == []
    ensures WholeBlocks([m])
  {
  }
}
