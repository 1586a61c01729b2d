/** One LLM request and its streamed answer, tried again while its failures came before any reply. */
module LlmRetries {
  import opened Wrappers
  import opened Messages
  import opened ToolCallStreams

  /** A response that is not 2xx; no response at all; or anything else. */
  datatype Failure = Status(code: int) | Request | Broken

  datatype Choice = Choice(content: string, deltas: seq<Delta>)

  /** A line of the answer: not data, or not readable; the end mark; an error object; or choices. */
  datatype Line = Skipped | EndMark | ErrorObject | Chunk(choices: seq<Choice>)

  /** What a request meets: it could not be built; nobody answered; or a status, the lines that came,
      and whether reading on then failed. */
  datatype Response = NotBuilt | NoAnswer | Answer(code: int, lines: seq<Line>, readFails: bool)

  /** What the caller is passed, token by token; and the calls or the failure. */
  datatype Result = Result(tokens: seq<string>, calls: seq<ToolCall>, failure: Option<Failure>)

  // ---- one try ---------------------------------------------------------------------------------

  function TokensOf(choices: seq<Choice>): seq<string> {
    if choices == [] then []
    else
      var n := |choices| - 1;
      TokensOf(choices[..n]) + (if choices[n].content != "" then [choices[n].content] else [])
  }

  function DeltasOf(choices: seq<Choice>): seq<Delta> {
    if choices == [] then [] else DeltasOf(choices[..|choices| - 1]) + choices[|choices| - 1].deltas
  }

  function Choices(l: Line): seq<Choice> {
    if l.Chunk? then l.choices else []
  }

  function Tokens(lines: seq<Line>): seq<string> {
    if lines == [] then [] else Tokens(lines[..|lines| - 1]) + TokensOf(Choices(lines[|lines| - 1]))
  }

  function Deltas(lines: seq<Line>): seq<Delta> {
    if lines == [] then [] else Deltas(lines[..|lines| - 1]) + DeltasOf(Choices(lines[|lines| - 1]))
  }

  /** How many lines come before the end mark or an error. */
  function Until(lines: seq<Line>): (n: nat)
    ensures n <= |lines|
    ensures forall i :: 0 <= i < n ==> !lines[i].EndMark? && !lines[i].ErrorObject?
    ensures n < |lines| ==> lines[n].EndMark? || lines[n].ErrorObject?
  {
    if lines == [] || lines[0].EndMark? || lines[0].ErrorObject? then 0 else Until(lines[1..]) + 1
  }

  predicate Accepted(r: Response) {
    r.Answer? && 200 <= r.code < 300
  }

  function Tried(r: Response): Result {
    match r
    case NotBuilt => Result([], [], Some(Broken))
    case NoAnswer => Result([], [], Some(Request))
    case Answer(code, lines, readFails) =>
      if !Accepted(r) then Result([], [], Some(Status(code)))
      else
        var n := Until(lines);
        var tokens, deltas := Tokens(lines[..n]), Deltas(lines[..n]);
        if n < |lines| && lines[n].ErrorObject? then Result(tokens, [], Some(Broken))
        else if n == |lines| && (readFails || (tokens == [] && deltas == [])) then Result(tokens, [], Some(Broken))
        else Result(tokens, Done(After(deltas)), None)
  }

  function Concat(parts: seq<string>): string {
    if parts == [] then "" else parts[0] + Concat(parts[1..])
  }

  /** All that the lines say, from the first on. */
  function Spoken(lines: seq<Line>): string {
    if lines == [] then "" else SpokenIn(Choices(lines[0])) + Spoken(lines[1..])
  }

  function SpokenIn(choices: seq<Choice>): string {
    if choices == [] then "" else choices[0].content + SpokenIn(choices[1..])
  }

  /** All the fragments of calls in them. */
  function Fragments(lines: seq<Line>): seq<Delta> {
    if lines == [] then [] else FragmentsIn(Choices(lines[0])) + Fragments(lines[1..])
  }

  function FragmentsIn(choices: seq<Choice>): seq<Delta> {
    if choices == [] then [] else choices[0].deltas + FragmentsIn(choices[1..])
  }

  lemma {:induction false} ConcatAppend(a: seq<string>, b: seq<string>)
    ensures Concat(a + b) == Concat(a) + Concat(b)
  {
    if a == [] {
      assert a + b == b;
    } else {
      assert (a + b)[1..] == a[1..] + b;
      ConcatAppend(a[1..], b);
    }
  }

  lemma {:induction false} ChoicesAppend(a: seq<Choice>, c: Choice)
    ensures SpokenIn(a + [c]) == SpokenIn(a) + c.content
    ensures FragmentsIn(a + [c]) == FragmentsIn(a) + c.deltas
  {
    if a == [] {
      assert a + [c] == [c] && [c][1..] == [];
    } else {
      assert (a + [c])[1..] == a[1..] + [c];
      ChoicesAppend(a[1..], c);
      assert a[0].content + (SpokenIn(a[1..]) + c.content) == a[0].content + SpokenIn(a[1..]) + c.content;
      assert a[0].deltas + (FragmentsIn(a[1..]) + c.deltas) == a[0].deltas + FragmentsIn(a[1..]) + c.deltas;
    }
  }

  lemma {:induction false} SpokenAppend(a: seq<Line>, l: Line)
    ensures Spoken(a + [l]) == Spoken(a) + SpokenIn(Choices(l))
  {
    hide SpokenIn;
    if a == [] {
      assert a + [l] == [l] && [l][1..] == [];
    } else {
      var said := SpokenIn(Choices(a[0]));
      assert (a + [l])[1..] == a[1..] + [l];
      SpokenAppend(a[1..], l);
      assert said + (Spoken(a[1..]) + SpokenIn(Choices(l))) == said + Spoken(a[1..]) + SpokenIn(Choices(l));
    }
  }

  lemma {:induction false} FragmentsAppend(a: seq<Line>, l: Line)
    ensures Fragments(a + [l]) == Fragments(a) + FragmentsIn(Choices(l))
  {
    hide FragmentsIn;
    if a == [] {
      assert a + [l] == [l] && [l][1..] == [];
    } else {
      var of := FragmentsIn(Choices(a[0]));
      assert (a + [l])[1..] == a[1..] + [l];
      FragmentsAppend(a[1..], l);
      assert of + (Fragments(a[1..]) + FragmentsIn(Choices(l))) == of + Fragments(a[1..]) + FragmentsIn(Choices(l));
    }
  }

  lemma {:induction false} ChoicesPassOn(choices: seq<Choice>)
    ensures Concat(TokensOf(choices)) == SpokenIn(choices) && DeltasOf(choices) == FragmentsIn(choices)
    ensures TokensOf(choices) == [] <==> SpokenIn(choices) == ""
    decreases |choices|
  {
    if choices != [] {
      var n := |choices| - 1;
      assert choices == choices[..n] + [choices[n]];
      ChoicesPassOn(choices[..n]);
      ChoicesAppend(choices[..n], choices[n]);
      ConcatAppend(TokensOf(choices[..n]), if choices[n].content != "" then [choices[n].content] else []);
      assert Concat([choices[n].content]) == choices[n].content + "";
    }
  }

  lemma {:induction false} LinesPassOn(lines: seq<Line>)
    ensures Concat(Tokens(lines)) == Spoken(lines) && Deltas(lines) == Fragments(lines)
    ensures Tokens(lines) == [] <==> Spoken(lines) == ""
    decreases |lines|
  {
    if lines != [] {
      var n := |lines| - 1;
      assert lines == lines[..n] + [lines[n]];
      LinesPassOn(lines[..n]);
      SpokenAppend(lines[..n], lines[n]);
      FragmentsAppend(lines[..n], lines[n]);
      ChoicesPassOn(Choices(lines[n]));
      ConcatAppend(Tokens(lines[..n]), TokensOf(Choices(lines[n])));
    }
  }

  /** Of an accepted answer all that was said before its n-th line, the first to end it, is passed on,
      whatever comes of it; the try goes well exactly if that line is the end mark, or all was read and
      said or called something; and then all its fragments are assembled. */
  lemma AnswerIsPassedOn(r: Response, n: nat)
    requires r.Answer? && 200 <= r.code <= 299 && n <= |r.lines|
    requires forall i :: 0 <= i < n ==> !r.lines[i].EndMark? && !r.lines[i].ErrorObject?
    requires n < |r.lines| ==> r.lines[n].EndMark? || r.lines[n].ErrorObject?
    ensures Concat(Tried(r).tokens) == Spoken(r.lines[..n])
    ensures Tried(r).failure == None
       <==> if n < |r.lines| then r.lines[n] == EndMark
            else !r.readFails && (Spoken(r.lines) != "" || Fragments(r.lines) != [])
    ensures Tried(r).failure == None ==> Tried(r).calls == Done(After(Fragments(r.lines[..n])))
    ensures Tried(r).failure in {None, Some(Broken)}
  {
    hide After, Done, Tokens, Deltas, Spoken, Fragments;
    UntilIs(r.lines, n);
    LinesPassOn(r.lines[..n]);
    if n == |r.lines| {
      assert r.lines[..n] == r.lines;
    }
  }

  /** Nothing is passed on or called of any other answer, and its failure tells why. */
  lemma RefusalsAreSilent(r: Response)
    requires !(r.Answer? && 200 <= r.code <= 299)
    ensures Tried(r).tokens == [] && Tried(r).calls == []
    ensures Tried(r).failure == Some(match r
      case NotBuilt => Broken
      case NoAnswer => Request
      case Answer(code, _, _) => Status(code))
  {
  }

  lemma ChoiceNext(choices: seq<Choice>, i: nat)
    requires i < |choices|
    ensures TokensOf(choices[..i + 1]) == TokensOf(choices[..i])
        + (if choices[i].content != "" then [choices[i].content] else [])
    ensures DeltasOf(choices[..i + 1]) == DeltasOf(choices[..i]) + choices[i].deltas
  {
    assert choices[..i + 1][..i] == choices[..i];
  }

  lemma LineNext(lines: seq<Line>, i: nat)
    requires i < |lines|
    ensures Tokens(lines[..i + 1]) == Tokens(lines[..i]) + TokensOf(Choices(lines[i]))
    ensures Deltas(lines[..i + 1]) == Deltas(lines[..i]) + DeltasOf(Choices(lines[i]))
  {
    assert lines[..i + 1][..i] == lines[..i];
  }

  lemma AssembledNext(ds: seq<Delta>, d: Delta)
    ensures After(ds + [d]) == Add(After(ds), d)
  {
    assert (ds + [d])[..|ds|] == ds;
  }

  lemma {:induction false} UntilIs(lines: seq<Line>, i: nat)
    requires i <= |lines| && forall j :: 0 <= j < i ==> !lines[j].EndMark? && !lines[j].ErrorObject?
    requires i < |lines| ==> lines[i].EndMark? || lines[i].ErrorObject?
    ensures Until(lines) == i
  {
    if i > 0 {
      UntilIs(lines[1..], i - 1);
    }
  }

  lemma NothingYet()
    ensures Tokens([]) == [] && Deltas([]) == [] && After([]) == [] && TokensOf([]) == [] && DeltasOf([]) == []
  {
  }

  /** The fragments of one choice into the assembler. */
  method AddDeltas(assembler: Assembler, deltas: seq<Delta>, ghost before: seq<Delta>)
    requires assembler.calls == After(before)
    modifies assembler
    ensures assembler.calls == After(before + deltas)
  {
    hide After, Add;
    assert before + [] == before;
    for k := 0 to |deltas|
      invariant assembler.calls == After(before + deltas[..k])
    {
      assert before + deltas[..k + 1] == before + deltas[..k] + [deltas[k]];
      AssembledNext(before + deltas[..k], deltas[k]);
      assembler.AddDelta(deltas[k]);
    }
    assert deltas[..|deltas|] == deltas;
  }

  /** One chunk: its contents passed on, its fragments assembled. */
  method ReadChoices(assembler: Assembler, choices: seq<Choice>, ghost before: seq<Delta>)
    returns (tokens: seq<string>, got: bool)
    requires assembler.calls == After(before)
    modifies assembler
    ensures tokens == TokensOf(choices) && assembler.calls == After(before + DeltasOf(choices))
    ensures got == (TokensOf(choices) != [] || DeltasOf(choices) != [])
  {
    hide After, TokensOf, DeltasOf;
    NothingYet();
    tokens, got := [], false;
    assert before + [] == before;
    for i := 0 to |choices|
      invariant tokens == TokensOf(choices[..i]) && assembler.calls == After(before + DeltasOf(choices[..i]))
      invariant got == (TokensOf(choices[..i]) != [] || DeltasOf(choices[..i]) != [])
    {
      ChoiceNext(choices, i);
      if choices[i].content != "" {
        got := true;
        tokens := tokens + [choices[i].content];
      }
      assert before + DeltasOf(choices[..i]) + choices[i].deltas == before + DeltasOf(choices[..i + 1]);
      AddDeltas(assembler, choices[i].deltas, before + DeltasOf(choices[..i]));
      if |choices[i].deltas| > 0 {
        got := true;
      }
    }
    assert choices[..|choices|] == choices;
  }

  /** One try: the answer read line by line. */
  method StreamOnce(r: Response) returns (result: Result)
    ensures result == Tried(r)
  {
    hide Tokens, Deltas, After, TokensOf, DeltasOf;
    if r.NotBuilt? {
      return Result([], [], Some(Broken));
    }
    if r.NoAnswer? {
      return Result([], [], Some(Request));
    }
    if r.code < 200 || r.code >= 300 {
      return Result([], [], Some(Status(r.code)));
    }
    NothingYet();
    var assembler := new Assembler();
    var tokens: seq<string>, got := [], false;
    for i := 0 to |r.lines|
      invariant tokens == Tokens(r.lines[..i]) && assembler.calls == After(Deltas(r.lines[..i]))
      invariant got == (Tokens(r.lines[..i]) != [] || Deltas(r.lines[..i]) != [])
      invariant forall j :: 0 <= j < i ==> !r.lines[j].EndMark? && !r.lines[j].ErrorObject?
      invariant fresh(assembler)
    {
      LineNext(r.lines, i);
      match r.lines[i] {
        case EndMark =>
          UntilIs(r.lines, i);
          var calls := assembler.Finish();
          return Result(tokens, calls, None);
        case ErrorObject =>
          UntilIs(r.lines, i);
          return Result(tokens, [], Some(Broken));
        case Skipped =>
          assert Tokens(r.lines[..i]) + [] == Tokens(r.lines[..i]) && Deltas(r.lines[..i]) + [] == Deltas(r.lines[..i]);
        case Chunk(choices) =>
          var more, some := ReadChoices(assembler, choices, Deltas(r.lines[..i]));
          tokens := tokens + more;
          got := got || some;
      }
    }
    UntilIs(r.lines, |r.lines|);
    if r.readFails || !got {
      return Result(tokens, [], Some(Broken));
    }
    var calls := assembler.Finish();
    return Result(tokens, calls, None);
  }

  // ---- tries -----------------------------------------------------------------------------------

  /** A try: what it meets; and whether the context had ended when it failed, or ended in the wait
      after it. */
  datatype Try = Try(response: Response, ended: bool, cutShort: bool)

  predicate Retryable(failure: Option<Failure>, ended: bool) {
    && !ended
    && match failure
       case None => false
       case Some(Status(code)) => code in {429, 502, 503, 504}
       case Some(Request) => true
       case Some(Broken) => false
  }

  /** What may be tried again failed before the provider sent any reply. */
  lemma RetriedBeforeAnyReply(t: Try)
    requires Retryable(Tried(t.response).failure, t.ended)
    ensures !Accepted(t.response) && Tried(t.response).tokens == []
  {
  }

  /** Try i is followed by another. */
  predicate GoesOn(tries: seq<Try>, i: nat)
    requires i < |tries|
  {
    i < |tries| - 1 && Retryable(Tried(tries[i].response).failure, tries[i].ended) && !tries[i].cutShort
  }

  function LastTry(tries: seq<Try>, i: nat): (n: nat)
    requires i < |tries|
    ensures i <= n < |tries|
    decreases |tries| - i
  {
    if GoesOn(tries, i) then LastTry(tries, i + 1) else i
  }

  /** What the caller is passed over tries [0, n]. */
  function Passed(tries: seq<Try>, n: nat): seq<string>
    requires n < |tries|
  {
    (if n == 0 then [] else Passed(tries, n - 1)) + Tried(tries[n].response).tokens
  }

  /** However often it is tried, the caller gets the tokens of the last try alone: no reply is heard
      twice, and none in part before another. */
  lemma {:induction false} OneReplyIsHeard(tries: seq<Try>, n: nat)
    requires n < |tries| && forall i :: 0 <= i < n ==> GoesOn(tries, i)
    ensures Passed(tries, n) == Tried(tries[n].response).tokens
    decreases n
  {
    hide Tried;
    if n > 0 {
      OneReplyIsHeard(tries, n - 1);
      assert GoesOn(tries, n - 1);
      RetriedBeforeAnyReply(tries[n - 1]);
    }
  }

  lemma {:induction false} LastTryIs(tries: seq<Try>, i: nat, n: nat)
    requires i <= n < |tries| && !GoesOn(tries, n) && forall j :: i <= j < n ==> GoesOn(tries, j)
    ensures LastTry(tries, i) == n
    decreases n - i
  {
    if i < n {
      assert GoesOn(tries, i);
      LastTryIs(tries, i + 1, n);
    }
  }

  /** Try i failed for the moment: nobody answered, or with a status that says to try again; and the
      context had not ended, nor did it in the wait. */
  predicate ForNow(t: Try) {
    && (t.response.NoAnswer? || (t.response.Answer? && t.response.code in {429, 502, 503, 504}))
    && !t.ended && !t.cutShort
  }

  /** It is tried again exactly while tries are left and each so far failed for the moment. */
  lemma {:induction false} TriedAgainExactly(tries: seq<Try>, n: nat)
    requires n < |tries|
    ensures n == LastTry(tries, 0)
       <==> (forall i: nat :: i < n ==> ForNow(tries[i])) && (n == |tries| - 1 || !ForNow(tries[n]))
  {
    hide Tried, ForNow, GoesOn;
    forall i: nat | i < |tries| ensures GoesOn(tries, i) <==> i < |tries| - 1 && ForNow(tries[i]) {
      GoesOnIs(tries, i);
    }
    FirstToStop(tries, 0);
    if (forall i: nat :: i < n ==> ForNow(tries[i])) && (n == |tries| - 1 || !ForNow(tries[n])) {
      LastTryIs(tries, 0, n);
    }
  }

  lemma GoesOnIs(tries: seq<Try>, i: nat)
    requires i < |tries|
    ensures GoesOn(tries, i) <==> i < |tries| - 1 && ForNow(tries[i])
  {
  }

  lemma {:induction false} FirstToStop(tries: seq<Try>, i: nat)
    requires i < |tries|
    ensures var n := LastTry(tries, i); !GoesOn(tries, n) && forall j: nat :: i <= j < n ==> GoesOn(tries, j)
    decreases |tries| - i
  {
    hide GoesOn;
    if GoesOn(tries, i) {
      GoesOnIs(tries, i);
      FirstToStop(tries, i + 1);
    }
  }

  /** tries: what each of the retries + 1 tries would meet. */
  method Stream(tries: seq<Try>, retries: nat) returns (result: Result)
    requires |tries| == retries + 1
    ensures result == Tried(tries[LastTry(tries, 0)].response)
  {
    hide Tried;
    result := StreamOnce(tries[0].response);
    var attempt := 1;
    while result.failure.Some? && attempt <= retries && Retryable(result.failure, tries[attempt - 1].ended)
      invariant 1 <= attempt <= retries + 1
      invariant result == Tried(tries[attempt - 1].response).(tokens := Passed(tries, attempt - 1))
      invariant forall i :: 0 <= i < attempt - 1 ==> GoesOn(tries, i)
      decreases retries + 1 - attempt
    {
      if tries[attempt - 1].cutShort {
        break;
      }
      var next := StreamOnce(tries[attempt].response);
      result := next.(tokens := result.tokens + next.tokens);
      attempt := attempt + 1;
    }
    LastTryIs(tries, 0, attempt - 1);
    OneReplyIsHeard(tries, attempt - 1);
  }
}
