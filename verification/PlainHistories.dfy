/** A request's messages for a node without tools: tool results as text, adjacent assistant
    messages joined. */
module PlainHistories {
  import opened Wrappers
  import opened Runes
  import opened Messages

  /** How a tool result is rendered: a header naming the tool, and its text, if it is kept. */
  datatype Rendering = Rendering(header: string -> Text, response: Text -> Option<Text>)

  const NEWLINE := Rune(0x0A, true, false, false, false)

  const GAP: Text := [NEWLINE, NEWLINE]

  const UNKNOWN := "unknown"

  // ---- what it means ----------------------------------------------------------

  /** The tool each call id names; the last call with an id decides. */
  function CallNames(names: map<string, string>, calls: seq<ToolCall>): map<string, string>
    decreases |calls|
  {
    if calls == [] then names else CallNames(names[calls[0].id := calls[0].name], calls[1..])
  }

  function Names(names: map<string, string>, msgs: seq<Message>): map<string, string>
    decreases |msgs|
  {
    if msgs == [] then names else Names(CallNames(names, msgs[0].calls), msgs[1..])
  }

  /** What a message becomes on its own, if anything is left of it. */
  function Piece(r: Rendering, names: map<string, string>, m: Message): Option<Message> {
    match m.role
    case Tool =>
      (match r.response(m.content)
       case None => None
       case Some(text) => Spoken(r.header(if m.callId in names then names[m.callId] else UNKNOWN) + text))
    case Assistant => Spoken(m.content)
    case _ => Some(Said(m.role, m.content))
  }

  function Spoken(text: Text): Option<Message> {
    if text == [] then None else Some(Said(Assistant, text))
  }

  function Pieces(r: Rendering, names: map<string, string>, msgs: seq<Message>): seq<Message> {
    if msgs == [] then []
    else
      var rest := Pieces(r, names, msgs[1..]);
      match Piece(r, names, msgs[0])
      case None => rest
      case Some(p) => [p] + rest
  }

  function Leading(pieces: seq<Message>): (n: nat)
    ensures n <= |pieces|
  {
    if pieces != [] && pieces[0].role == Assistant then 1 + Leading(pieces[1..]) else 0
  }

  function Joined(pieces: seq<Message>): Text {
    if pieces == [] then []
    else if |pieces| == 1 then pieces[0].content
    else pieces[0].content + GAP + Joined(pieces[1..])
  }

  /** Every run of assistant messages as one. */
  function Grouped(pieces: seq<Message>): seq<Message>
    decreases |pieces|
  {
    if pieces == [] then []
    else if pieces[0].role != Assistant then [pieces[0]] + Grouped(pieces[1..])
    else
      var n := Leading(pieces);
      [Said(Assistant, Joined(pieces[..n]))] + Grouped(pieces[n..])
  }

  function PlainHistory(r: Rendering, msgs: seq<Message>): seq<Message> {
    Grouped(Pieces(r, Names(map[], msgs), msgs))
  }

  // ---- how it is built: message by message, the last one edited -----------------------

  function Add(out: seq<Message>, p: Message): seq<Message> {
    var n := |out|;
    if n > 0 && p.role == Assistant && out[n - 1].role == Assistant then
      out[..n - 1] + [out[n - 1].(content := out[n - 1].content + GAP + p.content)]
    else out + [p]
  }

  function AddTo(out: seq<Message>, pieces: seq<Message>): seq<Message>
    decreases |pieces|
  {
    if pieces == [] then out else AddTo(Add(out, pieces[0]), pieces[1..])
  }

  predicate Plain(p: Message) {
    p == Said(p.role, p.content) && p.role != Tool && (p.role == Assistant ==> p.content != [])
  }

  predicate AllPlain(pieces: seq<Message>) {
    forall i :: 0 <= i < |pieces| ==> Plain(pieces[i])
  }

  lemma {:induction false} AddRun(out: seq<Message>, text: Text, pieces: seq<Message>)
    requires AllPlain(pieces)
    ensures var n := Leading(pieces);
      AddTo(out + [Said(Assistant, text)], pieces)
      == AddTo(out + [Said(Assistant, if n == 0 then text else text + GAP + Joined(pieces[..n]))], pieces[n..])
    decreases |pieces|
  {
    hide Joined, Add, Plain;
    var n := Leading(pieces);
    if n == 0 {
      assert pieces[0..] == pieces;
    } else {
      AddJoins(out, text, pieces[0]);
      AddRun(out, text + GAP + pieces[0].content, pieces[1..]);
      JoinsOn(text, pieces, n);
    }
  }

  lemma AddJoins(out: seq<Message>, text: Text, p: Message)
    requires p.role == Assistant
    ensures Add(out + [Said(Assistant, text)], p) == out + [Said(Assistant, text + GAP + p.content)]
  {
    assert (out + [Said(Assistant, text)])[..|out|] == out;
  }

  lemma JoinsOn(text: Text, pieces: seq<Message>, n: nat)
    requires 0 < n <= |pieces|
    ensures pieces[1..][n - 1..] == pieces[n..]
    ensures var text' := text + GAP + pieces[0].content;
      text + GAP + Joined(pieces[..n]) == if n == 1 then text' else text' + GAP + Joined(pieces[1..][..n - 1])
  {
    JoinedCons(pieces[..n]);
    assert pieces[..n][1..] == pieces[1..][..n - 1];
    var c, rest := pieces[0].content, Joined(pieces[1..][..n - 1]);
    assert text + GAP + (c + GAP + rest) == text + GAP + c + GAP + rest;
  }

  lemma JoinedCons(pieces: seq<Message>)
    requires pieces != []
    ensures Joined(pieces) == if |pieces| == 1 then pieces[0].content else pieces[0].content + GAP + Joined(pieces[1..])
  {
  }

  lemma {:induction false} LeadingIsMaximal(pieces: seq<Message>)
    ensures var n := Leading(pieces);
      (forall i :: 0 <= i < n ==> pieces[i].role == Assistant) && (n < |pieces| ==> pieces[n].role != Assistant)
  {
    if pieces != [] && pieces[0].role == Assistant {
      LeadingIsMaximal(pieces[1..]);
    }
  }

  predicate Open(out: seq<Message>) {
    out == [] || out[|out| - 1].role != Assistant
  }

  /** Building it message by message gives the groups. */
  lemma {:induction false} AddToIsGrouped(out: seq<Message>, pieces: seq<Message>)
    requires AllPlain(pieces) && Open(out)
    ensures AddTo(out, pieces) == out + Grouped(pieces)
    decreases |pieces|, 2
  {
    if pieces == [] {
    } else if pieces[0].role != Assistant {
      AddToStep(out, pieces);
    } else {
      GroupFirst(out, pieces);
      LeadingIsMaximal(pieces);
      var n := Leading(pieces);
      var first, rest := Said(Assistant, Joined(pieces[..n])), pieces[n..];
      if rest != [] {
        AddToStep(out + [first], rest);
      }
      assert out + [first] + Grouped(rest) == out + ([first] + Grouped(rest));
    }
  }

  /** A message that joins nothing. */
  lemma {:induction false} AddToStep(out: seq<Message>, pieces: seq<Message>)
    requires AllPlain(pieces) && pieces != [] && pieces[0].role != Assistant
    ensures AddTo(out, pieces) == out + Grouped(pieces)
    decreases |pieces|, 1
  {
    var p, rest := pieces[0], pieces[1..];
    AddToIsGrouped(out + [p], rest);
    assert out + [p] + Grouped(rest) == out + ([p] + Grouped(rest));
  }

  lemma GroupFirst(out: seq<Message>, pieces: seq<Message>)
    requires AllPlain(pieces) && Open(out) && pieces != [] && pieces[0].role == Assistant
    ensures var n := Leading(pieces);
      AddTo(out, pieces) == AddTo(out + [Said(Assistant, Joined(pieces[..n]))], pieces[n..])
  {
    hide Joined, Add;
    var n, rest := Leading(pieces), pieces[1..];
    AddOpens(out, pieces[0]);
    AddRun(out, pieces[0].content, rest);
    assert pieces[..n][1..] == rest[..n - 1];
    assert rest[n - 1..] == pieces[n..];
    JoinedCons(pieces[..n]);
  }

  lemma AddOpens(out: seq<Message>, p: Message)
    requires Open(out) && Plain(p) && p.role == Assistant
    ensures Add(out, p) == out + [Said(Assistant, p.content)]
  {
  }

  // ---- what holds of the result --------------------------------------------------------

  predicate Separated(msgs: seq<Message>) {
    forall i :: 0 <= i < |msgs| - 1 ==> !(msgs[i].role == Assistant && msgs[i + 1].role == Assistant)
  }

  lemma {:induction false} PiecesArePlain(r: Rendering, names: map<string, string>, msgs: seq<Message>)
    ensures AllPlain(Pieces(r, names, msgs))
  {
    if msgs != [] {
      PiecesArePlain(r, names, msgs[1..]);
    }
  }

  lemma {:induction false} GroupedIsSeparated(pieces: seq<Message>)
    requires AllPlain(pieces)
    ensures AllPlain(Grouped(pieces)) && Separated(Grouped(pieces))
    ensures pieces != [] ==> Grouped(pieces) != [] && Grouped(pieces)[0].role == pieces[0].role
    decreases |pieces|
  {
    if pieces != [] {
      if pieces[0].role != Assistant {
        GroupedIsSeparated(pieces[1..]);
      } else {
        var n := Leading(pieces);
        LeadingIsMaximal(pieces);
        GroupedIsSeparated(pieces[n..]);
        JoinedCons(pieces[..n]);
        var first, rest := Said(Assistant, Joined(pieces[..n])), Grouped(pieces[n..]);
        assert Plain(first);
        assert n < |pieces| ==> pieces[n..][0] == pieces[n];
        assert rest != [] ==> rest[0].role != Assistant;
        assert Grouped(pieces) == [first] + rest;
      }
    }
  }

  /** No tool messages, no calls, no two assistant messages in a row. */
  lemma PlainHistoryIsPlain(r: Rendering, msgs: seq<Message>)
    ensures AllPlain(PlainHistory(r, msgs)) && Separated(PlainHistory(r, msgs))
  {
    PiecesArePlain(r, Names(map[], msgs), msgs);
    GroupedIsSeparated(Pieces(r, Names(map[], msgs), msgs));
  }

  lemma {:induction false} PlainPiecesStay(r: Rendering, names: map<string, string>, msgs: seq<Message>)
    requires AllPlain(msgs)
    ensures Pieces(r, names, msgs) == msgs
  {
    if msgs != [] {
      PlainPiecesStay(r, names, msgs[1..]);
      assert Plain(msgs[0]);
    }
  }

  lemma {:induction false} SeparatedGroupsStay(pieces: seq<Message>)
    requires AllPlain(pieces) && Separated(pieces)
    ensures Grouped(pieces) == pieces
    decreases |pieces|
  {
    if pieces != [] {
      var rest := pieces[1..];
      assert forall i :: 0 <= i < |rest| ==> rest[i] == pieces[i + 1];
      SeparatedGroupsStay(rest);
      if pieces[0].role == Assistant {
        assert Plain(pieces[0]);
        assert Leading(pieces) == 1;
        assert pieces[..1] == [pieces[0]];
      }
    }
  }

  /** A plain history is left as it is; so plainHistory is idempotent. */
  lemma PlainHistoryIsIdempotent(r: Rendering, msgs: seq<Message>)
    ensures AllPlain(msgs) && Separated(msgs) ==> PlainHistory(r, msgs) == msgs
    ensures PlainHistory(r, PlainHistory(r, msgs)) == PlainHistory(r, msgs)
  {
    PlainHistoryIsPlain(r, msgs);
    PlainStays(r, PlainHistory(r, msgs));
    if AllPlain(msgs) && Separated(msgs) {
      PlainStays(r, msgs);
    }
  }

  lemma PlainStays(r: Rendering, msgs: seq<Message>)
    requires AllPlain(msgs) && Separated(msgs)
    ensures PlainHistory(r, msgs) == msgs
  {
    PlainPiecesStay(r, Names(map[], msgs), msgs);
    SeparatedGroupsStay(msgs);
  }

  /** What the caller and the system said, in order. */
  function Others(msgs: seq<Message>): seq<Message> {
    if msgs == [] then []
    else if msgs[0].role == Tool || msgs[0].role == Assistant then Others(msgs[1..])
    else [Said(msgs[0].role, msgs[0].content)] + Others(msgs[1..])
  }

  lemma {:induction false} PiecesKeepOthers(r: Rendering, names: map<string, string>, msgs: seq<Message>)
    ensures Others(Pieces(r, names, msgs)) == Others(msgs)
  {
    if msgs != [] {
      PiecesKeepOthers(r, names, msgs[1..]);
      var rest := Pieces(r, names, msgs[1..]);
      match Piece(r, names, msgs[0]) {
        case None =>
        case Some(p) => assert ([p] + rest)[1..] == rest;
      }
    }
  }

  lemma {:induction false} LeadingHasNoOthers(pieces: seq<Message>, n: nat)
    requires n <= Leading(pieces)
    ensures Others(pieces) == Others(pieces[n..])
    decreases n
  {
    if n == 0 {
      assert pieces[0..] == pieces;
    } else {
      LeadingHasNoOthers(pieces[1..], n - 1);
      assert pieces[1..][n - 1..] == pieces[n..];
    }
  }

  lemma {:induction false} GroupedKeepsOthers(pieces: seq<Message>)
    requires AllPlain(pieces)
    ensures Others(Grouped(pieces)) == Others(pieces)
    decreases |pieces|
  {
    if pieces != [] {
      if pieces[0].role != Assistant {
        GroupedKeepsOthers(pieces[1..]);
        assert Grouped(pieces)[1..] == Grouped(pieces[1..]);
      } else {
        var n := Leading(pieces);
        GroupedKeepsOthers(pieces[n..]);
        LeadingHasNoOthers(pieces, n);
        assert Grouped(pieces)[1..] == Grouped(pieces[n..]);
      }
    }
  }

  lemma PlainHistoryKeepsOthers(r: Rendering, msgs: seq<Message>)
    ensures Others(PlainHistory(r, msgs)) == Others(msgs)
  {
    var names := Names(map[], msgs);
    PiecesKeepOthers(r, names, msgs);
    PiecesArePlain(r, names, msgs);
    GroupedKeepsOthers(Pieces(r, names, msgs));
  }

  // ---- nothing said is lost --------------------------------------------------------------

  /** The name in the last of the calls with this id. */
  function NamedIn(calls: seq<ToolCall>, id: string): Option<string> {
    if calls == [] then None
    else
      var n := |calls| - 1;
      if calls[n].id == id then Some(calls[n].name) else NamedIn(calls[..n], id)
  }

  /** The tool that answered: the last call with this id names it. */
  function ToolOf(msgs: seq<Message>, id: string): string {
    if msgs == [] then UNKNOWN
    else
      var n := |msgs| - 1;
      match NamedIn(msgs[n].calls, id)
      case Some(name) => name
      case None => ToolOf(msgs[..n], id)
  }

  /** What a message of this history says in a plain one. */
  function Rendered(r: Rendering, msgs: seq<Message>, m: Message): Text {
    if m.role != Tool then m.content
    else
      match r.response(m.content)
      case None => []
      case Some(text) => r.header(ToolOf(msgs, m.callId)) + text
  }

  /** All that messages `part` of the history msgs say. */
  function AllRendered(r: Rendering, msgs: seq<Message>, part: seq<Message>): Text {
    if part == [] then [] else Rendered(r, msgs, part[0]) + AllRendered(r, msgs, part[1..])
  }

  function Contents(msgs: seq<Message>): Text {
    if msgs == [] then [] else msgs[0].content + Contents(msgs[1..])
  }

  lemma {:induction false} CallNamesAppend(names: map<string, string>, calls: seq<ToolCall>, c: ToolCall)
    ensures CallNames(names, calls + [c]) == CallNames(names, calls)[c.id := c.name]
    decreases |calls|
  {
    if calls == [] {
      assert [c][1..] == [] && calls + [c] == [c];
    } else {
      assert (calls + [c])[1..] == calls[1..] + [c];
      CallNamesAppend(names[calls[0].id := calls[0].name], calls[1..], c);
    }
  }

  lemma {:induction false} CallNamesAre(names: map<string, string>, calls: seq<ToolCall>, id: string)
    ensures var all := CallNames(names, calls);
      match NamedIn(calls, id)
      case Some(name) => id in all && all[id] == name
      case None => (id in all <==> id in names) && (id in names ==> all[id] == names[id])
    decreases |calls|
  {
    if calls != [] {
      var n := |calls| - 1;
      CallNamesAre(names, calls[..n], id);
      CallNamesAppend(names, calls[..n], calls[n]);
      assert calls == calls[..n] + [calls[n]];
    }
  }

  lemma {:induction false} NamesAppend(names: map<string, string>, msgs: seq<Message>, m: Message)
    ensures Names(names, msgs + [m]) == CallNames(Names(names, msgs), m.calls)
    decreases |msgs|
  {
    if msgs == [] {
      assert [m][1..] == [] && msgs + [m] == [m];
    } else {
      assert (msgs + [m])[1..] == msgs[1..] + [m];
      NamesAppend(CallNames(names, msgs[0].calls), msgs[1..], m);
    }
  }

  lemma {:induction false} NamesAre(msgs: seq<Message>, id: string)
    ensures var names := Names(map[], msgs); (if id in names then names[id] else UNKNOWN) == ToolOf(msgs, id)
    decreases |msgs|
  {
    hide CallNames, NamedIn;
    if msgs != [] {
      var n := |msgs| - 1;
      NamesAre(msgs[..n], id);
      NamesAppend(map[], msgs[..n], msgs[n]);
      CallNamesAre(Names(map[], msgs[..n]), msgs[n].calls, id);
      assert msgs == msgs[..n] + [msgs[n]];
    }
  }

  lemma {:induction false} PiecesSayAll(r: Rendering, msgs: seq<Message>, part: seq<Message>)
    ensures Contents(Pieces(r, Names(map[], msgs), part)) == AllRendered(r, msgs, part)
    decreases |part|
  {
    hide Names, ToolOf;
    if part != [] {
      var names := Names(map[], msgs);
      var rest := Pieces(r, names, part[1..]);
      PiecesSayAll(r, msgs, part[1..]);
      NamesAre(msgs, part[0].callId);
      match Piece(r, names, part[0]) {
        case None =>
        case Some(p) => assert ([p] + rest)[1..] == rest;
      }
    }
  }

  lemma {:induction false} ContentsAppend(a: seq<Message>, b: seq<Message>)
    ensures Contents(a + b) == Contents(a) + Contents(b)
    decreases |a|
  {
    if a == [] {
      assert a + b == b;
    } else {
      assert (a + b)[1..] == a[1..] + b;
      ContentsAppend(a[1..], b);
      assert a[0].content + (Contents(a[1..]) + Contents(b)) == a[0].content + Contents(a[1..]) + Contents(b);
    }
  }

  lemma {:induction false} JoinedSaysAll(pieces: seq<Message>)
    ensures Bare(Joined(pieces)) == Bare(Contents(pieces))
    decreases |pieces|
  {
    if |pieces| == 1 {
      assert Contents(pieces) == pieces[0].content + [];
      assert pieces[0].content + [] == pieces[0].content;
    } else if |pieces| > 1 {
      var first, rest := pieces[0].content, pieces[1..];
      JoinedSaysAll(rest);
      BareAppend(first + GAP, Joined(rest));
      BareAppend(first, GAP);
      BareAppend(first, Contents(rest));
      GapIsBare();
      assert Bare(first) + [] == Bare(first);
    }
  }

  /** part is somewhere in whole. */
  ghost predicate IsIn(part: Text, whole: Text) {
    exists i, j :: 0 <= i <= j <= |whole| && whole[i..j] == part
  }

  /** Joined messages keep a blank line between each two. */
  lemma {:induction false} JoinedKeepsApart(pieces: seq<Message>, i: nat)
    requires i + 1 < |pieces|
    ensures IsIn(pieces[i].content + [NEWLINE, NEWLINE] + pieces[i + 1].content, Joined(pieces))
    decreases |pieces|
  {
    var whole, rest := Joined(pieces), pieces[1..];
    var start := |pieces[0].content| + 2;
    assert whole == pieces[0].content + [NEWLINE, NEWLINE] + Joined(rest);
    if i == 0 {
      var next := |rest[0].content|;
      assert Joined(rest)[..next] == rest[0].content;
      assert whole[0..start + next] == pieces[0].content + [NEWLINE, NEWLINE] + rest[0].content;
    } else {
      JoinedKeepsApart(rest, i - 1);
      var part := pieces[i].content + [NEWLINE, NEWLINE] + pieces[i + 1].content;
      var j, k :| 0 <= j <= k <= |Joined(rest)| && Joined(rest)[j..k] == part;
      assert whole[start + j..start + k] == Joined(rest)[j..k];
    }
  }

  lemma GapIsBare()
    ensures Bare(GAP) == []
  {
    BareCons(NEWLINE, [NEWLINE]);
    BareCons(NEWLINE, []);
    BareNone();
    assert GAP == [NEWLINE] + [NEWLINE] && [NEWLINE] + [] == [NEWLINE];
  }

  lemma {:induction false} GroupedSaysAll(pieces: seq<Message>)
    ensures Bare(Contents(Grouped(pieces))) == Bare(Contents(pieces))
    decreases |pieces|
  {
    if pieces != [] {
      var n := if pieces[0].role != Assistant then 1 else Leading(pieces);
      var first := if n == 1 && pieces[0].role != Assistant then pieces[0] else Said(Assistant, Joined(pieces[..n]));
      var rest := pieces[n..];
      GroupedSaysAll(rest);
      JoinedSaysAll(pieces[..n]);
      assert Contents([pieces[0]]) == pieces[0].content + [] && pieces[0].content + [] == pieces[0].content;
      assert pieces[..1] == [pieces[0]];
      assert pieces == pieces[..n] + rest;
      ContentsAppend(pieces[..n], rest);
      BareAppend(Contents(pieces[..n]), Contents(rest));
      assert Grouped(pieces) == [first] + Grouped(rest);
      assert ([first] + Grouped(rest))[1..] == Grouped(rest);
      BareAppend(first.content, Contents(Grouped(rest)));
    }
  }

  /** The plain history says, in order, what every message said and what every tool answered under its name --
      spaces and blank lines aside -- and nothing else. */
  lemma PlainHistorySaysAll(r: Rendering, msgs: seq<Message>)
    ensures Bare(Contents(PlainHistory(r, msgs))) == Bare(AllRendered(r, msgs, msgs))
  {
    var pieces := Pieces(r, Names(map[], msgs), msgs);
    GroupedSaysAll(pieces);
    PiecesSayAll(r, msgs, msgs);
  }

  // ---- the loop -------------------------------------------------------------------

  lemma NamesNext(names: map<string, string>, msgs: seq<Message>, i: nat)
    requires i < |msgs|
    ensures Names(names, msgs[i..]) == Names(CallNames(names, msgs[i].calls), msgs[i + 1..])
  {
    assert msgs[i..][1..] == msgs[i + 1..];
  }

  lemma PiecesNext(r: Rendering, names: map<string, string>, msgs: seq<Message>, i: nat, out: seq<Message>)
    requires i < |msgs|
    ensures AddTo(out, Pieces(r, names, msgs[i..]))
      == AddTo(match Piece(r, names, msgs[i]) case None => out case Some(p) => Add(out, p),
               Pieces(r, names, msgs[i + 1..]))
  {
    assert msgs[i..][1..] == msgs[i + 1..];
    var rest := Pieces(r, names, msgs[i + 1..]);
    match Piece(r, names, msgs[i]) {
      case None =>
      case Some(p) => assert ([p] + rest)[1..] == rest;
    }
  }

  method CollectNames(msgs: seq<Message>) returns (names: map<string, string>)
    ensures names == Names(map[], msgs)
  {
    names := map[];
    assert msgs[0..] == msgs && msgs[|msgs|..] == [];
    for i := 0 to |msgs|
      invariant Names(names, msgs[i..]) == Names(map[], msgs)
    {
      NamesNext(names, msgs, i);
      var calls := msgs[i].calls;
      ghost var before := names;
      assert calls[0..] == calls && calls[|calls|..] == [];
      for j := 0 to |calls|
        invariant CallNames(names, calls[j..]) == CallNames(before, calls)
      {
        assert calls[j..][1..] == calls[j + 1..];
        names := names[calls[j].id := calls[j].name];
      }
    }
  }

  method AddText(out: seq<Message>, text: Text) returns (out': seq<Message>)
    ensures out' == match Spoken(text) case None => out case Some(p) => Add(out, p)
  {
    if text == [] {
      return out;
    }
    var n := |out|;
    if n > 0 && out[n - 1].role == Assistant {
      return out[..n - 1] + [out[n - 1].(content := out[n - 1].content + GAP + text)];
    }
    return out + [Said(Assistant, text)];
  }

  method BuildPlainHistory(r: Rendering, msgs: seq<Message>) returns (out: seq<Message>)
    ensures out == PlainHistory(r, msgs)
  {
    hide Add, Pieces, Names;
    var names := CollectNames(msgs);
    out := [];
    assert msgs[0..] == msgs && msgs[|msgs|..] == [];
    for i := 0 to |msgs|
      invariant AddTo(out, Pieces(r, names, msgs[i..])) == AddTo([], Pieces(r, names, msgs))
    {
      PiecesNext(r, names, msgs, i, out);
      var m := msgs[i];
      match m.role {
        case Tool =>
          match r.response(m.content) {
            case None =>
            case Some(text) =>
              out := AddText(out, r.header(if m.callId in names then names[m.callId] else UNKNOWN) + text);
          }
        case Assistant => out := AddText(out, m.content);
        case _ =>
          AddOther(out, m);
          out := out + [Said(m.role, m.content)];
      }
    }
    NoPieces(r, names);
    PiecesArePlain(r, names, msgs);
    AddToIsGrouped([], Pieces(r, names, msgs));
  }

  lemma AddOther(out: seq<Message>, m: Message)
    requires m.role != Assistant
    ensures Add(out, Said(m.role, m.content)) == out + [Said(m.role, m.content)]
  {
  }

  lemma NoPieces(r: Rendering, names: map<string, string>)
    ensures Pieces(r, names, []) == []
  {
  }
}
