/** Cutting the LLM's streamed text into chunks to be spoken: where the next cut falls, and that the
    cuts depend on the text alone, not on how it was streamed. */
module SentenceChunks {
  import opened Wrappers
  import opened Runes

  const RUNE_THRESHOLD := 80
  const HARD_LIMIT := 160

  // ---- where a cut falls -------------------------------------------------------------------

  /** A letter or digit among the first k runes. */
  predicate HasContent(b: Text, k: nat)
    requires k <= |b|
  {
    exists i :: 0 <= i < k && IsContent(b[i])
  }

  /** Rune k is a space with content before it. */
  predicate Breaks(b: Text, k: nat)
    requires 0 < k <= |b|
  {
    b[k - 1].space && HasContent(b, k - 1)
  }

  /** The last break among the first k runes; 0 if none. */
  function LastSpace(b: Text, k: nat): (j: nat)
    requires k <= |b|
    ensures j <= k && (j > 0 ==> Breaks(b, j))
  {
    if k == 0 then 0 else if Breaks(b, k) then k else LastSpace(b, k - 1)
  }

  /** The last break after a comma, semicolon or colon, in the second half of a chunk. */
  function LastPause(b: Text, k: nat): (j: nat)
    requires k <= |b|
    ensures j <= k && (j > 0 ==> Breaks(b, j))
  {
    if k == 0 then 0
    else if Breaks(b, k) && k >= 2 && IsPause(b[k - 2]) && k >= RUNE_THRESHOLD / 2 then k
    else LastPause(b, k - 1)
  }

  predicate EndsSentence(b: Text, k: nat)
    requires 0 < k <= |b|
  {
    IsDelimiter(b[k - 1]) && HasContent(b, k - 1)
  }

  /** A '.' right after a digit: a list marker or a decimal point. */
  predicate InNumber(b: Text, k: nat)
    requires 0 < k <= |b|
  {
    IsPeriod(b[k - 1]) && k >= 2 && b[k - 2].digit
  }

  /** What looking at the first k runes, and the one after them, decides. */
  function CutAt(b: Text, k: nat): (cut: Option<nat>)
    requires 0 < k <= |b|
    ensures cut.Some? ==> 0 < cut.value <= k
  {
    if EndsSentence(b, k) then (if InNumber(b, k) then None else Some(k))
    else if k < RUNE_THRESHOLD then None
    else if LastPause(b, k) > 0 then Some(LastPause(b, k))
    else if LastSpace(b, k) > 0 then Some(LastSpace(b, k))
    else if k >= HARD_LIMIT && k < |b| && !b[k].mark && !IsVirama(b[k - 1]) then Some(k)
    else None
  }

  /** The first cut decided from rune k on. */
  function FirstCut(b: Text, k: nat): (cut: Option<nat>)
    requires 0 < k
    ensures cut.Some? ==> 0 < cut.value <= |b|
    decreases |b| + 1 - k
  {
    if k > |b| then None
    else if CutAt(b, k).Some? then CutAt(b, k)
    else FirstCut(b, k + 1)
  }

  function NextCut(b: Text): (cut: Option<nat>)
    ensures cut.Some? ==> 0 < cut.value <= |b|
  {
    FirstCut(b, 1)
  }

  function Chunks(b: Text): seq<Text>
    decreases |b|
  {
    match NextCut(b)
    case None => []
    case Some(cut) => [b[..cut]] + Chunks(b[cut..])
  }

  function Leftover(b: Text): Text
    decreases |b|
  {
    match NextCut(b)
    case None => b
    case Some(cut) => Leftover(b[cut..])
  }

  // ---- prefix stability ----------------------------------------------------------------------

  lemma ContentStable(b: Text, x: Text, k: nat)
    requires k <= |b|
    ensures HasContent(b + x, k) == HasContent(b, k)
  {
    forall i | 0 <= i < k ensures IsContent((b + x)[i]) == IsContent(b[i]) {
    }
  }

  lemma {:induction false} BreaksStable(b: Text, x: Text, k: nat)
    requires k <= |b|
    ensures LastSpace(b + x, k) == LastSpace(b, k) && LastPause(b + x, k) == LastPause(b, k)
    ensures k > 0 ==> Breaks(b + x, k) == Breaks(b, k)
  {
    hide HasContent;
    if k > 0 {
      BreaksStable(b, x, k - 1);
      ContentStable(b, x, k - 1);
    }
  }

  /** What is decided stays decided as text is added; and only the last rune is undecided. */
  lemma CutStable(b: Text, x: Text, k: nat)
    requires 0 < k <= |b|
    ensures CutAt(b, k).Some? || k < |b| ==> CutAt(b + x, k) == CutAt(b, k)
  {
    hide HasContent, LastSpace, LastPause;
    BreaksStable(b, x, k);
    ContentStable(b, x, k - 1);
  }

  lemma {:induction false} FirstCutStable(b: Text, x: Text, k: nat)
    requires 0 < k && FirstCut(b, k).Some?
    ensures FirstCut(b + x, k) == FirstCut(b, k)
    decreases |b| + 1 - k
  {
    hide CutAt;
    CutStable(b, x, k);
    if CutAt(b, k).None? {
      FirstCutStable(b, x, k + 1);
    }
  }

  /** Chunking what is left with the rest of the text is chunking the whole. */
  lemma {:induction false} ChunksSplit(a: Text, b: Text)
    ensures Chunks(a + b) == Chunks(a) + Chunks(Leftover(a) + b)
    ensures Leftover(a + b) == Leftover(Leftover(a) + b)
    decreases |a|
  {
    match NextCut(a) {
      case None =>
      case Some(cut) =>
        FirstCutStable(a, b, 1);
        assert (a + b)[..cut] == a[..cut] && (a + b)[cut..] == a[cut..] + b;
        ChunksSplit(a[cut..], b);
        assert [a[..cut]] + (Chunks(a[cut..]) + Chunks(Leftover(a) + b))
          == ([a[..cut]] + Chunks(a[cut..])) + Chunks(Leftover(a) + b);
    }
  }

  // ---- streams ----------------------------------------------------------------------------

  function Joined(tokens: seq<Text>): Text {
    if tokens == [] then [] else tokens[0] + Joined(tokens[1..])
  }

  /** What feeding the tokens one by one gives, from a buffer. */
  function Fed(buf: Text, tokens: seq<Text>): seq<Text>
    decreases |tokens|
  {
    if tokens == [] then [] else Chunks(buf + tokens[0]) + Fed(Leftover(buf + tokens[0]), tokens[1..])
  }

  function Kept(buf: Text, tokens: seq<Text>): Text
    decreases |tokens|
  {
    if tokens == [] then buf else Kept(Leftover(buf + tokens[0]), tokens[1..])
  }

  lemma {:induction false} LeftoverHasNoCut(b: Text)
    ensures NextCut(Leftover(b)) == None && Chunks(Leftover(b)) == [] && Leftover(Leftover(b)) == Leftover(b)
    decreases |b|
  {
    if NextCut(b).Some? {
      LeftoverHasNoCut(b[NextCut(b).value..]);
    }
  }

  /** The chunks and what is left depend on the text alone, not on how it was split. */
  lemma {:induction false} SplitsDoNotMatter(buf: Text, tokens: seq<Text>)
    requires NextCut(buf) == None
    ensures Fed(buf, tokens) == Chunks(buf + Joined(tokens)) && Kept(buf, tokens) == Leftover(buf + Joined(tokens))
    decreases |tokens|
  {
    hide FirstCut;
    if tokens == [] {
      assert buf + [] == buf;
    } else {
      var t, rest := tokens[0], Joined(tokens[1..]);
      LeftoverHasNoCut(buf + t);
      SplitsDoNotMatter(Leftover(buf + t), tokens[1..]);
      ChunksSplit(buf + t, rest);
      assert buf + (t + rest) == (buf + t) + rest;
    }
  }

  lemma SameTextSameChunks(a: seq<Text>, b: seq<Text>)
    requires Joined(a) == Joined(b)
    ensures Fed([], a) == Fed([], b) && Kept([], a) == Kept([], b)
  {
    SplitsDoNotMatter([], a);
    SplitsDoNotMatter([], b);
  }

  lemma JoinedCons(t: Text, rest: seq<Text>)
    ensures Joined([t] + rest) == t + Joined(rest)
  {
    assert ([t] + rest)[1..] == rest;
  }

  /** Nothing is lost: the chunks and what is left are the text. */
  lemma {:induction false} NothingIsLost(b: Text)
    ensures Joined(Chunks(b)) + Leftover(b) == b
    decreases |b|
  {
    hide FirstCut;
    if NextCut(b).Some? {
      var cut := NextCut(b).value;
      NothingIsLost(b[cut..]);
      JoinedCons(b[..cut], Chunks(b[cut..]));
      assert b[..cut] + Joined(Chunks(b[cut..])) + Leftover(b[cut..])
        == b[..cut] + (Joined(Chunks(b[cut..])) + Leftover(b[cut..]));
    }
  }

  // ---- where text is cut, and where it waits ----------------------------------------------------
  // Read off the text alone, without what the scan has counted so far.

  /** A sentence ends at rune k: a delimiter with a letter or digit before it, but no '.' after a digit. */
  predicate SentenceEnd(b: Text, k: nat)
    requires 0 < k <= |b|
  {
    && b[k - 1].code in {0x2E, 0x21, 0x3F, 0x0A, 0x0964, 0x0965}
    && (exists i :: 0 <= i < k - 1 && (b[i].letter || b[i].digit))
    && !(b[k - 1].code == 0x2E && k >= 2 && b[k - 2].digit)
  }

  /** The text may be cut after rune k: a space with a letter or digit before it. */
  predicate MayBreak(b: Text, k: nat)
    requires 0 < k <= |b|
  {
    b[k - 1].space && exists i :: 0 <= i < k - 1 && (b[i].letter || b[i].digit)
  }

  /** And this is at a pause, 40 runes in or more. */
  predicate AtPause(b: Text, k: nat)
    requires 0 < k <= |b|
  {
    MayBreak(b, k) && k >= 40 && b[k - 2].code in {0x2C, 0x3B, 0x3A}
  }

  /** Rune k is a '.' after a digit, with a letter or digit before the '.': not a place to give up waiting. */
  predicate DotInNumber(b: Text, k: nat)
    requires 0 < k <= |b|
  {
    b[k - 1].code == 0x2E && k >= 2 && b[k - 2].digit
  }

  lemma SentenceEndIs(b: Text, k: nat)
    requires 0 < k <= |b|
    ensures SentenceEnd(b, k) <==> EndsSentence(b, k) && !InNumber(b, k)
    ensures MayBreak(b, k) <==> Breaks(b, k)
    ensures DotInNumber(b, k) <==> InNumber(b, k)
    ensures DotInNumber(b, k) ==> EndsSentence(b, k)
    ensures AtPause(b, k) <==> Breaks(b, k) && k >= 2 && IsPause(b[k - 2]) && k >= RUNE_THRESHOLD / 2
  {
    assert HasContent(b, k - 1) <==> exists i :: 0 <= i < k - 1 && (b[i].letter || b[i].digit);
  }

  lemma {:induction false} LastSpaceIs(b: Text, k: nat)
    requires k <= |b|
    ensures forall j :: LastSpace(b, k) < j <= k ==> !MayBreak(b, j)
    ensures LastSpace(b, k) > 0 ==> MayBreak(b, LastSpace(b, k))
    ensures forall j :: LastPause(b, k) < j <= k ==> !AtPause(b, j)
    ensures LastPause(b, k) > 0 ==> AtPause(b, LastPause(b, k))
  {
    hide MayBreak, AtPause, Breaks;
    if k > 0 {
      SentenceEndIs(b, k);
      LastSpaceIs(b, k - 1);
    }
  }

  /** Looking at the first k runes decides nothing: no sentence ends at k; and past the threshold there is
      no place to break at, nor, past the hard limit, may the text be split after rune k. */
  predicate Waits(b: Text, k: nat)
    requires 0 < k <= |b|
  {
    && !SentenceEnd(b, k)
    && (k >= 80 && !DotInNumber(b, k) ==> forall j :: 0 < j <= k ==> !MayBreak(b, j))
    && (k >= 160 && k < |b| && !DotInNumber(b, k) ==> b[k].mark || b[k - 1].code == 0x094D)
  }

  lemma CutDecides(b: Text, k: nat)
    requires 0 < k <= |b|
    ensures CutAt(b, k) == None <==> Waits(b, k)
    ensures SentenceEnd(b, k) ==> CutAt(b, k) == Some(k)
  {
    hide SentenceEnd, MayBreak, AtPause, DotInNumber, Breaks, EndsSentence, InNumber, LastSpace, LastPause;
    SentenceEndIs(b, k);
    LastSpaceIs(b, k);
    if LastPause(b, k) > 0 {
      SentenceEndIs(b, LastPause(b, k));
    }
  }

  lemma {:induction false} FirstCutIs(b: Text, j: nat, k: nat)
    requires 0 < j <= k <= |b| && CutAt(b, k).Some? && forall i :: j <= i < k ==> CutAt(b, i) == None
    ensures FirstCut(b, j) == CutAt(b, k)
    decreases k - j
  {
    hide CutAt;
    if j < k {
      FirstCutIs(b, j + 1, k);
    }
  }

  lemma {:induction false} FirstCutFrom(b: Text, j: nat) returns (k: nat)
    requires 0 < j
    ensures j <= k && forall i :: j <= i < k && i <= |b| ==> CutAt(b, i) == None
    ensures FirstCut(b, j).Some? ==> k <= |b| && FirstCut(b, j) == CutAt(b, k)
    ensures FirstCut(b, j) == None ==> k > |b|
    decreases |b| + 1 - j
  {
    hide CutAt;
    if j > |b| || CutAt(b, j).Some? {
      k := j;
    } else {
      k := FirstCutFrom(b, j + 1);
    }
  }

  /** Text is held back exactly when it has no sentence end, and it is short, or has nothing to break at. */
  lemma HeldBackExactly(b: Text)
    ensures NextCut(b) == None <==> forall k :: 0 < k <= |b| ==> Waits(b, k)
  {
    hide Waits, CutAt;
    var k := FirstCutFrom(b, 1);
    forall i | 0 < i <= |b| ensures CutAt(b, i) == None <==> Waits(b, i) {
      CutDecides(b, i);
    }
  }

  /** A sentence that ends before anything else is decided is cut right there: one of up to 80 runes always
      is, at its first end. */
  lemma SentencesAreCut(b: Text, k: nat)
    requires 0 < k <= |b| && SentenceEnd(b, k)
    requires forall j :: 0 < j < k ==> !SentenceEnd(b, j) && (k <= 80 || Waits(b, j))
    ensures NextCut(b) == Some(k)
  {
    hide CutAt, SentenceEnd;
    CutDecides(b, k);
    forall j | 1 <= j < k ensures CutAt(b, j) == None {
      CutDecides(b, j);
    }
    FirstCutIs(b, 1, k);
  }

  /** No chunk runs over a sentence's end. */
  lemma NoEndInside(b: Text, j: nat)
    requires NextCut(b).Some? && 0 < j < NextCut(b).value
    ensures !SentenceEnd(b, j)
  {
    hide CutAt, SentenceEnd;
    var k := FirstCutFrom(b, 1);
    CutDecides(b, j);
  }

  /** A text of 80 runes or more that has waited until rune k for a sentence to end is cut at its last pause
      so far, or without one at its last space. */
  lemma LongTextIsCut(b: Text, k: nat, at: nat)
    requires 80 <= k <= |b| && !SentenceEnd(b, k) && !DotInNumber(b, k) && forall j :: 0 < j < k ==> Waits(b, j)
    requires 0 < at <= k
    requires if exists j :: 0 < j <= k && AtPause(b, j)
             then AtPause(b, at) && forall j :: at < j <= k ==> !AtPause(b, j)
             else MayBreak(b, at) && forall j :: at < j <= k ==> !MayBreak(b, j)
    ensures NextCut(b) == Some(at)
  {
    hide SentenceEnd, MayBreak, AtPause, DotInNumber, Breaks, EndsSentence, InNumber, LastSpace, LastPause, Waits;
    SentenceEndIs(b, k);
    LastSpaceIs(b, k);
    forall j | 1 <= j < k ensures CutAt(b, j) == None {
      CutDecides(b, j);
    }
    assert CutAt(b, k) == Some(at);
    FirstCutIs(b, 1, k);
  }

  // ---- what a cut splits --------------------------------------------------------------------

  predicate EndsInBreak(chunk: Text) {
    chunk != [] && (IsDelimiter(chunk[|chunk| - 1]) || chunk[|chunk| - 1].space)
  }

  /** A chunk ends in a delimiter or a space, with content in it; or it is a run of the hard limit
      or more without either, not split before a combining mark or after a virama. */
  predicate GoodCut(b: Text, cut: nat)
    requires 0 < cut <= |b|
  {
    || (EndsInBreak(b[..cut]) && HasContent(b, cut))
    || (cut >= HARD_LIMIT && cut < |b| && !b[cut].mark && !IsVirama(b[cut - 1]) && LastSpace(b, cut) == 0)
  }

  lemma CutIsGood(b: Text, k: nat)
    requires 0 < k <= |b| && CutAt(b, k).Some?
    ensures GoodCut(b, CutAt(b, k).value)
  {
  }

  lemma {:induction false} FirstCutIsGood(b: Text, k: nat)
    requires 0 < k && FirstCut(b, k).Some?
    ensures GoodCut(b, FirstCut(b, k).value)
    decreases |b| + 1 - k
  {
    hide CutAt, GoodCut;
    if CutAt(b, k).Some? {
      CutIsGood(b, k);
    } else {
      FirstCutIsGood(b, k + 1);
    }
  }


  ghost predicate GoodChunks(b: Text)
    decreases |b|
  {
    match NextCut(b)
    case None => true
    case Some(cut) => GoodCut(b, cut) && GoodChunks(b[cut..])
  }

  /** Every cut of a text is good. */
  lemma {:induction false} EveryCutIsGood(b: Text)
    ensures GoodChunks(b)
    decreases |b|
  {
    if NextCut(b).Some? {
      FirstCutIsGood(b, 1);
      EveryCutIsGood(b[NextCut(b).value..]);
    }
  }

  /** The hard limit can cut before rune k, with nothing to say before it. */
  predicate HardCutWithoutContent(b: Text, k: nat)
    requires 0 < k < |b|
  {
    !b[k].mark && !IsVirama(b[k - 1]) && !HasContent(b, k)
  }

  /** A chunk has nothing to say exactly when the text goes on past the hard limit, to a place it may
      be cut at, without a letter or digit. */
  lemma ContentFreeCuts(b: Text)
    ensures (NextCut(b).Some? && !HasContent(b, NextCut(b).value))
       <==> exists k :: HARD_LIMIT <= k < |b| && HardCutWithoutContent(b, k)
  {
    if NextCut(b).Some? && !HasContent(b, NextCut(b).value) {
      FirstCutIsGood(b, 1);
      assert HardCutWithoutContent(b, NextCut(b).value);
    }
    if k :| HARD_LIMIT <= k < |b| && HardCutWithoutContent(b, k) {
      HardCutAt(b, 1, k);
    }
  }

  /** Without a letter or digit nothing else can cut. */
  lemma {:induction false} HardCutAt(b: Text, j: nat, k: nat)
    requires 0 < j <= k && HARD_LIMIT <= k < |b| && HardCutWithoutContent(b, k)
    ensures FirstCut(b, j).Some? && FirstCut(b, j).value <= k
    decreases k - j
  {
    NoBreaks(b, j);
    if CutAt(b, j).None? {
      HardCutAt(b, j + 1, k);
    }
  }

  lemma {:induction false} NoBreaks(b: Text, k: nat)
    requires k <= |b| && !HasContent(b, k)
    ensures LastSpace(b, k) == 0 && LastPause(b, k) == 0
  {
    if k > 0 {
      NoBreaks(b, k - 1);
    }
  }

  const DASH := Rune(0x2D, false, false, false, false)

  /** A rule of dashes, one longer than the hard limit, is cut into a chunk of dashes. */
  lemma RuleOfDashes()
    ensures var b := seq(HARD_LIMIT + 1, _ => DASH);
      NextCut(b) == Some(HARD_LIMIT) && !HasContent(b, HARD_LIMIT)
  {
    var b := seq(HARD_LIMIT + 1, _ => DASH);
    assert HardCutWithoutContent(b, HARD_LIMIT);
    ContentFreeCuts(b);
    HardCutAt(b, 1, HARD_LIMIT);
    FirstCutIsGood(b, 1);
  }

  // ---- the scan ------------------------------------------------------------------------------

  lemma ContentNext(b: Text, k: nat)
    requires k < |b|
    ensures HasContent(b, k + 1) == (HasContent(b, k) || IsContent(b[k]))
  {
    if HasContent(b, k) {
      var i :| 0 <= i < k && IsContent(b[i]);
      assert HasContent(b, k + 1);
    }
  }

  class SentenceChunker {
    var buf: Text

    constructor ()
      ensures buf == []
    {
      buf := [];
    }

    method Feed(token: Text) returns (out: seq<Text>)
      modifies this
      ensures out == Chunks(old(buf) + token) && buf == Leftover(old(buf) + token)
    {
      buf := buf + token;
      out := [];
      ghost var all := buf;
      while true
        invariant out + Chunks(buf) == Chunks(all) && Leftover(buf) == Leftover(all)
        decreases |buf|
      {
        var cut := ScanCut(buf);
        if cut.None? {
          break;
        }
        assert out + ([buf[..cut.value]] + Chunks(buf[cut.value..]))
          == (out + [buf[..cut.value]]) + Chunks(buf[cut.value..]);
        out := out + [buf[..cut.value]];
        buf := buf[cut.value..];
      }
    }

    /** Rune by rune, with what has been seen so far. */
    method ScanCut(b: Text) returns (cut: Option<nat>)
      ensures cut == NextCut(b)
    {
      hide LastSpace, LastPause, HasContent, FirstCut;
      var i, hasContent, lastSpace, lastPause := 0, false, 0, 0;
      StartScan(b);
      while i < |b|
        invariant i <= |b| && hasContent == HasContent(b, i)
        invariant lastSpace == LastSpace(b, i) && lastPause == LastPause(b, i)
        invariant FirstCut(b, i + 1) == NextCut(b)
      {
        var r := b[i];
        var prev := if i > 0 then Some(b[i - 1]) else None;
        i := i + 1;
        ScanOn(b, i);
        if r.space && hasContent {
          lastSpace := i;
          if prev.Some? && IsPause(prev.value) && i >= RUNE_THRESHOLD / 2 {
            lastPause := i;
          }
        }
        if i >= RUNE_THRESHOLD && !(IsDelimiter(r) && hasContent) {
          if lastPause > 0 {
            return Some(lastPause);
          } else if lastSpace > 0 {
            return Some(lastSpace);
          } else if i >= HARD_LIMIT && i < |b| {
            if !b[i].mark && !IsVirama(r) {
              return Some(i);
            }
          }
        }
        if IsDelimiter(r) && hasContent {
          if IsPeriod(r) && prev.Some? && prev.value.digit {
            ContentStays(b, i);
            continue;
          }
          return Some(i);
        }
        if r.letter || r.digit {
          hasContent := true;
        }
      }
      return None;
    }

    /** What is left at the end of a turn, if it has anything to say. */
    method Flush() returns (rest: Text)
      modifies this
      ensures buf == [] && rest == if HasContent(old(buf), |old(buf)|) then old(buf) else []
    {
      rest := buf;
      buf := [];
      var content := HasLetterOrDigit(rest);
      if !content {
        rest := [];
      }
    }

    method HasLetterOrDigit(s: Text) returns (has: bool)
      ensures has == HasContent(s, |s|)
    {
      for i := 0 to |s|
        invariant !HasContent(s, i)
      {
        ContentNext(s, i);
        if s[i].letter || s[i].digit {
          assert HasContent(s, |s|);
          return true;
        }
      }
      return false;
    }
  }

  lemma StartScan(b: Text)
    ensures !HasContent(b, 0) && LastSpace(b, 0) == 0 && LastPause(b, 0) == 0 && FirstCut(b, |b| + 1) == None
  {
  }

  /** What the scan knows after one more rune. */
  lemma ScanOn(b: Text, i: nat)
    requires 0 < i <= |b|
    ensures HasContent(b, i) == (HasContent(b, i - 1) || IsContent(b[i - 1]))
    ensures LastSpace(b, i) == if Breaks(b, i) then i else LastSpace(b, i - 1)
    ensures LastPause(b, i)
      == if Breaks(b, i) && i >= 2 && IsPause(b[i - 2]) && i >= RUNE_THRESHOLD / 2 then i else LastPause(b, i - 1)
    ensures FirstCut(b, i) == if CutAt(b, i).Some? then CutAt(b, i) else FirstCut(b, i + 1)
  {
    ContentNext(b, i - 1);
  }

  lemma ContentStays(b: Text, i: nat)
    requires 0 < i <= |b| && HasContent(b, i - 1)
    ensures HasContent(b, i)
  {
    ContentNext(b, i - 1);
  }
}
