/** Tool calls streamed in fragments, joined back into whole calls. */
module ToolCallStreams {
  import opened Wrappers
  import opened Messages

  /** One fragment; an empty field is one it does not carry. */
  datatype Delta = Delta(index: Option<int>, id: string, kind: string, name: string, args: string, extra: string)

  const NO_CALL := ToolCall("", "", "", "", "")

  function Merge(c: ToolCall, d: Delta): ToolCall {
    ToolCall(if d.id != "" then d.id else c.id,
             if d.kind != "" then d.kind else c.kind,
             if d.name != "" then d.name else c.name,
             c.args + d.args,
             if d.extra != "" && d.extra != "null" then d.extra else c.extra)
  }

  /** The first call with this id; |calls| if none has it. */
  function FindId(calls: seq<ToolCall>, id: string): (i: nat)
    ensures i <= |calls|
    ensures i < |calls| ==> calls[i].id == id
    ensures forall j :: 0 <= j < i ==> calls[j].id != id
  {
    if calls == [] || calls[0].id == id then 0 else FindId(calls[1..], id) + 1
  }

  /** At least n calls. */
  function Grown(calls: seq<ToolCall>, n: nat): (grown: seq<ToolCall>)
    ensures |grown| >= n && |grown| >= |calls| && grown[..|calls|] == calls
  {
    if |calls| >= n then calls else calls + seq(n - |calls|, _ => NO_CALL)
  }

  /** The call a fragment belongs to: by index, unless that is another call's; else by id; else the last. */
  function Slot(calls: seq<ToolCall>, d: Delta): nat {
    if d.index.Some? && d.index.value >= 0
       && (d.index.value >= |calls| || d.id == "" || calls[d.index.value].id in {"", d.id}) then d.index.value
    else if d.id != "" then FindId(calls, d.id)
    else if calls == [] then 0 else |calls| - 1
  }

  function Add(calls: seq<ToolCall>, d: Delta): seq<ToolCall> {
    var i := Slot(calls, d);
    var grown := Grown(calls, i + 1);
    grown[i := Merge(grown[i], d)]
  }

  function After(ds: seq<Delta>): seq<ToolCall> {
    if ds == [] then [] else Add(After(ds[..|ds| - 1]), ds[|ds| - 1])
  }

  /** White space as Unicode has it. */
  predicate IsSpace(c: char) {
    || c in {' ', '\t', '\n', '\r', '\U{000B}', '\U{000C}', '\U{0085}', '\U{00A0}'}
    || c in {'\U{1680}', '\U{2028}', '\U{2029}', '\U{202F}', '\U{205F}', '\U{3000}'}
    || '\U{2000}' <= c <= '\U{200A}'
  }

  predicate Blank(s: string) {
    forall i :: 0 <= i < |s| ==> IsSpace(s[i])
  }

  function Finished(c: ToolCall): ToolCall {
    c.(kind := if c.kind == "" then "function" else c.kind, args := if Blank(c.args) then "{}" else c.args)
  }

  /** The named calls, with the defaults filled in. */
  function Done(calls: seq<ToolCall>): seq<ToolCall> {
    if calls == [] then []
    else
      var n := |calls| - 1;
      Done(calls[..n]) + (if calls[n].name == "" then [] else [Finished(calls[n])])
  }

  // ---- fragments sent by index ------------------------------------------------------------

  /** What the fragment says of the call is so. */
  predicate Agrees(d: Delta, w: ToolCall) {
    && (d.id == "" || d.id == w.id) && (d.kind == "" || d.kind == w.kind) && (d.name == "" || d.name == w.name)
    && (d.extra == "" || d.extra == "null" || d.extra == w.extra)
  }

  /** A fragment of call i of the list: its fields, or part of its arguments. */
  predicate FragmentOf(want: seq<ToolCall>, d: Delta) {
    d.index.Some? && 0 <= d.index.value < |want| && Agrees(d, want[d.index.value])
  }

  predicate AllFragments(want: seq<ToolCall>, ds: seq<Delta>) {
    forall k :: 0 <= k < |ds| ==> FragmentOf(want, ds[k])
  }

  /** The fragments of call i, merged in order. */
  function Gathered(ds: seq<Delta>, i: int): ToolCall {
    if ds == [] then NO_CALL
    else
      var n := |ds| - 1;
      if ds[n].index == Some(i) then Merge(Gathered(ds[..n], i), ds[n]) else Gathered(ds[..n], i)
  }

  function ArgsOf(ds: seq<Delta>, i: int): string {
    if ds == [] then ""
    else
      var n := |ds| - 1;
      ArgsOf(ds[..n], i) + (if ds[n].index == Some(i) then ds[n].args else "")
  }

  datatype Field = Id | Kind | Name | Extra

  predicate Sets(d: Delta, f: Field) {
    match f
    case Id => d.id != ""
    case Kind => d.kind != ""
    case Name => d.name != ""
    case Extra => d.extra != "" && d.extra != "null"
  }

  /** Some fragment of call i carries the field. */
  predicate Given(ds: seq<Delta>, i: int, f: Field) {
    if ds == [] then false
    else
      var n := |ds| - 1;
      Given(ds[..n], i, f) || (ds[n].index == Some(i) && Sets(ds[n], f))
  }

  /** The fragments of call i carry what the call needs. */
  predicate Carries(ds: seq<Delta>, i: int, w: ToolCall) {
    Given(ds, i, Id) && Given(ds, i, Name) && (w.kind != "function" ==> Given(ds, i, Kind))
        && (w.extra != "" ==> Given(ds, i, Extra))
  }

  /** Any interleaving of the calls' fragments, their arguments split in any way. */
  predicate Streams(want: seq<ToolCall>, ds: seq<Delta>) {
    AllFragments(want, ds)
    && forall i :: 0 <= i < |want| ==> Carries(ds, i, want[i]) && ArgsOf(ds, i) == want[i].args
  }

  predicate WellFormed(want: seq<ToolCall>) {
    && (forall i :: 0 <= i < |want| ==>
        want[i].id != "" && want[i].name != "" && want[i].kind != "" && want[i].extra != "null")
    && (forall i, j :: 0 <= i < j < |want| ==> want[i].id != want[j].id)
  }

  /** The fields gathered are the call's own, those given; and its arguments so far. */
  predicate FieldsOk(g: ToolCall, w: ToolCall, ds: seq<Delta>, i: int) {
    && g.args == ArgsOf(ds, i)
    && g.id == (if Given(ds, i, Id) then w.id else "")
    && g.name == (if Given(ds, i, Name) then w.name else "")
    && g.kind == (if Given(ds, i, Kind) then w.kind else "")
    && g.extra == (if Given(ds, i, Extra) then w.extra else "")
  }

  /** One more fragment, of this call or another. */
  lemma FieldsMore(g: ToolCall, w: ToolCall, ds: seq<Delta>, d: Delta, i: nat)
    requires FieldsOk(g, w, ds, i)
    requires d.index == Some(i) ==> Agrees(d, w)
    ensures FieldsOk(if d.index == Some(i) then Merge(g, d) else g, w, ds + [d], i)
  {
    hide Given, ArgsOf;
    GivenMore(ds, d, i, Id);
    GivenMore(ds, d, i, Kind);
    GivenMore(ds, d, i, Name);
    GivenMore(ds, d, i, Extra);
    ArgsMore(ds, d, i);
  }

  lemma GivenMore(ds: seq<Delta>, d: Delta, i: nat, f: Field)
    ensures Given(ds + [d], i, f) <==> Given(ds, i, f) || (d.index == Some(i) && Sets(d, f))
  {
    assert (ds + [d])[..|ds|] == ds;
  }

  lemma ArgsMore(ds: seq<Delta>, d: Delta, i: nat)
    ensures ArgsOf(ds + [d], i) == ArgsOf(ds, i) + (if d.index == Some(i) then d.args else "")
  {
    assert (ds + [d])[..|ds|] == ds;
  }

  lemma {:induction false} GatheredFields(want: seq<ToolCall>, ds: seq<Delta>, i: nat)
    requires AllFragments(want, ds) && i < |want|
    ensures FieldsOk(Gathered(ds, i), want[i], ds, i)
    decreases |ds|
  {
    hide Merge, FieldsOk, Agrees;
    if ds == [] {
      NoFields(want[i], i);
    } else {
      var n := |ds| - 1;
      GatheredFields(want, ds[..n], i);
      assert FragmentOf(want, ds[n]);
      assert ds == ds[..n] + [ds[n]];
      FieldsMore(Gathered(ds[..n], i), want[i], ds[..n], ds[n], i);
    }
  }

  lemma NoFields(w: ToolCall, i: nat)
    ensures FieldsOk(NO_CALL, w, [], i)
  {
  }

  /** By index, the calls are the gathered fragments. */
  ghost predicate ByIndex(want: seq<ToolCall>, ds: seq<Delta>, calls: seq<ToolCall>) {
    && |calls| <= |want|
    && (forall i :: 0 <= i < |calls| ==> calls[i] == Gathered(ds, i))
    && (forall i :: |calls| <= i < |want| ==> Gathered(ds, i) == NO_CALL)
  }

  lemma AddAt(calls: seq<ToolCall>, d: Delta, j: nat)
    ensures var i, added := Slot(calls, d), Add(calls, d);
      && |added| == (if |calls| > i then |calls| else i + 1)
      && (j < |added| ==>
          added[j] == (var c := if j < |calls| then calls[j] else NO_CALL; if j == i then Merge(c, d) else c))
  {
    hide Merge;
  }

  lemma GatheredNext(ds: seq<Delta>, d: Delta, j: int)
    ensures Gathered(ds + [d], j) == if d.index == Some(j) then Merge(Gathered(ds, j), d) else Gathered(ds, j)
  {
    assert (ds + [d])[..|ds|] == ds;
  }

  lemma AddByIndex(want: seq<ToolCall>, ds: seq<Delta>, d: Delta, calls: seq<ToolCall>)
    requires ByIndex(want, ds, calls) && FragmentOf(want, d) && Slot(calls, d) == d.index.value
    ensures ByIndex(want, ds + [d], Add(calls, d))
  {
    hide Merge, Add, Slot, Gathered;
    AddAt(calls, d, 0);
    forall j: nat | j < |want|
      ensures j < |Add(calls, d)| ==> Add(calls, d)[j] == Gathered(ds + [d], j)
      ensures j >= |Add(calls, d)| ==> Gathered(ds + [d], j) == NO_CALL
    {
      AddAt(calls, d, j);
      GatheredNext(ds, d, j);
    }
  }

  lemma {:induction false} FragmentsGather(want: seq<ToolCall>, ds: seq<Delta>)
    requires AllFragments(want, ds) && WellFormed(want)
    ensures ByIndex(want, ds, After(ds))
    decreases |ds|
  {
    hide ByIndex, Add, Slot, Gathered, WellFormed;
    if ds == [] {
      NothingGathered(want);
    } else {
      var n := |ds| - 1;
      var d, calls := ds[n], After(ds[..n]);
      assert FragmentOf(want, d);
      FragmentsGather(want, ds[..n]);
      FragmentSlot(want, ds[..n], d, calls);
      AddByIndex(want, ds[..n], d, calls);
      assert ds == ds[..n] + [d];
    }
  }

  lemma NothingGathered(want: seq<ToolCall>)
    ensures ByIndex(want, [], [])
  {
  }

  /** The call a fragment's index names is its own. */
  lemma FragmentSlot(want: seq<ToolCall>, ds: seq<Delta>, d: Delta, calls: seq<ToolCall>)
    requires AllFragments(want, ds) && ByIndex(want, ds, calls) && FragmentOf(want, d)
    ensures Slot(calls, d) == d.index.value
  {
    hide Gathered, ArgsOf;
    GatheredFields(want, ds, d.index.value);
  }

  lemma {:induction false} DoneNamed(calls: seq<ToolCall>)
    requires forall i :: 0 <= i < |calls| ==> calls[i].name != ""
    ensures |Done(calls)| == |calls| && forall i :: 0 <= i < |calls| ==> Done(calls)[i] == Finished(calls[i])
    decreases |calls|
  {
    hide Finished, Blank;
    if calls != [] {
      var n := |calls| - 1;
      DoneNamed(calls[..n]);
      assert Done(calls) == Done(calls[..n]) + [Finished(calls[n])];
    }
  }

  /** Whatever the interleaving and the splits, the calls come out as they were, but for blank
      arguments, which become an empty object. */
  lemma FragmentsAssemble(want: seq<ToolCall>, ds: seq<Delta>)
    requires WellFormed(want) && Streams(want, ds)
    ensures var got := Done(After(ds));
      |got| == |want| && forall i :: 0 <= i < |want| ==>
        got[i] == want[i].(args := if Blank(want[i].args) then "{}" else want[i].args)
  {
    hide Gathered, Done, Blank, ArgsOf, Given;
    FragmentsGather(want, ds);
    var calls := After(ds);
    forall i: nat | i < |want| ensures i < |calls| && Finished(calls[i]) == Finished(want[i]) && calls[i].name != "" {
      CallIsComplete(want, ds, i);
    }
    if want != [] {
      CallIsComplete(want, ds, |want| - 1);
    }
    DoneNamed(calls);
    forall i | 0 <= i < |want|
      ensures Done(calls)[i] == want[i].(args := if Blank(want[i].args) then "{}" else want[i].args)
    {
      assert Done(calls)[i] == Finished(calls[i]);
    }
  }

  lemma CallIsComplete(want: seq<ToolCall>, ds: seq<Delta>, i: nat)
    requires WellFormed(want) && Streams(want, ds) && i < |want| && ByIndex(want, ds, After(ds))
    ensures i < |After(ds)| && Finished(After(ds)[i]) == Finished(want[i]) && After(ds)[i].name != ""
  {
    hide Gathered, Blank, ArgsOf, Given, After;
    assert Carries(ds, i, want[i]) && ArgsOf(ds, i) == want[i].args;
    GatheredFields(want, ds, i);
    assert i < |After(ds)| || Gathered(ds, i) == NO_CALL;
  }

  /** The round trip: the very same calls, exactly when none has blank arguments. */
  lemma RoundTripExactlyUnlessBlank(want: seq<ToolCall>, ds: seq<Delta>)
    requires WellFormed(want) && Streams(want, ds)
    ensures Done(After(ds)) == want <==> forall i :: 0 <= i < |want| ==> !Blank(want[i].args)
  {
    FragmentsAssemble(want, ds);
    assert !Blank("{}") by {
      assert "{}"[0] == '{';
    }
    forall i | 0 <= i < |want| && Done(After(ds)) == want ensures !Blank(want[i].args) {
      assert want[i] == want[i].(args := if Blank(want[i].args) then "{}" else want[i].args);
    }
  }

  // ---- fragments without an index ---------------------------------------------------------------

  /** How many calls fragments of these calls have begun. */
  function Begun(owners: seq<nat>): nat {
    if owners == [] then 0
    else
      var n := |owners| - 1;
      if owners[n] < Begun(owners[..n]) then Begun(owners[..n]) else owners[n] + 1
  }

  /** Fragment k is one of call owners[k]: it has no index, but the call's id; or neither, and continues
      the newest call. The calls begin in order. */
  predicate NamedAt(want: seq<ToolCall>, ds: seq<Delta>, owners: seq<nat>, k: nat)
    requires k < |ds| == |owners|
  {
    var begun := Begun(owners[..k]);
    && ds[k].index == None && owners[k] < |want| && owners[k] <= begun
    && (if ds[k].id == "" then owners[k] + 1 == begun else ds[k].id == want[owners[k]].id)
  }

  predicate Named(want: seq<ToolCall>, ds: seq<Delta>, owners: seq<nat>) {
    |ds| == |owners| && forall k: nat :: k < |ds| ==> NamedAt(want, ds, owners, k)
  }

  /** The same fragments with their indexes. */
  function Indexed(ds: seq<Delta>, owners: seq<nat>): seq<Delta>
    requires |ds| == |owners|
  {
    seq(|ds|, k requires 0 <= k < |ds| => ds[k].(index := Some(owners[k])))
  }

  lemma NamedSlot(want: seq<ToolCall>, calls: seq<ToolCall>, d: Delta, o: nat)
    requires WellFormed(want) && |calls| <= |want| && forall i :: 0 <= i < |calls| ==> calls[i].id == want[i].id
    requires d.index == None && o < |want| && o <= |calls|
    requires if d.id == "" then o + 1 == |calls| else d.id == want[o].id
    ensures Slot(calls, d) == o == Slot(calls, d.(index := Some(o)))
  {
    if d.id != "" && o == |calls| {
      NewIdIsLast(calls, d.id);
    }
  }

  lemma NamedAdds(want: seq<ToolCall>, calls: seq<ToolCall>, d: Delta, o: nat)
    requires WellFormed(want) && |calls| <= |want| && forall i :: 0 <= i < |calls| ==> calls[i].id == want[i].id
    requires d.index == None && o < |want| && o <= |calls|
    requires if d.id == "" then o + 1 == |calls| else d.id == want[o].id
    ensures var added := Add(calls, d);
      && Add(calls, d.(index := Some(o))) == added && |added| == (if o < |calls| then |calls| else o + 1)
      && forall i :: 0 <= i < |added| ==> added[i].id == want[i].id
  {
    hide Slot, WellFormed;
    NamedSlot(want, calls, d, o);
    forall i: nat | i < |Add(calls, d)| ensures Add(calls, d)[i].id == want[i].id {
      AddAt(calls, d, i);
    }
    AddAt(calls, d, 0);
  }

  lemma {:induction false} NamedIsIndexed(want: seq<ToolCall>, ds: seq<Delta>, owners: seq<nat>)
    requires WellFormed(want) && Named(want, ds, owners)
    ensures After(ds) == After(Indexed(ds, owners)) && |After(ds)| == Begun(owners) <= |want|
    ensures forall i :: 0 <= i < |After(ds)| ==> After(ds)[i].id == want[i].id
    decreases |ds|
  {
    hide Add, WellFormed;
    if ds != [] {
      var n := |ds| - 1;
      forall k: nat | k < n ensures NamedAt(want, ds[..n], owners[..n], k) {
        assert owners[..n][..k] == owners[..k];
        assert NamedAt(want, ds, owners, k);
      }
      NamedIsIndexed(want, ds[..n], owners[..n]);
      assert NamedAt(want, ds, owners, n);
      NamedAdds(want, After(ds[..n]), ds[n], owners[n]);
      assert Indexed(ds, owners)[..n] == Indexed(ds[..n], owners[..n]);
    }
  }

  /** Fragments without an index, naming their call by its id or continuing the newest, come out as if they had
      their indexes: the calls as they were, but for blank arguments. */
  lemma NamedFragmentsAssemble(want: seq<ToolCall>, ds: seq<Delta>, owners: seq<nat>)
    requires WellFormed(want) && Named(want, ds, owners) && Streams(want, Indexed(ds, owners))
    ensures var got := Done(After(ds));
      |got| == |want| && forall i :: 0 <= i < |want| ==>
        got[i] == want[i].(args := if Blank(want[i].args) then "{}" else want[i].args)
  {
    hide After, Done, Blank, Streams, WellFormed;
    NamedIsIndexed(want, ds, owners);
    FragmentsAssemble(want, Indexed(ds, owners));
  }

  // ---- calls without a name ------------------------------------------------------------------------

  function NamedCount(calls: seq<ToolCall>): nat {
    if calls == [] then 0
    else NamedCount(calls[..|calls| - 1]) + (if calls[|calls| - 1].name == "" then 0 else 1)
  }

  lemma {:induction false} NamedStay(calls: seq<ToolCall>, i: nat)
    ensures |Done(calls)| == NamedCount(calls)
    ensures i < |calls| && calls[i].name != "" ==>
      NamedCount(calls[..i]) < |Done(calls)| && Done(calls)[NamedCount(calls[..i])] == Finished(calls[i])
    decreases |calls|
  {
    hide Finished;
    if calls != [] {
      var n := |calls| - 1;
      NamedStay(calls[..n], i);
      if i < n {
        assert calls[..n][..i] == calls[..i] && calls[..n][i] == calls[i];
      }
    }
  }

  /** Calls that never got a name are dropped; the others stay, in order, with the defaults filled in. */
  lemma NamelessCallsAreDropped(calls: seq<ToolCall>, i: nat)
    ensures |Done(calls)| == NamedCount(calls)
    ensures i < |calls| && calls[i].name != "" ==>
      var c, at := calls[i], NamedCount(calls[..i]);
      at < |Done(calls)| && Done(calls)[at] == c.(
        kind := if c.kind == "" then "function" else c.kind,
        args := if forall k :: 0 <= k < |c.args| ==> IsSpace(c.args[k]) then "{}" else c.args)
  {
    hide IsSpace, Done, NamedCount;
    NamedStay(calls, i);
  }

  // ---- whole calls, all with index 0 or none ---------------------------------------------------

  function Whole(c: ToolCall, indexed: bool): Delta {
    Delta(if indexed then Some(0) else None, c.id, c.kind, c.name, c.args, c.extra)
  }

  /** Each fragment is one whole call, with index 0 or without an index. */
  predicate WholeCalls(want: seq<ToolCall>, ds: seq<Delta>) {
    |ds| == |want| && forall i :: 0 <= i < |want| ==> ds[i] == Whole(want[i], true) || ds[i] == Whole(want[i], false)
  }

  lemma NewIdIsLast(calls: seq<ToolCall>, id: string)
    requires forall i :: 0 <= i < |calls| ==> calls[i].id != id
    ensures FindId(calls, id) == |calls|
  {
  }

  lemma WholePrefix(want: seq<ToolCall>, ds: seq<Delta>, n: nat)
    requires WellFormed(want) && WholeCalls(want, ds) && n <= |want|
    ensures WellFormed(want[..n]) && WholeCalls(want[..n], ds[..n])
  {
  }

  /** A whole call of an id not seen yet is added as it is. */
  lemma WholeCallIsAdded(calls: seq<ToolCall>, c: ToolCall, indexed: bool)
    requires c.id != "" && c.extra != "null" && forall i :: 0 <= i < |calls| ==>
        calls[i].id != c.id && calls[i].id != ""
    ensures Add(calls, Whole(c, indexed)) == calls + [c]
  {
    var d := Whole(c, indexed);
    NewIdIsLast(calls, c.id);
    assert Slot(calls, d) == |calls|;
    var grown := Grown(calls, |calls| + 1);
    assert grown == calls + [NO_CALL];
    assert Merge(NO_CALL, d) == c;
  }

  lemma {:induction false} WholeCallsCollect(want: seq<ToolCall>, ds: seq<Delta>)
    requires WellFormed(want) && WholeCalls(want, ds)
    ensures After(ds) == want
    decreases |ds|
  {
    hide Add, Whole;
    if ds != [] {
      var n := |ds| - 1;
      WholePrefix(want, ds, n);
      WholeCallsCollect(want[..n], ds[..n]);
      WholeCallIsAdded(want[..n], want[n], ds[n] == Whole(want[n], true));
      assert want == want[..n] + [want[n]];
    }
  }

  lemma WholeCallsAssemble(want: seq<ToolCall>, ds: seq<Delta>)
    requires WellFormed(want) && WholeCalls(want, ds)
    ensures After(ds) == want
    ensures Done(After(ds)) == want <==> forall i :: 0 <= i < |want| ==> !Blank(want[i].args)
  {
    hide After;
    WholeCallsCollect(want, ds);
    DoneNamed(want);
    assert !Blank("{}") by {
      assert "{}"[0] == '{';
    }
    forall i | 0 <= i < |want| && Done(want) == want ensures !Blank(want[i].args) {
      assert want[i] == Finished(want[i]);
    }
  }

  // ---- the assembler ------------------------------------------------------------------------

  class Assembler {
    var calls: seq<ToolCall>

    constructor ()
      ensures calls == []
    {
      calls := [];
    }

    method AddDelta(d: Delta)
      modifies this
      ensures calls == Add(old(calls), d)
    {
      var i := FindSlot(d);
      ghost var grown := calls;
      var c := calls[i];
      if d.id != "" {
        c := c.(id := d.id);
      }
      if d.kind != "" {
        c := c.(kind := d.kind);
      }
      if d.name != "" {
        c := c.(name := d.name);
      }
      c := c.(args := c.args + d.args);
      if d.extra != "" && d.extra != "null" {
        c := c.(extra := d.extra);
      }
      assert c == Merge(grown[i], d);
      calls := calls[i := c];
    }

    /** Grows the list when the slot is new. */
    method FindSlot(d: Delta) returns (i: nat)
      modifies this
      ensures i == Slot(old(calls), d) && i < |calls| && calls == Grown(old(calls), i + 1)
    {
      if d.index.Some? && d.index.value >= 0 {
        i := d.index.value;
        if i >= |calls| {
          while |calls| <= i
            invariant |calls| <= i + 1 && |old(calls)| <= |calls| && calls == Grown(old(calls), |calls|)
            decreases i + 1 - |calls|
          {
            calls := calls + [NO_CALL];
          }
          return;
        }
        if d.id == "" || calls[i].id == "" || calls[i].id == d.id {
          return;
        }
      }
      if d.id != "" {
        i := IndexOf(d.id);
        if i == |calls| {
          calls := calls + [NO_CALL];
        }
        return;
      }
      if |calls| == 0 {
        calls := calls + [NO_CALL];
      }
      i := |calls| - 1;
    }

    method IndexOf(id: string) returns (i: nat)
      ensures i == FindId(calls, id)
    {
      i := 0;
      while i < |calls| && calls[i].id != id
        invariant i <= |calls| && forall j :: 0 <= j < i ==> calls[j].id != id
      {
        i := i + 1;
      }
      FirstIsFound(calls, id, i);
    }

    method Finish() returns (out: seq<ToolCall>)
      ensures out == Done(calls)
    {
      out := [];
      for i := 0 to |calls|
        invariant out == Done(calls[..i])
      {
        assert calls[..i + 1][..i] == calls[..i];
        var c := calls[i];
        if c.name == "" {
          continue;
        }
        if c.kind == "" {
          c := c.(kind := "function");
        }
        if Blank(c.args) {
          c := c.(args := "{}");
        }
        out := out + [c];
      }
      assert calls[..|calls|] == calls;
    }
  }

  lemma FirstIsFound(calls: seq<ToolCall>, id: string, i: nat)
    requires i <= |calls| && (forall j :: 0 <= j < i ==> calls[j].id != id) && (i < |calls| ==> calls[i].id == id)
    ensures FindId(calls, id) == i
  {
    var f := FindId(calls, id);
    assert f >= i;
  }
}
