/** Text as runes. What the Unicode tables say of a rune (space, letter, digit, combining mark)
    are attributes of it; punctuation the code names is recognised by code point. */
module Runes {

  datatype Rune = Rune(code: nat, space: bool, letter: bool, digit: bool, mark: bool)

  type Text = seq<Rune>

  const SPACE := Rune(0x20, true, false, false, false)

  /** '.', '!', '?', newline, danda, double danda. */
  predicate IsDelimiter(r: Rune) {
    r.code in {0x2E, 0x21, 0x3F, 0x0A, 0x0964, 0x0965}
  }

  predicate IsPeriod(r: Rune) { r.code == 0x2E }

  predicate IsComma(r: Rune) { r.code == 0x2C }

  /** ',', ';' or ':'. */
  predicate IsPause(r: Rune) { r.code in {0x2C, 0x3B, 0x3A} }

  predicate IsVirama(r: Rune) { r.code == 0x094D }

  predicate IsContent(r: Rune) { r.letter || r.digit }

  /** Without leading and trailing spaces. */
  function Trim(t: Text): Text {
    TrimRight(TrimLeft(t))
  }

  /** Some rune of it is no space. */
  predicate HasWords(t: Text) {
    exists i :: 0 <= i < |t| && !t[i].space
  }

  lemma {:induction false} TrimLeftLeaves(t: Text)
    ensures HasWords(t) ==> TrimLeft(t) != [] && HasWords(TrimLeft(t))
    ensures !HasWords(t) ==> TrimLeft(t) == []
    decreases |t|
  {
    if t != [] && t[0].space {
      TrimLeftLeaves(t[1..]);
      if HasWords(t) {
        var i :| 0 <= i < |t| && !t[i].space;
        assert t[1..][i - 1] == t[i];
      }
      if HasWords(t[1..]) {
        var i :| 0 <= i < |t[1..]| && !t[1..][i].space;
        assert t[i + 1] == t[1..][i];
      }
    }
  }

  lemma {:induction false} TrimRightLeaves(t: Text)
    ensures HasWords(t) ==> TrimRight(t) != []
    decreases |t|
  {
    if t != [] && t[|t| - 1].space {
      TrimRightLeaves(t[..|t| - 1]);
      if HasWords(t) {
        var i :| 0 <= i < |t| && !t[i].space;
        assert t[..|t| - 1][i] == t[i];
      }
    }
  }

  lemma TrimIsEmpty(t: Text)
    ensures Trim(t) == [] <==> !HasWords(t)
  {
    TrimLeftLeaves(t);
    TrimRightLeaves(TrimLeft(t));
  }

  function TrimLeft(t: Text): Text {
    if t != [] && t[0].space then TrimLeft(t[1..]) else t
  }

  function TrimRight(t: Text): Text {
    if t != [] && t[|t| - 1].space then TrimRight(t[..|t| - 1]) else t
  }

  /** The runes that are no spaces. */
  function Bare(t: Text): Text {
    if t == [] then [] else (if t[0].space then [] else [t[0]]) + Bare(t[1..])
  }

  lemma BareCons(r: Rune, t: Text)
    ensures Bare([r] + t) == (if r.space then [] else [r]) + Bare(t)
  {
    assert ([r] + t)[1..] == t;
  }

  lemma BareNone()
    ensures Bare([]) == []
  {
  }

  lemma {:induction false} BareAppend(a: Text, b: Text)
    ensures Bare(a + b) == Bare(a) + Bare(b)
  {
    hide Bare;
    if a == [] {
      BareNone();
      assert a + b == b;
    } else {
      BareAppend(a[1..], b);
      BareCons(a[0], a[1..]);
      BareCons(a[0], a[1..] + b);
      assert a == [a[0]] + a[1..] && a + b == [a[0]] + (a[1..] + b);
      var first := if a[0].space then [] else [a[0]];
      assert first + (Bare(a[1..]) + Bare(b)) == (first + Bare(a[1..])) + Bare(b);
    }
  }
}
