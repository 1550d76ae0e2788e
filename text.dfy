/**
 * The text cursor of the client's text composer (app/src/Text.js): a Text
 * is its string cut into paragraphs at '\n', and a TextCursor walks it one
 * character at a time with next, stepping back with rewind.
 */
module Text {
  import JsString

  /** What next hands out: a character, END_PARAGRAPH (-1) or END_TEXT (-2). */
  datatype Token = Char(c: char) | EndParagraph | EndText

  /** The paragraphs of a string: the text split at '\n'. */
  function Paragraphs(str: string): (pars: seq<string>)
    ensures |pars| >= 1
    ensures forall k :: 0 <= k < |pars| ==> '\n' !in pars[k]
    ensures JsString.Join(pars, '\n') == str
  {
    JsString.JoinSplit(str, '\n');
    JsString.Split(str, '\n')
  }

  /** A cursor position: paragraph p, character i of it (i == length: its end). */
  predicate ValidPos(pars: seq<string>, p: int, i: int) {
    0 <= p < |pars| && 0 <= i <= |pars[p]|
  }

  /** What next does: the token handed out and the new position. */
  function NextStep(pars: seq<string>, p: int, i: int): (r: (Token, int, int))
    requires ValidPos(pars, p, i)
    ensures ValidPos(pars, r.1, r.2)
    ensures i < |pars[p]| ==> r == (Char(pars[p][i]), p, i + 1)
    ensures i == |pars[p]| && p + 1 < |pars| ==> r == (EndParagraph, p + 1, 0)
    ensures i == |pars[p]| && p + 1 == |pars| ==> r == (EndText, 0, 0)
  {
    if i >= |pars[p]| then
      if p + 1 >= |pars| then (EndText, 0, 0) else (EndParagraph, p + 1, 0)
    else (Char(pars[p][i]), p, i + 1)
  }

  /**
   * What rewind does, with the step back into an empty paragraph kept at
   * its start: the last character of the previous paragraph, or (0, 0)
   * from the very start of the text.
   */
  function RewindStep(pars: seq<string>, p: int, i: int): (r: (int, int))
    requires ValidPos(pars, p, i)
    ensures ValidPos(pars, r.0, r.1)
    ensures i > 0 ==> r == (p, i - 1)
    ensures i == 0 && p == 0 ==> r == (0, 0)
    ensures i == 0 && p > 0 && |pars[p - 1]| > 0 ==> r == (p - 1, |pars[p - 1]| - 1)
    ensures i == 0 && p > 0 && |pars[p - 1]| == 0 ==> r == (p - 1, 0)
  {
    if i - 1 < 0 then
      if p - 1 < 0 then (0, 0)
      else if |pars[p - 1]| - 1 < 0 then (p - 1, 0)
      else (p - 1, |pars[p - 1]| - 1)
    else (p, i - 1)
  }

  /** rewind AS WRITTEN: into an empty paragraph it sets i to -1. */
  function RewindStepAsWritten(pars: seq<string>, p: int, i: int): (r: (int, int))
    requires ValidPos(pars, p, i)
    ensures 0 <= r.0 < |pars|
    ensures ValidPos(pars, r.0, r.1) || (r.1 == -1 && |pars[r.0]| == 0)
  {
    if i - 1 < 0 then
      if p - 1 < 0 then (0, 0) else (p - 1, |pars[p - 1]| - 1)
    else (p, i - 1)
  }

  /** From the start of "a", "", "b" a rewind leaves (1, -1), outside the text. */
  lemma RewindAsWrittenLeavesText()
    ensures ValidPos(["a", "", "b"], 2, 0)
    ensures RewindStepAsWritten(["a", "", "b"], 2, 0) == (1, -1)
    ensures !ValidPos(["a", "", "b"], 1, -1)
    ensures RewindStep(["a", "", "b"], 2, 0) == (1, 0)
  {
  }

  /** Within a paragraph, rewind undoes next: next then re-reads the same character. */
  lemma RewindUndoesNext(pars: seq<string>, p: int, i: int)
    requires ValidPos(pars, p, i) && i < |pars[p]|
    ensures var (t, p1, i1) := NextStep(pars, p, i);
      RewindStep(pars, p1, i1) == (p, i) && NextStep(pars, p, i).0 == t
  {
  }

  /** The tokens of k calls of next from (p, i). */
  function Run(pars: seq<string>, p: int, i: int, k: nat): seq<Token>
    requires ValidPos(pars, p, i)
    decreases k
  {
    if k == 0 then []
    else
      var (t, p1, i1) := NextStep(pars, p, i);
      [t] + Run(pars, p1, i1, k - 1)
  }

  function Chars(s: string): (r: seq<Token>)
    ensures |r| == |s| && forall k :: 0 <= k < |s| ==> r[k] == Char(s[k])
  {
    if |s| == 0 then [] else [Char(s[0])] + Chars(s[1..])
  }

  /** What is left to read from (p, i): the rest of the paragraphs, each with its end mark. */
  function Remaining(pars: seq<string>, p: int, i: int): seq<Token>
    requires ValidPos(pars, p, i)
    decreases |pars| - p
  {
    Chars(pars[p][i..]) + if p + 1 < |pars| then [EndParagraph] + Remaining(pars, p + 1, 0) else [EndText]
  }

  /** Reading on from (p, i) hands out exactly what remains, ending in END_TEXT at (0, 0). */
  lemma {:induction false} RunReadsRemaining(pars: seq<string>, p: int, i: int)
    requires ValidPos(pars, p, i)
    ensures Run(pars, p, i, |Remaining(pars, p, i)|) == Remaining(pars, p, i)
    decreases |pars| - p, |pars[p]| - i
  {
    var rem := Remaining(pars, p, i);
    var n := |rem|;
    if i < |pars[p]| {
      var rest := Remaining(pars, p, i + 1);
      assert pars[p][i..] == [pars[p][i]] + pars[p][i + 1..];
      assert Chars(pars[p][i..]) == [Char(pars[p][i])] + Chars(pars[p][i + 1..]);
      assert rem == [Char(pars[p][i])] + rest;
      RunReadsRemaining(pars, p, i + 1);
      assert Run(pars, p, i, n) == [Char(pars[p][i])] + Run(pars, p, i + 1, n - 1);
    } else if p + 1 < |pars| {
      var rest := Remaining(pars, p + 1, 0);
      assert pars[p][i..] == [];
      assert rem == [EndParagraph] + rest;
      RunReadsRemaining(pars, p + 1, 0);
      assert Run(pars, p, i, n) == [EndParagraph] + Run(pars, p + 1, 0, n - 1);
    } else {
      assert pars[p][i..] == [];
      assert rem == [EndText];
      assert Run(pars, p, i, 1) == [EndText] + Run(pars, 0, 0, 0);
    }
  }

  /** A whole read from the start hands out every character of the text, then END_TEXT. */
  lemma ReadWholeText(str: string)
    ensures var pars := Paragraphs(str);
      Run(pars, 0, 0, |Remaining(pars, 0, 0)|) == Remaining(pars, 0, 0)
  {
    RunReadsRemaining(Paragraphs(str), 0, 0);
  }

  /** A Text: its paragraphs never change after construction. */
  class TextValue {
    const str: string
    const paragraphs: seq<string>

    ghost predicate Valid() {
      paragraphs == Paragraphs(str)
    }

    /** new Text(str): fonts are not part of this model. */
    constructor (s: string)
      ensures str == s && paragraphs == Paragraphs(s) && Valid()
    {
      str := s;
      paragraphs := Paragraphs(s);
    }

    /** cursor(): a fresh cursor at the start of the text. */
    method Cursor() returns (c: TextCursor)
      requires Valid()
      ensures fresh(c) && c.pars == paragraphs && c.p == 0 && c.i == 0 && c.Valid()
    {
      c := new TextCursor(paragraphs);
    }
  }

  class TextCursor {
    const pars: seq<string>
    var p: int
    var i: int

    ghost predicate Valid()
      reads this
    {
      ValidPos(pars, p, i)
    }

    constructor (paragraphs: seq<string>)
      requires |paragraphs| >= 1
      ensures pars == paragraphs && p == 0 && i == 0 && Valid()
    {
      pars := paragraphs;
      p := 0;
      i := 0;
    }

    method Next() returns (t: Token)
      requires Valid()
      modifies this
      ensures Valid() && (t, p, i) == NextStep(pars, old(p), old(i))
    {
      var par := pars[p];
      if i >= |par| {
        p := p + 1;
        i := 0;
        if p >= |pars| {
          p := 0;
          return EndText;
        }
        return EndParagraph;
      }
      t := Char(par[i]);
      i := i + 1;
    }

    method Rewind()
      requires Valid()
      modifies this
      ensures Valid() && (p, i) == RewindStep(pars, old(p), old(i))
    {
      var k := i - 1;
      if k < 0 {
        p := p - 1;
        if p < 0 {
          p := 0;
          i := 0;
          return;
        }
        var par := pars[p];
        i := if |par| - 1 < 0 then 0 else |par| - 1;
        return;
      }
      i := k;
    }
  }
}
