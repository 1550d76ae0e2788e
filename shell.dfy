/**
 * The command-line tokenizer of the client shell (app/lib/Shell.js):
 * getCliChunk, cliSplit and the pipe split done by exec.
 */
module Shell {
  import JsString

  /**
   * Where getCliChunk stops when it reads from start: at the first endChar,
   * or at the end of the input.
   */
  function ChunkEnd(chars: string, start: nat, endChar: char): (e: nat)
    requires start <= |chars|
    ensures start <= e <= |chars|
    ensures endChar !in chars[start..e]
    ensures e < |chars| ==> chars[e] == endChar
    decreases |chars| - start
  {
    if start == |chars| || chars[start] == endChar then start
    else
      var e := ChunkEnd(chars, start + 1, endChar);
      assert chars[start..e] == [chars[start]] + chars[start + 1..e];
      e
  }

  /** getCliChunk(chars, start, endChar) */
  method GetCliChunk(chars: string, start: nat, endChar: char) returns (chunk: string)
    requires start <= |chars|
    ensures chunk == chars[start..ChunkEnd(chars, start, endChar)]
  {
    chunk := "";
    var i := start;
    while i < |chars|
      invariant start <= i <= |chars|
      invariant chunk == chars[start..i] && endChar !in chunk
      invariant ChunkEnd(chars, start, endChar) >= i
    {
      var c := chars[i];
      if endChar == c {
        break;
      }
      chunk := chunk + [c];
      i := i + 1;
    }
    ChunkEndUnique(chars, start, i, endChar);
  }

  /** The first endChar at or after start is where the chunk ends. */
  lemma ChunkEndUnique(chars: string, start: nat, e: nat, endChar: char)
    requires start <= e <= |chars| && endChar !in chars[start..e]
    requires e < |chars| ==> chars[e] == endChar
    ensures ChunkEnd(chars, start, endChar) == e
  {
  }

  /**
   * The tokens cliSplit reads from position i on: a token in double or
   * single quotes runs to the matching quote (or the end) and loses its
   * quotes; any other non-space starts a token that runs to the next space.
   */
  function TokensFrom(chars: string, i: nat): (r: seq<string>)
    decreases |chars| - i
  {
    if i >= |chars| then []
    else if chars[i] == '"' || chars[i] == '\'' then
      var chunk := chars[i + 1..ChunkEnd(chars, i + 1, chars[i])];
      [chunk] + TokensFrom(chars, i + |chunk| + 2)
    else if chars[i] != ' ' then
      var chunk := chars[i..ChunkEnd(chars, i, ' ')];
      [chunk] + TokensFrom(chars, i + |chunk| + 1)
    else TokensFrom(chars, i + 1)
  }

  /** cliSplit(str): the tokens of the trimmed string. */
  method CliSplit(str: string) returns (ret: seq<string>)
    ensures ret == TokensFrom(JsString.Trim(str), 0)
  {
    ret := Tokenize(JsString.Trim(str));
  }

  /** The loop of cliSplit over the characters of the trimmed line. */
  method Tokenize(chars: string) returns (ret: seq<string>)
    ensures ret == TokensFrom(chars, 0)
  {
    ret := [];
    var i := 0;
    ghost var all := TokensFrom(chars, 0);
    while i < |chars|
      invariant 0 <= i <= |chars| + 1
      invariant ret + TokensFrom(chars, i) == all
      decreases |chars| - i
    {
      var c := chars[i];
      if '"' == c || '\'' == c {
        var chunk := GetCliChunk(chars, i + 1, c);
        QuotedStep(chars, i, ret, chunk);
        i, ret := i + |chunk| + 2, ret + [chunk];
      } else if ' ' != c {
        var chunk := GetCliChunk(chars, i, ' ');
        WordStep(chars, i, ret, chunk);
        i, ret := i + |chunk| + 1, ret + [chunk];
      } else {
        SpaceStep(chars, i);
        i := i + 1;
      }
    }
  }

  /** One step of the tokenizer loop over a quoted token. */
  lemma QuotedStep(chars: string, i: nat, ret: seq<string>, chunk: string)
    requires i < |chars| && (chars[i] == '"' || chars[i] == '\'')
    requires chunk == chars[i + 1..ChunkEnd(chars, i + 1, chars[i])]
    ensures ret + TokensFrom(chars, i) == (ret + [chunk]) + TokensFrom(chars, i + |chunk| + 2)
  {
    TokensQuoted(chars, i);
    AppendToken(ret, chunk, TokensFrom(chars, i + |chunk| + 2));
  }

  /** One step of the tokenizer loop over a word token. */
  lemma WordStep(chars: string, i: nat, ret: seq<string>, chunk: string)
    requires i < |chars| && chars[i] != '"' && chars[i] != '\'' && chars[i] != ' '
    requires chunk == chars[i..ChunkEnd(chars, i, ' ')]
    ensures ret + TokensFrom(chars, i) == (ret + [chunk]) + TokensFrom(chars, i + |chunk| + 1)
  {
    TokensWord(chars, i);
    AppendToken(ret, chunk, TokensFrom(chars, i + |chunk| + 1));
  }

  /** A space between tokens is skipped. */
  lemma SpaceStep(chars: string, i: nat)
    requires i < |chars| && chars[i] == ' '
    ensures TokensFrom(chars, i) == TokensFrom(chars, i + 1)
  {
  }

  lemma AppendToken(ret: seq<string>, chunk: string, rest: seq<string>)
    ensures ret + ([chunk] + rest) == (ret + [chunk]) + rest
  {
  }

  lemma TokensQuoted(chars: string, i: nat)
    requires i < |chars| && (chars[i] == '"' || chars[i] == '\'')
    ensures var chunk := chars[i + 1..ChunkEnd(chars, i + 1, chars[i])];
      TokensFrom(chars, i) == [chunk] + TokensFrom(chars, i + |chunk| + 2)
  {
  }

  lemma TokensWord(chars: string, i: nat)
    requires i < |chars| && chars[i] != '"' && chars[i] != '\'' && chars[i] != ' '
    ensures var chunk := chars[i..ChunkEnd(chars, i, ' ')];
      TokensFrom(chars, i) == [chunk] + TokensFrom(chars, i + |chunk| + 1)
  {
  }

  /** A line that is empty or all white space has no tokens. */
  lemma BlankLineHasNoTokens(str: string)
    requires JsString.AllWhitespace(str)
    ensures TokensFrom(JsString.Trim(str), 0) == []
  {
  }

  /** Spaces between tokens are skipped. */
  lemma {:induction false} SpacesSkipped(chars: string, i: nat, j: nat)
    requires i <= j <= |chars| && forall k :: i <= k < j ==> chars[k] == ' '
    ensures TokensFrom(chars, i) == TokensFrom(chars, j)
    decreases j - i
  {
    if i < j {
      SpacesSkipped(chars, i + 1, j);
    }
  }

  /** A double-quoted word becomes one token, without its quotes, spaces and all. */
  lemma QuotedToken(pre: string, w: string, post: string)
    requires '"' !in w
    ensures var chars := pre + ['"'] + w + ['"'] + post;
      TokensFrom(chars, |pre|) == [w] + TokensFrom(chars, |pre| + |w| + 2)
  {
    var chars := pre + ['"'] + w + ['"'] + post;
    var i, e := |pre|, |pre| + |w| + 1;
    assert chars[i] == '"' && chars[e] == '"';
    assert chars[i + 1..e] == w;
    QuotedAt(chars, i, e);
  }

  /** A token in double quotes, read from its opening to its closing quote. */
  lemma QuotedAt(chars: string, i: nat, e: nat)
    requires i < e < |chars| && chars[i] == '"' && chars[e] == '"' && '"' !in chars[i + 1..e]
    ensures TokensFrom(chars, i) == [chars[i + 1..e]] + TokensFrom(chars, e + 1)
  {
    ChunkEndUnique(chars, i + 1, e, '"');
    TokensQuoted(chars, i);
  }

  /** A word without spaces or a leading quote, followed by a space, is one token. */
  lemma WordToken(pre: string, w: string, post: string)
    requires |w| > 0 && w[0] != '"' && w[0] != '\'' && ' ' !in w
    ensures var chars := pre + w + [' '] + post;
      TokensFrom(chars, |pre|) == [w] + TokensFrom(chars, |pre| + |w| + 1)
  {
    var chars := pre + w + [' '] + post;
    var i, e := |pre|, |pre| + |w|;
    assert chars[i] == w[0] && chars[e] == ' ';
    assert chars[i..e] == w;
    WordAt(chars, i, e);
  }

  /** A word token, read from its first character to the space after it. */
  lemma WordAt(chars: string, i: nat, e: nat)
    requires i < e < |chars| && chars[i] != '"' && chars[i] != '\'' && chars[e] == ' ' && ' ' !in chars[i..e]
    ensures TokensFrom(chars, i) == [chars[i..e]] + TokensFrom(chars, e + 1)
  {
    ChunkEndUnique(chars, i, e, ' ');
    TokensWord(chars, i);
  }

  /** 'cmd "arg0 arg1"' reads as two tokens, the quoted one whole. */
  lemma ExampleQuotedArgument(chars: string)
    requires chars == "cmd \"arg0 arg1\""
    ensures TokensFrom(chars, 0) == ["cmd", "arg0 arg1"]
  {
    ExampleFirstToken(chars);
    ExampleSecondToken(chars);
    assert TokensFrom(chars, 15) == [];
  }

  lemma ExampleFirstToken(chars: string)
    requires chars == "cmd \"arg0 arg1\""
    ensures TokensFrom(chars, 0) == ["cmd"] + TokensFrom(chars, 4)
  {
    assert chars[0..3] == "cmd" && chars[3] == ' ';
    WordAt(chars, 0, 3);
  }

  lemma ExampleSecondToken(chars: string)
    requires chars == "cmd \"arg0 arg1\""
    ensures TokensFrom(chars, 4) == ["arg0 arg1"] + TokensFrom(chars, 15)
  {
    assert chars[5..14] == "arg0 arg1" && chars[4] == '"' && chars[14] == '"';
    QuotedAt(chars, 4, 14);
  }

  /** How exec runs a line: one command, or a pipeline of the '|' segments. */
  datatype Plan = One(tokens: seq<string>) | Pipeline(stages: seq<seq<string>>)

  /** The tokens of one segment, trimmed as execOne and execMany do. */
  function SegmentTokens(seg: string): seq<string> {
    TokensFrom(JsString.Trim(JsString.Trim(seg)), 0)
  }

  function StageTokens(segs: seq<string>): (r: seq<seq<string>>)
    ensures |r| == |segs| && forall k :: 0 <= k < |segs| ==> r[k] == SegmentTokens(segs[k])
  {
    if |segs| == 0 then [] else [SegmentTokens(segs[0])] + StageTokens(segs[1..])
  }

  /** segs are the '|'-free pieces that t is made of. */
  predicate PipeSegments(segs: seq<string>, t: string) {
    JsString.Join(segs, '|') == t && forall k :: 0 <= k < |segs| ==> '|' !in segs[k]
  }

  /** Those pieces are determined by t: they are its '|' split. */
  lemma PipeSegmentsUnique(segs: seq<string>, t: string)
    requires |segs| >= 1 && PipeSegments(segs, t)
    ensures segs == JsString.Split(t, '|')
  {
    JsString.SplitJoin(segs, '|');
  }

  /** exec(cl): the trimmed line split at every '|'. */
  function Exec(cl: string): (plan: Plan)
    ensures plan.One? <==> '|' !in JsString.Trim(cl)
    ensures plan.Pipeline? ==> |plan.stages| == multiset(JsString.Trim(cl))['|'] + 1
    ensures plan.Pipeline? ==> exists segs :: PipeSegments(segs, JsString.Trim(cl)) && plan.stages == StageTokens(segs)
  {
    var t := JsString.Trim(cl);
    var cls := JsString.Split(t, '|');
    JsString.SplitCount(t, '|');
    JsString.JoinSplit(t, '|');
    assert '|' in t <==> '|' in multiset(t);
    if |cls| == 1 then One(SegmentTokens(cls[0]))
    else
      assert PipeSegments(cls, t);
      Pipeline(StageTokens(cls))
  }

  /** A line without '|' runs as the one command its tokens spell. */
  lemma ExecOneCommand(cl: string)
    requires '|' !in JsString.Trim(cl)
    ensures Exec(cl) == One(SegmentTokens(JsString.Trim(cl)))
  {
    var t := JsString.Trim(cl);
    JsString.JoinSplit(t, '|');
  }
}
