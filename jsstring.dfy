/**
 * The JavaScript string operations the client cores lean on:
 * String.prototype.trim and String.prototype.split / Array.prototype.join
 * with a one-character separator.
 */
module JsString {
  /** The characters trim strips: WhiteSpace and LineTerminator of ECMAScript. */
  predicate IsWhitespace(c: char) {
    c == ' ' || c == '\t' || c == '\n' || c == '\r' || c == '\U{000B}' || c == '\U{000C}' ||
    c == '\U{00A0}' || c == '\U{1680}' || ('\U{2000}' <= c <= '\U{200A}') ||
    c == '\U{2028}' || c == '\U{2029}' || c == '\U{202F}' || c == '\U{205F}' ||
    c == '\U{3000}' || c == '\U{FEFF}'
  }

  predicate AllWhitespace(s: string) {
    forall k :: 0 <= k < |s| ==> IsWhitespace(s[k])
  }

  /** The length of the white run that starts s. */
  function LeadingWhite(s: string): (a: nat)
    ensures a <= |s| && AllWhitespace(s[..a])
    ensures a < |s| ==> !IsWhitespace(s[a])
  {
    if |s| > 0 && IsWhitespace(s[0]) then
      var a := LeadingWhite(s[1..]) + 1;
      assert s[..a] == [s[0]] + s[1..][..a - 1];
      a
    else 0
  }

  /** Where the white run that ends s starts. */
  function TrailingWhite(s: string): (b: nat)
    ensures b <= |s| && AllWhitespace(s[b..])
    ensures b > 0 ==> !IsWhitespace(s[b - 1])
  {
    if |s| > 0 && IsWhitespace(s[|s| - 1]) then
      var b := TrailingWhite(s[..|s| - 1]);
      assert s[b..] == s[..|s| - 1][b..] + [s[|s| - 1]];
      b
    else |s|
  }

  /**
   * trim: the string without its leading and trailing white space; what is
   * left is empty or starts and ends with a non-white character.
   */
  function Trim(s: string): (r: string)
    ensures |r| > 0 ==> !IsWhitespace(r[0]) && !IsWhitespace(r[|r| - 1])
    ensures |r| > 0 ==> LeadingWhite(s) < TrailingWhite(s) && r == s[LeadingWhite(s)..TrailingWhite(s)]
    ensures AllWhitespace(s) <==> r == []
  {
    var a, b := LeadingWhite(s), TrailingWhite(s);
    if a == |s| then
      assert s[..a] == s;
      ""
    else
      assert !IsWhitespace(s[a]);
      s[a..b]
  }

  /** split(sep): the pieces between the occurrences of sep. */
  function Split(s: string, sep: char): (r: seq<string>)
    ensures |r| >= 1
    ensures forall k :: 0 <= k < |r| ==> sep !in r[k]
  {
    if |s| == 0 then [""]
    else
      var rest := Split(s[1..], sep);
      if s[0] == sep then [""] + rest
      else [[s[0]] + rest[0]] + rest[1..]
  }

  /** There is one more piece than there are separators. */
  lemma {:induction false} SplitCount(s: string, sep: char)
    ensures |Split(s, sep)| == multiset(s)[sep] + 1
  {
    if |s| > 0 {
      SplitCount(s[1..], sep);
      assert s == [s[0]] + s[1..];
    }
  }

  /** join(sep) */
  function Join(parts: seq<string>, sep: char): (r: string)
    ensures |parts| == 1 ==> r == parts[0]
  {
    if |parts| == 0 then ""
    else if |parts| == 1 then parts[0]
    else parts[0] + [sep] + Join(parts[1..], sep)
  }

  /** Joining the pieces of a split gives back the string. */
  lemma {:induction false} JoinSplit(s: string, sep: char)
    ensures Join(Split(s, sep), sep) == s
  {
    if |s| > 0 {
      JoinSplit(s[1..], sep);
      var rest := Split(s[1..], sep);
      var r := Split(s, sep);
      assert s == [s[0]] + s[1..];
      if s[0] == sep {
        assert r == [""] + rest && r[1..] == rest;
        assert Join(r, sep) == "" + [sep] + Join(rest, sep);
      } else if |rest| == 1 {
        assert r == [[s[0]] + rest[0]];
      } else {
        assert r[0] == [s[0]] + rest[0] && r[1..] == rest[1..];
        assert Join(r, sep) == r[0] + [sep] + Join(rest[1..], sep);
        assert Join(rest, sep) == rest[0] + [sep] + Join(rest[1..], sep);
        assert r[0] + [sep] + Join(rest[1..], sep) == [s[0]] + (rest[0] + [sep] + Join(rest[1..], sep));
      }
    }
  }

  /** A prefix free of sep stays glued to the first piece of the rest. */
  lemma {:induction false} SplitPrefix(p: string, t: string, sep: char)
    requires sep !in p
    ensures Split(p + t, sep) == [p + Split(t, sep)[0]] + Split(t, sep)[1..]
  {
    if |p| > 0 {
      assert (p + t)[1..] == p[1..] + t;
      SplitPrefix(p[1..], t, sep);
      var st, r := Split(t, sep), Split(p[1..] + t, sep);
      assert p[0] != sep;
      assert Split(p + t, sep) == [[p[0]] + r[0]] + r[1..];
      assert [p[0]] + (p[1..] + st[0]) == p + st[0];
    } else {
      assert p + t == t;
      var r := Split(t, sep);
      assert p + r[0] == r[0];
      assert r == [r[0]] + r[1..];
    }
  }

  /** Splitting a join of sep-free pieces gives back the pieces. */
  lemma {:induction false} SplitJoin(parts: seq<string>, sep: char)
    requires |parts| >= 1
    requires forall k :: 0 <= k < |parts| ==> sep !in parts[k]
    ensures Split(Join(parts, sep), sep) == parts
  {
    if |parts| == 1 {
      SplitPrefix(parts[0], "", sep);
      assert parts[0] + "" == parts[0];
    } else {
      var tail := Join(parts[1..], sep);
      SplitJoin(parts[1..], sep);
      var u := [sep] + tail;
      assert Join(parts, sep) == parts[0] + u;
      SplitPrefix(parts[0], u, sep);
      assert u[0] == sep && u[1..] == tail;
      var su := Split(u, sep);
      assert su == [""] + parts[1..];
      assert su[0] == "" && su[1..] == parts[1..];
      assert parts[0] + "" == parts[0];
      assert parts == [parts[0]] + parts[1..];
    }
  }
}
