/**
 * `indentString` (src/audiolib/Utils.cpp): read the input line by line
 * with `std::getline` and write every line back with an indent of `n`
 * copies of `ch` in front and a newline behind.
 */
module Utils {
  import opened Wrappers

  /** The index of the first '\n' at or after `i`, or `|s|` when there is none. */
  function LineEnd(s: string, i: nat): (e: nat)
    requires i <= |s|
    ensures i <= e <= |s|
    ensures e < |s| ==> s[e] == '\n'
    ensures forall k :: i <= k < e ==> s[k] != '\n'
    decreases |s| - i
  {
    if i == |s| || s[i] == '\n' then i else LineEnd(s, i + 1)
  }

  /**
   * The lines `std::getline` extracts from `s`: the pieces between
   * newlines, where a final newline does not start another (empty) line.
   */
  function Lines(s: string): seq<string>
    decreases |s|
  {
    if s == [] then []
    else
      var e := LineEnd(s, 0);
      [s[..e]] + (if e == |s| then [] else Lines(s[e + 1..]))
  }

  /** Every line followed by a newline: what the output stream collects. */
  function Unlines(ls: seq<string>): string
  {
    if ls == [] then [] else ls[0] + "\n" + Unlines(ls[1..])
  }

  function Repeat(n: nat, ch: char): (r: string)
    ensures |r| == n && forall k :: 0 <= k < n ==> r[k] == ch
  {
    if n == 0 then [] else [ch] + Repeat(n - 1, ch)
  }

  function Prefixed(p: string, ls: seq<string>): (r: seq<string>)
    ensures |r| == |ls| && forall k :: 0 <= k < |ls| ==> r[k] == p + ls[k]
  {
    if ls == [] then [] else [p + ls[0]] + Prefixed(p, ls[1..])
  }

  /** The text `indentString(s, n, ch)` returns for a non-negative `n`. */
  function Indented(s: string, n: nat, ch: char): string
  {
    Unlines(Prefixed(Repeat(n, ch), Lines(s)))
  }

  predicate NoNewline(s: string) {
    forall k :: 0 <= k < |s| ==> s[k] != '\n'
  }

  /** `LineEnd` is the first newline: any index with that property is it. */
  lemma LineEndIsFirstNewline(s: string, i: nat, e: nat)
    requires i <= e <= |s|
    requires e < |s| ==> s[e] == '\n'
    requires forall k :: i <= k < e ==> s[k] != '\n'
    ensures LineEnd(s, i) == e
  {
  }

  /** Unfolding `Lines` at a line boundary found by scanning. */
  lemma LinesStep(s: string, e: nat)
    requires s != [] && e <= |s|
    requires e < |s| ==> s[e] == '\n'
    requires NoNewline(s[..e])
    ensures Lines(s) == [s[..e]] + (if e == |s| then [] else Lines(s[e + 1..]))
  {
    assert forall k :: 0 <= k < e ==> s[k] == s[..e][k];
    LineEndIsFirstNewline(s, 0, e);
  }

  lemma {:induction false} UnlinesAppend(a: seq<string>, b: seq<string>)
    ensures Unlines(a + b) == Unlines(a) + Unlines(b)
    decreases |a|
  {
    if a != [] {
      assert (a + b)[0] == a[0];
      assert (a + b)[1..] == a[1..] + b;
      UnlinesAppend(a[1..], b);
      calc {
        Unlines(a + b);
        a[0] + "\n" + Unlines(a[1..] + b);
        a[0] + "\n" + (Unlines(a[1..]) + Unlines(b));
        (a[0] + "\n" + Unlines(a[1..])) + Unlines(b);
      }
    } else {
      assert a + b == b;
    }
  }

  lemma {:induction false} PrefixedAppend(p: string, a: seq<string>, b: seq<string>)
    ensures Prefixed(p, a + b) == Prefixed(p, a) + Prefixed(p, b)
  {
  }

  /** Every line `getline` returns is free of newlines. */
  lemma {:induction false} LinesHaveNoNewline(s: string)
    ensures forall k :: 0 <= k < |Lines(s)| ==> NoNewline(Lines(s)[k])
    decreases |s|
  {
    if s != [] {
      var e := LineEnd(s, 0);
      if e < |s| {
        LinesHaveNoNewline(s[e + 1..]);
      }
    }
  }

  /** Splitting the collected output gives back the lines that were written. */
  lemma {:induction false} LinesOfUnlines(ls: seq<string>)
    requires forall k :: 0 <= k < |ls| ==> NoNewline(ls[k])
    ensures Lines(Unlines(ls)) == ls
    decreases |ls|
  {
    if ls != [] {
      var line, rest := ls[0], Unlines(ls[1..]);
      LinesOfUnlines(ls[1..]);
      assert ls == [line] + ls[1..];
      UnlinesCons(line, ls[1..]);
      LinesOfLineThen(line, rest);
    }
  }

  /** Text is what precedes a newline in it, the newline, and what follows. */
  lemma SplitAtNewline(s: string, e: nat)
    requires e < |s| && s[e] == '\n'
    ensures s == s[..e] + "\n" + s[e + 1..]
  {
    assert s[..e] + [s[e]] == s[..e + 1];
    assert s[..e + 1] + s[e + 1..] == s;
  }

  /** Text with no newline is one line, written back with a newline added. */
  lemma SingleLine(s: string)
    requires s != [] && LineEnd(s, 0) == |s|
    ensures Unlines(Lines(s)) == s + "\n"
    ensures s[|s| - 1] != '\n'
  {
    assert s[..|s|] == s;
    assert Lines(s) == [s];
    assert Lines(s)[1..] == [];
  }

  /** Writing back the lines of `s` is its first line, a newline, then the rest written back. */
  lemma UnlinesOfLinesStep(s: string, e: nat)
    requires s != [] && e == LineEnd(s, 0) && e < |s|
    ensures Unlines(Lines(s)) == s[..e] + "\n" + Unlines(Lines(s[e + 1..]))
  {
    var line, rest := s[..e], Lines(s[e + 1..]);
    assert Lines(s) == [line] + rest;
    UnlinesCons(line, rest);
  }

  lemma UnlinesCons(a: string, t: seq<string>)
    ensures Unlines([a] + t) == a + "\n" + Unlines(t)
  {
    assert ([a] + t)[0] == a && ([a] + t)[1..] == t;
  }

  /** `s` with a newline added when it does not already end in one. */
  function Terminated(s: string): string
  {
    if s == [] || s[|s| - 1] == '\n' then s else s + "\n"
  }

  /** Terminating a line, a newline and a rest is terminating the rest. */
  lemma TerminatedAfterLine(line: string, rest: string)
    ensures line + "\n" + Terminated(rest) == Terminated(line + "\n" + rest)
  {
    var s := line + "\n" + rest;
    if rest != [] {
      assert s[|s| - 1] == rest[|rest| - 1];
      if rest[|rest| - 1] != '\n' {
        assert line + "\n" + (rest + "\n") == s + "\n";
      }
    }
  }

  /**
   * Writing the lines back with newlines restores the input, except that a
   * missing final newline is added.
   */
  lemma {:induction false} UnlinesOfLines(s: string)
    ensures Unlines(Lines(s)) == Terminated(s)
    decreases |s|
  {
    if s != [] {
      var e := LineEnd(s, 0);
      if e == |s| {
        SingleLine(s);
      } else {
        var line, rest := s[..e], s[e + 1..];
        UnlinesOfLines(rest);
        UnlinesOfLinesStep(s, e);
        SplitAtNewline(s, e);
        TerminatedAfterLine(line, rest);
      }
    }
  }

  /** The text before the first newline of `a + "\n" + b` is the first line. */
  lemma LinesOfLineThen(a: string, b: string)
    requires NoNewline(a)
    ensures Lines(a + "\n" + b) == [a] + Lines(b)
  {
    var s := a + "\n" + b;
    assert s[..|a|] == a;
    assert s[|a| + 1..] == b;
    LinesStep(s, |a|);
  }

  /** One turn of the `getline` loop: the line from `pos` to the newline at `e`. */
  lemma IndentStep(input: string, pos: nat, e: nat, indent: string)
    requires pos < |input| && pos <= e <= |input|
    requires e < |input| ==> input[e] == '\n'
    requires forall k :: pos <= k < e ==> input[k] != '\n'
    ensures var next := if e == |input| then |input| else e + 1;
      IndentedFrom(input, pos, indent) ==
      (indent + input[pos..e] + "\n") + IndentedFrom(input, next, indent)
  {
    var next := if e == |input| then |input| else e + 1;
    var rest, line, tail := input[pos..], input[pos..e], input[next..];
    assert rest[..e - pos] == line;
    if e < |input| {
      assert rest[e - pos + 1..] == tail;
    }
    assert NoNewline(line) by {
      forall k | 0 <= k < |line|
        ensures line[k] != '\n'
      {
        assert line[k] == input[pos + k];
      }
    }
    LinesStep(rest, e - pos);
    assert Lines(rest) == [line] + Lines(tail);
    PrefixedAppend(indent, [line], Lines(tail));
    assert Prefixed(indent, [line]) == [indent + line];
    UnlinesCons(indent + line, Prefixed(indent, Lines(tail)));
  }

  /**
   * `indentString(s, n, ch)`: the `while (getline(...))` loop of the
   * source, with `getline`'s scan for the next newline written out. A
   * negative `n` makes `std::string(n, ch)` throw `std::length_error`;
   * that is the `None` result.
   */
  method IndentString(input: string, n: int, ch: char) returns (r: Option<string>)
    ensures n < 0 <==> r.None?
    ensures n >= 0 ==> r == Some(Indented(input, n, ch))
  {
    if n < 0 {
      return None;
    }
    var indent := Repeat(n, ch);
    var out: string := [];
    var pos := 0;
    assert input[pos..] == input;
    while pos < |input|
      invariant 0 <= pos <= |input|
      invariant out + IndentedFrom(input, pos, indent) == Indented(input, n, ch)
      decreases |input| - pos
    {
      var e := pos;
      while e < |input| && input[e] != '\n'
        invariant pos <= e <= |input|
        invariant forall k :: pos <= k < e ==> input[k] != '\n'
        decreases |input| - e
      {
        e := e + 1;
      }
      var next := if e == |input| then |input| else e + 1;
      IndentStep(input, pos, e, indent);
      ghost var later := IndentedFrom(input, next, indent);
      var chunk := indent + input[pos..e] + "\n";
      assert out + (chunk + later) == (out + chunk) + later;
      out := out + chunk;
      pos := next;
    }
    EmptyTail(input, indent);
    assert out + [] == out;
    return Some(out);
  }

  /** The output still to be written once the first `pos` characters are read. */
  function IndentedFrom(input: string, pos: nat, indent: string): string
    requires pos <= |input|
  {
    Unlines(Prefixed(indent, Lines(input[pos..])))
  }

  lemma EmptyTail(input: string, indent: string)
    ensures IndentedFrom(input, |input|, indent) == []
  {
    assert input[|input|..] == [];
  }

  /** An empty input yields an empty output. */
  lemma IndentedEmpty(n: nat, ch: char)
    ensures Indented([], n, ch) == []
  {
  }

  /** A non-empty output always ends with a newline, whether or not the input did. */
  lemma {:induction false} IndentedEndsWithNewline(s: string, n: nat, ch: char)
    requires s != []
    ensures |Indented(s, n, ch)| > 0 && Indented(s, n, ch)[|Indented(s, n, ch)| - 1] == '\n'
  {
    var ls := Prefixed(Repeat(n, ch), Lines(s));
    assert |ls| > 0;
    var init := ls[..|ls| - 1];
    assert ls == init + [ls[|ls| - 1]];
    UnlinesAppend(init, [ls[|ls| - 1]]);
  }

  /** With no indent, the output is the input with a final newline added if one was missing. */
  lemma {:induction false} IndentedByZero(s: string, ch: char)
    ensures Indented(s, 0, ch) == if s == [] || s[|s| - 1] == '\n' then s else s + "\n"
  {
    PrefixedEmpty(Lines(s));
    UnlinesOfLines(s);
  }

  lemma {:induction false} PrefixedEmpty(ls: seq<string>)
    ensures Prefixed([], ls) == ls
  {
    if ls != [] {
      PrefixedEmpty(ls[1..]);
      assert [] + ls[0] == ls[0];
      assert ls == [ls[0]] + ls[1..];
    }
  }

  /**
   * Each output line is the indent followed by the matching input line,
   * in the same order (an indent character that is itself a newline would
   * split the lines differently).
   */
  lemma IndentedLines(s: string, n: nat, ch: char)
    requires ch != '\n'
    ensures Lines(Indented(s, n, ch)) == Prefixed(Repeat(n, ch), Lines(s))
  {
    var ls := Prefixed(Repeat(n, ch), Lines(s));
    LinesHaveNoNewline(s);
    forall k | 0 <= k < |ls|
      ensures NoNewline(ls[k])
    {
      var l := Lines(s)[k];
      assert NoNewline(l);
      assert ls[k] == Repeat(n, ch) + l;
    }
    LinesOfUnlines(ls);
  }

  /** Removing the `n`-character indent from every output line recovers the input lines. */
  lemma StripIndentRecoversLines(s: string, n: nat, ch: char)
    requires ch != '\n'
    ensures |Lines(Indented(s, n, ch))| == |Lines(s)|
    ensures forall k :: 0 <= k < |Lines(s)| ==>
              |Lines(Indented(s, n, ch))[k]| >= n && Lines(Indented(s, n, ch))[k][n..] == Lines(s)[k]
  {
    IndentedLines(s, n, ch);
    forall k | 0 <= k < |Lines(s)|
      ensures Lines(Indented(s, n, ch))[k][n..] == Lines(s)[k]
    {
      assert Lines(Indented(s, n, ch))[k] == Repeat(n, ch) + Lines(s)[k];
    }
  }

  function TotalLength(ls: seq<string>): nat
  {
    if ls == [] then 0 else |ls[0]| + TotalLength(ls[1..])
  }

  lemma {:induction false} UnlinesLength(ls: seq<string>)
    ensures |Unlines(ls)| == TotalLength(ls) + |ls|
  {
    if ls != [] {
      UnlinesLength(ls[1..]);
    }
  }

  lemma {:induction false} PrefixedLength(p: string, ls: seq<string>)
    ensures TotalLength(Prefixed(p, ls)) == TotalLength(ls) + |p| * |ls|
  {
    if ls != [] {
      PrefixedLength(p, ls[1..]);
    }
  }

  /**
   * The output is `n` characters longer than the input per line, plus one
   * for a final newline the input lacked.
   */
  lemma IndentedLength(s: string, n: nat, ch: char)
    ensures |Indented(s, n, ch)| ==
              |s| + n * |Lines(s)| + (if s == [] || s[|s| - 1] == '\n' then 0 else 1)
  {
    var ls := Lines(s);
    UnlinesLength(Prefixed(Repeat(n, ch), ls));
    PrefixedLength(Repeat(n, ch), ls);
    UnlinesLength(ls);
    UnlinesOfLines(s);
  }
}
