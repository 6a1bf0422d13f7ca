/** Completion detection of the loop plugin: a reply is complete when its last
    non-blank line, trimmed, is the sentinel. */
module Sentinel {
  import opened Text

  /** What loop-start and the state file accept as a sentinel. */
  predicate ValidSentinel(s: string) {
    Trim(s) != "" && s == Trim(s) && '\n' !in s && '\r' !in s
  }

  /** The last line with something on it, trimmed; empty when every line is blank. */
  function LastWords(lines: seq<string>): string {
    if lines == [] then ""
    else if Trim(lines[|lines| - 1]) == "" then LastWords(lines[..|lines| - 1])
    else Trim(lines[|lines| - 1])
  }

  predicate Matches(text: string, sentinel: string) {
    LastWords(Lines(text)) != "" && LastWords(Lines(text)) == sentinel
  }

  /** The backward scan over the lines. */
  method MatchesSentinel(text: string, sentinel: string) returns (found: bool)
    ensures found == Matches(text, sentinel)
  {
    var lines := Lines(text);
    var i := |lines| - 1;
    assert lines[..i + 1] == lines;
    while i >= 0
      invariant -1 <= i < |lines|
      invariant LastWords(lines) == LastWords(lines[..i + 1])
    {
      var trimmed := Trim(lines[i]);
      assert lines[..i + 1][..i] == lines[..i];
      if trimmed == "" {
        i := i - 1;
        continue;
      }
      return trimmed == sentinel;
    }
    found := false;
  }

  /** `text` ends in a line holding exactly the sentinel, up to surrounding
      whitespace: said about the characters, without splitting into lines. */
  ghost predicate EndsWithLine(text: string, sentinel: string, before: string, left: string, after: string) {
    && text == before + left + sentinel + after
    && (before == "" || before[|before| - 1] == '\n')
    && AllSpace(left) && '\n' !in left
    && AllSpace(after)
  }

  lemma {:induction false} LastWordsOfCons(line: string, rest: seq<string>)
    ensures LastWords([line] + rest) == if LastWords(rest) == "" then Trim(line) else LastWords(rest)
  {
    var all := [line] + rest;
    if rest == [] {
      assert all[..0] == [];
    } else {
      assert all[..|all| - 1] == [line] + rest[..|rest| - 1];
      if Trim(rest[|rest| - 1]) == "" {
        LastWordsOfCons(line, rest[..|rest| - 1]);
      }
    }
  }

  /** Unfolding a text at its first line feed. */
  lemma LastWordsOfText(line: string, rest: string)
    requires '\n' !in line
    ensures LastWords(Lines(line)) == Trim(line)
    ensures LastWords(Lines(line + "\n" + rest))
         == if LastWords(Lines(rest)) == "" then Trim(line) else LastWords(Lines(rest))
  {
    LinesCons(line, rest);
    LastWordsOfCons(line, []);
    assert [line] + [] == [line];
    LastWordsOfCons(DropCR(line), Lines(rest));
    TrimDropCR(line);
  }

  /** A text is either one line or a line, a line feed and a shorter text. */
  lemma SplitFirst(text: string) returns (line: string, rest: string)
    ensures '\n' !in line
    ensures text == line || (text == line + "\n" + rest && |rest| < |text|)
  {
    var n := LineEnd(text);
    line := text[..n];
    rest := if n < |text| then text[n + 1..] else "";
    if n < |text| {
      assert text == line + "\n" + rest;
    }
  }

  lemma {:induction false} BlankText(text: string)
    requires AllSpace(text)
    ensures LastWords(Lines(text)) == ""
    decreases |text|
  {
    var line, rest := SplitFirst(text);
    LastWordsOfText(line, rest);
    TrimOfPadded(line, "", "");
    assert line + "" + "" == line;
    if text != line {
      BlankText(rest);
    }
  }

  lemma TrailingLine(left: string, core: string, spaces: string)
    requires Tight(core) && core != ""
    requires AllSpace(left) && '\n' !in left && '\n' !in core && AllSpace(spaces) && '\n' !in spaces
    ensures Trim(left + core + spaces) == core && '\n' !in left + core + spaces
  {
    TrimOfPadded(left, core, spaces);
  }

  lemma FoundOnFirstLine(left: string, core: string, after: string)
    requires Tight(core) && core != "" && '\n' !in core
    requires AllSpace(left) && '\n' !in left && AllSpace(after)
    ensures LastWords(Lines(left + core + after)) == core
  {
    var spaces, rest := SplitFirst(after);
    var line := left + core + spaces;
    TrailingLine(left, core, spaces);
    LastWordsOfText(line, rest);
    if after != spaces {
      BlankText(rest);
      Regroup(left + core, spaces, rest);
    }
  }

  lemma Regroup(a: string, b: string, c: string)
    ensures a + (b + "\n" + c) == a + b + "\n" + c
    ensures (a + "\n" + b) + c == a + "\n" + (b + c)
  {
  }

  lemma {:induction false} FoundIfEnding(before: string, ending: string, core: string)
    requires before == "" || before[|before| - 1] == '\n'
    requires core != "" && LastWords(Lines(ending)) == core
    ensures LastWords(Lines(before + ending)) == core
    decreases |before|
  {
    if before == "" {
      assert before + ending == ending;
    } else {
      var line, tail := SplitFirst(before);
      assert before != line by { assert before[|before| - 1] in before; }
      assert tail != "" ==> tail[|tail| - 1] == before[|before| - 1];
      FoundIfEnding(tail, ending, core);
      LastWordsOfText(line, tail + ending);
      Regroup(line, tail, ending);
    }
  }

  lemma {:induction false} EndingIfFound(text: string, core: string)
    returns (before: string, left: string, after: string)
    requires core != "" && LastWords(Lines(text)) == core
    ensures EndsWithLine(text, core, before, left, after)
    decreases |text|
  {
    var line, rest := SplitFirst(text);
    LastWordsOfText(line, rest);
    if text != line && LastWords(Lines(rest)) != "" {
      before, left, after := EndingIfFound(rest, core);
      PrependLine(line, rest, core, before, left, after);
      before := line + "\n" + before;
    } else {
      var right;
      left, right := TrimSplits(line);
      before, after := "", right;
      if text != line {
        BlankIfNoWords(rest);
        Regroup(left + core, right, rest);
        after := right + "\n" + rest;
      }
      assert text == left + core + after;
      assert before + left == left;
    }
  }

  lemma PrependLine(line: string, rest: string, core: string, before: string, left: string, after: string)
    requires EndsWithLine(rest, core, before, left, after)
    ensures EndsWithLine(line + "\n" + rest, core, line + "\n" + before, left, after)
  {
    var b := line + "\n" + before;
    assert b[|b| - 1] == '\n';
    assert line + "\n" + rest == b + left + core + after;
  }

  lemma {:induction false} BlankIfNoWords(text: string)
    requires LastWords(Lines(text)) == ""
    ensures AllSpace(text)
    decreases |text|
  {
    var line, rest := SplitFirst(text);
    LastWordsOfText(line, rest);
    var left, right := TrimSplits(line);
    assert line == left + right;
    if text != line {
      BlankIfNoWords(rest);
    }
  }

  /** Completion is recognised exactly on replies that end in a line holding the
      sentinel and nothing else but whitespace; a mention anywhere else, or with
      trailing punctuation, never ends the loop. */
  lemma MatchesIffTrailingLine(text: string, sentinel: string)
    requires ValidSentinel(sentinel)
    ensures Matches(text, sentinel)
       <==> exists before, left, after :: EndsWithLine(text, sentinel, before, left, after)
  {
    hide Lines, LastWords, TrimStart, TrimEnd;
    if Matches(text, sentinel) {
      var before, left, after := EndingIfFound(text, sentinel);
    }
    if before, left, after :| EndsWithLine(text, sentinel, before, left, after) {
      var _, _ := TrimSplits(sentinel);
      FoundOnFirstLine(left, sentinel, after);
      FoundIfEnding(before, left + sentinel + after, sentinel);
      assert text == before + (left + sentinel + after);
    }
  }
}
