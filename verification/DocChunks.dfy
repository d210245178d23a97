/** What the two chunkers of the docs clamp share: chunks, their ids and their word counts. */
module DocChunks {
  import opened Strings

  /** Lines are numbered from 1; `endLine` is included. */
  datatype Chunk = Chunk(
    id: string,
    file: string,
    headingPath: seq<string>,
    startLine: nat,
    endLine: nat,
    text: string,
    words: nat
  )

  /** Line `i`, counted from 0, is one of the chunk's lines. */
  predicate Holds(c: Chunk, i: nat) {
    c.startLine <= i + 1 <= c.endLine
  }

  // ---- countWords -------------------------------------------------------------------------

  /** The number of maximal runs of non-space characters, given whether one is open. */
  function WordRuns(s: string, open: bool): nat {
    if s == "" then 0
    else if IsSpace(s[0]) then WordRuns(s[1..], false)
    else (if open then 0 else 1) + WordRuns(s[1..], true)
  }

  function CountWords(text: string): nat {
    WordRuns(Trim(text), false)
  }

  lemma {:induction false} RunsLeft(s: string)
    ensures WordRuns(TrimLeft(s), false) == WordRuns(s, false)
  {
    if s != "" && IsSpace(s[0]) {
      RunsLeft(s[1..]);
    }
  }

  lemma {:induction false} RunsSpace(s: string, pad: string, open: bool)
    requires AllSpace(pad)
    ensures WordRuns(s + pad, open) == WordRuns(s, open)
  {
    if s == "" {
      assert s + pad == pad;
      if pad != "" {
        assert pad == "" + pad && pad[1..] == "" + pad[1..];
        RunsSpace("", pad[1..], false);
      }
    } else {
      assert (s + pad)[1..] == s[1..] + pad;
      RunsSpace(s[1..], pad, if IsSpace(s[0]) then false else true);
    }
  }

  lemma {:induction false} RunsRight(s: string, open: bool)
    ensures WordRuns(TrimRight(s), open) == WordRuns(s, open)
  {
    if s != "" && IsSpace(s[|s| - 1]) {
      RunsRight(s[..|s| - 1], open);
      assert s == s[..|s| - 1] + s[|s| - 1..];
      RunsSpace(s[..|s| - 1], s[|s| - 1..], open);
    }
  }

  lemma WordsAreRuns(text: string)
    ensures CountWords(text) == WordRuns(text, false)
  {
    RunsRight(TrimLeft(text), false);
    RunsLeft(text);
  }

  lemma {:induction false} RunsAdd(a: string, gap: char, b: string, open: bool)
    requires IsSpace(gap)
    ensures WordRuns(a + [gap] + b, open) == WordRuns(a, open) + WordRuns(b, false)
  {
    if a == "" {
      assert (a + [gap] + b)[1..] == b;
    } else {
      assert (a + [gap] + b)[1..] == a[1..] + [gap] + b;
      RunsAdd(a[1..], gap, b, if IsSpace(a[0]) then false else true);
    }
  }

  /** Texts joined by white space have the sum of their words. */
  lemma WordsAdd(a: string, gap: char, b: string)
    requires IsSpace(gap)
    ensures CountWords(a + [gap] + b) == CountWords(a) + CountWords(b)
  {
    WordsAreRuns(a);
    WordsAreRuns(b);
    WordsAreRuns(a + [gap] + b);
    RunsAdd(a, gap, b, false);
  }

  lemma {:induction false} RunsPositive(s: string)
    requires !AllSpace(s)
    ensures WordRuns(s, false) > 0
  {
    if IsSpace(s[0]) {
      assert exists i :: 0 <= i < |s[1..]| && !IsSpace(s[1..][i]) by {
        var i :| 0 <= i < |s| && !IsSpace(s[i]);
        assert s[1..][i - 1] == s[i];
      }
      RunsPositive(s[1..]);
    }
  }

  lemma NotBlankHasWords(s: string)
    requires !IsBlank(s)
    ensures CountWords(s) > 0
  {
    BlankIff(s);
    WordsAreRuns(s);
    RunsPositive(s);
  }

  // ---- chunk ids --------------------------------------------------------------------------

  function ChunkId(file: string, startLine: nat, endLine: nat): string {
    file + "#L" + NatText(startLine) + "-" + NatText(endLine)
  }

  lemma DigitsHaveNoDash(s: string)
    requires AllDigits(s)
    ensures '-' !in s
  {
  }

  /** Chunks of one file that start at different lines have different ids. */
  lemma IdsDiffer(file: string, start: nat, end: nat, start': nat, end': nat)
    requires ChunkId(file, start, end) == ChunkId(file, start', end')
    ensures start == start'
  {
    var head := file + "#L";
    var a, b := NatText(start) + ['-'] + NatText(end), NatText(start') + ['-'] + NatText(end');
    assert ChunkId(file, start, end) == head + a && ChunkId(file, start', end') == head + b;
    assert (head + a)[|head|..] == a && (head + b)[|head|..] == b;
    DigitsHaveNoDash(NatText(start));
    DigitsHaveNoDash(NatText(start'));
    IndexOfFirst(NatText(start), '-', NatText(end));
    IndexOfFirst(NatText(start'), '-', NatText(end'));
    assert NatText(start) == a[..|NatText(start)|] && NatText(start') == b[..|NatText(start')|];
    NatTextInjective(start, start');
  }

  /** The lines of a text, `\r\n` and `\r` counting as line ends. */
  function TextLines(text: string): (r: seq<string>)
    ensures |r| > 0
  {
    Split(ReplaceAll(ReplaceAll(text, "\r\n", "\n"), "\r", "\n"), '\n')
  }
}
