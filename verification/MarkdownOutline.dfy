/**
 The shape of a Markdown document: its lines only by kind, its sections by their heading
 path and the lines they run from and to.
 */
module MarkdownOutline {
  import opened Wrappers

  type Rank = n: int | 1 <= n <= 6 witness 1

  /** A heading line is one outside any code fence; inside one, lines are blank or text. */
  datatype Kind = Blank | Text | Heading(level: Rank, title: string)

  /** Lines are numbered from 1; `endLine` is included. */
  datatype Section = Section(path: seq<string>, startLine: nat, endLine: nat)

  function Popped(stack: seq<string>, level: Rank): seq<string>
  {
    if |stack| >= level then stack[..level - 1] else stack
  }

  /** The heading stack after the first `n` lines. */
  function Stack(lines: seq<Kind>, n: nat): seq<string>
    requires n <= |lines|
  {
    if n == 0 then []
    else if !lines[n - 1].Heading? then Stack(lines, n - 1)
    else Popped(Stack(lines, n - 1), lines[n - 1].level) + [lines[n - 1].title]
  }

  /** Where the section that is open after `n` lines begins. */
  function SectionStart(lines: seq<Kind>, n: nat): (r: nat)
    requires n <= |lines|
    ensures r <= n
    ensures forall i :: r <= i < n ==> !lines[i].Heading?
    ensures r > 0 ==> lines[r - 1].Heading?
  {
    if n == 0 || lines[n - 1].Heading? then n else SectionStart(lines, n - 1)
  }

  /** The first line that is not blank, or the number of lines. */
  function FirstText(body: seq<Kind>): (r: nat)
    ensures r <= |body|
    ensures r < |body| ==> body[r] != Blank
  {
    if body == [] || body[0] != Blank then 0 else 1 + FirstText(body[1..])
  }

  /** The end of the last line that is not blank, or 0. */
  function LastText(body: seq<Kind>, n: nat): (r: nat)
    requires n <= |body|
    ensures r <= n
    ensures r > 0 ==> body[r - 1] != Blank
  {
    if n == 0 || body[n - 1] != Blank then n else LastText(body, n - 1)
  }

  /** The section with this body, whose first line is number `bodyStart`, if it has text. */
  function SectionOf(path: seq<string>, bodyStart: nat, body: seq<Kind>): Option<Section> {
    var first, last := FirstText(body), LastText(body, |body|);
    if last == 0 then None else Some(Section(path, bodyStart + first, bodyStart + last - 1))
  }

  function OpenSection(lines: seq<Kind>, n: nat): Option<Section>
    requires n <= |lines|
  {
    var b := SectionStart(lines, n);
    SectionOf(Stack(lines, n), b + 1, lines[b..n])
  }

  /** The sections closed by the headings among the first `n` lines. */
  function Closed(lines: seq<Kind>, n: nat): seq<Section>
    requires n <= |lines|
  {
    if n == 0 then []
    else if !lines[n - 1].Heading? then Closed(lines, n - 1)
    else Closed(lines, n - 1) + Listed(OpenSection(lines, n - 1))
  }

  function Sections(lines: seq<Kind>): seq<Section> {
    Closed(lines, |lines|) + Listed(OpenSection(lines, |lines|))
  }

  // ---- provenance -------------------------------------------------------------------------

  /** A section runs from a line with text to a line with text. */
  ghost predicate Framed(lines: seq<Kind>, s: Section) {
    && 1 <= s.startLine <= s.endLine <= |lines|
    && lines[s.startLine - 1] != Blank && lines[s.endLine - 1] != Blank
  }

  predicate Covers(s: Section, i: nat) {
    s.startLine <= i + 1 <= s.endLine
  }

  ghost predicate Increasing(sections: seq<Section>) {
    forall i, j :: 0 <= i < j < |sections| ==> sections[i].endLine < sections[j].startLine
  }

  lemma {:induction false} TextIsBetween(body: seq<Kind>, n: nat, k: nat)
    requires k < n <= |body| && body[k] != Blank
    ensures FirstText(body) <= k < LastText(body, n)
  {
    FirstIsBefore(body, k);
    LastIsAfter(body, n, k);
  }

  lemma {:induction false} FirstIsBefore(body: seq<Kind>, k: nat)
    requires k < |body| && body[k] != Blank
    ensures FirstText(body) <= k
  {
    if body[0] == Blank {
      FirstIsBefore(body[1..], k - 1);
    }
  }

  lemma {:induction false} LastIsAfter(body: seq<Kind>, n: nat, k: nat)
    requires k < n <= |body| && body[k] != Blank
    ensures k < LastText(body, n)
  {
    if body[n - 1] == Blank {
      LastIsAfter(body, n - 1, k);
    }
  }

  /** A section with text runs from a line with text to a line with text. */
  lemma SectionEnds(path: seq<string>, bodyStart: nat, body: seq<Kind>)
    requires SectionOf(path, bodyStart, body).Some?
    ensures var s := SectionOf(path, bodyStart, body).value;
            && bodyStart <= s.startLine <= s.endLine < bodyStart + |body|
            && body[s.startLine - bodyStart] != Blank && body[s.endLine - bodyStart] != Blank
  {
    var last := LastText(body, |body|);
    TextIsBetween(body, |body|, last - 1);
  }

  /** What runs from a line with text to a line with text, and leaves none out, is the section. */
  lemma SectionIsUnique(path: seq<string>, bodyStart: nat, body: seq<Kind>, first: nat, last: nat)
    requires first <= last < |body| && body[first] != Blank && body[last] != Blank
    requires forall k :: 0 <= k < |body| && body[k] != Blank ==> first <= k <= last
    ensures SectionOf(path, bodyStart, body) == Some(Section(path, bodyStart + first, bodyStart + last))
  {
    FirstIsBefore(body, first);
    LastIsAfter(body, |body|, last);
    assert body[FirstText(body)] != Blank && body[LastText(body, |body|) - 1] != Blank;
  }

  lemma BlankHasNoSection(path: seq<string>, bodyStart: nat, body: seq<Kind>)
    requires forall k :: 0 <= k < |body| ==> body[k] == Blank
    ensures SectionOf(path, bodyStart, body).None?
  {
    AllBlank(body, |body|);
  }

  lemma {:induction false} AllBlank(body: seq<Kind>, n: nat)
    requires n <= |body| && forall k :: 0 <= k < n ==> body[k] == Blank
    ensures LastText(body, n) == 0
  {
    if n > 0 {
      AllBlank(body, n - 1);
    }
  }

  lemma OpenIsFramed(lines: seq<Kind>, n: nat)
    requires n <= |lines|
    ensures var b, o := SectionStart(lines, n), OpenSection(lines, n);
            o.Some? ==> Framed(lines, o.value) && b < o.value.startLine && o.value.endLine <= n
  {
    var b := SectionStart(lines, n);
    if OpenSection(lines, n).Some? {
      SectionEnds(Stack(lines, n), b + 1, lines[b..n]);
    }
  }

  /** An open section covers all its lines with text. */
  lemma OpenCovers(lines: seq<Kind>, n: nat, i: nat)
    requires n <= |lines| && SectionStart(lines, n) <= i < n && lines[i] != Blank
    ensures OpenSection(lines, n).Some? && Covers(OpenSection(lines, n).value, i)
  {
    var b := SectionStart(lines, n);
    var body := lines[b..n];
    assert |body| == n - b && body[i - b] == lines[i];
    TextIsBetween(body, |body|, i - b);
  }

  lemma {:induction false} ClosedAreFramed(lines: seq<Kind>, n: nat)
    requires n <= |lines|
    ensures forall s :: s in Closed(lines, n) ==> Framed(lines, s) && s.endLine < SectionStart(lines, n)
  {
    if n > 0 {
      ClosedAreFramed(lines, n - 1);
      OpenIsFramed(lines, n - 1);
    }
  }

  lemma StillIncreasing(sections: seq<Section>, o: Option<Section>)
    requires Increasing(sections)
    requires o.Some? ==> forall s :: s in sections ==> s.endLine < o.value.startLine
    ensures Increasing(sections + Listed(o))
  {
    assert forall i :: 0 <= i < |sections| ==> sections[i] in sections;
  }

  lemma {:induction false} ClosedIncrease(lines: seq<Kind>, n: nat)
    requires n <= |lines|
    ensures Increasing(Closed(lines, n))
  {
    if n > 0 {
      ClosedIncrease(lines, n - 1);
      ClosedAreFramed(lines, n - 1);
      OpenIsFramed(lines, n - 1);
      StillIncreasing(Closed(lines, n - 1), OpenSection(lines, n - 1));
    }
  }

  /** Sections run from text to text and follow each other in the document. */
  lemma SectionsAreFramed(lines: seq<Kind>)
    ensures forall s :: s in Sections(lines) ==> Framed(lines, s)
    ensures Increasing(Sections(lines))
  {
    ClosedAreFramed(lines, |lines|);
    ClosedIncrease(lines, |lines|);
    OpenIsFramed(lines, |lines|);
    StillIncreasing(Closed(lines, |lines|), OpenSection(lines, |lines|));
  }

  // ---- conservation -----------------------------------------------------------------------

  lemma {:induction false} ClosedCovers(lines: seq<Kind>, n: nat, i: nat)
    requires n <= |lines| && i < SectionStart(lines, n)
    requires lines[i] != Blank && !lines[i].Heading?
    ensures exists s :: s in Closed(lines, n) && Covers(s, i)
  {
    if !lines[n - 1].Heading? {
      ClosedCovers(lines, n - 1, i);
    } else if i < SectionStart(lines, n - 1) {
      ClosedCovers(lines, n - 1, i);
      var s :| s in Closed(lines, n - 1) && Covers(s, i);
      assert s in Closed(lines, n);
    } else {
      OpenCovers(lines, n - 1, i);
      assert OpenSection(lines, n - 1).value in Closed(lines, n);
    }
  }

  lemma {:induction false} ClosedHoldNoHeading(lines: seq<Kind>, n: nat)
    requires n <= |lines|
    ensures forall s, i :: s in Closed(lines, n) && 0 <= i < |lines| && Covers(s, i) ==>
              !lines[i].Heading?
  {
    if n > 0 {
      ClosedHoldNoHeading(lines, n - 1);
      OpenIsFramed(lines, n - 1);
    }
  }

  /**
   No text is lost and no heading is repeated: a line with text is in some section, by
   `SectionsAreFramed` in only one, exactly when it is not a heading.
   */
  lemma CoveredIff(lines: seq<Kind>, i: nat)
    requires i < |lines| && lines[i] != Blank
    ensures (exists s :: s in Sections(lines) && Covers(s, i)) <==> !lines[i].Heading?
  {
    ClosedHoldNoHeading(lines, |lines|);
    OpenIsFramed(lines, |lines|);
    if !lines[i].Heading? {
      if i < SectionStart(lines, |lines|) {
        ClosedCovers(lines, |lines|, i);
        var s :| s in Closed(lines, |lines|) && Covers(s, i);
        assert s in Sections(lines);
      } else {
        OpenCovers(lines, |lines|, i);
        assert OpenSection(lines, |lines|).value in Sections(lines);
      }
    }
  }

  // ---- heading paths ----------------------------------------------------------------------

  /** The level of the latest heading among the first `n` lines, 0 before any. */
  function Level(lines: seq<Kind>, n: nat): nat
    requires n <= |lines|
  {
    if n == 0 then 0
    else if lines[n - 1].Heading? then lines[n - 1].level
    else Level(lines, n - 1)
  }

  /** How deep that heading ends up: at most one deeper than the heading before it. */
  function Depth(lines: seq<Kind>, n: nat): (r: nat)
    requires n <= |lines|
    ensures r <= Level(lines, n)
  {
    if n == 0 then 0
    else if !lines[n - 1].Heading? then Depth(lines, n - 1)
    else
      var before, level := Depth(lines, n - 1), lines[n - 1].level;
      if before < level then before + 1 else level
  }

  ghost predicate HasTitle(lines: seq<Kind>, i: nat, title: string) {
    i < |lines| && lines[i].Heading? && lines[i].title == title
  }

  /** Line `i` is the latest heading before line `n` that ended up at depth `d` or less. */
  ghost predicate LatestAtDepth(lines: seq<Kind>, n: nat, d: nat, i: nat)
    requires n <= |lines|
  {
    && i < n && lines[i].Heading? && Depth(lines, i + 1) == d
    && forall k :: i < k < n && lines[k].Heading? ==> Depth(lines, k + 1) > d
  }

  lemma {:induction false} StackLength(lines: seq<Kind>, n: nat)
    requires n <= |lines|
    ensures |Stack(lines, n)| == Depth(lines, n)
  {
    if n > 0 {
      StackLength(lines, n - 1);
    }
  }

  lemma {:induction false} StackTitles(lines: seq<Kind>, n: nat, j: nat)
    requires n <= |lines| && j < |Stack(lines, n)|
    ensures exists i :: LatestAtDepth(lines, n, j + 1, i) && HasTitle(lines, i, Stack(lines, n)[j])
  {
    StackLength(lines, n);
    if lines[n - 1].Heading? && j == Depth(lines, n) - 1 {
      assert LatestAtDepth(lines, n, j + 1, n - 1) && HasTitle(lines, n - 1, Stack(lines, n)[j]);
    } else {
      StackLength(lines, n - 1);
      assert j < |Stack(lines, n - 1)| && Stack(lines, n)[j] == Stack(lines, n - 1)[j];
      StackTitles(lines, n - 1, j);
      var i :| LatestAtDepth(lines, n - 1, j + 1, i) && HasTitle(lines, i, Stack(lines, n - 1)[j]);
      assert LatestAtDepth(lines, n, j + 1, i);
    }
  }

  lemma {:induction false} StackSteady(lines: seq<Kind>, m: nat, n: nat)
    requires m <= n <= |lines|
    requires forall i :: m <= i < n ==> !lines[i].Heading?
    ensures Stack(lines, m) == Stack(lines, n)
  {
    if m < n {
      StackSteady(lines, m, n - 1);
    }
  }

  /** The section carries the stack of its first line, and that line is under its heading. */
  ghost predicate PathIsStack(lines: seq<Kind>, s: Section) {
    && 1 <= s.startLine <= |lines|
    && s.path == Stack(lines, s.startLine - 1)
  }

  lemma OpenPath(lines: seq<Kind>, n: nat)
    requires n <= |lines| && OpenSection(lines, n).Some?
    ensures PathIsStack(lines, OpenSection(lines, n).value)
  {
    OpenIsFramed(lines, n);
    StackSteady(lines, OpenSection(lines, n).value.startLine - 1, n);
  }

  lemma {:induction false} ClosedPaths(lines: seq<Kind>, n: nat)
    requires n <= |lines|
    ensures forall s :: s in Closed(lines, n) ==> PathIsStack(lines, s)
  {
    if n > 0 {
      ClosedPaths(lines, n - 1);
      if OpenSection(lines, n - 1).Some? {
        OpenPath(lines, n - 1);
      }
    }
  }

  lemma SectionPath(lines: seq<Kind>, s: Section)
    requires s in Sections(lines)
    ensures PathIsStack(lines, s)
  {
    ClosedPaths(lines, |lines|);
    if OpenSection(lines, |lines|).Some? {
      OpenPath(lines, |lines|);
    }
  }

  /**
   For every document: a section's path is as long as its heading is deep, which is at
   most the heading's level, and its entry `j` is the title of the latest heading above the
   section at depth `j + 1`, with no heading as shallow since.
   */
  lemma HeadingPath(lines: seq<Kind>, s: Section, j: nat)
    requires s in Sections(lines)
    ensures 1 <= s.startLine <= |lines|
    ensures |s.path| == Depth(lines, s.startLine - 1) <= Level(lines, s.startLine - 1)
    ensures j < |s.path| ==>
              exists i :: LatestAtDepth(lines, s.startLine - 1, j + 1, i) && HasTitle(lines, i, s.path[j])
  {
    SectionPath(lines, s);
    StackPath(lines, s, j);
  }

  lemma StackPath(lines: seq<Kind>, s: Section, j: nat)
    requires PathIsStack(lines, s)
    ensures |s.path| == Depth(lines, s.startLine - 1) <= Level(lines, s.startLine - 1)
    ensures j < |s.path| ==>
              exists i :: LatestAtDepth(lines, s.startLine - 1, j + 1, i) && HasTitle(lines, i, s.path[j])
  {
    StackLength(lines, s.startLine - 1);
    if j < |s.path| {
      StackTitles(lines, s.startLine - 1, j);
    }
  }

  /** The path of a place ends in the title of the heading it stands under. */
  ghost predicate EndsInOwnTitle(lines: seq<Kind>, n: nat, path: seq<string>)
    requires n <= |lines|
  {
    var b := SectionStart(lines, n);
    if b == 0 then path == [] else path != [] && HasTitle(lines, b - 1, path[|path| - 1])
  }

  lemma PathEndsInOwnTitle(lines: seq<Kind>, s: Section)
    requires s in Sections(lines)
    ensures 1 <= s.startLine <= |lines| && EndsInOwnTitle(lines, s.startLine - 1, s.path)
  {
    SectionPath(lines, s);
    StackEndsInOwnTitle(lines, s.startLine - 1);
  }

  lemma {:induction false} StackEndsInOwnTitle(lines: seq<Kind>, n: nat)
    requires n <= |lines|
    ensures EndsInOwnTitle(lines, n, Stack(lines, n))
  {
    if n > 0 && !lines[n - 1].Heading? {
      StackEndsInOwnTitle(lines, n - 1);
    }
  }

  // ---- skipped levels ---------------------------------------------------------------------

  /** No heading is more than one level below the heading before it; the first has level 1. */
  ghost predicate NoSkips(lines: seq<Kind>, n: nat)
    requires n <= |lines|
  {
    forall i :: 0 <= i < n && lines[i].Heading? ==>
      lines[i].level <= Level(lines, i) + 1
  }

  ghost predicate DepthIsLevel(lines: seq<Kind>, n: nat)
    requires n <= |lines|
  {
    forall i :: 0 <= i <= n ==> Depth(lines, i) == Level(lines, i)
  }

  lemma DepthIsLevelNext(lines: seq<Kind>, n: nat)
    requires n < |lines|
    ensures DepthIsLevel(lines, n + 1) <==> DepthIsLevel(lines, n) && Depth(lines, n + 1) == Level(lines, n + 1)
  {
  }

  lemma NoSkipsNext(lines: seq<Kind>, n: nat)
    requires n < |lines|
    ensures NoSkips(lines, n + 1) <==>
            (NoSkips(lines, n) && (lines[n].Heading? ==> lines[n].level <= Level(lines, n) + 1))
  {
  }

  /** Depths are the heading levels exactly when no heading skips a level. */
  lemma {:induction false} DepthIsLevelIff(lines: seq<Kind>, n: nat)
    requires n <= |lines|
    ensures DepthIsLevel(lines, n) <==> NoSkips(lines, n)
  {
    if n > 0 {
      DepthIsLevelIff(lines, n - 1);
      DepthIsLevelNext(lines, n - 1);
      NoSkipsNext(lines, n - 1);
    }
  }

  /** Line `i` is the latest heading before line `n` of level `l` or a smaller one. */
  ghost predicate LatestOfLevel(lines: seq<Kind>, n: nat, l: nat, i: nat)
    requires n <= |lines|
  {
    && i < n && lines[i].Heading? && lines[i].level == l
    && forall k :: i < k < n && lines[k].Heading? ==> lines[k].level > l
  }

  /**
   When no heading skips a level, the stack computes the plain definition: one entry per
   level down to the section's heading, each the latest heading of its level not closed since.
   */
  lemma PlainHeadingPath(lines: seq<Kind>, s: Section, j: nat)
    requires s in Sections(lines) && NoSkips(lines, |lines|)
    ensures 1 <= s.startLine <= |lines| && |s.path| == Level(lines, s.startLine - 1)
    ensures j < |s.path| ==>
              exists i :: LatestOfLevel(lines, s.startLine - 1, j + 1, i) && HasTitle(lines, i, s.path[j])
  {
    HeadingPath(lines, s, j);
    DepthIsLevelIff(lines, |lines|);
    if j < |s.path| {
      var i :| LatestAtDepth(lines, s.startLine - 1, j + 1, i) && HasTitle(lines, i, s.path[j]);
      LatestByLevel(lines, s.startLine - 1, j + 1, i);
    }
  }

  lemma LatestByLevel(lines: seq<Kind>, n: nat, d: nat, i: nat)
    requires n <= |lines| && DepthIsLevel(lines, |lines|) && LatestAtDepth(lines, n, d, i)
    ensures LatestOfLevel(lines, n, d, i)
  {
    assert Depth(lines, i + 1) == Level(lines, i + 1);
    forall k | i < k < n && lines[k].Heading?
      ensures lines[k].level > d
    {
      assert Depth(lines, k + 1) == Level(lines, k + 1);
    }
  }

  /** With a skipped level, two headings of level 3 in a row nest instead of being siblings. */
  lemma SkippedLevelNests(a: string, b: string, c: string)
    ensures var lines := [Heading(1, a), Heading(3, b), Heading(3, c)];
            Stack(lines, 3) == [a, b, c] && !LatestOfLevel(lines, 3, 2, 1)
  {
    var lines := [Heading(1, a), Heading(3, b), Heading(3, c)];
    assert Stack(lines, 1) == [a];
    assert Stack(lines, 2) == [a, b];
  }
}
