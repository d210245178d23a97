/** When the heading stack is the plain nesting of the headings by their levels. */
module MarkdownNesting {
  import opened MarkdownOutline

  /** A heading that no later one of its level or a smaller one has closed. */
  datatype Open = Open(line: nat, level: Rank, title: string)

  ghost predicate IsOpen(lines: seq<Kind>, n: nat, i: nat)
    requires n <= |lines|
  {
    && i < n && lines[i].Heading?
    && forall k :: i < k < n && lines[k].Heading? ==> lines[k].level > lines[i].level
  }

  /** The beginning of the open headings that a new one of this level leaves open. */
  function Kept(open: seq<Open>, level: Rank): seq<Open> {
    if open != [] && open[|open| - 1].level >= level then Kept(open[..|open| - 1], level) else open
  }

  /** The headings open after the first `n` lines, outermost first. */
  function OpenHeadings(lines: seq<Kind>, n: nat): seq<Open>
    requires n <= |lines|
  {
    if n == 0 then []
    else if !lines[n - 1].Heading? then OpenHeadings(lines, n - 1)
    else
      Kept(OpenHeadings(lines, n - 1), lines[n - 1].level) + [Open(n - 1, lines[n - 1].level, lines[n - 1].title)]
  }

  function Titles(open: seq<Open>): (r: seq<string>)
    ensures |r| == |open|
  {
    seq(|open|, i requires 0 <= i < |open| => open[i].title)
  }

  ghost predicate Deepening(open: seq<Open>) {
    forall i, j :: 0 <= i < j < |open| ==> open[i].line < open[j].line && open[i].level < open[j].level
  }

  lemma {:induction false} KeptIsPrefix(open: seq<Open>, level: Rank)
    requires Deepening(open)
    ensures |Kept(open, level)| <= |open| && Kept(open, level) == open[..|Kept(open, level)|]
    ensures forall i :: 0 <= i < |open| ==> (i < |Kept(open, level)| <==> open[i].level < level)
  {
    if open != [] && open[|open| - 1].level >= level {
      KeptIsPrefix(open[..|open| - 1], level);
    }
  }

  // ---- they are the open headings ---------------------------------------------------------

  ghost predicate Names(lines: seq<Kind>, o: Open) {
    o.line < |lines| && lines[o.line] == Heading(o.level, o.title)
  }

  ghost predicate AreOpen(lines: seq<Kind>, n: nat, open: seq<Open>)
    requires n <= |lines|
  {
    && (forall j :: 0 <= j < |open| ==> Names(lines, open[j]) && IsOpen(lines, n, open[j].line))
    && (forall i :: IsOpen(lines, n, i) ==> exists j :: 0 <= j < |open| && open[j].line == i)
  }

  lemma {:induction false} OpenHeadingsDeepen(lines: seq<Kind>, n: nat)
    requires n <= |lines|
    ensures Deepening(OpenHeadings(lines, n))
    ensures forall j :: 0 <= j < |OpenHeadings(lines, n)| ==> OpenHeadings(lines, n)[j].line < n
  {
    if n > 0 {
      OpenHeadingsDeepen(lines, n - 1);
      if lines[n - 1].Heading? {
        KeptIsPrefix(OpenHeadings(lines, n - 1), lines[n - 1].level);
      }
    }
  }

  lemma OpenNext(lines: seq<Kind>, n: nat, i: nat)
    requires n < |lines|
    ensures IsOpen(lines, n + 1, i) <==>
            if !lines[n].Heading? then IsOpen(lines, n, i)
            else i == n || (IsOpen(lines, n, i) && lines[i].level < lines[n].level)
  {
  }

  lemma StillOpen(lines: seq<Kind>, n: nat, open: seq<Open>)
    requires n < |lines| && lines[n].Heading? && AreOpen(lines, n, open) && Deepening(open)
    ensures AreOpen(lines, n + 1, Kept(open, lines[n].level) + [Open(n, lines[n].level, lines[n].title)])
  {
    var kept, last := Kept(open, lines[n].level), Open(n, lines[n].level, lines[n].title);
    KeptIsPrefix(open, lines[n].level);
    var all, m := kept + [last], n + 1;
    forall j | 0 <= j < |all|
      ensures Names(lines, all[j]) && IsOpen(lines, n + 1, all[j].line)
    {
      if j < |kept| {
        assert all[j] == open[j];
      }
      OpenNext(lines, n, all[j].line);
    }
    forall i | IsOpen(lines, m, i)
      ensures exists j :: 0 <= j < |all| && all[j].line == i
    {
      OpenNext(lines, n, i);
      if i == n {
        assert all[|kept|].line == i;
      } else {
        var j :| 0 <= j < |open| && open[j].line == i;
        assert Names(lines, open[j]) && all[j] == open[j];
      }
    }
  }

  /** `OpenHeadings` lists exactly the headings not closed, in order and deeper each time. */
  lemma {:induction false} OpenHeadingsAreOpen(lines: seq<Kind>, n: nat)
    requires n <= |lines|
    ensures AreOpen(lines, n, OpenHeadings(lines, n)) && Deepening(OpenHeadings(lines, n))
  {
    OpenHeadingsDeepen(lines, n);
    if n > 0 {
      OpenHeadingsAreOpen(lines, n - 1);
      if lines[n - 1].Heading? {
        StillOpen(lines, n - 1, OpenHeadings(lines, n - 1));
      } else {
        SameOpen(lines, n - 1, OpenHeadings(lines, n - 1));
      }
    }
  }

  lemma SameOpen(lines: seq<Kind>, n: nat, open: seq<Open>)
    requires n < |lines| && !lines[n].Heading? && AreOpen(lines, n, open)
    ensures AreOpen(lines, n + 1, open)
  {
    var m := n + 1;
    forall j | 0 <= j < |open|
      ensures IsOpen(lines, m, open[j].line)
    {
      OpenNext(lines, n, open[j].line);
    }
    forall i | IsOpen(lines, m, i)
      ensures IsOpen(lines, n, i)
    {
      OpenNext(lines, n, i);
    }
  }

  // ---- the exact condition ----------------------------------------------------------------

  /** A heading of level `l` either closes nothing, or leaves open one heading of each level
      above its own. */
  predicate ClosesEvenly(open: seq<Open>, level: Rank) {
    var kept := Kept(open, level);
    |kept| == |open| || |kept| == level - 1
  }

  ghost predicate AllCloseEvenly(lines: seq<Kind>, n: nat)
    requires n <= |lines|
  {
    forall i :: 0 <= i < n && lines[i].Heading? ==> ClosesEvenly(OpenHeadings(lines, i), lines[i].level)
  }

  ghost predicate StackIsNesting(lines: seq<Kind>, n: nat)
    requires n <= |lines|
  {
    forall m :: 0 <= m <= n ==> Stack(lines, m) == Titles(OpenHeadings(lines, m))
  }

  lemma {:induction false} LevelsReach(open: seq<Open>, i: nat)
    requires Deepening(open) && i < |open|
    ensures open[i].level >= i + 1
  {
    if i > 0 {
      LevelsReach(open, i - 1);
    }
  }

  lemma KeptIsShort(open: seq<Open>, level: Rank)
    requires Deepening(open)
    ensures |Kept(open, level)| <= level - 1
  {
    KeptIsPrefix(open, level);
    var kept := Kept(open, level);
    if kept != [] {
      LevelsReach(open, |kept| - 1);
    }
  }

  /** Popping by height and closing by level agree exactly when the closing is even. */
  lemma PoppedIsKept(open: seq<Open>, level: Rank)
    requires Deepening(open)
    ensures Popped(Titles(open), level) == Titles(Kept(open, level)) <==> ClosesEvenly(open, level)
  {
    KeptIsPrefix(open, level);
    KeptIsShort(open, level);
    var kept, popped := Kept(open, level), Popped(Titles(open), level);
    assert |popped| == if |open| >= level then level - 1 else |open|;
    assert popped == Titles(open)[..|popped|];
    assert |popped| == |kept| ==> popped == Titles(kept);
  }

  lemma SameEnd(a: seq<string>, b: seq<string>, x: string)
    ensures a + [x] == b + [x] <==> a == b
  {
    if a + [x] == b + [x] {
      assert (a + [x])[..|a|] == a && (b + [x])[..|b|] == b;
    }
  }

  lemma NestingNext(lines: seq<Kind>, n: nat)
    requires n < |lines| && Stack(lines, n) == Titles(OpenHeadings(lines, n))
    ensures Stack(lines, n + 1) == Titles(OpenHeadings(lines, n + 1)) <==>
            (lines[n].Heading? ==> ClosesEvenly(OpenHeadings(lines, n), lines[n].level))
  {
    if lines[n].Heading? {
      var open, level, title := OpenHeadings(lines, n), lines[n].level, lines[n].title;
      OpenHeadingsDeepen(lines, n);
      PoppedIsKept(open, level);
      SameEnd(Popped(Titles(open), level), Titles(Kept(open, level)), title);
      assert Titles(Kept(open, level) + [Open(n, level, title)]) == Titles(Kept(open, level)) + [title];
    }
  }

  lemma StackNestsNext(lines: seq<Kind>, n: nat)
    requires n < |lines|
    ensures StackIsNesting(lines, n + 1) <==>
            StackIsNesting(lines, n) && Stack(lines, n + 1) == Titles(OpenHeadings(lines, n + 1))
  {
  }

  lemma CloseEvenlyNext(lines: seq<Kind>, n: nat)
    requires n < |lines|
    ensures AllCloseEvenly(lines, n + 1) <==>
            AllCloseEvenly(lines, n) && (lines[n].Heading? ==> ClosesEvenly(OpenHeadings(lines, n), lines[n].level))
  {
  }

  /**
   The stack holds the titles of the open headings, at every line, if and only if every heading
   closes evenly.
   */
  lemma {:induction false} StackIsNestingIff(lines: seq<Kind>, n: nat)
    requires n <= |lines|
    ensures StackIsNesting(lines, n) <==> AllCloseEvenly(lines, n)
  {
    if n > 0 {
      StackIsNestingIff(lines, n - 1);
      StackNestsNext(lines, n - 1);
      CloseEvenlyNext(lines, n - 1);
      if StackIsNesting(lines, n - 1) {
        assert Stack(lines, n - 1) == Titles(OpenHeadings(lines, n - 1));
        NestingNext(lines, n - 1);
      }
    }
  }

  /** A section's path is the titles of the headings open above it, when all close evenly. */
  lemma PathIsNesting(lines: seq<Kind>, s: Section)
    requires s in Sections(lines) && AllCloseEvenly(lines, |lines|)
    ensures 1 <= s.startLine <= |lines| && s.path == Titles(OpenHeadings(lines, s.startLine - 1))
  {
    StackIsNestingIff(lines, |lines|);
    SectionPath(lines, s);
  }

  /** One open heading of each level down to the latest. */
  predicate OnePerLevel(open: seq<Open>, level: nat) {
    |open| == level && forall j :: 0 <= j < |open| ==> open[j].level == j + 1
  }

  lemma OnePerLevelNext(open: seq<Open>, depth: nat, o: Open)
    requires OnePerLevel(open, depth) && Deepening(open) && o.level <= depth + 1
    ensures ClosesEvenly(open, o.level) && OnePerLevel(Kept(open, o.level) + [o], o.level)
  {
    KeptIsPrefix(open, o.level);
    KeptIsShort(open, o.level);
    var kept := Kept(open, o.level);
    if |kept| < |open| {
      assert open[|kept|].level == |kept| + 1 && open[|kept|].level >= o.level;
    }
  }

  lemma FillLevelsNext(lines: seq<Kind>, n: nat)
    requires n < |lines| && OnePerLevel(OpenHeadings(lines, n), Level(lines, n))
    requires lines[n].Heading? ==> lines[n].level <= Level(lines, n) + 1
    ensures OnePerLevel(OpenHeadings(lines, n + 1), Level(lines, n + 1))
  {
    if lines[n].Heading? {
      OpenHeadingsDeepen(lines, n);
      OnePerLevelNext(OpenHeadings(lines, n), Level(lines, n), Open(n, lines[n].level, lines[n].title));
    }
  }

  lemma {:induction false} NoSkipsFillLevels(lines: seq<Kind>, n: nat)
    requires n <= |lines| && NoSkips(lines, n)
    ensures OnePerLevel(OpenHeadings(lines, n), Level(lines, n))
  {
    if n > 0 {
      NoSkipsFillLevels(lines, n - 1);
      FillLevelsNext(lines, n - 1);
    }
  }

  /** In a document that skips no level every heading closes evenly. */
  lemma NoSkipsCloseEvenly(lines: seq<Kind>, n: nat)
    requires n <= |lines| && NoSkips(lines, n)
    ensures AllCloseEvenly(lines, n)
  {
    forall i | 0 <= i < n && lines[i].Heading?
      ensures ClosesEvenly(OpenHeadings(lines, i), lines[i].level)
    {
      NoSkipsFillLevels(lines, i);
      OpenHeadingsDeepen(lines, i);
      OnePerLevelNext(OpenHeadings(lines, i), Level(lines, i), Open(i, lines[i].level, lines[i].title));
    }
  }
}
