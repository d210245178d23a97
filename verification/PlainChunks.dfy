/** Plain text cut into chunks: whole paragraphs, packed up to a number of words. */
module PlainChunks {
  import opened Wrappers
  import opened Strings
  import opened DocChunks
  import opened TextRuns
  import opened GreedyPacking

  /** Lines are numbered from 1; `endLine` is included. */
  datatype Paragraph = Paragraph(startLine: nat, endLine: nat, lines: seq<string>)

  function TextOf(p: Paragraph): string {
    Join(p.lines, "\n")
  }

  // ---- paragraphs -------------------------------------------------------------------------

  ghost predicate SaysBlank(blank: seq<bool>, lines: seq<string>) {
    |blank| == |lines| && forall i :: 0 <= i < |lines| ==> blank[i] == IsBlank(lines[i])
  }

  function Blanks(lines: seq<string>): (r: seq<bool>)
    ensures SaysBlank(r, lines)
  {
    seq(|lines|, i requires 0 <= i < |lines| => IsBlank(lines[i]))
  }

  /** The paragraphs of a text: its maximal runs of lines that are not blank. */
  function Paragraphs(lines: seq<string>): (r: seq<Paragraph>)
    ensures AreParagraphs(r, Runs(Blanks(lines)), lines)
  {
    var runs := Runs(Blanks(lines));
    RunsAreMaximal(Blanks(lines));
    assert forall k :: 0 <= k < |runs| ==> runs[k] in runs;
    seq(|runs|, k requires 0 <= k < |runs| =>
      Paragraph(runs[k].start + 1, runs[k].end, lines[runs[k].start..runs[k].end]))
  }

  ghost predicate IsParagraph(p: Paragraph, r: Run, lines: seq<string>) {
    r.start < r.end <= |lines| && p == Paragraph(r.start + 1, r.end, lines[r.start..r.end])
  }

  ghost predicate AreParagraphs(ps: seq<Paragraph>, runs: seq<Run>, lines: seq<string>) {
    |ps| == |runs| && forall k :: 0 <= k < |ps| ==> IsParagraph(ps[k], runs[k], lines)
  }

  /** The variables of the line loop after `n` lines. */
  ghost predicate LoopState(blank: seq<bool>, lines: seq<string>, n: nat,
                            paragraphs: seq<Paragraph>, current: Option<Paragraph>)
    requires n <= |lines| == |blank|
  {
    && AreParagraphs(paragraphs, EndedRuns(blank, n), lines)
    && AreParagraphs(Listed(current), OpenRun(blank, n), lines)
  }

  /** A line of text joins the open paragraph, or opens one. */
  function Grown(current: Option<Paragraph>, lineNo: nat, line: string): Paragraph {
    match current
    case None => Paragraph(lineNo, lineNo, [line])
    case Some(p) => p.(lines := p.lines + [line], endLine := lineNo)
  }

  lemma BlankLine(blank: seq<bool>, lines: seq<string>, n: nat, ps: seq<Paragraph>, current: Option<Paragraph>)
    requires n < |lines| == |blank| && LoopState(blank, lines, n, ps, current) && blank[n]
    ensures LoopState(blank, lines, n + 1, ps + Listed(current), None)
  {
  }

  lemma OneLineMore(lines: seq<string>, start: nat, n: nat)
    requires start <= n < |lines|
    ensures lines[start..n] + [lines[n]] == lines[start..n + 1]
    ensures [lines[n]] == lines[n..n + 1]
  {
  }

  lemma TextLine(blank: seq<bool>, lines: seq<string>, n: nat, ps: seq<Paragraph>, current: Option<Paragraph>)
    requires n < |lines| == |blank| && LoopState(blank, lines, n, ps, current) && !blank[n]
    ensures LoopState(blank, lines, n + 1, ps, Some(Grown(current, n + 1, lines[n])))
  {
    var start := RunStart(blank, n);
    if current.Some? {
      assert Listed(current)[0] == current.value;
      assert IsParagraph(current.value, OpenRun(blank, n)[0], lines);
      assert current.value.lines == lines[start..n];
    } else {
      assert |OpenRun(blank, n)| == 0;
    }
    OneLineMore(lines, start, n);
  }

  lemma SameParagraphs(a: seq<Paragraph>, b: seq<Paragraph>, runs: seq<Run>, lines: seq<string>)
    requires AreParagraphs(a, runs, lines) && AreParagraphs(b, runs, lines)
    ensures a == b
  {
    forall k | 0 <= k < |a|
      ensures a[k] == b[k]
    {
      assert IsParagraph(a[k], runs[k], lines) && IsParagraph(b[k], runs[k], lines);
    }
  }

  lemma LoopEnds(blank: seq<bool>, lines: seq<string>, paragraphs: seq<Paragraph>)
    requires blank == Blanks(lines) && AreParagraphs(paragraphs, Runs(blank), lines)
    ensures paragraphs == Paragraphs(lines)
  {
    SameParagraphs(paragraphs, Paragraphs(lines), Runs(blank), lines);
  }

  method SplitParagraphs(lines: seq<string>) returns (paragraphs: seq<Paragraph>)
    ensures paragraphs == Paragraphs(lines)
  {
    ghost var blank := Blanks(lines);
    paragraphs := [];
    var current: Option<Paragraph> := None;
    var i := 0;
    while i < |lines|
      invariant 0 <= i <= |lines|
      invariant LoopState(blank, lines, i, paragraphs, current)
    {
      var line := lines[i];
      i := i + 1;
      if IsBlank(line) {
        BlankLine(blank, lines, i - 1, paragraphs, current);
        paragraphs := paragraphs + Listed(current);
        current := None;
        continue;
      }
      TextLine(blank, lines, i - 1, paragraphs, current);
      current := Some(Grown(current, i, line));
    }
    paragraphs := paragraphs + Listed(current);
    LoopEnds(blank, lines, paragraphs);
  }

  // ---- packing ----------------------------------------------------------------------------

  type Group = seq<Item<Paragraph>>

  /** Each paragraph with its words. */
  ghost predicate AreItems(items: Group, ps: seq<Paragraph>) {
    && |items| == |ps|
    && forall k :: 0 <= k < |ps| ==> items[k] == Item(ps[k], CountWords(TextOf(ps[k]))) && items[k].size > 0
  }

  function Texts(group: Group): seq<string> {
    if group == [] then [] else [TextOf(group[0].value)] + Texts(group[1..])
  }

  ghost predicate IsGroupChunk(c: Chunk, group: Group, file: string) {
    && group != []
    && c.file == file && c.headingPath == []
    && c.startLine == group[0].value.startLine && c.endLine == group[|group| - 1].value.endLine
    && c.id == ChunkId(file, c.startLine, c.endLine)
    && c.text == Join(Texts(group), "\n\n")
    && c.words == Size(group)
  }

  ghost predicate AreGroupChunks(chunks: seq<Chunk>, groups: seq<Group>, file: string) {
    |chunks| == |groups| && forall k :: 0 <= k < |chunks| ==> IsGroupChunk(chunks[k], groups[k], file)
  }

  /** The sizes are the words of the paragraphs, and none is empty. */
  ghost predicate Measured(group: Group) {
    forall k :: 0 <= k < |group| ==> group[k].size == CountWords(TextOf(group[k].value)) && group[k].size > 0
  }

  lemma WordsOfBlankLine(b: string)
    ensures CountWords("\n" + b) == CountWords(b)
  {
    assert "\n" + b == "" + ['\n'] + b;
    WordsAdd("", '\n', b);
  }

  lemma WordsOfTwo(a: string, b: string)
    ensures CountWords(a + "\n\n" + b) == CountWords(a) + CountWords(b)
  {
    assert a + "\n\n" + b == a + ['\n'] + ("\n" + b);
    WordsAdd(a, '\n', "\n" + b);
    WordsOfBlankLine(b);
  }

  /** The words of a chunk are the words of its paragraphs. */
  lemma {:induction false} WordsOfGroup(group: Group)
    requires Measured(group) && group != []
    ensures CountWords(Join(Texts(group), "\n\n")) == Size(group) > 0
  {
    var first, rest := TextOf(group[0].value), Texts(group[1..]);
    assert Size(group) == group[0].size + Size(group[1..]);
    if |group| == 1 {
      JoinOne(first, "\n\n");
    } else {
      WordsOfGroup(group[1..]);
      JoinMore(first, rest, "\n\n");
      WordsOfTwo(first, Join(rest, "\n\n"));
    }
  }

  lemma JoinOne(a: string, sep: string)
    ensures Join([a], sep) == a
  {
  }

  lemma JoinMore(a: string, rest: seq<string>, sep: string)
    requires rest != []
    ensures Join([a] + rest, sep) == a + sep + Join(rest, sep)
  {
    assert ([a] + rest)[1..] == rest;
  }

  method FlushGroup(group: Group, file: string) returns (r: seq<Chunk>)
    requires Measured(group)
    ensures if group == [] then r == [] else |r| == 1 && IsGroupChunk(r[0], group, file)
  {
    r := [];
    if group == [] {
      return;
    }
    var startLine, endLine := group[0].value.startLine, group[|group| - 1].value.endLine;
    var text := Join(Texts(group), "\n\n");
    var words := CountWords(text);
    WordsOfGroup(group);
    if words != 0 {
      r := [Chunk(ChunkId(file, startLine, endLine), file, [], startLine, endLine, text, words)];
    }
  }

  lemma MoreChunks(chunks: seq<Chunk>, groups: seq<Group>, file: string, c: Chunk, group: Group)
    requires AreGroupChunks(chunks, groups, file) && IsGroupChunk(c, group, file)
    ensures AreGroupChunks(chunks + [c], groups + [group], file)
  {
  }

  method PushGroup(chunks: seq<Chunk>, ghost done: seq<Group>, group: Group, file: string) returns (r: seq<Chunk>)
    requires AreGroupChunks(chunks, done, file) && Measured(group) && group != []
    ensures AreGroupChunks(r, done + [group], file)
  {
    var flushed := FlushGroup(group, file);
    MoreChunks(chunks, done, file, flushed[0], group);
    r := chunks + flushed;
  }

  method PushLast(chunks: seq<Chunk>, ghost done: seq<Group>, group: Group, file: string, ghost limit: int)
    returns (r: seq<Chunk>)
    requires AreGroupChunks(chunks, done, file) && Measured(group)
    ensures AreGroupChunks(r, done + Packed(group, [], limit), file)
  {
    r := chunks;
    if group != [] {
      r := PushGroup(chunks, done, group, file);
    }
  }

  lemma MoreMeasured(group: Group, x: Item<Paragraph>)
    requires Measured(group) && Measured([x])
    ensures Measured(group + [x])
  {
    assert [x][0] == x;
  }

  /** The items of the paragraphs from `i` on. */
  ghost predicate AreAhead(rest: Group, ps: seq<Paragraph>, i: nat) {
    i <= |ps| && AreItems(rest, ps[i..])
  }

  lemma NextItem(rest: Group, ps: seq<Paragraph>, i: nat)
    requires AreAhead(rest, ps, i) && i < |ps|
    ensures rest != [] && rest[0] == Item(ps[i], CountWords(TextOf(ps[i])))
    ensures Measured([rest[0]]) && rest[0].size > 0
    ensures AreAhead(rest[1..], ps, i + 1)
  {
    assert ps[i..][0] == ps[i] && ps[i..][1..] == ps[i + 1..];
  }

  method PackParagraphs(paragraphs: seq<Paragraph>, ghost items: Group, file: string, wordsPerChunk: int)
    returns (chunks: seq<Chunk>)
    requires AreItems(items, paragraphs)
    ensures AreGroupChunks(chunks, Packed([], items, wordsPerChunk), file)
  {
    chunks := [];
    var group: Group, groupWords := [], 0;
    ghost var done: seq<Group>, all, rest := [], Packed([], items, wordsPerChunk), items;
    var i: nat := 0;
    assert paragraphs[0..] == paragraphs;
    while i < |paragraphs|
      invariant i <= |paragraphs| && AreAhead(rest, paragraphs, i)
      invariant Measured(group) && groupWords == Size(group)
      invariant AreGroupChunks(chunks, done, file)
      invariant all == done + Packed(group, rest, wordsPerChunk)
    {
      var para := paragraphs[i];
      var paraWords := CountWords(TextOf(para));
      NextItem(rest, paragraphs, i);
      if paraWords != 0 {
        if |group| > 0 && groupWords + paraWords > wordsPerChunk {
          chunks := PushGroup(chunks, done, group, file);
          CloseGroup(all, done, group, rest, wordsPerChunk);
          done := done + [group];
          group, groupWords := [], 0;
        }
        AddItem(all, done, group, rest, wordsPerChunk);
        MoreMeasured(group, rest[0]);
        group := group + [Item(para, paraWords)];
        groupWords := groupWords + paraWords;
      }
      i, rest := i + 1, rest[1..];
    }
    chunks := PushLast(chunks, done, group, file, wordsPerChunk);
  }

  function ItemsOf(ps: seq<Paragraph>): Group {
    seq(|ps|, k requires 0 <= k < |ps| => Item(ps[k], CountWords(TextOf(ps[k]))))
  }

  lemma ParagraphHasWords(lines: seq<string>, k: nat)
    requires k < |Paragraphs(lines)|
    ensures CountWords(TextOf(Paragraphs(lines)[k])) > 0
  {
    var r := Runs(Blanks(lines))[k];
    RunsAreMaximal(Blanks(lines));
    assert r in Runs(Blanks(lines)) && !Blanks(lines)[r.start];
    JoinNotBlank(lines[r.start..r.end], "\n");
    NotBlankHasWords(TextOf(Paragraphs(lines)[k]));
  }

  lemma ItemsAreItems(lines: seq<string>)
    ensures AreItems(ItemsOf(Paragraphs(lines)), Paragraphs(lines))
  {
    var ps := Paragraphs(lines);
    forall k | 0 <= k < |ps|
      ensures CountWords(TextOf(ps[k])) > 0
    {
      ParagraphHasWords(lines, k);
    }
  }

  /** The groups of paragraphs the chunks are made of. */
  function Groups(lines: seq<string>, limit: int): seq<Group> {
    Packed([], ItemsOf(Paragraphs(lines)), limit)
  }

  method ChunkPlain(text: string, file: string, wordsPerChunk: int) returns (chunks: seq<Chunk>)
    ensures AreGroupChunks(chunks, Groups(TextLines(text), wordsPerChunk), file)
  {
    var lines := TextLines(text);
    var paragraphs := SplitParagraphs(lines);
    ItemsAreItems(lines);
    chunks := PackParagraphs(paragraphs, ItemsOf(paragraphs), file, wordsPerChunk);
  }

  // ---- what the chunks are ----------------------------------------------------------------

  /**
   Each chunk is whole paragraphs, in order, within the limit unless it is a single one;
   and no way to group the paragraphs in order under that rule needs fewer chunks.
   */
  lemma FewestChunks(chunks: seq<Chunk>, lines: seq<string>, file: string, limit: int, groups: seq<Group>)
    requires AreGroupChunks(chunks, Groups(lines, limit), file)
    requires IsGrouping(groups, ItemsOf(Paragraphs(lines)), limit)
    ensures |chunks| <= |groups|
    ensures Flat(Groups(lines, limit)) == ItemsOf(Paragraphs(lines))
    ensures forall k :: 0 <= k < |chunks| ==> chunks[k].words <= limit || |Groups(lines, limit)[k]| == 1
  {
    PackedIsOptimal(ItemsOf(Paragraphs(lines)), limit, groups);
    forall k | 0 <= k < |chunks|
      ensures chunks[k].words <= limit || |Groups(lines, limit)[k]| == 1
    {
      assert Groups(lines, limit)[k] in Groups(lines, limit);
      assert IsGroupChunk(chunks[k], Groups(lines, limit)[k], file);
    }
  }

  /** Paragraphs that follow each other with a line between. */
  ghost predicate Ordered(items: Group) {
    && (forall i :: 0 <= i < |items| ==> items[i].value.startLine <= items[i].value.endLine)
    && forall i, j :: 0 <= i < j < |items| ==> items[i].value.endLine < items[j].value.startLine
  }

  lemma ParagraphsOrdered(lines: seq<string>)
    ensures Ordered(ItemsOf(Paragraphs(lines)))
  {
    var runs, ps := Runs(Blanks(lines)), Paragraphs(lines);
    RunsAreMaximal(Blanks(lines));
    assert forall k :: 0 <= k < |ps| ==> IsParagraph(ps[k], runs[k], lines);
  }

  lemma {:induction false} MembersOfFlat<T>(groups: seq<seq<T>>, j: nat, x: T)
    requires j < |groups| && x in groups[j]
    ensures x in Flat(groups)
  {
    if j > 0 {
      MembersOfFlat(groups[1..], j - 1, x);
    }
  }

  lemma {:induction false} GroupOf<T>(groups: seq<seq<T>>, x: T)
    requires x in Flat(groups)
    ensures exists j :: 0 <= j < |groups| && x in groups[j]
  {
    if x in groups[0] {
    } else {
      GroupOf(groups[1..], x);
      var j :| 0 <= j < |groups[1..]| && x in groups[1..][j];
      assert x in groups[j + 1];
    }
  }

  lemma OrderedParts(a: Group, b: Group)
    requires Ordered(a + b)
    ensures Ordered(a) && Ordered(b)
    ensures forall x, y :: x in a && y in b ==> x.value.endLine < y.value.startLine
  {
    var all := a + b;
    assert forall k :: 0 <= k < |a| ==> all[k] == a[k];
    assert forall k :: 0 <= k < |b| ==> all[|a| + k] == b[k];
    forall x, y | x in a && y in b
      ensures x.value.endLine < y.value.startLine
    {
      var i :| 0 <= i < |a| && a[i] == x;
      var j :| 0 <= j < |b| && b[j] == y;
      assert all[i] == x && all[|a| + j] == y;
    }
  }

  lemma {:induction false} GroupsOrdered(groups: seq<Group>, i: nat, j: nat)
    requires Ordered(Flat(groups)) && i <= j < |groups| && groups[i] != [] && groups[j] != []
    ensures Ordered(groups[i])
    ensures i < j ==> groups[i][|groups[i]| - 1].value.endLine < groups[j][0].value.startLine
  {
    OrderedParts(groups[0], Flat(groups[1..]));
    if i > 0 {
      GroupsOrdered(groups[1..], i - 1, j - 1);
    } else if j > 0 {
      MembersOfFlat(groups[1..], j - 1, groups[j][0]);
    }
  }

  /** The chunks' groups hold all paragraphs, in the order of the text. */
  lemma GroupsHoldAll(lines: seq<string>, limit: int)
    ensures Flat(Groups(lines, limit)) == ItemsOf(Paragraphs(lines))
    ensures Ordered(Flat(Groups(lines, limit)))
  {
    PackedIsGrouping([], ItemsOf(Paragraphs(lines)), limit);
    ParagraphsOrdered(lines);
    assert [] + ItemsOf(Paragraphs(lines)) == ItemsOf(Paragraphs(lines));
  }

  lemma GroupChunksFollow(chunks: seq<Chunk>, groups: seq<Group>, file: string, i: nat, j: nat)
    requires AreGroupChunks(chunks, groups, file) && Ordered(Flat(groups)) && i < j < |chunks|
    ensures chunks[i].startLine <= chunks[i].endLine < chunks[j].startLine <= chunks[j].endLine
    ensures chunks[i].id == ChunkId(file, chunks[i].startLine, chunks[i].endLine)
    ensures chunks[j].id == ChunkId(file, chunks[j].startLine, chunks[j].endLine)
  {
    assert IsGroupChunk(chunks[i], groups[i], file) && IsGroupChunk(chunks[j], groups[j], file);
    GroupsOrdered(groups, i, j);
    GroupsOrdered(groups, j, j);
  }

  /** The chunks follow each other in the text, each with a different id. */
  lemma ChunksFollow(chunks: seq<Chunk>, lines: seq<string>, file: string, limit: int, i: nat, j: nat)
    requires AreGroupChunks(chunks, Groups(lines, limit), file) && i < j < |chunks|
    ensures chunks[i].startLine <= chunks[i].endLine < chunks[j].startLine <= chunks[j].endLine
    ensures chunks[i].id != chunks[j].id
  {
    GroupsHoldAll(lines, limit);
    GroupChunksFollow(chunks, Groups(lines, limit), file, i, j);
    if chunks[i].id == chunks[j].id {
      IdsDiffer(file, chunks[i].startLine, chunks[i].endLine, chunks[j].startLine, chunks[j].endLine);
    }
  }

  lemma InGroup(group: Group, x: Item<Paragraph>)
    requires Ordered(group) && x in group
    ensures group[0].value.startLine <= x.value.startLine
    ensures x.value.endLine <= group[|group| - 1].value.endLine
  {
    var n :| 0 <= n < |group| && group[n] == x;
  }

  lemma ItemIsHeld(chunks: seq<Chunk>, groups: seq<Group>, file: string, x: Item<Paragraph>)
    requires AreGroupChunks(chunks, groups, file) && Ordered(Flat(groups)) && x in Flat(groups)
    ensures exists k :: 0 <= k < |chunks| &&
              chunks[k].startLine <= x.value.startLine && x.value.endLine <= chunks[k].endLine
  {
    GroupOf(groups, x);
    var k :| 0 <= k < |groups| && x in groups[k];
    assert IsGroupChunk(chunks[k], groups[k], file);
    GroupsOrdered(groups, k, k);
    InGroup(groups[k], x);
    assert chunks[k].startLine <= x.value.startLine;
  }

  /** Every line with text is in some chunk, and by `ChunksFollow` in only one. */
  lemma EveryLineIsHeld(chunks: seq<Chunk>, lines: seq<string>, file: string, limit: int, i: nat)
    requires AreGroupChunks(chunks, Groups(lines, limit), file)
    requires i < |lines| && !IsBlank(lines[i])
    ensures exists k :: 0 <= k < |chunks| && Holds(chunks[k], i)
  {
    var m := ParagraphAt(lines, i);
    var x := ItemsOf(Paragraphs(lines))[m];
    GroupsHoldAll(lines, limit);
    ItemIsHeld(chunks, Groups(lines, limit), file, x);
    var k :| 0 <= k < |chunks| &&
             chunks[k].startLine <= x.value.startLine && x.value.endLine <= chunks[k].endLine;
    assert Holds(chunks[k], i);
  }

  lemma ParagraphAt(lines: seq<string>, i: nat) returns (m: nat)
    requires i < |lines| && !IsBlank(lines[i])
    ensures m < |Paragraphs(lines)|
    ensures Paragraphs(lines)[m].startLine <= i + 1 <= Paragraphs(lines)[m].endLine
  {
    var runs := Runs(Blanks(lines));
    RunsCover(Blanks(lines), i);
    var r :| r in runs && r.start <= i < r.end;
    m :| 0 <= m < |runs| && runs[m] == r;
    assert IsParagraph(Paragraphs(lines)[m], r, lines);
  }
}
