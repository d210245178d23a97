/** Markdown cut into heading-shaped chunks: the line loop, and what its chunks are. */
module MarkdownChunks {
  import opened Wrappers
  import opened Strings
  import opened DocChunks
  import opened MarkdownOutline

  // ---- headings and fences ----------------------------------------------------------------

  /** The text after at most `n` leading spaces. */
  function Unindent(line: string, n: nat): string {
    if n > 0 && line != "" && line[0] == ' ' then Unindent(line[1..], n - 1) else line
  }

  predicate IsFence(line: string) {
    var s := Unindent(line, 3);
    StartsWith(s, "```") || StartsWith(s, "~~~")
  }

  function AfterHashes(s: string): (r: string)
    ensures |r| <= |s|
    ensures s != "" && s[0] == '#' ==> |r| < |s|
  {
    if s != "" && s[0] == '#' then AfterHashes(s[1..]) else s
  }

  /** `\s*#*\s*$` */
  predicate IsClosing(s: string) {
    AllSpace(AfterHashes(TrimLeft(s)))
  }

  /** The shortest beginning of `s` that is followed by a closing sequence. */
  function Title(s: string): string {
    if s == "" || IsClosing(s) then "" else [s[0]] + Title(s[1..])
  }

  /** The ATX heading a line is: one to six hashes, white space, a title, closing hashes. */
  function HeadingOf(line: string): (r: Option<Kind>)
    ensures r.Some? ==> r.value.Heading? && Trimmed(r.value.title)
  {
    var s := Unindent(line, 3);
    var rest := AfterHashes(s);
    var hashes := |s| - |rest|;
    if hashes == 0 then None
    else if AllSpace(rest) then Some(Heading(if hashes > 6 then 6 else hashes, ""))
    else if hashes > 6 || !IsSpace(rest[0]) then None
    else
      var title := Title(TrimLeft(rest));
      if OneLine(title) then Some(Heading(hashes, Trim(title))) else None
  }

  // ---- a written heading is read back -----------------------------------------------------

  function Hashes(n: nat): string {
    if n == 0 then "" else "#" + Hashes(n - 1)
  }

  lemma {:induction false} HashesRead(n: nat, rest: string)
    requires rest == "" || rest[0] != '#'
    ensures AfterHashes(Hashes(n) + rest) == rest && |Hashes(n)| == n
  {
    if n == 0 {
      assert Hashes(0) + rest == rest;
    } else {
      assert (Hashes(n) + rest)[1..] == Hashes(n - 1) + rest;
      HashesRead(n - 1, rest);
    }
  }

  /** The text ends in something that is neither white space nor a hash. */
  predicate EndsInWord(s: string) {
    s != "" && !IsSpace(s[|s| - 1]) && s[|s| - 1] != '#'
  }

  lemma {:induction false} TrimLeftKeepsEnd(s: string)
    requires EndsInWord(s)
    ensures EndsInWord(TrimLeft(s))
  {
    if IsSpace(s[0]) {
      TrimLeftKeepsEnd(s[1..]);
    }
  }

  lemma {:induction false} AfterHashesKeepsEnd(s: string)
    requires EndsInWord(s)
    ensures EndsInWord(AfterHashes(s))
  {
    if s[0] == '#' {
      AfterHashesKeepsEnd(s[1..]);
    }
  }

  lemma WordIsNotClosing(s: string)
    requires EndsInWord(s)
    ensures !IsClosing(s)
  {
    TrimLeftKeepsEnd(s);
    AfterHashesKeepsEnd(TrimLeft(s));
    var r := AfterHashes(TrimLeft(s));
    assert !IsSpace(r[|r| - 1]);
  }

  lemma {:induction false} TitleWhole(t: string)
    requires t == "" || EndsInWord(t)
    ensures Title(t) == t
  {
    if t != "" {
      WordIsNotClosing(t);
      assert t[1..] == "" || EndsInWord(t[1..]);
      TitleWhole(t[1..]);
      assert t == [t[0]] + t[1..];
    }
  }

  /** A title that ends in a hash loses it. */
  lemma {:induction false} TitleCut(t: string)
    requires t != "" && t[|t| - 1] == '#'
    ensures |Title(t)| < |t|
  {
    if |t| == 1 {
      assert t == "#";
      HashIsClosing();
    } else if !IsClosing(t) {
      TitleCut(t[1..]);
    }
  }

  lemma HashIsClosing()
    ensures IsClosing("#")
  {
    assert "#"[1..] == "";
  }

  /** What the pattern makes of hashes, a space and a title. */
  lemma HeadingShape(level: Rank, title: string)
    requires title != "" && Trimmed(title)
    ensures HeadingOf(Hashes(level) + (" " + title)) ==
            if OneLine(Title(title)) then Some(Heading(level, Trim(Title(title)))) else None
  {
    var rest := " " + title;
    var line := Hashes(level) + rest;
    HashesRead(level, rest);
    assert Hashes(level)[0] == '#' && line[0] == '#';
    assert Unindent(line, 3) == line;
    assert rest[1..] == title && !IsSpace(title[0]);
    assert TrimLeft(rest) == title;
    assert rest[1] == title[0] && !AllSpace(rest);
  }

  /** One to six hashes, a space and a one-line title are read back as that level and title if
      and only if the title does not end in a hash: `# C#` is read as `C`. */
  lemma HeadingRead(level: Rank, title: string)
    requires title != "" && Trimmed(title) && OneLine(title)
    ensures HeadingOf(Hashes(level) + (" " + title)) == Some(Heading(level, title)) <==> title[|title| - 1] != '#'
  {
    HeadingShape(level, title);
    if title[|title| - 1] == '#' {
      TitleCut(title);
      TrimIsShorter(Title(title));
    } else {
      TitleWhole(title);
      TrimTrimmed(title);
    }
  }

  // ---- the kinds of lines -----------------------------------------------------------------

  /** Whether the first `n` lines leave a code fence open: any fence line toggles. */
  predicate InFence(lines: seq<string>, n: nat)
    requires n <= |lines|
  {
    n > 0 && (IsFence(lines[n - 1]) != InFence(lines, n - 1))
  }

  /** A heading outside any code fence. */
  predicate IsHeading(lines: seq<string>, i: nat)
    requires i < |lines|
  {
    !IsFence(lines[i]) && !InFence(lines, i) && HeadingOf(lines[i]).Some?
  }

  function KindAt(lines: seq<string>, i: nat): Kind
    requires i < |lines|
  {
    if IsHeading(lines, i) then HeadingOf(lines[i]).value
    else if IsBlank(lines[i]) then Blank
    else Text
  }

  function Kinds(lines: seq<string>): (r: seq<Kind>)
    ensures |r| == |lines|
    ensures forall i :: 0 <= i < |lines| ==> r[i] == KindAt(lines, i)
  {
    seq(|lines|, i requires 0 <= i < |lines| => KindAt(lines, i))
  }

  lemma {:induction false} UnindentBlank(line: string, n: nat)
    requires AllSpace(line)
    ensures AllSpace(Unindent(line, n))
  {
    if n > 0 && line != "" && line[0] == ' ' {
      UnindentBlank(line[1..], n - 1);
    }
  }

  lemma HeadingNotBlank(line: string)
    requires IsBlank(line)
    ensures HeadingOf(line).None?
  {
    BlankIff(line);
    UnindentBlank(line, 3);
    assert Unindent(line, 3) == "" || Unindent(line, 3)[0] != '#';
  }

  /** The kinds say which lines are blank. */
  ghost predicate SameBlanks(kinds: seq<Kind>, lines: seq<string>) {
    && |kinds| == |lines|
    && forall k :: 0 <= k < |lines| ==> (kinds[k] == Blank <==> IsBlank(lines[k]))
  }

  lemma BlankKinds(lines: seq<string>)
    ensures SameBlanks(Kinds(lines), lines)
  {
    forall i | 0 <= i < |lines|
      ensures Kinds(lines)[i] == Blank <==> IsBlank(lines[i])
    {
      if IsBlank(lines[i]) {
        HeadingNotBlank(lines[i]);
      }
    }
  }

  lemma BlankSlice(kinds: seq<Kind>, lines: seq<string>, b: nat, n: nat)
    requires SameBlanks(kinds, lines) && b <= n <= |lines|
    ensures SameBlanks(kinds[b..n], lines[b..n])
  {
  }

  // ---- chunks -----------------------------------------------------------------------------

  /** The chunk is the section's lines, joined. */
  ghost predicate IsChunkOf(c: Chunk, s: Section, lines: seq<string>, file: string) {
    && 1 <= s.startLine <= s.endLine <= |lines|
    && c.file == file && c.headingPath == s.path
    && c.startLine == s.startLine && c.endLine == s.endLine
    && c.id == ChunkId(file, s.startLine, s.endLine)
    && c.text == Join(lines[s.startLine - 1..s.endLine], "\n")
    && c.words == CountWords(c.text)
  }

  ghost predicate AreChunksOf(chunks: seq<Chunk>, sections: seq<Section>, lines: seq<string>, file: string) {
    && |chunks| == |sections|
    && forall k :: 0 <= k < |chunks| ==> IsChunkOf(chunks[k], sections[k], lines, file)
  }

  /** The chunks of a document: its sections with their text. */
  ghost predicate IsChunked(chunks: seq<Chunk>, lines: seq<string>, file: string) {
    AreChunksOf(chunks, Sections(Kinds(lines)), lines, file)
  }

  /** What a section's body becomes: nothing when blank, else its lines from text to text. */
  ghost predicate IsBodyChunk(path: seq<string>, bodyStart: nat, kinds: seq<Kind>, body: seq<string>, file: string,
                              r: Option<Chunk>)
    requires |kinds| == |body|
  {
    match r
    case None => forall k :: 0 <= k < |body| ==> kinds[k] == Blank
    case Some(c) =>
      && bodyStart <= c.startLine <= c.endLine < bodyStart + |body|
      && kinds[c.startLine - bodyStart] != Blank && kinds[c.endLine - bodyStart] != Blank
      && (forall k :: 0 <= k < |body| && kinds[k] != Blank ==> c.startLine <= bodyStart + k <= c.endLine)
      && c.text == Join(body[c.startLine - bodyStart..c.endLine + 1 - bodyStart], "\n")
      && c.words == CountWords(c.text)
      && c.file == file && c.headingPath == path && c.id == ChunkId(file, c.startLine, c.endLine)
  }

  method SectionToChunk(path: seq<string>, bodyStart: nat, ghost kinds: seq<Kind>, body: seq<string>, file: string)
    returns (r: Option<Chunk>)
    requires SameBlanks(kinds, body)
    ensures IsBodyChunk(path, bodyStart, kinds, body, file, r)
  {
    var first, last := -1, -1;
    var i := 0;
    while i < |body|
      invariant 0 <= i <= |body|
      invariant -1 <= first <= last < i
      invariant first == -1 <==> last == -1
      invariant forall k :: 0 <= k < i && kinds[k] != Blank ==> 0 <= first <= k <= last
      invariant first >= 0 ==> kinds[first] != Blank && kinds[last] != Blank
    {
      if !IsBlank(body[i]) {
        if first == -1 {
          first := i;
        }
        last := i;
      }
      i := i + 1;
    }
    if first == -1 {
      return None;
    }
    var text := Join(body[first..last + 1], "\n");
    var start, end := bodyStart + first, bodyStart + last;
    r := Some(Chunk(ChunkId(file, start, end), file, path, start, end, text, CountWords(text)));
  }

  /** The variables of the line loop after `n` lines. */
  ghost predicate LoopState(kinds: seq<Kind>, lines: seq<string>, n: nat, file: string,
                            chunks: seq<Chunk>, stack: seq<string>, bodyStart: nat, body: seq<string>)
    requires n <= |lines| == |kinds|
  {
    && AreChunksOf(chunks, Closed(kinds, n), lines, file)
    && stack == Stack(kinds, n)
    && bodyStart == SectionStart(kinds, n) + 1
    && body == lines[SectionStart(kinds, n)..n]
  }

  lemma BeforeLines(kinds: seq<Kind>, lines: seq<string>, file: string)
    requires |lines| == |kinds|
    ensures LoopState(kinds, lines, 0, file, [], [], 1, [])
  {
  }

  lemma BodyLine(kinds: seq<Kind>, lines: seq<string>, n: nat, file: string,
                 chunks: seq<Chunk>, stack: seq<string>, bodyStart: nat, body: seq<string>)
    requires n < |lines| == |kinds| && !kinds[n].Heading?
    requires LoopState(kinds, lines, n, file, chunks, stack, bodyStart, body)
    ensures LoopState(kinds, lines, n + 1, file, chunks, stack, bodyStart, body + [lines[n]])
  {
  }

  lemma HeadingStep(kinds: seq<Kind>, n: nat)
    requires n < |kinds| && kinds[n].Heading?
    ensures Closed(kinds, n + 1) == Closed(kinds, n) + Listed(OpenSection(kinds, n))
    ensures Stack(kinds, n + 1) == Popped(Stack(kinds, n), kinds[n].level) + [kinds[n].title]
    ensures SectionStart(kinds, n + 1) == n + 1
  {
  }

  lemma HeadingLine(kinds: seq<Kind>, lines: seq<string>, n: nat, file: string, chunks: seq<Chunk>,
                    closed: seq<Section>, stack: seq<string>)
    requires n < |lines| == |kinds| && kinds[n].Heading?
    requires closed == Closed(kinds, n) + Listed(OpenSection(kinds, n)) && AreChunksOf(chunks, closed, lines, file)
    requires stack == Popped(Stack(kinds, n), kinds[n].level) + [kinds[n].title]
    ensures LoopState(kinds, lines, n + 1, file, chunks, stack, n + 2, [])
  {
    HeadingStep(kinds, n);
    assert Closed(kinds, n + 1) == closed;
  }

  lemma MoreChunksOf(a: seq<Chunk>, b: seq<Section>, c: seq<Chunk>, d: seq<Section>, lines: seq<string>, file: string)
    requires AreChunksOf(a, b, lines, file) && AreChunksOf(c, d, lines, file)
    ensures AreChunksOf(a + c, b + d, lines, file)
  {
  }

  /** Closing the open section, at a heading or at the end of the document. */
  method CloseSection(ghost kinds: seq<Kind>, ghost lines: seq<string>, ghost n: nat,
                      chunks: seq<Chunk>, path: seq<string>, bodyStart: nat, body: seq<string>, file: string)
    returns (r: seq<Chunk>)
    requires kinds == Kinds(lines) && n <= |lines|
    requires LoopState(kinds, lines, n, file, chunks, path, bodyStart, body)
    ensures AreChunksOf(r, Closed(kinds, n) + Listed(OpenSection(kinds, n)), lines, file)
  {
    BlankKinds(lines);
    BlankSlice(kinds, lines, SectionStart(kinds, n), n);
    var chunk := SectionToChunk(path, bodyStart, kinds[SectionStart(kinds, n)..n], body, file);
    BodyIsSection(path, kinds, lines, SectionStart(kinds, n), n, file, chunk);
    MoreChunksOf(chunks, Closed(kinds, n), Listed(chunk), Listed(OpenSection(kinds, n)), lines, file);
    r := chunks + Listed(chunk);
  }

  lemma KindIs(lines: seq<string>, i: nat)
    requires i < |lines|
    ensures Kinds(lines)[i].Heading? <==> IsHeading(lines, i)
    ensures IsHeading(lines, i) ==> Kinds(lines)[i] == HeadingOf(lines[i]).value
  {
  }

  /** The inner loop that closes the headings a new one of this level does not stand under. */
  method PopTo(stack: seq<string>, level: Rank) returns (r: seq<string>)
    ensures r == Popped(stack, level)
  {
    r := stack;
    while |r| >= level
      invariant r <= stack && (|r| >= level - 1 || r == stack)
    {
      r := r[..|r| - 1];
    }
  }

  /** A heading closes the section before it and goes on the stack. */
  method StartSection(ghost kinds: seq<Kind>, ghost lines: seq<string>, ghost n: nat, chunks: seq<Chunk>,
                      stack: seq<string>, bodyStart: nat, body: seq<string>, heading: Kind, file: string)
    returns (chunks': seq<Chunk>, stack': seq<string>)
    requires kinds == Kinds(lines) && n < |lines| && heading.Heading? && kinds[n] == heading
    requires LoopState(kinds, lines, n, file, chunks, stack, bodyStart, body)
    ensures LoopState(kinds, lines, n + 1, file, chunks', stack', n + 2, [])
  {
    chunks' := CloseSection(kinds, lines, n, chunks, stack, bodyStart, body, file);
    stack' := PopTo(stack, heading.level);
    stack' := stack' + [heading.title];
    HeadingLine(kinds, lines, n, file, chunks', Closed(kinds, n) + Listed(OpenSection(kinds, n)), stack');
  }

  method ChunkMarkdown(text: string, file: string) returns (chunks: seq<Chunk>)
    ensures IsChunked(chunks, TextLines(text), file)
  {
    var lines := TextLines(text);
    ghost var kinds := Kinds(lines);
    chunks := [];
    var headingStack: seq<string> := [];
    var inFence := false;
    var path: seq<string>, bodyStart: nat, body: seq<string> := [], 1, [];
    var i: nat := 0;
    BeforeLines(kinds, lines, file);
    while i < |lines|
      invariant i <= |lines|
      invariant LoopState(kinds, lines, i, file, chunks, headingStack, bodyStart, body)
      invariant path == headingStack
      invariant inFence == InFence(lines, i)
    {
      var line := lines[i];
      i := i + 1;
      KindIs(lines, i - 1);
      if IsFence(line) {
        BodyLine(kinds, lines, i - 1, file, chunks, headingStack, bodyStart, body);
        inFence := !inFence;
        body := body + [line];
        continue;
      }
      if inFence {
        BodyLine(kinds, lines, i - 1, file, chunks, headingStack, bodyStart, body);
        body := body + [line];
        continue;
      }
      var heading := HeadingOf(line);
      if heading.Some? {
        chunks, headingStack := StartSection(kinds, lines, i - 1, chunks, headingStack, bodyStart, body, heading.value, file);
        path, bodyStart, body := headingStack, i + 1, [];
        continue;
      }
      BodyLine(kinds, lines, i - 1, file, chunks, headingStack, bodyStart, body);
      body := body + [line];
    }
    chunks := CloseSection(kinds, lines, i, chunks, path, bodyStart, body, file);
  }

  lemma SameText(lines: seq<string>, b: nat, n: nat, start: nat, end: nat)
    requires b < start <= end <= n <= |lines|
    ensures lines[b..n][start - (b + 1)..end + 1 - (b + 1)] == lines[start - 1..end]
  {
    var s, t := lines[b..n][start - (b + 1)..end + 1 - (b + 1)], lines[start - 1..end];
    assert |s| == |t| && forall k :: 0 <= k < |s| ==> s[k] == t[k];
  }

  lemma BodyFindsSection(path: seq<string>, bodyStart: nat, kinds: seq<Kind>, body: seq<string>, file: string, c: Chunk)
    requires |kinds| == |body| && IsBodyChunk(path, bodyStart, kinds, body, file, Some(c))
    ensures SectionOf(path, bodyStart, kinds) == Some(Section(path, c.startLine, c.endLine))
  {
    SectionIsUnique(path, bodyStart, kinds, c.startLine - bodyStart, c.endLine - bodyStart);
  }

  lemma BodyHasText(path: seq<string>, kinds: seq<Kind>, lines: seq<string>, b: nat, n: nat, file: string, c: Chunk)
    requires b <= n <= |lines| && |kinds| == n - b
    requires IsBodyChunk(path, b + 1, kinds, lines[b..n], file, Some(c))
    ensures IsChunkOf(c, Section(path, c.startLine, c.endLine), lines, file)
  {
    SameText(lines, b, n, c.startLine, c.endLine);
  }

  /** The body's chunk is the body's section, with its text. */
  lemma BodyIsSection(path: seq<string>, kinds: seq<Kind>, lines: seq<string>, b: nat, n: nat, file: string, r: Option<Chunk>)
    requires b <= n <= |lines| == |kinds|
    requires IsBodyChunk(path, b + 1, kinds[b..n], lines[b..n], file, r)
    ensures AreChunksOf(Listed(r), Listed(SectionOf(path, b + 1, kinds[b..n])), lines, file)
  {
    if r.Some? {
      BodyFindsSection(path, b + 1, kinds[b..n], lines[b..n], file, r.value);
      BodyHasText(path, kinds[b..n], lines, b, n, file, r.value);
    } else {
      BlankHasNoSection(path, b + 1, kinds[b..n]);
    }
  }

  // ---- what the chunks are ----------------------------------------------------------------

  ghost predicate IsWhole(c: Chunk, lines: seq<string>, file: string) {
    && 1 <= c.startLine <= c.endLine <= |lines|
    && c.file == file && c.id == ChunkId(file, c.startLine, c.endLine)
    && c.text == Join(lines[c.startLine - 1..c.endLine], "\n")
    && c.words == CountWords(c.text)
    && !IsBlank(lines[c.startLine - 1]) && !IsBlank(lines[c.endLine - 1])
  }

  /**
   Every chunk is exactly the lines it names, from a line with text to a line with text;
   the chunks follow each other in the document.
   */
  lemma Provenance(chunks: seq<Chunk>, lines: seq<string>, file: string)
    requires IsChunked(chunks, lines, file)
    ensures forall k :: 0 <= k < |chunks| ==> IsWhole(chunks[k], lines, file)
    ensures forall i, j :: 0 <= i < j < |chunks| ==> chunks[i].endLine < chunks[j].startLine
  {
    SectionsAreFramed(Kinds(lines));
    BlankKinds(lines);
    FramedAreWhole(Kinds(lines), chunks, Sections(Kinds(lines)), lines, file);
  }

  lemma FramedAreWhole(kinds: seq<Kind>, chunks: seq<Chunk>, sections: seq<Section>, lines: seq<string>, file: string)
    requires SameBlanks(kinds, lines) && AreChunksOf(chunks, sections, lines, file) && Increasing(sections)
    requires forall s :: s in sections ==> Framed(kinds, s)
    ensures forall k :: 0 <= k < |chunks| ==> IsWhole(chunks[k], lines, file)
    ensures forall i, j :: 0 <= i < j < |chunks| ==> chunks[i].endLine < chunks[j].startLine
  {
    forall k | 0 <= k < |chunks|
      ensures IsWhole(chunks[k], lines, file)
    {
      assert sections[k] in sections && IsChunkOf(chunks[k], sections[k], lines, file);
    }
    forall i, j | 0 <= i < j < |chunks|
      ensures chunks[i].endLine < chunks[j].startLine
    {
      assert IsChunkOf(chunks[i], sections[i], lines, file) && IsChunkOf(chunks[j], sections[j], lines, file);
    }
  }

  /** No two chunks of a document have the same id. */
  lemma IdsAreDistinct(chunks: seq<Chunk>, lines: seq<string>, file: string, i: nat, j: nat)
    requires IsChunked(chunks, lines, file) && i < j < |chunks|
    ensures chunks[i].id != chunks[j].id
  {
    Provenance(chunks, lines, file);
    var c, d := chunks[i], chunks[j];
    if c.id == d.id {
      IdsDiffer(file, c.startLine, c.endLine, d.startLine, d.endLine);
    }
  }

  lemma WholeHasWords(c: Chunk, lines: seq<string>, file: string)
    requires IsWhole(c, lines, file)
    ensures c.words > 0
  {
    JoinNotBlank(lines[c.startLine - 1..c.endLine], "\n");
    NotBlankHasWords(c.text);
  }

  /** A chunk is never empty. */
  lemma ChunksHaveWords(chunks: seq<Chunk>, lines: seq<string>, file: string, k: nat)
    requires IsChunked(chunks, lines, file) && k < |chunks|
    ensures chunks[k].words > 0
  {
    Provenance(chunks, lines, file);
    WholeHasWords(chunks[k], lines, file);
  }

  /**
   No text is lost and no heading is repeated: a line with text is in some chunk, by
   `Provenance` in only one, exactly when it is not a heading outside a fence.
   */
  lemma Conservation(chunks: seq<Chunk>, lines: seq<string>, file: string, i: nat)
    requires IsChunked(chunks, lines, file)
    requires i < |lines| && !IsBlank(lines[i])
    ensures (exists k :: 0 <= k < |chunks| && Holds(chunks[k], i)) <==> !IsHeading(lines, i)
  {
    var sections := Sections(Kinds(lines));
    BlankKinds(lines);
    CoveredIff(Kinds(lines), i);
    if !IsHeading(lines, i) {
      var s :| s in sections && Covers(s, i);
      var k :| 0 <= k < |sections| && sections[k] == s;
      assert IsChunkOf(chunks[k], s, lines, file) && Holds(chunks[k], i);
    } else if k :| 0 <= k < |chunks| && Holds(chunks[k], i) {
      assert IsChunkOf(chunks[k], sections[k], lines, file);
      assert sections[k] in sections && Covers(sections[k], i);
    }
  }

  /** A chunk's path is no longer than its heading's level and ends in its heading's title. */
  lemma ChunkPath(chunks: seq<Chunk>, lines: seq<string>, file: string, k: nat)
    requires IsChunked(chunks, lines, file) && k < |chunks|
    ensures PathFits(Kinds(lines), chunks[k].startLine, chunks[k].headingPath)
  {
    assert IsChunkOf(chunks[k], Sections(Kinds(lines))[k], lines, file);
    SectionPathFits(Kinds(lines), Sections(Kinds(lines))[k]);
  }

  ghost predicate PathFits(kinds: seq<Kind>, line: nat, path: seq<string>) {
    && 1 <= line <= |kinds|
    && |path| <= Level(kinds, line - 1)
    && EndsInOwnTitle(kinds, line - 1, path)
  }

  lemma SectionPathFits(kinds: seq<Kind>, s: Section)
    requires s in Sections(kinds)
    ensures PathFits(kinds, s.startLine, s.path)
  {
    HeadingPath(kinds, s, 0);
    PathEndsInOwnTitle(kinds, s);
  }
}
