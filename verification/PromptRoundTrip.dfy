/** Reading a prompt file undoes writing it. */
module PromptRoundTrip {
  import opened Wrappers
  import opened Strings
  import opened PromptFile
  import opened PromptFrontmatter
  import opened PromptSections
  import opened PromptBuilds
  import opened PromptBody

  // ---- nothing for the reader to normalise ------------------------------------------------

  predicate NoReturn(texts: seq<string>) {
    forall t :: t in texts ==> '\r' !in t
  }

  lemma {:induction false} JoinNoReturn(texts: seq<string>)
    requires NoReturn(texts)
    ensures '\r' !in Join(texts, "\n")
  {
    if |texts| > 1 {
      JoinNoReturn(texts[1..]);
    }
    assert texts != [] ==> texts[0] in texts;
  }

  lemma {:induction false} MarkedNoReturn(items: seq<string>)
    requires PlainItems(items)
    ensures NoReturn(Marked(items))
  {
    if items != [] {
      MarkedNoReturn(items[1..]);
    }
  }

  lemma {:induction false} DocTextsNoReturn(docs: seq<Doc>)
    requires forall d :: d in docs ==> GoodDoc(d) && '\r' !in d.text
    ensures NoReturn(DocTexts(docs))
  {
    if docs != [] {
      assert docs[0] in docs;
      assert '\r' !in docs[0].provenance;
      DocTextsNoReturn(docs[1..]);
    }
  }

  lemma ListBlockNoReturn(heading: string, items: seq<string>)
    requires '\r' !in heading && PlainItems(items)
    ensures NoReturn(ListBlock(heading, items))
  {
    MarkedNoReturn(items);
  }

  lemma HeadingsNoReturn(i: nat)
    requires i < 10
    ensures '\r' !in HeadingOf(i)
  {
    NamesGood();
    assert GoodName(NAMES[i]);
  }

  lemma RulesNoReturn()
    ensures NoReturn(RULES)
  {
    RulesPlain();
    forall l | l in RULES ensures '\r' !in l {
      var i :| 0 <= i < |RULES| && RULES[i] == l;
      assert ListText(RULES[i]);
    }
  }

  lemma AroundNoReturn(heading: string, body: seq<string>)
    requires '\r' !in heading && NoReturn(body)
    ensures NoReturn([heading, ""] + body + [""])
  {
  }

  lemma AcceptanceNoReturn(p: Prompt)
    requires GoodPrompt(p)
    ensures NoReturn(AcceptanceLines(p.acceptance))
  {
    NoneGivenPlain();
    MarkedNoReturn(p.acceptance);
  }

  lemma FixedSegmentNoReturn(p: Prompt, i: nat)
    requires GoodPrompt(p) && i < 2
    ensures NoReturn(SegmentTexts(p, i))
  {
    FixedHeadings();
    HeadingsNoReturn(i);
    if i == 0 {
      AcceptanceNoReturn(p);
      AroundNoReturn(HeadingOf(0), AcceptanceLines(p.acceptance));
    } else {
      NothingSurveyedPlain();
    }
  }

  lemma RulesSegmentNoReturn(p: Prompt, i: nat)
    requires 8 <= i < 10
    ensures NoReturn(SegmentTexts(p, i))
  {
    FixedHeadings();
    RulesNoReturn();
  }

  lemma SegmentNoReturn(p: Prompt, i: nat)
    requires GoodPrompt(p) && i < 10
    ensures NoReturn(SegmentTexts(p, i))
  {
    if i < 2 {
      FixedSegmentNoReturn(p, i);
    } else if i >= 8 {
      RulesSegmentNoReturn(p, i);
    } else {
      HeadingsNoReturn(i);
      ListSegmentNoReturn(p, i);
    }
  }

  lemma ListSegmentNoReturn(p: Prompt, i: nat)
    requires GoodPrompt(p) && 2 <= i < 8 && '\r' !in HeadingOf(i)
    ensures NoReturn(SegmentTexts(p, i))
  {
    match i
    case 2 => ListBlockNoReturn(HeadingOf(2), p.context.components);
    case 3 => ListBlockNoReturn(HeadingOf(3), p.context.files);
    case 4 => ListBlockNoReturn(HeadingOf(4), p.context.gauges);
    case 5 => ListBlockNoReturn(HeadingOf(5), p.context.routes);
    case 6 => ListBlockNoReturn(HeadingOf(6), p.context.endpoints);
    case _ => DocTextsNoReturn(p.context.docs);
  }

  lemma {:induction false} ConcatNoReturn(parts: seq<seq<string>>)
    requires forall part :: part in parts ==> NoReturn(part)
    ensures NoReturn(ConcatAll(parts))
  {
    if parts != [] {
      ConcatNoReturn(parts[..|parts| - 1]);
      assert parts[|parts| - 1] in parts;
    }
  }

  lemma BuildBlockNoReturn(b: BuildRecord)
    requires GoodBuild(b)
    ensures NoReturn(BuildBlock(b))
  {
    BuildFieldsPlain(b);
    assert '\r' !in b.id && '\r' !in "### Build ";
    assert NoReturn(SummaryTexts(b));
  }

  lemma {:induction false} BuildBlocksNoReturn(builds: seq<BuildRecord>)
    requires forall b :: b in builds ==> GoodBuild(b)
    ensures NoReturn(BuildBlocks(builds))
  {
    if builds != [] {
      assert builds[0] in builds;
      BuildBlockNoReturn(builds[0]);
      BuildBlocksNoReturn(builds[1..]);
    }
  }

  lemma RequirementNoReturn(p: Prompt)
    requires GoodPrompt(p)
    ensures NoReturn(RequirementTexts(p))
  {
    FixedTextsPlain();
    assert '\r' !in "# Requirement";
  }

  lemma SegmentsNoReturn(p: Prompt)
    requires GoodPrompt(p)
    ensures NoReturn(ConcatAll(Segments(p)))
  {
    var parts := Segments(p);
    forall part | part in parts
      ensures NoReturn(part)
    {
      var i :| 0 <= i < 10 && parts[i] == part;
      SegmentNoReturn(p, i);
    }
    ConcatNoReturn(parts);
  }

  lemma BothNoReturn(a: seq<string>, b: seq<string>)
    requires NoReturn(a) && NoReturn(b)
    ensures NoReturn(a + b)
  {
  }

  lemma BodyNoReturn(p: Prompt)
    requires GoodPrompt(p)
    ensures NoReturn(BodyTexts(p))
  {
    BodyRegrouped(p, Segments(p));
    SegmentsNoReturn(p);
    BuildBlocksNoReturn(p.builds);
    RequirementNoReturn(p);
    BothNoReturn(ConcatAll(Segments(p)), BuildBlocks(p.builds));
    BothNoReturn(RequirementTexts(p), ConcatAll(Segments(p)) + BuildBlocks(p.builds));
  }

  lemma FileNoReturn(p: Prompt)
    requires GoodPrompt(p)
    ensures '\r' !in Serialized(p)
  {
    BodyNoReturn(p);
    PairsGood(p);
    FieldLinesGood(PairsOf(p));
    JoinNoReturn(["---"] + FieldLines(PairsOf(p)) + ["---"] + BodyTexts(p));
  }

  // ---- the theorem ------------------------------------------------------------------------

  lemma {:induction false} FirstHeading(p: Prompt, n: nat)
    requires 0 < n <= 10
    ensures Named(p, n) != [] && Named(p, n)[0].heading == HeadingOf(0)
  {
    if n == 1 {
      assert Named(p, 0) == [];
    } else {
      FirstHeading(p, n - 1);
    }
  }

  lemma RequirementBefore(text: string, blocks: seq<Block>, head: seq<string>)
    requires Trimmed(text) && NoSectionLine(Split(text, '\n'))
    requires blocks != [] && IsSectionLine(blocks[0].heading)
    requires head == ["", "# Requirement", ""] + Split(text, '\n') + [""]
    ensures RequirementOf(head + Flatten(blocks)) == (if text == NO_REQUIREMENT then "" else text)
  {
    var rest := blocks[0].content + Flatten(blocks[1..]);
    assert head + Flatten(blocks) == head + [blocks[0].heading] + rest;
    RequirementRead(text, blocks[0].heading, rest);
  }

  lemma RequirementReads(p: Prompt)
    requires GoodPrompt(p)
    ensures RequirementOf(Preamble(p) + Flatten(Blocks(p))) == p.requirement
  {
    FirstHeading(p, 10);
    assert Blocks(p)[0] == Named(p, 10)[0];
    HeadingOfRead(0);
    RequirementShape(p);
    RequirementBefore(Or(p.requirement, NO_REQUIREMENT), Blocks(p), Preamble(p));
  }

  lemma PlaceholderShape(text: string, names: set<string>)
    requires PlainLine(text) && text != "" && text[0] == '_' && text[|text| - 1] == '_'
    ensures Trimmed(text) && NoSectionLine(Split(text, '\n')) && HarmlessLines(Split(text, '\n'), names)
  {
    SplitNone(text, '\n');
    NotHeading(text);
  }

  lemma RequirementShape(p: Prompt)
    requires GoodPrompt(p)
    ensures var text := Or(p.requirement, NO_REQUIREMENT);
            Trimmed(text) && NoSectionLine(Split(text, '\n')) && HarmlessLines(Split(text, '\n'), NameSet(10))
  {
    if p.requirement == "" {
      FixedTextsPlain();
      PlaceholderShape(NO_REQUIREMENT, NameSet(10));
    }
  }

  lemma TitleIsNoHeading()
    ensures !IsHeading("# Requirement") && !IsHeading("")
  {
    NotHeading("");
    assert "# Requirement"[1] == ' ' && "##"[1] == '#' && "###"[1] == '#';
    assert "# Requirement"[..2][1] == ' ' && "# Requirement"[..3][1] == ' ';
  }

  lemma AroundHarmless(title: string, lines: seq<string>, names: set<string>)
    requires HarmlessLines(lines, names) && !IsHeading(title) && !IsHeading("")
    ensures HarmlessLines(["", title, ""] + lines + [""], names)
  {
  }

  lemma PreambleHarmless(p: Prompt)
    requires GoodPrompt(p)
    ensures HarmlessLines(Preamble(p), NameSet(10))
  {
    RequirementShape(p);
    TitleIsNoHeading();
    AroundHarmless("# Requirement", Split(Or(p.requirement, NO_REQUIREMENT), '\n'), NameSet(10));
  }

  lemma SectionsRead(p: Prompt, lines: seq<string>) returns (own: Sections)
    requires GoodPrompt(p) && lines == Preamble(p) + Flatten(Blocks(p))
    ensures AllForeign(own, NameSet(10))
    ensures ScanLines(Scan([], ""), lines).sections == own + Entries(Blocks(p))
  {
    PreambleHarmless(p);
    NamedGood(p, 10);
    BuildSectionsGood(p.builds);
    AllKeysDistinct(p);
    OwnKeys(p);
    ScanBody(Preamble(p), Blocks(p), NameSet(10));
    own := ScanLines(Scan([], ""), Preamble(p)).sections;
  }

  lemma NamesAsked()
    ensures {"Acceptance", "Component", "Files", "Gauges", "Routes", "Endpoints", "Docs"} <= NameSet(10)
  {
    assert NAMES[0] == "Acceptance" && NAMES[2] == "Component" && NAMES[3] == "Files" && NAMES[4] == "Gauges";
    assert NAMES[5] == "Routes" && NAMES[6] == "Endpoints" && NAMES[7] == "Docs";
  }

  /** The readers see the written sections behind any foreign ones. */
  lemma ReadersSeeOwn(own: Sections, rest: Sections)
    requires AllForeign(own, NameSet(10))
    ensures BuildsOf(own + rest) == BuildsOf(rest) && ContextOf(own + rest) == ContextOf(rest)
    ensures GetSection(own + rest, "Acceptance") == GetSection(rest, "Acceptance")
  {
    NamesAsked();
    ForeignUnseen(own, rest, NameSet(10));
  }

  lemma HeaderChecks(p: Prompt, fm: map<string, string>, lines: seq<string>, sections: Sections)
    requires IsPromptId(p.id) && ReadsHeader(fm, p) && sections == ScanLines(Scan([], ""), lines).sections
    requires RequirementOf(lines) == p.requirement && AcceptanceOf(GetSection(sections, "Acceptance")) == p.acceptance
    requires ContextOf(sections) == p.context && BuildsOf(sections) == p.builds
    ensures Checked(fm, lines) == Success(p)
  {
    StateScalar(p.state);
    if p.scrappedFrom.Some? {
      StateScalar(p.scrappedFrom.value);
    }
  }

  lemma BodyReads(p: Prompt, fm: map<string, string>, lines: seq<string>)
    requires GoodPrompt(p) && ReadsHeader(fm, p) && lines == Preamble(p) + Flatten(Blocks(p))
    ensures Checked(fm, lines) == Success(p)
  {
    var own := SectionsRead(p, lines);
    ReadersSeeOwn(own, Entries(Blocks(p)));
    RequirementReads(p);
    AcceptanceRead(p);
    ContextRead(p);
    BuildsRead(p);
    HeaderChecks(p, fm, lines, own + Entries(Blocks(p)));
  }

  /** Reading a written prompt gives back the prompt, field for field and in order. */
  lemma PromptRoundTrip(p: Prompt)
    requires GoodPrompt(p)
    ensures Parsed(Serialized(p)) == Success(p)
  {
    var fields, body := FieldLines(PairsOf(p)), BodyTexts(p);
    FileNoReturn(p);
    ReplaceNothing(Serialized(p), "\r\n", "\n");
    PairsGood(p);
    FieldLinesGood(PairsOf(p));
    SplitFenced(fields, body);
    SplitJoin(fields);
    LinesOfLines(fields);
    SplitJoin(body);
    BodyLines(p);
    HeaderRoundTrip(p);
    BodyReads(p, FieldMap(fields), Preamble(p) + Flatten(Blocks(p)));
  }
}
