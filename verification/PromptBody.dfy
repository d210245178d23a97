/**
 The body of a prompt file as blocks: the lines the writer pushes are a preamble and one
 block per heading, and each section is looked up as it was written.
 */
module PromptBody {
  import opened Wrappers
  import opened Strings
  import opened Escaping
  import opened PromptFile
  import opened PromptFrontmatter
  import opened PromptSections
  import opened PromptBuilds

  // ---- what the file can hold -------------------------------------------------------------

  /** The sections a reader asks for, as they are written. */
  const NAMES := [
    "Acceptance", "Context", "Component", "Files", "Gauges", "Routes", "Endpoints", "Docs", "Rules", "Builds"
  ]

  function NameSet(n: nat): set<string>
    requires n <= 10
  {
    set i | 0 <= i < n :: NAMES[i]
  }

  predicate PlainItems(items: seq<string>) {
    forall i :: 0 <= i < |items| ==> PlainLine(items[i])
  }

  predicate GoodContext(c: Context) {
    && PlainItems(c.components) && PlainItems(c.files) && PlainItems(c.gauges)
    && PlainItems(c.routes) && PlainItems(c.endpoints)
    && forall d :: d in c.docs ==> GoodDoc(d) && '\r' !in d.text
  }

  /**
   What a prompt file can hold. A heading of level three in the requirement is a section of its
   own to the reader: it does no harm unless its name is one that the reader asks for.
   */
  predicate GoodPrompt(p: Prompt) {
    && GoodHeader(p)
    && Trimmed(p.requirement) && p.requirement != NO_REQUIREMENT && '\r' !in p.requirement
    && NoSectionLine(Split(p.requirement, '\n')) && HarmlessLines(Split(p.requirement, '\n'), NameSet(10))
    && PlainItems(p.acceptance) && p.acceptance != [NONE_GIVEN]
    && GoodContext(p.context)
    && (forall b :: b in p.builds ==> GoodBuild(b))
    && (forall i, j :: 0 <= i < j < |p.builds| ==> p.builds[i].id != p.builds[j].id)
  }

  // ---- the body as blocks -----------------------------------------------------------------

  function HeadingOf(i: nat): string
    requires i < 10
  {
    (if 2 <= i < 8 then "### " else "## ") + NAMES[i]
  }

  function ListContent(items: seq<string>): Option<seq<string>> {
    if items == [] then None else Some([""] + Marked(items) + [""])
  }

  function NoContext(c: Context): bool {
    ContextBlocks(c) == []
  }

  /** The lines of the named section `i` of the file, or None when it is not written. */
  function Content(p: Prompt, i: nat): Option<seq<string>> {
    match i
    case 0 => Some([""] + AcceptanceLines(p.acceptance) + [""])
    case 1 => Some([""] + if NoContext(p.context) then [NOTHING_SURVEYED, ""] else [])
    case 2 => ListContent(p.context.components)
    case 3 => ListContent(p.context.files)
    case 4 => ListContent(p.context.gauges)
    case 5 => ListContent(p.context.routes)
    case 6 => ListContent(p.context.endpoints)
    case 7 => if p.context.docs == [] then None else Some([""] + DocLines(p.context.docs))
    case 8 => Some([""] + RULES + [""])
    case _ => if p.builds == [] then None else Some([""])
  }

  function Segment(p: Prompt, i: nat): seq<Block>
    requires i < 10
  {
    if Content(p, i).Some? then [Block(HeadingOf(i), Content(p, i).value)] else []
  }

  /** The blocks of the first `n` named sections. */
  function Named(p: Prompt, n: nat): seq<Block>
    requires n <= 10
  {
    if n == 0 then [] else Named(p, n - 1) + Segment(p, n - 1)
  }

  function BuildSections(builds: seq<BuildRecord>): seq<Block> {
    if builds == [] then []
    else [Block("### Build " + builds[0].id, BuildContent(builds[0]))] + BuildSections(builds[1..])
  }

  function Blocks(p: Prompt): seq<Block> {
    Named(p, 10) + BuildSections(p.builds)
  }

  function Preamble(p: Prompt): seq<string> {
    ["", "# Requirement", ""] + Split(Or(p.requirement, NO_REQUIREMENT), '\n') + [""]
  }

  // ---- headings ---------------------------------------------------------------------------

  lemma {:induction false} HashesOff(hashes: string, rest: string)
    requires forall i :: 0 <= i < |hashes| ==> hashes[i] == '#'
    requires rest != "" && rest[0] != '#'
    ensures WithoutHashes(hashes + rest) == rest
  {
    var line := hashes + rest;
    if hashes == "" {
      assert line == rest;
      assert "#"[0] == '#';
    } else {
      assert line[0] == "#"[0];
      assert line[1..] == hashes[1..] + rest;
      HashesOff(hashes[1..], rest);
    }
  }

  lemma HeadingRead(hashes: string, name: string)
    requires hashes == "##" || hashes == "###"
    requires name != "" && Trimmed(name)
    ensures var line := hashes + (" " + name);
      IsHeading(line) && HeadingText(line) == name && (hashes == "##" ==> IsSectionLine(line))
  {
    var line := hashes + (" " + name);
    assert line[..|hashes|] == hashes;
    HashesOff(hashes, " " + name);
    assert " " + name == " " + name + "";
    TrimPadded(" ", name, "");
  }

  predicate GoodName(name: string) {
    name != "" && forall i :: 0 <= i < |name| ==> IsLetter(name[i])
  }

  lemma NamesGood()
    ensures forall i :: 0 <= i < 10 ==> GoodName(NAMES[i])
  {
  }

  lemma NamesDistinct()
    ensures forall i, j :: 0 <= i < j < 10 ==> NAMES[i] != NAMES[j]
  {
  }

  lemma NamedHeadingRead(prefix: string, hashes: string, name: string)
    requires (hashes == "##" || hashes == "###") && prefix == hashes + " " && GoodName(name)
    ensures var line := prefix + name;
      && IsHeading(line) && HeadingText(line) == name && '\n' !in line
      && (hashes == "##" ==> IsSectionLine(line))
  {
    assert prefix + name == hashes + (" " + name);
    HeadingRead(hashes, name);
  }

  lemma HeadingOfRead(i: nat)
    requires i < 10
    ensures IsHeading(HeadingOf(i)) && HeadingText(HeadingOf(i)) == NAMES[i] && '\n' !in HeadingOf(i)
    ensures i == 0 ==> IsSectionLine(HeadingOf(i))
  {
    NamesGood();
    assert GoodName(NAMES[i]);
    if 2 <= i < 8 {
      NamedHeadingRead("### ", "###", NAMES[i]);
    } else {
      NamedHeadingRead("## ", "##", NAMES[i]);
    }
  }

  lemma BuildHeadingRead(id: string)
    requires FieldText(id)
    ensures var line := "### Build " + id;
      IsHeading(line) && HeadingText(line) == "Build " + id && '\n' !in line
    ensures BuildIdOf("Build " + id) == Some(id)
  {
    var name := "Build " + id;
    assert Trimmed(name);
    HeadingRead("###", name);
    assert "###" + (" " + name) == "### Build " + id;
    assert name[6..] == id;
    assert name[..6] == "Build ";
  }

  // ---- no line of a block's content is a heading ----------------------------------------------

  /** A line of fixed text: one line, and no heading. */
  predicate ListText(s: string) {
    PlainLine(s) && s != "" && s[0] == '-'
  }

  lemma ListTextJoined(a: string, b: string)
    requires ListText(a) && PlainLine(b)
    ensures ListText(a + b)
  {
  }

  lemma RepoRulePlain()
    ensures ListText(RULE_REPO)
  {
  }

  lemma TestsFirstPlain()
    ensures ListText(TESTS_FIRST)
  {
  }

  lemma TestsLastPlain()
    ensures PlainLine(TESTS_LAST)
  {
  }

  lemma JigFirstPlain()
    ensures ListText(JIG_FIRST)
  {
  }

  lemma JigLastPlain()
    ensures PlainLine(JIG_LAST)
  {
  }

  lemma ReportFirstPlain()
    ensures ListText(REPORT_FIRST)
  {
  }

  lemma ReportLastPlain()
    ensures PlainLine(REPORT_LAST)
  {
  }

  lemma TestsRulePlain()
    ensures ListText(RULE_TESTS)
  {
    TestsFirstPlain();
    TestsLastPlain();
    ListTextJoined(TESTS_FIRST, TESTS_LAST);
  }

  lemma JigRulePlain()
    ensures ListText(RULE_JIG)
  {
    JigFirstPlain();
    JigLastPlain();
    ListTextJoined(JIG_FIRST, JIG_LAST);
  }

  lemma ReportRulePlain()
    ensures ListText(RULE_REPORT)
  {
    ReportFirstPlain();
    ReportLastPlain();
    ListTextJoined(REPORT_FIRST, REPORT_LAST);
  }

  lemma RulesPlain()
    ensures forall i :: 0 <= i < |RULES| ==> ListText(RULES[i])
  {
    RepoRulePlain();
    TestsRulePlain();
    JigRulePlain();
    ReportRulePlain();
  }

  lemma NoHeadingConcat(a: seq<string>, b: seq<string>)
    requires NoHeading(a) && NoHeading(b)
    ensures NoHeading(a + b)
  {
  }

  lemma ListContentPlain(items: seq<string>)
    requires OnOneLine(items)
    ensures NoHeading([""] + Marked(items) + [""])
  {
    NotHeading("");
    MarkedLines(items);
  }

  lemma {:induction false} DocLinesPlain(docs: seq<Doc>)
    requires forall d :: d in docs ==> GoodDoc(d)
    ensures NoHeading(DocLines(docs))
  {
    if docs != [] {
      assert docs[0] in docs;
      NotHeading("--- " + docs[0].provenance + " ---");
      NotHeading("");
      DocLinesPlain(docs[1..]);
    }
  }

  lemma FixedLinesPlain()
    ensures !IsHeading("") && !IsHeading(NONE_GIVEN) && !IsHeading(NOTHING_SURVEYED)
    ensures NoHeading(RULES)
  {
    NotHeading("");
    NotHeading(NONE_GIVEN);
    NotHeading(NOTHING_SURVEYED);
    RulesPlain();
    forall i | 0 <= i < |RULES| ensures !IsHeading(RULES[i]) {
      assert ListText(RULES[i]);
      NotHeading(RULES[i]);
    }
  }

  lemma FixedContentPlain(p: Prompt, i: nat)
    requires GoodPrompt(p) && (i < 2 || 8 <= i < 10)
    ensures Content(p, i).Some? ==> NoHeading(Content(p, i).value)
  {
    FixedLinesPlain();
    if i == 0 && p.acceptance != [] {
      ListContentPlain(p.acceptance);
    }
  }

  lemma ContentPlain(p: Prompt, i: nat)
    requires GoodPrompt(p) && i < 10
    ensures Content(p, i).Some? ==> NoHeading(Content(p, i).value)
  {
    match i
    case 2 => ListContentPlain(p.context.components);
    case 3 => ListContentPlain(p.context.files);
    case 4 => ListContentPlain(p.context.gauges);
    case 5 => ListContentPlain(p.context.routes);
    case 6 => ListContentPlain(p.context.endpoints);
    case 7 =>
      NotHeading("");
      DocLinesPlain(p.context.docs);
    case _ => FixedContentPlain(p, i);
  }

  lemma FieldLinesPlain(b: BuildRecord)
    ensures NoHeading(BuildFields(b))
  {
    forall i | 0 <= i < |BuildFields(b)|
      ensures !IsHeading(BuildFields(b)[i])
    {
      assert BuildFields(b)[i][0] == '-';
      NotHeading(BuildFields(b)[i]);
    }
  }

  lemma BuildContentPlain(b: BuildRecord)
    requires GoodBuild(b)
    ensures NoHeading(BuildContent(b))
  {
    NotHeading("");
    FieldLinesPlain(b);
    NoHeadingConcat(BuildFields(b), SummaryLines(b));
  }

  lemma {:induction false} NamedGood(p: Prompt, n: nat)
    requires GoodPrompt(p) && n <= 10
    ensures forall b :: b in Named(p, n) ==> GoodBlock(b)
  {
    if n > 0 {
      NamedGood(p, n - 1);
      ContentPlain(p, n - 1);
      HeadingOfRead(n - 1);
      NamesGood();
      assert GoodName(NAMES[n - 1]);
    }
  }

  lemma {:induction false} BuildSectionsGood(builds: seq<BuildRecord>)
    requires forall b :: b in builds ==> GoodBuild(b)
    ensures forall b :: b in BuildSections(builds) ==> GoodBlock(b)
  {
    if builds != [] {
      assert builds[0] in builds;
      BuildHeadingRead(builds[0].id);
      BuildContentPlain(builds[0]);
      BuildSectionsGood(builds[1..]);
    }
  }

  // ---- the keys are distinct --------------------------------------------------------------

  lemma KeysOfOne(key: string, content: seq<string>)
    ensures Keys([(key, content)]) == {key}
  {
    assert [(key, content)][0].0 in Keys([(key, content)]);
  }

  lemma SegmentEntries(p: Prompt, i: nat)
    requires i < 10
    ensures Entries(Segment(p, i)) == if Content(p, i).Some? then [(NAMES[i], Content(p, i).value)] else []
    ensures Keys(Entries(Segment(p, i))) <= {NAMES[i]}
    ensures Content(p, i).Some? ==> NAMES[i] in Keys(Entries(Segment(p, i)))
  {
    HeadingOfRead(i);
    if Content(p, i).Some? {
      assert Segment(p, i)[1..] == [];
      KeysOfOne(NAMES[i], Content(p, i).value);
    }
  }

  lemma {:induction false} NamedKeys(p: Prompt, n: nat)
    requires n <= 10
    ensures DistinctKeys(Entries(Named(p, n)))
    ensures Keys(Entries(Named(p, n))) <= NameSet(n)
  {
    if n > 0 {
      NamedKeys(p, n - 1);
      SegmentEntries(p, n - 1);
      NamesDistinct();
      var a, b := Entries(Named(p, n - 1)), Entries(Segment(p, n - 1));
      FlattenConcat(Named(p, n - 1), Segment(p, n - 1));
      assert NAMES[n - 1] !in NameSet(n - 1);
      DistinctConcat(a, b);
      KeysConcat(a, b);
      assert NAMES[n - 1] in NameSet(n);
      assert NameSet(n - 1) <= NameSet(n);
    }
  }

  predicate IsBuildKey(key: string) {
    StartsWith(key, "Build ")
  }

  lemma PrefixAt(s: string, prefix: string, j: nat)
    requires j < |prefix|
    ensures StartsWith(s, prefix) ==> j < |s| && s[j] == prefix[j]
  {
  }

  lemma NoNameIsBuildKey(i: nat)
    requires i < 10
    ensures !IsBuildKey(NAMES[i])
  {
    PrefixAt(NAMES[i], "Build ", 0);
    PrefixAt(NAMES[i], "Build ", 5);
  }

  lemma {:induction false} BuildKeys(builds: seq<BuildRecord>)
    requires forall b :: b in builds ==> GoodBuild(b)
    ensures forall k :: k in Keys(Entries(BuildSections(builds))) ==>
      IsBuildKey(k) && exists b :: b in builds && k == "Build " + b.id
  {
    if builds != [] {
      var first, rest := BuildSections(builds)[..1], BuildSections(builds[1..]);
      assert builds[0] in builds;
      BuildHeadingRead(builds[0].id);
      BuildKeys(builds[1..]);
      KeysOfOne("Build " + builds[0].id, BuildContent(builds[0]));
      var one: Sections := [("Build " + builds[0].id, BuildContent(builds[0]))];
      KeysConcat(one, Entries(rest));
    }
  }

  lemma SameIdAsKey(a: string, b: string)
    requires "Build " + a == "Build " + b
    ensures a == b
  {
    assert ("Build " + a)[6..] == a && ("Build " + b)[6..] == b;
  }

  lemma {:induction false} BuildKeysDistinct(builds: seq<BuildRecord>)
    requires forall b :: b in builds ==> GoodBuild(b)
    requires forall i, j :: 0 <= i < j < |builds| ==> builds[i].id != builds[j].id
    ensures DistinctKeys(Entries(BuildSections(builds)))
  {
    if builds != [] {
      var rest := BuildSections(builds[1..]);
      var key := "Build " + builds[0].id;
      assert builds[0] in builds;
      BuildHeadingRead(builds[0].id);
      BuildKeysDistinct(builds[1..]);
      BuildKeys(builds[1..]);
      var one: Sections := [(key, BuildContent(builds[0]))];
      KeysOfOne(key, BuildContent(builds[0]));
      if key in Keys(Entries(rest)) {
        var b :| b in builds[1..] && key == "Build " + b.id;
        SameIdAsKey(builds[0].id, b.id);
        assert false;
      }
      DistinctConcat(one, Entries(rest));
    }
  }

  lemma AllKeysDistinct(p: Prompt)
    requires GoodPrompt(p)
    ensures DistinctKeys(Entries(Blocks(p)))
  {
    var a, b := Entries(Named(p, 10)), Entries(BuildSections(p.builds));
    NamedKeys(p, 10);
    BuildKeysDistinct(p.builds);
    BuildKeys(p.builds);
    forall k | k in Keys(a) && k in Keys(b) ensures false {
      var i :| 0 <= i < 10 && NAMES[i] == k;
      NoNameIsBuildKey(i);
    }
    FlattenConcat(Named(p, 10), BuildSections(p.builds));
    DistinctConcat(a, b);
  }

  /** Every key of a written file is asked for or a build's. */
  lemma OwnKeys(p: Prompt)
    requires GoodPrompt(p)
    ensures forall k :: k in Keys(Entries(Blocks(p))) ==> !IsForeign(k, NameSet(10))
  {
    NamedKeys(p, 10);
    BuildKeys(p.builds);
    FlattenConcat(Named(p, 10), BuildSections(p.builds));
    KeysConcat(Entries(Named(p, 10)), Entries(BuildSections(p.builds)));
    forall k | k in Keys(Entries(BuildSections(p.builds)))
      ensures BuildIdOf(k).Some?
    {
      var b :| b in p.builds && k == "Build " + b.id;
      BuildHeadingRead(b.id);
    }
  }

  // ---- looking the sections up ------------------------------------------------------------

  function ContentOf(p: Prompt, i: nat): seq<string>
    requires i < 10
  {
    if Content(p, i).Some? then Content(p, i).value else []
  }

  lemma SegmentLookup(p: Prompt, i: nat)
    requires i < 10
    ensures GetSection(Entries(Segment(p, i)), NAMES[i]) == ContentOf(p, i)
  {
    SegmentEntries(p, i);
  }

  lemma NameAbsent(p: Prompt, n: nat, i: nat)
    requires i < 10 && n <= 10
    ensures n <= i ==> NAMES[i] !in Keys(Entries(Named(p, n)))
    ensures n < 10 && n != i ==> NAMES[i] !in Keys(Entries(Segment(p, n)))
  {
    NamesDistinct();
    NamedKeys(p, n);
    if n < 10 {
      SegmentEntries(p, n);
    }
  }

  lemma {:induction false} NamedLookup(p: Prompt, n: nat, i: nat)
    requires i < n <= 10
    ensures GetSection(Entries(Named(p, n)), NAMES[i]) == ContentOf(p, i)
  {
    FlattenConcat(Named(p, n - 1), Segment(p, n - 1));
    NameAbsent(p, n - 1, i);
    if i < n - 1 {
      NamedLookup(p, n - 1, i);
      GetFromFirst(Entries(Named(p, n - 1)), Entries(Segment(p, n - 1)), NAMES[i]);
    } else {
      SegmentLookup(p, i);
      GetFromSecond(Entries(Named(p, n - 1)), Entries(Segment(p, n - 1)), NAMES[i]);
    }
  }

  lemma Looked(p: Prompt, i: nat)
    requires GoodPrompt(p) && i < 10
    ensures GetSection(Entries(Blocks(p)), NAMES[i]) == ContentOf(p, i)
  {
    var a, b := Entries(Named(p, 10)), Entries(BuildSections(p.builds));
    FlattenConcat(Named(p, 10), BuildSections(p.builds));
    NamedLookup(p, 10, i);
    NoNameIsBuildKey(i);
    BuildKeys(p.builds);
    GetFromFirst(a, b, NAMES[i]);
  }

  lemma {:induction false} BuildsOfConcat(a: Sections, b: Sections)
    ensures BuildsOf(a + b) == BuildsOf(a) + BuildsOf(b)
  {
    if a == [] {
      assert a + b == b;
    } else {
      assert (a + b)[1..] == a[1..] + b;
      BuildsOfConcat(a[1..], b);
    }
  }

  lemma {:induction false} NoBuildsNamed(p: Prompt, n: nat)
    requires n <= 10
    ensures BuildsOf(Entries(Named(p, n))) == []
  {
    if n > 0 {
      var b := Entries(Segment(p, n - 1));
      NoBuildsNamed(p, n - 1);
      FlattenConcat(Named(p, n - 1), Segment(p, n - 1));
      BuildsOfConcat(Entries(Named(p, n - 1)), b);
      SegmentEntries(p, n - 1);
      NoNameIsBuildKey(n - 1);
      assert b != [] ==> b[1..] == [];
    }
  }

  lemma OneBuildRead(b: BuildRecord, more: Sections)
    requires GoodBuild(b)
    ensures BuildsOf([("Build " + b.id, BuildContent(b))] + more) == [b] + BuildsOf(more)
  {
    var one: Sections := [("Build " + b.id, BuildContent(b))];
    assert (one + more)[1..] == more;
    BuildHeadingRead(b.id);
    BuildRead(b);
  }

  lemma {:induction false} BuildSectionsRead(builds: seq<BuildRecord>)
    requires forall b :: b in builds ==> GoodBuild(b)
    ensures BuildsOf(Entries(BuildSections(builds))) == builds
  {
    if builds != [] {
      assert builds[0] in builds;
      BuildHeadingRead(builds[0].id);
      OneBuildRead(builds[0], Entries(BuildSections(builds[1..])));
      BuildSectionsRead(builds[1..]);
      assert BuildSections(builds)[1..] == BuildSections(builds[1..]);
      assert [builds[0]] + builds[1..] == builds;
    }
  }

  lemma BuildsRead(p: Prompt)
    requires GoodPrompt(p)
    ensures BuildsOf(Entries(Blocks(p))) == p.builds
  {
    FlattenConcat(Named(p, 10), BuildSections(p.builds));
    BuildsOfConcat(Entries(Named(p, 10)), Entries(BuildSections(p.builds)));
    NoBuildsNamed(p, 10);
    BuildSectionsRead(p.builds);
  }

  lemma ListRead(items: seq<string>)
    ensures StripListMarkers(if ListContent(items).Some? then ListContent(items).value else []) == items
  {
    StripSection(items);
  }

  lemma ContextRead(p: Prompt)
    requires GoodPrompt(p)
    ensures ContextOf(Entries(Blocks(p))) == p.context
  {
    Looked(p, 2);
    ListRead(p.context.components);
    Looked(p, 3);
    ListRead(p.context.files);
    Looked(p, 4);
    ListRead(p.context.gauges);
    Looked(p, 5);
    ListRead(p.context.routes);
    Looked(p, 6);
    ListRead(p.context.endpoints);
    Looked(p, 7);
    DocsRead(p.context.docs);
  }

  lemma AcceptanceRead(p: Prompt)
    requires GoodPrompt(p)
    ensures AcceptanceOf(GetSection(Entries(Blocks(p)), "Acceptance")) == p.acceptance
  {
    Looked(p, 0);
    AcceptanceExact(p.acceptance);
  }

  // ---- the lines of the file --------------------------------------------------------------

  lemma LinesOfOne(text: string)
    ensures LinesOf([text]) == Split(text, '\n')
  {
    assert [text][1..] == [];
  }

  lemma LinesOfAround(heading: string, body: seq<string>)
    requires '\n' !in heading
    ensures LinesOf([heading, ""] + body + [""]) == [heading] + ([""] + LinesOf(body) + [""])
  {
    LinesOfConcat([heading, ""] + body, [""]);
    LinesOfConcat([heading, ""], body);
    LinesOfLines([heading, ""]);
    LinesOfLines([""]);
  }

  lemma FlattenOne(heading: string, content: seq<string>)
    ensures Flatten([Block(heading, content)]) == [heading] + content
  {
    assert [Block(heading, content)][1..] == [];
  }

  lemma ListBlockLines(heading: string, items: seq<string>)
    requires '\n' !in heading && OnOneLine(items)
    ensures LinesOf(ListBlock(heading, items))
         == (if items == [] then [] else [heading] + ([""] + Marked(items) + [""]))
  {
    if items != [] {
      MarkedLines(items);
      LinesOfAround(heading, Marked(items));
      LinesOfLines(Marked(items));
    }
  }

  lemma {:induction false} DocTextLines(docs: seq<Doc>)
    requires forall d :: d in docs ==> OneLine(d.provenance)
    ensures LinesOf(DocTexts(docs)) == DocLines(docs)
  {
    if docs != [] {
      var d := docs[0];
      assert d in docs;
      var title := "--- " + d.provenance + " ---";
      LinesOfConcat([title, d.text, ""], DocTexts(docs[1..]));
      LinesOfConcat([title], [d.text, ""]);
      LinesOfConcat([d.text], [""]);
      LinesOfLines([title]);
      LinesOfOne(d.text);
      LinesOfLines([""]);
      assert [title, d.text, ""] == [title] + [d.text, ""] && [d.text, ""] == [d.text] + [""];
      DocTextLines(docs[1..]);
    }
  }

  function DocBlock(docs: seq<Doc>): seq<string> {
    if docs == [] then [] else ["### Docs", ""] + DocTexts(docs)
  }

  lemma HeadedDocLines(heading: string, docs: seq<Doc>)
    requires '\n' !in heading && forall d :: d in docs ==> GoodDoc(d)
    ensures LinesOf([heading, ""] + DocTexts(docs)) == [heading] + ([""] + DocLines(docs))
  {
    LinesOfConcat([heading, ""], DocTexts(docs));
    LinesOfLines([heading, ""]);
    DocTextLines(docs);
  }

  lemma DocBlockLines(docs: seq<Doc>)
    requires forall d :: d in docs ==> GoodDoc(d)
    ensures LinesOf(DocBlock(docs)) == (if docs == [] then [] else ["### Docs"] + ([""] + DocLines(docs)))
  {
    if docs != [] {
      HeadedDocLines("### Docs", docs);
    }
  }

  /** The texts the writer pushes for named section `i`, from its heading to its last blank line. */
  function SegmentTexts(p: Prompt, i: nat): seq<string> {
    match i
    case 0 => ["## Acceptance", ""] + AcceptanceLines(p.acceptance) + [""]
    case 1 => ["## Context", ""] + if NoContext(p.context) then [NOTHING_SURVEYED, ""] else []
    case 2 => ListBlock("### Component", p.context.components)
    case 3 => ListBlock("### Files", p.context.files)
    case 4 => ListBlock("### Gauges", p.context.gauges)
    case 5 => ListBlock("### Routes", p.context.routes)
    case 6 => ListBlock("### Endpoints", p.context.endpoints)
    case 7 => DocBlock(p.context.docs)
    case 8 => ["## Rules", ""] + RULES + [""]
    case _ => if p.builds == [] then [] else ["## Builds", ""]
  }

  function ConcatAll(parts: seq<seq<string>>): seq<string> {
    if parts == [] then [] else ConcatAll(parts[..|parts| - 1]) + parts[|parts| - 1]
  }

  function Segments(p: Prompt): (r: seq<seq<string>>)
    ensures |r| == 10
  {
    seq(10, i requires 0 <= i < 10 => SegmentTexts(p, i))
  }

  lemma {:induction false} ConcatAllSplit(a: seq<seq<string>>, b: seq<seq<string>>)
    ensures ConcatAll(a + b) == ConcatAll(a) + ConcatAll(b)
  {
    if b == [] {
      assert a + b == a;
    } else {
      assert (a + b)[..|a + b| - 1] == a + b[..|b| - 1];
      ConcatAllSplit(a, b[..|b| - 1]);
    }
  }

  lemma ConcatTwo(a: seq<string>, b: seq<string>)
    ensures ConcatAll([a, b]) == a + b
  {
    assert [a, b][..1] == [a] && [a][..0] == [];
    assert ConcatAll([a]) == [] + a == a;
  }

  lemma ConcatSix(a: seq<string>, b: seq<string>, c: seq<string>, d: seq<string>, e: seq<string>, f: seq<string>)
    ensures ConcatAll([a, b, c, d, e, f]) == a + b + c + d + e + f
  {
    ConcatTwo(a, b);
    ConcatTwo(c, d);
    ConcatTwo(e, f);
    ConcatAllSplit([a, b], [c, d]);
    ConcatAllSplit([a, b] + [c, d], [e, f]);
    assert [a, b] + [c, d] + [e, f] == [a, b, c, d, e, f];
  }

  lemma FixedHeadings()
    ensures HeadingOf(0) == "## Acceptance" && HeadingOf(1) == "## Context" && HeadingOf(2) == "### Component"
    ensures HeadingOf(3) == "### Files" && HeadingOf(4) == "### Gauges" && HeadingOf(5) == "### Routes"
    ensures HeadingOf(6) == "### Endpoints" && HeadingOf(7) == "### Docs" && HeadingOf(8) == "## Rules"
    ensures HeadingOf(9) == "## Builds"
  {
  }

  lemma AroundLines(heading: string, body: seq<string>)
    requires '\n' !in heading && forall l :: l in body ==> '\n' !in l
    ensures LinesOf([heading, ""] + body + [""]) == [heading] + ([""] + body + [""])
  {
    LinesOfAround(heading, body);
    LinesOfLines(body);
  }

  lemma HeadOnlyLines(heading: string)
    requires '\n' !in heading
    ensures LinesOf([heading, ""]) == [heading] + [""]
  {
    LinesOfLines([heading, ""]);
  }

  lemma FixedTextsPlain()
    ensures PlainLine(NONE_GIVEN) && PlainLine(NOTHING_SURVEYED) && PlainLine(NO_REQUIREMENT)
  {
    NoneGivenPlain();
    NothingSurveyedPlain();
    NoRequirementPlain();
  }

  lemma NoneGivenPlain()
    ensures PlainLine(NONE_GIVEN)
  {
  }

  lemma NothingSurveyedPlain()
    ensures PlainLine(NOTHING_SURVEYED)
  {
  }

  lemma NoRequirementPlain()
    ensures PlainLine(NO_REQUIREMENT)
  {
  }

  lemma AcceptancePlain(p: Prompt)
    requires PlainItems(p.acceptance)
    ensures forall l :: l in AcceptanceLines(p.acceptance) ==> '\n' !in l
  {
    FixedTextsPlain();
    MarkedLines(p.acceptance);
  }

  lemma RulesOnOneLine()
    ensures forall l :: l in RULES ==> '\n' !in l
  {
    RulesPlain();
    forall l | l in RULES ensures '\n' !in l {
      var i :| 0 <= i < |RULES| && RULES[i] == l;
      assert ListText(RULES[i]);
    }
  }

  lemma AcceptanceSegment(p: Prompt, heading: string)
    requires GoodPrompt(p) && '\n' !in heading
    ensures LinesOf([heading, ""] + AcceptanceLines(p.acceptance) + [""]) == [heading] + Content(p, 0).value
  {
    AcceptancePlain(p);
    AroundLines(heading, AcceptanceLines(p.acceptance));
  }

  lemma MaybeLines(heading: string, text: string, written: bool)
    requires '\n' !in heading && '\n' !in text
    ensures LinesOf([heading, ""] + if written then [text, ""] else [])
         == [heading] + ([""] + if written then [text, ""] else [])
  {
    LinesOfLines([heading, ""] + if written then [text, ""] else []);
  }

  lemma ContextSegment(p: Prompt, heading: string)
    requires '\n' !in heading
    ensures LinesOf([heading, ""] + if NoContext(p.context) then [NOTHING_SURVEYED, ""] else [])
         == [heading] + Content(p, 1).value
  {
    FixedTextsPlain();
    MaybeLines(heading, NOTHING_SURVEYED, NoContext(p.context));
  }

  lemma RulesSegment(p: Prompt, heading: string)
    requires '\n' !in heading
    ensures LinesOf([heading, ""] + RULES + [""]) == [heading] + Content(p, 8).value
  {
    RulesOnOneLine();
    AroundLines(heading, RULES);
  }

  lemma SegmentLines(p: Prompt, i: nat)
    requires GoodPrompt(p) && i < 10
    ensures LinesOf(SegmentTexts(p, i))
         == (if Content(p, i).Some? then [HeadingOf(i)] + Content(p, i).value else [])
  {
    FixedHeadings();
    HeadingOfRead(i);
    match i
    case 0 => AcceptanceSegment(p, HeadingOf(0));
    case 1 => ContextSegment(p, HeadingOf(1));
    case 2 => ListBlockLines("### Component", p.context.components);
    case 3 => ListBlockLines("### Files", p.context.files);
    case 4 => ListBlockLines("### Gauges", p.context.gauges);
    case 5 => ListBlockLines("### Routes", p.context.routes);
    case 6 => ListBlockLines("### Endpoints", p.context.endpoints);
    case 7 => DocBlockLines(p.context.docs);
    case 8 => RulesSegment(p, HeadingOf(8));
    case _ =>
      if p.builds != [] {
        HeadOnlyLines(HeadingOf(9));
      }
  }

  lemma SegmentFlat(p: Prompt, i: nat)
    requires GoodPrompt(p) && i < 10
    ensures LinesOf(Segments(p)[i]) == Flatten(Segment(p, i))
  {
    SegmentLines(p, i);
    if Content(p, i).Some? {
      FlattenOne(HeadingOf(i), Content(p, i).value);
    }
  }

  lemma LastPart(parts: seq<seq<string>>, n: nat)
    requires 0 < n <= |parts|
    ensures ConcatAll(parts[..n]) == ConcatAll(parts[..n - 1]) + parts[n - 1]
  {
    assert parts[..n][..n - 1] == parts[..n - 1];
  }

  lemma LinesStep(before: seq<string>, last: seq<string>, blocks: seq<Block>, segment: seq<Block>)
    requires LinesOf(before) == Flatten(blocks) && LinesOf(last) == Flatten(segment)
    ensures LinesOf(before + last) == Flatten(blocks + segment)
  {
    LinesOfConcat(before, last);
    FlattenConcat(blocks, segment);
  }

  lemma {:induction false} NamedLines(p: Prompt, parts: seq<seq<string>>, n: nat)
    requires GoodPrompt(p) && n <= 10 && parts == Segments(p)
    ensures LinesOf(ConcatAll(parts[..n])) == Flatten(Named(p, n))
  {
    if n > 0 {
      NamedLines(p, parts, n - 1);
      LastPart(parts, n);
      SegmentFlat(p, n - 1);
      LinesStep(ConcatAll(parts[..n - 1]), parts[n - 1], Named(p, n - 1), Segment(p, n - 1));
    }
  }

  lemma SummaryTextLines(b: BuildRecord)
    ensures LinesOf(SummaryTexts(b) + [""]) == SummaryLines(b)
  {
    if b.summary.Some? && b.summary.value != "" {
      assert SummaryTexts(b) + [""] == [""] + ([b.summary.value] + [""]);
      LinesOfConcat([""], [b.summary.value] + [""]);
      LinesOfConcat([b.summary.value], [""]);
      LinesOfOne(b.summary.value);
    }
    LinesOfLines([""]);
  }

  lemma FieldLinePlain(start: string, v: string)
    requires PlainLine(start) && OneLine(v)
    ensures PlainLine(start + v)
  {
  }

  predicate PlainLines(lines: seq<string>) {
    forall l :: l in lines ==> PlainLine(l)
  }

  lemma OptionalPlain(name: string, v: Option<string>)
    requires PlainLine(name) && (v.Some? ==> FieldText(v.value))
    ensures PlainLines(OptionalText(name, v)) && PlainLines(TruthyText(name, v))
  {
    if v.Some? {
      FieldLinePlain("- " + name + ": ", v.value);
      assert FieldLineOf(name, v.value) == "- " + name + ": " + v.value;
    }
  }

  lemma OptionalIntPlain(name: string, v: Option<int>)
    requires PlainLine(name)
    ensures PlainLines(OptionalInt(name, v))
  {
    if v.Some? {
      IntTextGood(v.value);
      FieldLinePlain("- " + name + ": ", IntText(v.value));
    }
  }

  lemma FieldNamesPlain()
    ensures PlainLine("started") && PlainLine("files touched") && PlainLine("finished") && PlainLine("exit code")
    ensures PlainLine("model") && PlainLine("elapsed") && PlainLine("transcript")
  {
  }

  lemma BuildFieldsPlain(b: BuildRecord)
    requires OneLine(b.startedAt) && GoodParts(b)
    ensures PlainLines(BuildFields(b))
  {
    FieldNamesPlain();
    FilesTextGood(b.filesTouched);
    FieldLinePlain("- " + "started" + ": ", b.startedAt);
    FieldLinePlain("- " + "files touched" + ": ", FilesText(b.filesTouched));
    OptionalPlain("finished", b.finishedAt);
    OptionalIntPlain("exit code", b.exitCode);
    OptionalPlain("model", b.model);
    OptionalIntPlain("elapsed", b.elapsedMs);
    OptionalPlain("transcript", b.transcriptPath);
  }

  lemma BlockLinesOf(heading: string, fields: seq<string>, summary: seq<string>)
    requires '\n' !in heading && forall l :: l in fields ==> '\n' !in l
    ensures LinesOf([heading, ""] + fields + summary) == [heading] + ([""] + (fields + LinesOf(summary)))
  {
    var head := [heading, ""];
    LinesOfConcat(head + fields, summary);
    LinesOfConcat(head, fields);
    LinesOfLines(head);
    LinesOfLines(fields);
    Regrouped(head, fields, LinesOf(summary));
    Regrouped([heading], [""], fields + LinesOf(summary));
    assert [heading] + [""] == head;
  }

  lemma BuildBlockLines(b: BuildRecord)
    requires GoodBuild(b)
    ensures LinesOf(BuildBlock(b)) == ["### Build " + b.id] + BuildContent(b)
  {
    var heading := "### Build " + b.id;
    BuildHeadingRead(b.id);
    BuildFieldsPlain(b);
    SummaryTextLines(b);
    Regrouped([heading, ""] + BuildFields(b), SummaryTexts(b), [""]);
    BlockLinesOf(heading, BuildFields(b), SummaryTexts(b) + [""]);
  }

  lemma {:induction false} BuildBlocksLines(builds: seq<BuildRecord>)
    requires forall b :: b in builds ==> GoodBuild(b)
    ensures LinesOf(BuildBlocks(builds)) == Flatten(BuildSections(builds))
  {
    if builds != [] {
      assert builds[0] in builds;
      LinesOfConcat(BuildBlock(builds[0]), BuildBlocks(builds[1..]));
      BuildBlockLines(builds[0]);
      BuildBlocksLines(builds[1..]);
    }
  }

  // ---- the writer's last blank lines ------------------------------------------------------

  predicate EndsEmpty(texts: seq<string>) {
    texts == [] || texts[|texts| - 1] == ""
  }

  lemma {:induction false} DocTextsEndEmpty(docs: seq<Doc>)
    ensures EndsEmpty(DocTexts(docs))
  {
    if docs != [] {
      DocTextsEndEmpty(docs[1..]);
    }
  }

  lemma {:induction false} BuildBlocksEndEmpty(builds: seq<BuildRecord>)
    ensures EndsEmpty(BuildBlocks(builds))
  {
    if builds != [] {
      BuildBlocksEndEmpty(builds[1..]);
    }
  }

  lemma ContextBlocksEndEmpty(c: Context)
    ensures EndsEmpty(ContextBlocks(c))
    ensures ContextBlocks(c) != [] ==> |ContextBlocks(c)| > 1
  {
    DocTextsEndEmpty(c.docs);
  }

  lemma RejoinedWithEmpty(blocks: seq<string>, fallback: string)
    requires EndsEmpty(blocks) && (blocks != [] ==> |blocks| > 1)
    ensures var lines := WithoutLastEmpty(blocks);
            (if lines != [] then lines else [fallback]) + [""] == if blocks == [] then [fallback, ""] else blocks
  {
    if blocks != [] {
      assert blocks == blocks[..|blocks| - 1] + [blocks[|blocks| - 1]];
    }
  }

  lemma ContextRejoined(c: Context)
    ensures ContextLines(c) + [""] == if NoContext(c) then [NOTHING_SURVEYED, ""] else ContextBlocks(c)
  {
    ContextBlocksEndEmpty(c);
    RejoinedWithEmpty(ContextBlocks(c), NOTHING_SURVEYED);
  }

  lemma BuildLogRejoined(builds: seq<BuildRecord>)
    requires builds != []
    ensures BuildLogLines(builds) + [""] == BuildBlocks(builds)
  {
    BuildBlocksEndEmpty(builds);
  }

  lemma SixSegments(parts: seq<seq<string>>)
    requires |parts| == 10
    ensures parts[2..8] == [parts[2], parts[3], parts[4], parts[5], parts[6], parts[7]]
  {
  }

  /** The texts of the context's own sections, 2 to 7. */
  lemma ContextPart(p: Prompt)
    ensures ConcatAll(Segments(p)[2..8]) == ContextBlocks(p.context)
  {
    var c := p.context;
    ConcatSix(ListBlock("### Component", c.components), ListBlock("### Files", c.files), ListBlock("### Gauges", c.gauges),
              ListBlock("### Routes", c.routes), ListBlock("### Endpoints", c.endpoints), DocBlock(c.docs));
    SixSegments(Segments(p));
  }

  lemma SurveyedOrNot(head: seq<string>, lines: seq<string>, fallback: string, blocks: seq<string>)
    requires lines + [""] == if blocks == [] then [fallback, ""] else blocks
    ensures head + (if blocks == [] then [fallback, ""] else []) + blocks == head + lines + [""]
  {
    Regrouped(head, lines, [""]);
    assert head + [] == head;
  }

  lemma ContextTexts(p: Prompt)
    ensures SegmentTexts(p, 1) + ConcatAll(Segments(p)[2..8]) == ["## Context", ""] + ContextLines(p.context) + [""]
  {
    ContextRejoined(p.context);
    ContextPart(p);
    SurveyedOrNot(["## Context", ""], ContextLines(p.context), NOTHING_SURVEYED, ContextBlocks(p.context));
  }

  lemma SplitTen(parts: seq<seq<string>>)
    requires |parts| == 10
    ensures ConcatAll(parts) == (parts[0] + parts[1]) + ConcatAll(parts[2..8]) + (parts[8] + parts[9])
  {
    assert parts == [parts[0], parts[1]] + parts[2..8] + [parts[8], parts[9]];
    ConcatAllSplit([parts[0], parts[1]] + parts[2..8], [parts[8], parts[9]]);
    ConcatAllSplit([parts[0], parts[1]], parts[2..8]);
    ConcatTwo(parts[0], parts[1]);
    ConcatTwo(parts[8], parts[9]);
  }

  function RequirementTexts(p: Prompt): seq<string> {
    ["", "# Requirement", "", Or(p.requirement, NO_REQUIREMENT)] + [""]
  }

  /** Sections, each starting with a blank line, and a last line feed. */
  function Spaced(q: seq<string>, a: seq<string>, c: seq<string>, r: seq<string>, rest: seq<string>): seq<string> {
    q + ([""] + a) + ([""] + c) + ([""] + r) + (if rest != [] then [""] + rest else []) + [""]
  }

  /** The blank line a section starts with ends the section before it. */
  lemma Regroup(q: seq<string>, a: seq<string>, c: seq<string>, r: seq<string>, rest: seq<string>)
    ensures Spaced(q, a, c, r, rest)
         == (q + [""]) + ((a + [""]) + (c + [""]) + (r + [""]) + (if rest != [] then rest + [""] else []))
  {
  }

  function BuildTexts(p: Prompt): seq<string> {
    if p.builds != [] then ["## Builds", ""] + BuildLogLines(p.builds) else []
  }

  lemma BodyIsSpaced(p: Prompt)
    ensures BodyTexts(p) == Spaced(["", "# Requirement", "", Or(p.requirement, NO_REQUIREMENT)],
                                   ["## Acceptance", ""] + AcceptanceLines(p.acceptance),
                                   ["## Context", ""] + ContextLines(p.context), ["## Rules", ""] + RULES, BuildTexts(p))
  {
  }

  lemma Rejoin(head: seq<string>, log: seq<string>, blocks: seq<string>)
    requires log + [""] == blocks
    ensures head + log + [""] == head + blocks
  {
  }

  lemma BuildTextsSplit(p: Prompt)
    ensures (if BuildTexts(p) != [] then BuildTexts(p) + [""] else []) == SegmentTexts(p, 9) + BuildBlocks(p.builds)
  {
    if p.builds != [] {
      BuildLogRejoined(p.builds);
      Rejoin(["## Builds", ""], BuildLogLines(p.builds), BuildBlocks(p.builds));
    }
  }

  lemma Assemble(q: seq<string>, a: seq<string>, c: seq<string>, r: seq<string>, rest: seq<string>,
                 parts: seq<seq<string>>, blocks: seq<string>)
    requires |parts| == 10
    requires parts[0] == a + [""] && parts[8] == r + [""]
    requires parts[1] + ConcatAll(parts[2..8]) == c + [""]
    requires (if rest != [] then rest + [""] else []) == parts[9] + blocks
    ensures Spaced(q, a, c, r, rest) == (q + [""]) + (ConcatAll(parts) + blocks)
  {
    Regroup(q, a, c, r, rest);
    SplitTen(parts);
    Associate(parts[0], parts[1], ConcatAll(parts[2..8]), parts[8], parts[9], blocks);
  }

  lemma Associate(a: seq<string>, s: seq<string>, c: seq<string>, r: seq<string>, h: seq<string>, b: seq<string>)
    ensures a + (s + c) + r + (h + b) == (a + s) + c + (r + h) + b
  {
  }

  lemma OuterParts(p: Prompt, parts: seq<seq<string>>)
    requires parts == Segments(p)
    ensures parts[0] == ["## Acceptance", ""] + AcceptanceLines(p.acceptance) + [""]
    ensures parts[8] == ["## Rules", ""] + RULES + [""]
  {
  }

  lemma MiddleParts(p: Prompt, parts: seq<seq<string>>)
    requires parts == Segments(p)
    ensures parts[1] + ConcatAll(parts[2..8]) == ["## Context", ""] + ContextLines(p.context) + [""]
    ensures (if BuildTexts(p) != [] then BuildTexts(p) + [""] else []) == parts[9] + BuildBlocks(p.builds)
  {
    ContextTexts(p);
    BuildTextsSplit(p);
  }

  lemma BodyRegrouped(p: Prompt, parts: seq<seq<string>>)
    requires parts == Segments(p)
    ensures BodyTexts(p) == RequirementTexts(p) + (ConcatAll(parts) + BuildBlocks(p.builds))
  {
    BodyIsSpaced(p);
    OuterParts(p, parts);
    MiddleParts(p, parts);
    Assemble(["", "# Requirement", "", Or(p.requirement, NO_REQUIREMENT)], ["## Acceptance", ""] + AcceptanceLines(p.acceptance),
             ["## Context", ""] + ContextLines(p.context), ["## Rules", ""] + RULES, BuildTexts(p),
             parts, BuildBlocks(p.builds));
  }

  lemma RestLines(p: Prompt)
    requires GoodPrompt(p)
    ensures LinesOf(ConcatAll(Segments(p)) + BuildBlocks(p.builds)) == Flatten(Blocks(p))
  {
    LinesOfConcat(ConcatAll(Segments(p)), BuildBlocks(p.builds));
    NamedLines(p, Segments(p), 10);
    assert Segments(p)[..10] == Segments(p);
    BuildBlocksLines(p.builds);
    FlattenConcat(Named(p, 10), BuildSections(p.builds));
  }

  /** The file's body, split into lines, is the preamble followed by the blocks. */
  lemma BodyLines(p: Prompt)
    requires GoodPrompt(p)
    ensures LinesOf(BodyTexts(p)) == Preamble(p) + Flatten(Blocks(p))
  {
    BodyRegrouped(p, Segments(p));
    LinesOfConcat(RequirementTexts(p), ConcatAll(Segments(p)) + BuildBlocks(p.builds));
    RequirementLines(p);
    RestLines(p);
  }

  lemma RequirementLinesOf(title: string, text: string)
    requires '\n' !in title
    ensures LinesOf(["", title, "", text, ""]) == ["", title, ""] + Split(text, '\n') + [""]
  {
    var head := ["", title, ""];
    assert ["", title, "", text, ""] == head + [text] + [""];
    LinesOfConcat(head + [text], [""]);
    LinesOfConcat(head, [text]);
    LinesOfLines(head);
    LinesOfOne(text);
    LinesOfLines([""]);
  }

  lemma RequirementLines(p: Prompt)
    ensures LinesOf(RequirementTexts(p)) == Preamble(p)
  {
    var text := Or(p.requirement, NO_REQUIREMENT);
    RequirementLinesOf("# Requirement", text);
    assert ["", "# Requirement", "", text] + [""] == ["", "# Requirement", "", text, ""];
  }
}
