/** The sectioned body of a prompt file: headings, list sections, requirement and docs. */
module PromptSections {
  import opened Wrappers
  import opened Strings
  import opened PromptFile

  /** A heading line and the lines up to the next one. */
  datatype Block = Block(heading: string, content: seq<string>)

  predicate NoHeading(lines: seq<string>) {
    forall i :: 0 <= i < |lines| ==> !IsHeading(lines[i])
  }

  predicate GoodBlock(b: Block) {
    IsHeading(b.heading) && HeadingText(b.heading) != "" && NoHeading(b.content)
  }

  function Flatten(blocks: seq<Block>): seq<string> {
    if blocks == [] then [] else [blocks[0].heading] + blocks[0].content + Flatten(blocks[1..])
  }

  function Entries(blocks: seq<Block>): Sections {
    if blocks == [] then [] else [(HeadingText(blocks[0].heading), blocks[0].content)] + Entries(blocks[1..])
  }

  function Keys(s: Sections): set<string> {
    set i | 0 <= i < |s| :: s[i].0
  }

  predicate DistinctKeys(s: Sections) {
    forall i, j :: 0 <= i < j < |s| ==> s[i].0 != s[j].0
  }

  lemma {:induction false} FlattenConcat(a: seq<Block>, b: seq<Block>)
    ensures Flatten(a + b) == Flatten(a) + Flatten(b)
    ensures Entries(a + b) == Entries(a) + Entries(b)
  {
    if a == [] {
      assert a + b == b;
    } else {
      assert (a + b)[1..] == a[1..] + b;
      FlattenConcat(a[1..], b);
    }
  }

  lemma KeysConcat(a: Sections, b: Sections)
    ensures Keys(a + b) == Keys(a) + Keys(b)
  {
    forall k | k in Keys(a) + Keys(b)
      ensures k in Keys(a + b)
    {
      if k in Keys(a) {
        var i :| 0 <= i < |a| && a[i].0 == k;
        assert (a + b)[i].0 == k;
      } else {
        var i :| 0 <= i < |b| && b[i].0 == k;
        assert (a + b)[|a| + i].0 == k;
      }
    }
  }

  lemma DistinctConcat(a: Sections, b: Sections)
    requires DistinctKeys(a) && DistinctKeys(b) && Keys(a) !! Keys(b)
    ensures DistinctKeys(a + b)
  {
    var s := a + b;
    forall i, j | 0 <= i < j < |s|
      ensures s[i].0 != s[j].0
    {
      if i < |a| <= j {
        assert a[i].0 in Keys(a) && b[j - |a|].0 in Keys(b);
      }
    }
  }

  // ---- the section map --------------------------------------------------------------------

  lemma {:induction false} ScanConcat(scan: Scan, a: seq<string>, b: seq<string>)
    ensures ScanLines(scan, a + b) == ScanLines(ScanLines(scan, a), b)
    decreases |a|
  {
    if a == [] {
      assert a + b == b;
    } else {
      assert (a + b)[1..] == a[1..] + b;
      ScanConcat(ScanLine(scan, a[0]), a[1..], b);
    }
  }

  lemma {:induction false} SetFresh(s: Sections, key: string)
    requires forall i :: 0 <= i < |s| ==> s[i].0 != key
    ensures SetSection(s, key) == s + [(key, [])]
  {
    if s != [] {
      SetFresh(s[1..], key);
      assert s == [s[0]] + s[1..];
    }
  }

  lemma {:induction false} PushLast(s: Sections, key: string, content: seq<string>, line: string)
    requires forall i :: 0 <= i < |s| ==> s[i].0 != key
    ensures PushLine(s + [(key, content)], key, line) == s + [(key, content + [line])]
  {
    var t := s + [(key, content)];
    if s == [] {
      assert t[1..] == [];
    } else {
      PushLast(s[1..], key, content, line);
      assert t[1..] == s[1..] + [(key, content)];
      assert s == [s[0]] + s[1..];
    }
  }

  lemma {:induction false} ScanContent(s: Sections, key: string, content: seq<string>, lines: seq<string>)
    requires key != "" && NoHeading(lines) && forall i :: 0 <= i < |s| ==> s[i].0 != key
    ensures ScanLines(Scan(s + [(key, content)], key), lines) == Scan(s + [(key, content + lines)], key)
    decreases |lines|
  {
    if lines == [] {
      assert content + lines == content;
    } else {
      PushLast(s, key, content, lines[0]);
      ScanContent(s, key, content + [lines[0]], lines[1..]);
      assert content + [lines[0]] + lines[1..] == content + lines;
    }
  }

  lemma ScanBlock(s: Sections, current: string, b: Block)
    requires GoodBlock(b) && forall i :: 0 <= i < |s| ==> s[i].0 != HeadingText(b.heading)
    ensures var key := HeadingText(b.heading);
      ScanLines(Scan(s, current), [b.heading] + b.content) == Scan(s + [(key, b.content)], key)
  {
    var key := HeadingText(b.heading);
    SetFresh(s, key);
    ScanContent(s, key, [], b.content);
    assert [] + b.content == b.content;
    assert ([b.heading] + b.content)[1..] == b.content;
  }

  lemma ScanFirst(s: Sections, current: string, b: Block, more: seq<string>)
    requires GoodBlock(b) && forall i :: 0 <= i < |s| ==> s[i].0 != HeadingText(b.heading)
    ensures ScanLines(Scan(s, current), [b.heading] + b.content + more)
         == ScanLines(Scan(s + [(HeadingText(b.heading), b.content)], HeadingText(b.heading)), more)
  {
    ScanBlock(s, current, b);
    ScanConcat(Scan(s, current), [b.heading] + b.content, more);
  }

  lemma {:induction false} ScanBlocks(s: Sections, current: string, blocks: seq<Block>)
    requires forall b :: b in blocks ==> GoodBlock(b)
    requires DistinctKeys(Entries(blocks)) && Keys(s) !! Keys(Entries(blocks))
    ensures ScanLines(Scan(s, current), Flatten(blocks)).sections == s + Entries(blocks)
    decreases |blocks|
  {
    if blocks == [] {
      assert s + Entries(blocks) == s;
    } else {
      var b, key := blocks[0], HeadingText(blocks[0].heading);
      var one: Sections, rest := [(key, b.content)], Entries(blocks[1..]);
      assert b in blocks;
      FirstKey(s, key, b.content, rest);
      ScanFirst(s, current, b, Flatten(blocks[1..]));
      ScanBlocks(s + one, key, blocks[1..]);
      Regrouped(s, one, rest);
    }
  }

  lemma Regrouped<T>(a: seq<T>, b: seq<T>, c: seq<T>)
    ensures a + (b + c) == a + b + c
  {
  }

  lemma FirstKey(s: Sections, key: string, content: seq<string>, rest: Sections)
    requires DistinctKeys([(key, content)] + rest) && Keys(s) !! Keys([(key, content)] + rest)
    ensures forall i :: 0 <= i < |s| ==> s[i].0 != key
    ensures DistinctKeys(rest) && Keys(s + [(key, content)]) !! Keys(rest)
  {
    var one: Sections := [(key, content)];
    var all := one + rest;
    KeysConcat(one, rest);
    KeysConcat(s, one);
    assert one[0].0 in Keys(one);
    assert forall i :: 0 <= i < |s| ==> s[i].0 in Keys(s);
    assert all[0].0 == key && forall i :: 0 <= i < |rest| ==> all[i + 1] == rest[i];
  }

  /** A key that no reader asks for and that is no build's. */
  predicate IsForeign(key: string, names: set<string>) {
    key !in names && BuildIdOf(key).None?
  }

  predicate AllForeign(s: Sections, names: set<string>) {
    forall i :: 0 <= i < |s| ==> IsForeign(s[i].0, names)
  }

  /** Lines whose headings, if any, are foreign. */
  predicate HarmlessLines(lines: seq<string>, names: set<string>) {
    forall i :: 0 <= i < |lines| ==> IsHeading(lines[i]) ==> IsForeign(HeadingText(lines[i]), names)
  }

  lemma {:induction false} SetForeign(s: Sections, key: string, names: set<string>)
    requires AllForeign(s, names) && IsForeign(key, names)
    ensures AllForeign(SetSection(s, key), names)
  {
    if s != [] && s[0].0 != key {
      SetForeign(s[1..], key, names);
    }
  }

  lemma {:induction false} PushForeign(s: Sections, key: string, line: string, names: set<string>)
    requires AllForeign(s, names)
    ensures AllForeign(PushLine(s, key, line), names)
  {
    if s != [] && s[0].0 != key {
      PushForeign(s[1..], key, line, names);
    }
  }

  lemma {:induction false} ScanHarmless(scan: Scan, lines: seq<string>, names: set<string>)
    requires AllForeign(scan.sections, names) && HarmlessLines(lines, names)
    ensures AllForeign(ScanLines(scan, lines).sections, names)
    decreases |lines|
  {
    if lines != [] {
      if IsHeading(lines[0]) {
        SetForeign(scan.sections, HeadingText(lines[0]), names);
      } else {
        PushForeign(scan.sections, scan.current, lines[0], names);
      }
      ScanHarmless(ScanLine(scan, lines[0]), lines[1..], names);
    }
  }

  /**
   Headings scanned after a preamble give exactly the sections, in order, behind whatever
   foreign sections the preamble itself opens.
   */
  lemma ScanBody(preamble: seq<string>, blocks: seq<Block>, names: set<string>)
    requires HarmlessLines(preamble, names)
    requires forall b :: b in blocks ==> GoodBlock(b)
    requires DistinctKeys(Entries(blocks))
    requires forall k :: k in Keys(Entries(blocks)) ==> !IsForeign(k, names)
    ensures var own := ScanLines(Scan([], ""), preamble).sections;
            && AllForeign(own, names)
            && ScanLines(Scan([], ""), preamble + Flatten(blocks)).sections == own + Entries(blocks)
  {
    var scan := ScanLines(Scan([], ""), preamble);
    ScanHarmless(Scan([], ""), preamble, names);
    ScanConcat(Scan([], ""), preamble, Flatten(blocks));
    ScanBlocks(scan.sections, scan.current, blocks);
  }

  /** Foreign sections in front are not seen by any reader. */
  lemma {:induction false} ForeignUnseen(own: Sections, rest: Sections, names: set<string>)
    requires AllForeign(own, names)
    ensures BuildsOf(own + rest) == BuildsOf(rest)
    ensures forall key :: key in names ==> GetSection(own + rest, key) == GetSection(rest, key)
  {
    if own == [] {
      assert own + rest == rest;
    } else {
      assert (own + rest)[1..] == own[1..] + rest;
      assert own[0] == (own + rest)[0];
      ForeignUnseen(own[1..], rest, names);
    }
  }

  lemma {:induction false} GetConcat(a: Sections, b: Sections, key: string)
    ensures GetSection(a + b, key) == if key in Keys(a) then GetSection(a, key) else GetSection(b, key)
  {
    if a == [] {
      assert a + b == b;
    } else {
      assert (a + b)[1..] == a[1..] + b;
      GetConcat(a[1..], b, key);
      assert key in Keys(a) <==> a[0].0 == key || key in Keys(a[1..]) by {
        assert a == [a[0]] + a[1..];
        KeysConcat([a[0]], a[1..]);
        assert [a[0]][0].0 in Keys([a[0]]);
      }
    }
  }

  lemma {:induction false} GetMissing(s: Sections, key: string)
    requires key !in Keys(s)
    ensures GetSection(s, key) == []
  {
    if s != [] {
      assert s[0].0 in Keys(s);
      forall k | k in Keys(s[1..]) ensures k in Keys(s) {
        var i :| 0 <= i < |s[1..]| && s[1..][i].0 == k;
        assert s[i + 1].0 == k;
      }
      GetMissing(s[1..], key);
    }
  }

  lemma GetFromFirst(a: Sections, b: Sections, key: string)
    requires key !in Keys(b)
    ensures GetSection(a + b, key) == GetSection(a, key)
  {
    GetConcat(a, b, key);
    GetMissing(b, key);
    if key !in Keys(a) {
      GetMissing(a, key);
    }
  }

  lemma GetFromSecond(a: Sections, b: Sections, key: string)
    requires key !in Keys(a)
    ensures GetSection(a + b, key) == GetSection(b, key)
  {
    GetConcat(a, b, key);
  }

  // ---- list sections ----------------------------------------------------------------------

  predicate OnOneLine(items: seq<string>) {
    forall i :: 0 <= i < |items| ==> '\n' !in items[i]
  }

  lemma MarkerOff(item: string)
    ensures WithoutMarker("- " + item) == item && !IsBlank("- " + item)
  {
    var line := "- " + item;
    assert line[2..] == item;
    assert line[0] == '-';
    BlankIff(line);
  }

  lemma {:induction false} StripMarked(items: seq<string>)
    ensures StripListMarkers(Marked(items) + [""]) == items
  {
    if items == [] {
      BlankIff("");
    } else {
      var lines := Marked(items) + [""];
      MarkerOff(items[0]);
      assert lines[1..] == Marked(items[1..]) + [""];
      StripMarked(items[1..]);
    }
  }

  /** A list section reads back as its items, whatever they hold. */
  lemma StripSection(items: seq<string>)
    ensures StripListMarkers([""] + Marked(items) + [""]) == items
  {
    var lines := [""] + Marked(items) + [""];
    assert lines[1..] == Marked(items) + [""];
    BlankIff("");
    StripMarked(items);
  }

  lemma NoneGivenRead()
    ensures AcceptanceOf([""] + [NONE_GIVEN] + [""]) == []
  {
    var lines := [""] + [NONE_GIVEN] + [""];
    BlankIff("");
    BlankIff(NONE_GIVEN);
    assert NONE_GIVEN[0] != "-"[0];
    assert StripListMarkers([""]) == [];
    assert [NONE_GIVEN, ""][1..] == [""];
    assert StripListMarkers([NONE_GIVEN, ""]) == [NONE_GIVEN];
    assert lines[1..] == [NONE_GIVEN, ""];
  }

  /** The acceptance list comes back as written, whatever its items hold, if and only if it is
      not the one-item list that spells the placeholder. */
  lemma AcceptanceExact(items: seq<string>)
    ensures AcceptanceOf([""] + AcceptanceLines(items) + [""]) == items <==> items != [NONE_GIVEN]
  {
    if items == [] {
      NoneGivenRead();
    } else {
      StripSection(items);
    }
  }

  lemma NotHeading(line: string)
    requires line == "" || line[0] != '#'
    ensures !IsHeading(line)
  {
    if |line| > 2 {
      assert line[..2][0] == line[0];
    }
    if |line| > 3 {
      assert line[..3][0] == line[0];
    }
  }

  lemma {:induction false} MarkedLines(items: seq<string>)
    requires OnOneLine(items)
    ensures forall l :: l in Marked(items) ==> '\n' !in l && !IsHeading(l)
  {
    if items != [] {
      assert ("- " + items[0])[0] == '-';
      NotHeading("- " + items[0]);
      MarkedLines(items[1..]);
    }
  }

  // ---- the requirement --------------------------------------------------------------------

  lemma {:induction false} UntilHeading(lines: seq<string>, heading: string, rest: seq<string>)
    requires NoSectionLine(lines) && IsSectionLine(heading)
    ensures UntilSection(lines + [heading] + rest) == lines
  {
    var all := lines + [heading] + rest;
    if lines != [] {
      assert all[1..] == lines[1..] + [heading] + rest;
      UntilHeading(lines[1..], heading, rest);
    }
  }

  /** The requirement's text between the blank lines around it. */
  lemma RequirementJoined(text: string)
    ensures Join([""] + Split(text, '\n') + [""], "\n") == "\n" + text + "\n"
  {
    var lines := Split(text, '\n');
    JoinSplit(text, '\n');
    JoinConcat([""] + lines, [""], "\n");
    JoinConcat([""], lines, "\n");
  }

  lemma RequirementText(text: string)
    ensures Trim("\n" + text + "\n") == text <==> Trimmed(text)
  {
    if Trimmed(text) {
      TrimPadded("\n", text, "\n");
    }
  }

  predicate NoSectionLine(lines: seq<string>) {
    forall l :: l in lines ==> !IsSectionLine(l)
  }

  /** Where a list of lines is cut: before its first section line. */
  lemma {:induction false} CutAtSection(lines: seq<string>) returns (k: nat)
    requires !NoSectionLine(lines)
    ensures k < |lines| && IsSectionLine(lines[k]) && NoSectionLine(lines[..k])
  {
    if IsSectionLine(lines[0]) {
      return 0;
    }
    var l :| l in lines && IsSectionLine(l);
    assert l in lines[1..];
    var rest := CutAtSection(lines[1..]);
    k := rest + 1;
    assert lines[..k] == [lines[0]] + lines[1..][..rest];
  }

  /** What is read from the line behind the title on. */
  lemma RequirementLinesRead(lines: seq<string>)
    ensures RequirementOf(["", "# Requirement"] + lines) ==
            var text := Trim(Join(UntilSection(lines), "\n"));
            if text == NO_REQUIREMENT then "" else text
  {
    var all := ["", "# Requirement"] + lines;
    RequirementLine();
    assert all[1..] == ["# Requirement"] + lines && all[1..][1..] == lines;
    assert AfterRequirementLine(all[1..]) == Some(lines);
    assert AfterRequirementLine(all) == Some(lines);
  }

  /** The lines before a section line join to less than the whole. */
  lemma CutIsShorter(lines: seq<string>, k: nat)
    requires k < |lines| && lines[k] != ""
    ensures |Join([""] + lines[..k], "\n")| < |Join(lines, "\n")|
  {
    var before, after := lines[..k], lines[k..];
    JoinStartsWith(after, "\n");
    assert lines == before + after;
    if k == 0 {
      assert [""] + before == [""];
    } else {
      JoinConcat([""], before, "\n");
      JoinConcat(before, after, "\n");
    }
  }

  lemma JoinStartsWith(parts: seq<string>, sep: string)
    requires parts != [] && parts[0] != ""
    ensures Join(parts, sep) != ""
  {
    assert |Join(parts, sep)| >= |parts[0]|;
  }

  /** A text with a section line comes back cut. */
  lemma RequirementCut(text: string, lines: seq<string>, rest: seq<string>)
    requires text != "" && lines == Split(text, '\n') && !NoSectionLine(lines)
    ensures RequirementOf(["", "# Requirement"] + ([""] + lines + rest)) != text
  {
    var k := CutAtSection(lines);
    UntilCut(lines, k, rest);
    RequirementLinesRead([""] + lines + rest);
    TrimIsShorter(Join([""] + lines[..k], "\n"));
    CutIsShorter(lines, k);
    JoinSplit(text, '\n');
  }

  lemma UntilCut(lines: seq<string>, k: nat, rest: seq<string>)
    requires k < |lines| && NoSectionLine(lines[..k]) && IsSectionLine(lines[k])
    ensures UntilSection([""] + lines + rest) == [""] + lines[..k]
  {
    NotHeading("");
    UntilHeading([""] + lines[..k], lines[k], lines[k + 1..] + rest);
    assert [""] + lines + rest == [""] + lines[..k] + [lines[k]] + (lines[k + 1..] + rest);
  }

  /**
   A requirement comes back as written if and only if it is trimmed, is not the placeholder,
   and holds no line that starts a section. Headings of level three do no harm here.
   */
  lemma RequirementExact(text: string, heading: string, rest: seq<string>)
    requires text != "" && IsSectionLine(heading)
    ensures RequirementOf(["", "# Requirement", ""] + Split(text, '\n') + [""] + [heading] + rest) == text
       <==> Trimmed(text) && text != NO_REQUIREMENT && NoSectionLine(Split(text, '\n'))
  {
    var lines := Split(text, '\n');
    var after := [""] + [heading] + rest;
    assert ["", "# Requirement", ""] + lines + [""] + [heading] + rest ==
           ["", "# Requirement"] + ([""] + lines + after);
    if NoSectionLine(lines) {
      RequirementWhole(text, lines, heading, rest);
      TrimmedAgain("\n" + text + "\n");
    } else {
      RequirementCut(text, lines, after);
    }
  }

  lemma TrimmedAgain(s: string)
    ensures Trimmed(Trim(s))
  {
  }

  lemma RequirementWhole(text: string, lines: seq<string>, heading: string, rest: seq<string>)
    requires lines == Split(text, '\n') && NoSectionLine(lines) && IsSectionLine(heading)
    ensures RequirementOf(["", "# Requirement"] + ([""] + lines + ([""] + [heading] + rest))) ==
            var read := Trim("\n" + text + "\n");
            if read == NO_REQUIREMENT then "" else read
    ensures Trimmed(text) ==> Trim("\n" + text + "\n") == text
  {
    var body := [""] + lines + [""];
    NotHeading("");
    UntilHeading(body, heading, rest);
    assert [""] + lines + ([""] + [heading] + rest) == body + [heading] + rest;
    RequirementLinesRead(body + [heading] + rest);
    RequirementText(text);
    RequirementJoined(text);
  }

  lemma RequirementRead(text: string, heading: string, rest: seq<string>)
    requires Trimmed(text) && NoSectionLine(Split(text, '\n')) && IsSectionLine(heading)
    ensures RequirementOf(["", "# Requirement", ""] + Split(text, '\n') + [""] + [heading] + rest)
         == (if text == NO_REQUIREMENT then "" else text)
  {
    var lines := Split(text, '\n');
    assert ["", "# Requirement", ""] + lines + [""] + [heading] + rest ==
           ["", "# Requirement"] + ([""] + lines + ([""] + [heading] + rest));
    RequirementWhole(text, lines, heading, rest);
  }

  lemma RequirementLine()
    ensures IsRequirementLine("# Requirement") && !IsRequirementLine("")
  {
    var word := "Requirement";
    assert "# Requirement"[1..] == " " + word + "";
    TrimPadded(" ", word, "");
  }

  // ---- docs -------------------------------------------------------------------------------

  predicate NoProvenance(lines: seq<string>) {
    forall i :: 0 <= i < |lines| ==> ProvenanceOf(Trim(lines[i])).None?
  }

  /** A doc whose lines are read as one doc. */
  predicate OneDoc(d: Doc) {
    OneLine(d.provenance) && Trimmed(d.text) && NoProvenance(Split(d.text, '\n'))
  }

  /** What the reader makes of a one-line provenance. */
  function ProvenanceAsRead(provenance: string): string {
    if Trim(provenance) == "" then " " else Trim(provenance)
  }

  function AsRead(docs: seq<Doc>): seq<Doc> {
    if docs == [] then []
    else [docs[0].(provenance := ProvenanceAsRead(docs[0].provenance))] + AsRead(docs[1..])
  }

  predicate GoodProvenance(provenance: string) {
    provenance == " " || (provenance != "" && Trimmed(provenance) && OneLine(provenance))
  }

  /** The docs that their own lines give back, by `PromptExact.DocsExact`. */
  predicate ReadableDoc(d: Doc) {
    OneDoc(d) && GoodProvenance(d.provenance)
  }

  /** A readable doc whose lines stay in their section. */
  predicate GoodDoc(d: Doc) {
    ReadableDoc(d) && NoHeading(Split(d.text, '\n'))
  }

  lemma ProvenanceRead(provenance: string)
    requires OneLine(provenance)
    ensures var line := "--- " + provenance + " ---";
      ProvenanceOf(Trim(line)) == Some(ProvenanceAsRead(provenance))
  {
    var line := "--- " + provenance + " ---";
    var inner := " " + provenance + " ";
    assert line[0] == '-' && line[|line| - 1] == '-';
    TrimTrimmed(line);
    assert line[3..|line| - 3] == inner;
    assert line[|line| - 3..] == "---";
    TrimAround(" ", provenance, " ");
    TrimOneLine(provenance);
    assert inner[|inner| - 1..] == " ";
  }

  lemma GoodProvenanceIff(provenance: string)
    requires OneLine(provenance)
    ensures ProvenanceAsRead(provenance) == provenance <==> GoodProvenance(provenance)
  {
    BlankIff(provenance);
    TrimIsShorter(provenance);
    if Trimmed(provenance) {
      TrimTrimmed(provenance);
    }
  }

  lemma {:induction false} AllAsRead(docs: seq<Doc>)
    requires forall d :: d in docs ==> OneLine(d.provenance)
    ensures AsRead(docs) == docs <==> forall d :: d in docs ==> GoodProvenance(d.provenance)
  {
    if docs != [] {
      assert docs[0] in docs;
      GoodProvenanceIff(docs[0].provenance);
      AllAsRead(docs[1..]);
      assert [docs[0]] + docs[1..] == docs;
      assert AsRead(docs)[1..] == AsRead(docs[1..]) && AsRead(docs)[0].provenance == ProvenanceAsRead(docs[0].provenance);
    }
  }

  lemma {:induction false} DocLinesKept(lines: seq<string>, provenance: string, text: seq<string>, rest: seq<string>)
    requires NoProvenance(lines)
    ensures DocsFrom(lines + rest, Some(provenance), text) == DocsFrom(rest, Some(provenance), text + lines)
    decreases |lines|
  {
    if lines == [] {
      assert lines + rest == rest && text + lines == text;
    } else {
      assert (lines + rest)[1..] == lines[1..] + rest;
      DocLinesKept(lines[1..], provenance, text + [lines[0]], rest);
      assert text + [lines[0]] + lines[1..] == text + lines;
    }
  }

  lemma NoProvenanceInBlank()
    ensures ProvenanceOf(Trim("")).None?
  {
  }

  /** The lines of one doc, after its provenance line. */
  function DocContent(d: Doc): seq<string> {
    Split(d.text, '\n') + [""]
  }

  function DocLines(docs: seq<Doc>): seq<string> {
    if docs == [] then []
    else ["--- " + docs[0].provenance + " ---"] + DocContent(docs[0]) + DocLines(docs[1..])
  }

  lemma DocTextRead(provenance: string, d: Doc)
    requires Trimmed(d.text)
    ensures Flushed(Some(provenance), DocContent(d)) == [d.(provenance := provenance)]
  {
    JoinSplit(d.text, '\n');
    JoinConcat(Split(d.text, '\n'), [""], "\n");
    assert Join(DocContent(d), "\n") == "" + d.text + "\n";
    TrimPadded("", d.text, "\n");
  }

  lemma DocOpened(d: Doc, rest: seq<string>, before: Option<string>, text: seq<string>)
    requires OneDoc(d)
    ensures DocsFrom(["--- " + d.provenance + " ---"] + DocContent(d) + rest, before, text)
         == Flushed(before, text) + DocsFrom(rest, Some(ProvenanceAsRead(d.provenance)), DocContent(d))
  {
    var lines := ["--- " + d.provenance + " ---"] + DocContent(d) + rest;
    ProvenanceRead(d.provenance);
    assert lines[1..] == DocContent(d) + rest;
    NoProvenanceInBlank();
    DocLinesKept(DocContent(d), ProvenanceAsRead(d.provenance), [], rest);
    assert [] + DocContent(d) == DocContent(d);
  }

  lemma {:induction false} DocsFollow(d: Doc, docs: seq<Doc>)
    requires OneDoc(d) && forall e :: e in docs ==> OneDoc(e)
    ensures DocsFrom(DocLines(docs), Some(ProvenanceAsRead(d.provenance)), DocContent(d))
         == [d.(provenance := ProvenanceAsRead(d.provenance))] + AsRead(docs)
    decreases |docs|
  {
    DocTextRead(ProvenanceAsRead(d.provenance), d);
    if docs != [] {
      assert docs[0] in docs;
      DocOpened(docs[0], DocLines(docs[1..]), Some(ProvenanceAsRead(d.provenance)), DocContent(d));
      DocsFollow(docs[0], docs[1..]);
    }
  }

  /** The docs section reads back as the same docs, but for their provenance. */
  lemma DocsReadAs(docs: seq<Doc>)
    requires forall d :: d in docs ==> OneDoc(d)
    ensures DocsFrom([""] + DocLines(docs), None, []) == AsRead(docs)
  {
    assert ([""] + DocLines(docs))[1..] == DocLines(docs);
    NoProvenanceInBlank();
    if docs != [] {
      assert docs[0] in docs;
      DocOpened(docs[0], DocLines(docs[1..]), None, []);
      DocsFollow(docs[0], docs[1..]);
    }
  }

  /** The docs section reads back as the same docs. */
  lemma DocsRead(docs: seq<Doc>)
    requires forall d :: d in docs ==> ReadableDoc(d)
    ensures DocsFrom([""] + DocLines(docs), None, []) == docs
  {
    DocsReadAs(docs);
    AllAsRead(docs);
  }
}
