/**
 The loops of `serializePrompt` and `parsePrompt`: lines are pushed one by one, sections and
 build records are gathered in variables that the loops update. Each method computes the
 function of PromptFile that it is proved against.
 */
module PromptCode {
  import opened Wrappers
  import opened Strings
  import opened Escaping
  import opened PromptFile
  import opened PromptSections
  import opened PromptBuilds

  // ---- writing ----------------------------------------------------------------------------

  lemma {:induction false} MarkedSnoc(items: seq<string>, item: string)
    ensures Marked(items + [item]) == Marked(items) + ["- " + item]
  {
    if items != [] {
      assert (items + [item])[1..] == items[1..] + [item];
      MarkedSnoc(items[1..], item);
    }
  }

  lemma MarkedNext(items: seq<string>, i: nat)
    requires i < |items|
    ensures Marked(items[..i + 1]) == Marked(items[..i]) + ["- " + items[i]]
  {
    assert items[..i + 1] == items[..i] + [items[i]];
    MarkedSnoc(items[..i], items[i]);
  }

  /** One list of the context: heading, blank line, items, blank line; nothing when empty. */
  method PushList(lines: seq<string>, heading: string, items: seq<string>) returns (out: seq<string>)
    ensures out == lines + ListBlock(heading, items)
  {
    out := lines;
    if |items| > 0 {
      out := out + [heading, ""];
      ghost var before := out;
      for i := 0 to |items|
        invariant out == before + Marked(items[..i])
      {
        MarkedNext(items, i);
        out := out + ["- " + items[i]];
      }
      assert items[..|items|] == items;
      Regrouped(lines, [heading, ""], Marked(items));
      Regrouped(lines, [heading, ""] + Marked(items), [""]);
      out := out + [""];
    }
  }

  lemma {:induction false} DocTextsSnoc(docs: seq<Doc>, d: Doc)
    ensures DocTexts(docs + [d]) == DocTexts(docs) + ["--- " + d.provenance + " ---", d.text, ""]
  {
    if docs != [] {
      assert (docs + [d])[1..] == docs[1..] + [d];
      DocTextsSnoc(docs[1..], d);
    }
  }

  method PushDocs(lines: seq<string>, docs: seq<Doc>) returns (out: seq<string>)
    ensures out == lines + if docs == [] then [] else ["### Docs", ""] + DocTexts(docs)
  {
    out := lines;
    if |docs| > 0 {
      out := out + ["### Docs", ""];
      for i := 0 to |docs|
        invariant out == lines + ["### Docs", ""] + DocTexts(docs[..i])
      {
        assert docs[..i + 1] == docs[..i] + [docs[i]];
        DocTextsSnoc(docs[..i], docs[i]);
        out := out + ["--- " + docs[i].provenance + " ---", docs[i].text, ""];
      }
      assert docs[..|docs|] == docs;
    }
  }

  method WriteContext(c: Context) returns (lines: seq<string>)
    ensures lines == ContextLines(c)
  {
    lines := PushList([], "### Component", c.components);
    assert lines == ListBlock("### Component", c.components);
    lines := PushList(lines, "### Files", c.files);
    lines := PushList(lines, "### Gauges", c.gauges);
    lines := PushList(lines, "### Routes", c.routes);
    lines := PushList(lines, "### Endpoints", c.endpoints);
    lines := PushDocs(lines, c.docs);
    assert lines == ContextBlocks(c);
    if |lines| > 0 && lines[|lines| - 1] == "" {
      lines := lines[..|lines| - 1];
    }
    if |lines| == 0 {
      lines := [NOTHING_SURVEYED];
    }
  }

  lemma {:induction false} BuildBlocksSnoc(builds: seq<BuildRecord>, b: BuildRecord)
    ensures BuildBlocks(builds + [b]) == BuildBlocks(builds) + BuildBlock(b)
  {
    if builds == [] {
      assert ([b])[1..] == [];
      assert [] + [b] == [b];
    } else {
      assert (builds + [b])[1..] == builds[1..] + [b];
      BuildBlocksSnoc(builds[1..], b);
    }
  }

  method WriteFields(b: BuildRecord) returns (lines: seq<string>)
    ensures lines == BuildFields(b)
  {
    var started := [FieldLineOf("started", b.startedAt)];
    var finished := [];
    if b.finishedAt.Some? && b.finishedAt.value != "" {
      finished := [FieldLineOf("finished", b.finishedAt.value)];
    }
    var exit := [];
    if b.exitCode.Some? {
      exit := [FieldLineOf("exit code", IntText(b.exitCode.value))];
    }
    var model := [];
    if b.model.Some? {
      model := [FieldLineOf("model", b.model.value)];
    }
    var elapsed := [];
    if b.elapsedMs.Some? {
      elapsed := [FieldLineOf("elapsed", IntText(b.elapsedMs.value))];
    }
    var transcript := [];
    if b.transcriptPath.Some? && b.transcriptPath.value != "" {
      transcript := [FieldLineOf("transcript", b.transcriptPath.value)];
    }
    var files := if |b.filesTouched| > 0 then Join(b.filesTouched, ", ") else NO_FILES;
    lines := started + finished + exit + model + elapsed + transcript + [FieldLineOf("files touched", files)];
  }

  method WriteBuild(b: BuildRecord) returns (lines: seq<string>)
    ensures lines == BuildBlock(b)
  {
    var fields := WriteFields(b);
    var summary := [];
    if b.summary.Some? && b.summary.value != "" {
      summary := ["", b.summary.value];
    }
    lines := ["### Build " + b.id, ""] + fields + summary + [""];
  }

  lemma BuildBlocksNext(builds: seq<BuildRecord>, i: nat)
    requires i < |builds|
    ensures BuildBlocks(builds[..i + 1]) == BuildBlocks(builds[..i]) + BuildBlock(builds[i])
  {
    assert builds[..i + 1] == builds[..i] + [builds[i]];
    BuildBlocksSnoc(builds[..i], builds[i]);
  }

  method WriteBuildLog(builds: seq<BuildRecord>) returns (lines: seq<string>)
    ensures lines == BuildLogLines(builds)
  {
    lines := [];
    for i := 0 to |builds|
      invariant lines == BuildBlocks(builds[..i])
    {
      BuildBlocksNext(builds, i);
      var block := WriteBuild(builds[i]);
      lines := lines + block;
    }
    assert builds[..|builds|] == builds;
    if |lines| > 0 && lines[|lines| - 1] == "" {
      lines := lines[..|lines| - 1];
    }
  }

  method SerializePrompt(p: Prompt) returns (markdown: string)
    ensures markdown == Serialized(p)
  {
    var frontmatter := ["---"] + FieldLines(PairsOf(p)) + ["---"];
    var lines := ["", "# Requirement", "", Or(p.requirement, NO_REQUIREMENT)];
    lines := lines + Section("## Acceptance", AcceptanceLines(p.acceptance));
    var context := WriteContext(p.context);
    lines := lines + Section("## Context", context);
    lines := lines + Section("## Rules", RULES);
    var history := [];
    if |p.builds| > 0 {
      var log := WriteBuildLog(p.builds);
      history := Section("## Builds", log);
    }
    lines := lines + history + [""];
    assert lines == BodyTexts(p);
    markdown := Join(frontmatter + lines, "\n");
  }

  // ---- reading ----------------------------------------------------------------------------

  /** One line of the frontmatter, if it has a colon. */
  method ReadField(line: string) returns (field: Option<(string, string)>)
    ensures field == KeyValue(line)
  {
    if IsBlank(line) {
      return None;
    }
    var idx := IndexOf(line, ':');
    if idx.None? {
      return None;
    }
    field := Some((Trim(line[..idx.value]), Trim(line[idx.value + 1..])));
  }

  lemma FieldMapNext(lines: seq<string>, i: nat, field: Option<(string, string)>)
    requires i < |lines| && field == KeyValue(lines[i])
    ensures FieldMap(lines[..i + 1])
         == if field.Some? then FieldMap(lines[..i])[field.value.0 := field.value.1] else FieldMap(lines[..i])
  {
    assert lines[..i + 1][..i] == lines[..i];
  }

  method ReadFields(fmBlock: string) returns (fm: map<string, string>)
    ensures fm == FieldMap(Split(fmBlock, '\n'))
  {
    var lines := Split(fmBlock, '\n');
    fm := map[];
    for i := 0 to |lines|
      invariant fm == FieldMap(lines[..i])
    {
      var field := ReadField(lines[i]);
      FieldMapNext(lines, i, field);
      if field.Some? {
        fm := fm[field.value.0 := field.value.1];
      }
    }
    assert lines[..|lines|] == lines;
  }

  lemma ScanSnoc(scan: Scan, lines: seq<string>, line: string)
    ensures ScanLines(scan, lines + [line]) == ScanLine(ScanLines(scan, lines), line)
  {
    ScanConcat(scan, lines, [line]);
    assert [line][1..] == [];
  }

  method ReadSections(lines: seq<string>) returns (sections: Sections)
    ensures sections == ScanLines(Scan([], ""), lines).sections
  {
    sections := [];
    var current := "";
    for i := 0 to |lines|
      invariant Scan(sections, current) == ScanLines(Scan([], ""), lines[..i])
    {
      assert lines[..i + 1] == lines[..i] + [lines[i]];
      ScanSnoc(Scan([], ""), lines[..i], lines[i]);
      if IsHeading(lines[i]) {
        current := HeadingText(lines[i]);
        sections := SetSection(sections, current);
      } else if current != "" {
        sections := PushLine(sections, current, lines[i]);
      }
    }
    assert lines[..|lines|] == lines;
  }

  method FindRequirementLine(lines: seq<string>) returns (reqIdx: nat)
    ensures reqIdx <= |lines|
    ensures AfterRequirementLine(lines) == if reqIdx < |lines| then Some(lines[reqIdx + 1..]) else None
  {
    reqIdx := 0;
    while reqIdx < |lines| && !IsRequirementLine(lines[reqIdx])
      invariant reqIdx <= |lines|
      invariant AfterRequirementLine(lines) == AfterRequirementLine(lines[reqIdx..])
    {
      assert lines[reqIdx..][1..] == lines[reqIdx + 1..];
      reqIdx := reqIdx + 1;
    }
    if reqIdx < |lines| {
      assert lines[reqIdx..][1..] == lines[reqIdx + 1..];
    }
  }

  method LinesUntilSection(lines: seq<string>, start: nat) returns (reqLines: seq<string>)
    requires start <= |lines|
    ensures reqLines == UntilSection(lines[start..])
  {
    reqLines := [];
    var i := start;
    while i < |lines| && !IsSectionLine(lines[i])
      invariant start <= i <= |lines|
      invariant UntilSection(lines[start..]) == reqLines + UntilSection(lines[i..])
    {
      assert lines[i..][1..] == lines[i + 1..];
      reqLines := reqLines + [lines[i]];
      i := i + 1;
    }
  }

  method ReadRequirement(lines: seq<string>) returns (requirement: string)
    ensures requirement == RequirementOf(lines)
  {
    var reqIdx := FindRequirementLine(lines);
    requirement := "";
    if reqIdx < |lines| {
      var reqLines := LinesUntilSection(lines, reqIdx + 1);
      requirement := Trim(Join(reqLines, "\n"));
    }
    if requirement == NO_REQUIREMENT {
      requirement := "";
    }
  }

  lemma DocsFromNext(all: seq<Doc>, docs: seq<Doc>, lines: seq<string>, i: nat,
                     provenance: Option<string>, text: seq<string>)
    requires i < |lines| && all == docs + DocsFrom(lines[i..], provenance, text)
    ensures var m := ProvenanceOf(Trim(lines[i]));
            if m.Some? then all == docs + Flushed(provenance, text) + DocsFrom(lines[i + 1..], m, [])
            else all == docs + DocsFrom(lines[i + 1..], provenance, if provenance.Some? then text + [lines[i]] else text)
  {
    assert lines[i..][0] == lines[i] && lines[i..][1..] == lines[i + 1..];
    var m := ProvenanceOf(Trim(lines[i]));
    if m.Some? {
      Regrouped(docs, Flushed(provenance, text), DocsFrom(lines[i + 1..], m, []));
    }
  }

  method ReadDocs(lines: seq<string>) returns (docs: seq<Doc>)
    ensures docs == DocsFrom(lines, None, [])
  {
    docs := [];
    ghost var all := DocsFrom(lines, None, []);
    var currentProvenance: Option<string> := None;
    var currentText: seq<string> := [];
    assert lines[0..] == lines;
    for i := 0 to |lines|
      invariant all == docs + DocsFrom(lines[i..], currentProvenance, currentText)
    {
      DocsFromNext(all, docs, lines, i, currentProvenance, currentText);
      var m := ProvenanceOf(Trim(lines[i]));
      if m.Some? {
        docs := docs + Flushed(currentProvenance, currentText);
        currentProvenance, currentText := m, [];
      } else if currentProvenance.Some? {
        currentText := currentText + [lines[i]];
      }
    }
    assert lines[|lines|..] == [];
    docs := docs + Flushed(currentProvenance, currentText);
  }

  lemma ScanBuildSnoc(b: BuildScan, lines: seq<string>, line: string)
    ensures ScanBuildLines(b, lines + [line]) == ScanBuildLine(ScanBuildLines(b, lines), line)
  {
    ScanBuildConcat(b, lines, [line]);
    ScanOne(ScanBuildLines(b, lines), line);
  }

  /** The loop over one build's lines. */
  method ReadBuildLines(lines: seq<string>) returns (b: BuildScan)
    ensures b == ScanBuildLines(EMPTY_BUILD, lines)
  {
    var startedAt, finishedAt, exitCode, model := "", None, None, None;
    var elapsedMs, transcriptPath, filesTouched, summaryLines, pastFields := None, None, [], [], false;
    for i := 0 to |lines|
      invariant BuildScan(startedAt, finishedAt, exitCode, model, elapsedMs, transcriptPath, filesTouched, summaryLines,
                          pastFields) == ScanBuildLines(EMPTY_BUILD, lines[..i])
    {
      var raw := lines[i];
      assert lines[..i + 1] == lines[..i] + [raw];
      ScanBuildSnoc(EMPTY_BUILD, lines[..i], raw);
      var line := Trim(raw);
      var prose := pastFields;
      if !pastFields {
        if TextField(line, "started").Some? {
          startedAt := TextField(line, "started").value;
        } else if TextField(line, "finished").Some? {
          finishedAt := TextField(line, "finished");
        } else if IntField(line, "exit code").Some? {
          exitCode := IntField(line, "exit code");
        } else if TextField(line, "model").Some? {
          model := TextField(line, "model");
        } else if IntField(line, "elapsed").Some? {
          elapsedMs := IntField(line, "elapsed");
        } else if TextField(line, "transcript").Some? {
          transcriptPath := TextField(line, "transcript");
        } else if TextField(line, "files touched").Some? {
          filesTouched := filesTouched + FilesOf(TextField(line, "files touched").value);
          pastFields := true;
        } else if line != "" {
          prose := true;
        }
      }
      if prose && (line != "" || |summaryLines| > 0) {
        summaryLines := summaryLines + [raw];
      }
    }
    assert lines[..|lines|] == lines;
    b := BuildScan(startedAt, finishedAt, exitCode, model, elapsedMs, transcriptPath, filesTouched, summaryLines, pastFields);
  }

  method PopBlankLines(lines: seq<string>) returns (out: seq<string>)
    ensures out == WithoutTrailingBlanks(lines)
    ensures WithoutTrailingBlanks(out) == out
  {
    out := lines;
    while |out| > 0 && IsBlank(out[|out| - 1])
      invariant WithoutTrailingBlanks(out) == WithoutTrailingBlanks(lines)
      decreases |out|
    {
      out := out[..|out| - 1];
    }
  }

  method ReadBuild(heading: string, lines: seq<string>) returns (builds: seq<BuildRecord>)
    ensures builds == BuildIn(heading, lines)
  {
    var m := BuildIdOf(heading);
    if m.None? {
      return [];
    }
    var b := ReadBuildLines(lines);
    var summaryLines := PopBlankLines(b.summaryLines);
    builds := [BuildOf(m.value, b.(summaryLines := summaryLines))];
  }

  lemma BuildsFrom(sections: Sections, i: nat)
    requires i < |sections|
    ensures BuildsOf(sections[i..]) == BuildIn(sections[i].0, sections[i].1) + BuildsOf(sections[i + 1..])
  {
    assert sections[i..][0] == sections[i] && sections[i..][1..] == sections[i + 1..];
  }

  method ReadBuildLog(sections: Sections) returns (builds: seq<BuildRecord>)
    ensures builds == BuildsOf(sections)
  {
    builds := [];
    for i := 0 to |sections|
      invariant BuildsOf(sections) == builds + BuildsOf(sections[i..])
    {
      BuildsFrom(sections, i);
      var found := ReadBuild(sections[i].0, sections[i].1);
      builds := builds + found;
    }
  }

  method ParsePrompt(markdown: string) returns (r: Result<Prompt, ParseError>)
    ensures r == Parsed(markdown)
  {
    var text := ReplaceAll(markdown, "\r\n", "\n");
    var fmMatch := SplitFrontmatter(text);
    if fmMatch.None? {
      return Failure(NoFrontmatter);
    }
    var (fmBlock, body) := fmMatch.value;
    var fm := ReadFields(fmBlock);
    var lines := Split(body, '\n');
    var sections := ReadSections(lines);
    var requirement := ReadRequirement(lines);
    var acceptance := AcceptanceOf(GetSection(sections, "Acceptance"));
    var docs := ReadDocs(GetSection(sections, "Docs"));
    var context := ContextOf(sections).(docs := docs);
    var builds := ReadBuildLog(sections);

    var id := Unquote(Lookup(fm, "id"));
    var state := StateOf(Unquote(Lookup(fm, "state")));
    var scrappedFromRaw := Unquote(Lookup(fm, "scrappedFrom"));
    var scrappedFrom := if scrappedFromRaw == "" then None else StateOf(scrappedFromRaw);
    if ParseInt(Lookup(fm, "jigFormat")) != Some(JIG_FORMAT) || !IsPromptId(id) || state.None?
       || (scrappedFromRaw != "" && scrappedFrom.None?) {
      return Failure(SchemaRejected);
    }
    r := Success(Prompt(id, Unquote(Lookup(fm, "slug")), state.value, Lookup(fm, "target"),
                        Unquote(Lookup(fm, "createdAt")), Unquote(Lookup(fm, "updatedAt")), scrappedFrom,
                        requirement, acceptance, context, builds));
  }
}
