/**
 Which build records and documents a prompt file can hold. Whatever lines a section has, what is
 read from them is well formed up to an empty start; a record comes back from its own lines exactly
 when it is well formed and its start is not empty, since an empty one is read as prose. Documents
 come back exactly when no line of a text reads as the provenance of another.
 */
module PromptExact {
  import opened Wrappers
  import opened Strings
  import opened PromptFile
  import opened PromptSections
  import opened PromptBuilds
  import opened PromptBody

  // ---- what any lines give ----------------------------------------------------------------

  lemma {:induction false} TrimLeftEnd(s: string)
    requires TrimLeft(s) != ""
    ensures s != "" && TrimLeft(s)[|TrimLeft(s)| - 1] == s[|s| - 1]
  {
    if IsSpace(s[0]) {
      TrimLeftEnd(s[1..]);
    }
  }

  lemma TextFieldGood(line: string, name: string)
    requires Trimmed(line)
    ensures OptionalGood(TextField(line, name))
  {
    if TextField(line, name).Some? {
      var t := TrimLeft(line[1..]);
      TrimLeftEnd(t[|name| + 1..]);
      TrimLeftEnd(line[1..]);
    }
  }

  lemma {:induction false} PiecesOneLine(s: string, c: char)
    requires OneLine(s)
    ensures forall p :: p in Split(s, c) ==> OneLine(p)
  {
    if s != "" {
      PiecesOneLine(s[1..], c);
      var rest := Split(s[1..], c);
      assert rest[0] in rest;
    }
  }

  lemma {:induction false} TrimmedOneLine(parts: seq<string>)
    requires forall p :: p in parts ==> OneLine(p)
    ensures forall f :: f in NonEmptyTrimmed(parts) ==> OneLine(f)
  {
    if parts != [] {
      assert parts[0] in parts;
      TrimOneLine(parts[0]);
      TrimmedOneLine(parts[1..]);
    }
  }

  lemma FilesOfGood(text: string)
    requires OneLine(text)
    ensures GoodFiles(FilesOf(text))
  {
    SplitPieces(text, ',');
    ReadFilesAreGood(Split(text, ','));
    PiecesOneLine(text, ',');
    TrimmedOneLine(Split(text, ','));
  }

  /** What is gathered is well formed at every line. */
  predicate WellRead(b: BuildScan) {
    && (b.startedAt == "" || FieldText(b.startedAt))
    && OptionalGood(b.finishedAt) && OptionalGood(b.model) && OptionalGood(b.transcriptPath)
    && GoodFiles(b.filesTouched)
    && (b.summaryLines != [] ==> !IsBlank(b.summaryLines[0]))
  }

  lemma ProseWellRead(b: BuildScan, raw: string)
    requires WellRead(b)
    ensures WellRead(ScanProse(b, raw))
  {
    BlankIff(raw);
  }

  lemma FilesWellRead(b: BuildScan, line: string, name: string)
    requires WellRead(b) && Trimmed(line) && TextField(line, name).Some?
    ensures WellRead(b.(filesTouched := b.filesTouched + FilesOf(TextField(line, name).value), pastFields := true))
  {
    TextFieldGood(line, name);
    FilesOfGood(TextField(line, name).value);
  }

  lemma FieldsWellRead(b: BuildScan, line: string, name: string)
    requires WellRead(b) && Trimmed(line) && TextField(line, name).Some?
    ensures var v := TextField(line, name);
      WellRead(b.(startedAt := v.value)) && WellRead(b.(finishedAt := v)) && WellRead(b.(model := v))
      && WellRead(b.(transcriptPath := v))
  {
    TextFieldGood(line, name);
  }

  lemma LineWellRead(b: BuildScan, raw: string)
    requires WellRead(b)
    ensures WellRead(ScanBuildLine(b, raw))
  {
    var line := Trim(raw);
    ProseWellRead(b, raw);
    if b.pastFields {
    } else if TextField(line, "started").Some? {
      FieldsWellRead(b, line, "started");
    } else if TextField(line, "finished").Some? {
      FieldsWellRead(b, line, "finished");
    } else if IntField(line, "exit code").Some? {
    } else if TextField(line, "model").Some? {
      FieldsWellRead(b, line, "model");
    } else if IntField(line, "elapsed").Some? {
    } else if TextField(line, "transcript").Some? {
      FieldsWellRead(b, line, "transcript");
    } else if TextField(line, "files touched").Some? {
      FilesWellRead(b, line, "files touched");
    }
  }

  lemma {:induction false} LinesWellRead(b: BuildScan, lines: seq<string>)
    requires WellRead(b)
    ensures WellRead(ScanBuildLines(b, lines))
    decreases |lines|
  {
    if lines != [] {
      LineWellRead(b, lines[0]);
      LinesWellRead(ScanBuildLine(b, lines[0]), lines[1..]);
    }
  }

  lemma {:induction false} FirstLineStays(lines: seq<string>)
    requires lines != [] && !IsBlank(lines[0])
    ensures WithoutTrailingBlanks(lines) != [] && WithoutTrailingBlanks(lines)[0] == lines[0]
  {
    if IsBlank(lines[|lines| - 1]) {
      FirstLineStays(lines[..|lines| - 1]);
    }
  }

  lemma SummaryNotEmpty(lines: seq<string>)
    requires lines != [] && !IsBlank(lines[0])
    ensures WithoutTrailingBlanks(lines) != [] && Trim(Join(WithoutTrailingBlanks(lines), "\n")) != ""
  {
    FirstLineStays(lines);
    JoinNotBlank(WithoutTrailingBlanks(lines), "\n");
    BlankIff(Join(WithoutTrailingBlanks(lines), "\n"));
  }

  /** Whatever the lines, only an empty start and the placeholder among the files can keep the
      record that is read from them from being readable again. */
  lemma ReadIsGood(id: string, lines: seq<string>)
    ensures var r := BuildOf(id, ScanBuildLines(EMPTY_BUILD, lines));
      GoodParts(r) && (r.startedAt == "" || FieldText(r.startedAt))
  {
    LinesWellRead(EMPTY_BUILD, lines);
    var b := ScanBuildLines(EMPTY_BUILD, lines);
    if b.summaryLines != [] {
      SummaryNotEmpty(b.summaryLines);
    }
  }

  // ---- an empty start ---------------------------------------------------------------------

  /** A field line without a value. */
  lemma EmptyFieldRead(name: string, other: string)
    requires FieldName(name) && FieldName(other)
    ensures var line := Trim(FieldLineOf(name, ""));
      line != "" && TextField(line, other) == None && IntField(line, other) == None
  {
    var line := "- " + (name + ":");
    assert FieldLineOf(name, "") == "" + line + " ";
    assert Trimmed(line);
    TrimPadded("", line, " ");
    assert line[1..] == " " + (name + ":");
    TrimLeftPadded(" ", name + ":");
    if StartsWith(name + ":", other + ":") {
      assert name + ":" + "" == name + ":";
      NamesClash(name, other, "");
    }
  }

  lemma EmptyStart(b: BuildScan)
    requires !b.pastFields && b.summaryLines == []
    ensures ScanBuildLine(b, FieldLineOf("started", "")) == b.(summaryLines := [FieldLineOf("started", "")])
  {
    Names();
    EmptyFieldRead("started", "started");
    EmptyFieldRead("started", "finished");
    EmptyFieldRead("started", "exit code");
    EmptyFieldRead("started", "model");
    EmptyFieldRead("started", "elapsed");
    EmptyFieldRead("started", "transcript");
    EmptyFieldRead("started", "files touched");
    assert [] + [FieldLineOf("started", "")] == [FieldLineOf("started", "")];
  }

  lemma JoinedBehind(line: string, s: string)
    ensures Join([line, ""] + Split(s, '\n'), "\n") == line + ("\n\n" + s)
  {
    JoinConcat([line, ""], Split(s, '\n'), "\n");
    JoinSplit(s, '\n');
    JoinConcat([line], [""], "\n");
    assert [line] + [""] == [line, ""];
  }

  lemma TrimmedBehind(line: string, middle: string, s: string)
    requires line != "" && !IsSpace(line[0]) && s != "" && Trimmed(s)
    ensures |Trim(line + (middle + s))| > |s|
  {
    var joined := line + (middle + s);
    assert joined[0] == line[0] && joined[|joined| - 1] == s[|s| - 1];
    TrimTrimmed(joined);
  }

  lemma LinesBehind(line: string, s: string)
    requires s != "" && Trimmed(s)
    ensures WithoutTrailingBlanks([line, ""] + Split(s, '\n') + [""]) == [line, ""] + Split(s, '\n')
  {
    LastLineNotBlank(s);
    TrailingBlankOff([line, ""] + Split(s, '\n'));
  }

  lemma LineInFront(line: string, lines: seq<string>)
    ensures [line] + ([""] + lines + [""]) == [line, ""] + lines + [""]
  {
  }

  lemma TextGrows(line: string, s: string)
    requires line != "" && !IsSpace(line[0]) && s != "" && Trimmed(s)
    ensures |Trim(Join(WithoutTrailingBlanks([line] + ([""] + Split(s, '\n') + [""])), "\n"))| > |s|
  {
    LineInFront(line, Split(s, '\n'));
    LinesBehind(line, s);
    JoinedBehind(line, s);
    TrimmedBehind(line, "\n\n", s);
  }

  /** A line in front of a summary becomes part of it. */
  lemma SummaryGrows(line: string, record: BuildRecord)
    requires line != "" && !IsSpace(line[0])
    requires record.summary.Some? ==> record.summary.value != "" && Trimmed(record.summary.value)
    ensures var lines := WithoutTrailingBlanks([line] + SummaryLines(record));
      lines != [] && Some(Trim(Join(lines, "\n"))) != record.summary
  {
    SummaryNotEmpty([line] + SummaryLines(record));
    if record.summary.Some? {
      TextGrows(line, record.summary.value);
    }
  }

  /** A record with an empty start is read with that line in its summary. */
  lemma StartLost(record: BuildRecord)
    requires record.startedAt == "" && GoodParts(record)
    ensures BuildOf(record.id, ScanBuildLines(EMPTY_BUILD, BuildContent(record))).summary != record.summary
  {
    var line := FieldLineOf("started", "");
    var b := EMPTY_BUILD.(summaryLines := [line]);
    EmptyStart(EMPTY_BUILD);
    ContentScanned(record, b);
    ProseKept(AfterFields(b, record), SummaryLines(record));
    SummaryGrows(line, record);
  }

  // ---- the exact condition ----------------------------------------------------------------

  /** The lines of a record's section, of any record. */
  function ContentLines(b: BuildRecord): seq<string> {
    [""] + LinesOf(BuildFields(b) + (SummaryTexts(b) + [""]))
  }

  lemma ContentLinesOf(b: BuildRecord)
    requires OneLine(b.startedAt) && GoodParts(b)
    ensures ContentLines(b) == BuildContent(b)
  {
    LinesOfConcat(BuildFields(b), SummaryTexts(b) + [""]);
    BuildFieldsPlain(b);
    LinesOfLines(BuildFields(b));
    SummaryTextLines(b);
  }

  lemma PlaceholderLost(record: BuildRecord)
    requires FieldText(record.startedAt) && GoodParts(record) && record.filesTouched == [NO_FILES]
    ensures BuildOf(record.id, ScanBuildLines(EMPTY_BUILD, BuildContent(record))).filesTouched != record.filesTouched
  {
    var b := EMPTY_BUILD.(startedAt := record.startedAt);
    ReadStarted(EMPTY_BUILD, record.startedAt);
    ContentScanned(record, b);
    FilesExact(record.filesTouched);
    SummaryRead(AfterFields(b, record), record);
  }

  /** A record comes back from its own lines if and only if it is readable: its start and its
      written strings are trimmed, non-empty and on one line, and its files are not just the
      placeholder. */
  lemma BuildExact(record: BuildRecord)
    ensures BuildOf(record.id, ScanBuildLines(EMPTY_BUILD, ContentLines(record))) == record <==> ReadableBuild(record)
  {
    ReadIsGood(record.id, ContentLines(record));
    if GoodParts(record) && (record.startedAt == "" || FieldText(record.startedAt)) {
      ContentLinesOf(record);
      if record.startedAt == "" {
        StartLost(record);
      } else if record.filesTouched == [NO_FILES] {
        PlaceholderLost(record);
      } else {
        BuildRead(record);
      }
    }
  }

  /** What was read from any lines, hand-edited ones included, is read again after a write if and
      only if its start was there and its files are not just the placeholder. */
  lemma SecondReadExact(id: string, lines: seq<string>)
    ensures var r := BuildOf(id, ScanBuildLines(EMPTY_BUILD, lines));
      BuildOf(id, ScanBuildLines(EMPTY_BUILD, ContentLines(r))) == r <==>
      r.startedAt != "" && r.filesTouched != [NO_FILES]
  {
    ReadIsGood(id, lines);
    BuildExact(BuildOf(id, ScanBuildLines(EMPTY_BUILD, lines)));
  }

  /** A section without a start is such a one. */
  lemma UnstartedSection(id: string)
    ensures var r := BuildOf(id, ScanBuildLines(EMPTY_BUILD, [""]));
      BuildOf(id, ScanBuildLines(EMPTY_BUILD, ContentLines(r))) != r
  {
    SecondReadExact(id, [""]);
    BlankIgnored(EMPTY_BUILD);
    ScanOne(EMPTY_BUILD, "");
  }

  // ---- the documents ----------------------------------------------------------------------

  lemma {:induction false} LastOnLineGood(s: string)
    ensures LastOnLine(s).Some? ==> OneLine(LastOnLine(s).value) && LastOnLine(s).value != ""
  {
    if s != "" && IsLineTerminator(s[|s| - 1]) {
      LastOnLineGood(s[..|s| - 1]);
    }
  }

  predicate NamedOnOneLine(provenance: Option<string>) {
    provenance.Some? ==> OneLine(provenance.value)
  }

  lemma ProvenanceOnOneLine(line: string)
    ensures NamedOnOneLine(ProvenanceOf(line))
  {
    if |line| >= 7 {
      LastOnLineGood(line[3..|line| - 3]);
    }
  }

  /** Whatever the lines, the provenance of a doc is one line and its text is trimmed. */
  lemma {:induction false} DocsWellRead(lines: seq<string>, provenance: Option<string>, text: seq<string>)
    requires NamedOnOneLine(provenance)
    ensures forall d :: d in DocsFrom(lines, provenance, text) ==> OneLine(d.provenance) && Trimmed(d.text)
    decreases |lines|
  {
    if lines != [] {
      var next := ProvenanceOf(Trim(lines[0]));
      ProvenanceOnOneLine(Trim(lines[0]));
      if next.Some? {
        DocsWellRead(lines[1..], next, []);
      } else {
        DocsWellRead(lines[1..], provenance, if provenance.Some? then text + [lines[0]] else text);
      }
    }
  }

  /** How many lines start a doc. */
  function Starts(lines: seq<string>): nat {
    if lines == [] then 0
    else (if ProvenanceOf(Trim(lines[0])).Some? then 1 else 0) + Starts(lines[1..])
  }

  lemma {:induction false} DocsCounted(lines: seq<string>, provenance: Option<string>, text: seq<string>)
    ensures |DocsFrom(lines, provenance, text)| == (if provenance.Some? then 1 else 0) + Starts(lines)
    decreases |lines|
  {
    if lines != [] {
      var next := ProvenanceOf(Trim(lines[0]));
      if next.Some? {
        DocsCounted(lines[1..], next, []);
      } else {
        DocsCounted(lines[1..], provenance, if provenance.Some? then text + [lines[0]] else text);
      }
    }
  }

  lemma {:induction false} StartsAdd(first: seq<string>, second: seq<string>)
    ensures Starts(first + second) == Starts(first) + Starts(second)
  {
    if first == [] {
      assert first + second == second;
    } else {
      assert (first + second)[1..] == first[1..] + second;
      StartsAdd(first[1..], second);
    }
  }

  lemma {:induction false} NoStarts(lines: seq<string>)
    requires Starts(lines) == 0
    ensures NoProvenance(lines)
  {
    if lines != [] {
      NoStarts(lines[1..]);
      assert forall i :: 0 < i < |lines| ==> lines[i] == lines[1..][i - 1];
    }
  }

  lemma OneStart(line: string)
    ensures Starts([line]) == if ProvenanceOf(Trim(line)).Some? then 1 else 0
  {
    assert [line][1..] == [];
  }

  /** Every doc starts once with its own line, and again with each such line of its text. */
  lemma {:induction false} StartsOfDocs(docs: seq<Doc>)
    requires forall d :: d in docs ==> OneLine(d.provenance)
    ensures Starts(DocLines(docs)) >= |docs|
    ensures Starts(DocLines(docs)) == |docs| ==> forall d :: d in docs ==> NoProvenance(Split(d.text, '\n'))
  {
    if docs != [] {
      var d := docs[0];
      assert d in docs;
      var title, lines := "--- " + d.provenance + " ---", Split(d.text, '\n');
      StartsAdd([title] + DocContent(d), DocLines(docs[1..]));
      StartsAdd([title], DocContent(d));
      StartsAdd(lines, [""]);
      OneStart(title);
      ProvenanceRead(d.provenance);
      StartsOfDocs(docs[1..]);
      if Starts(lines) == 0 {
        NoStarts(lines);
      }
    }
  }

  /** The lines of the docs section, of any docs. */
  function DocsSection(docs: seq<Doc>): seq<string> {
    [""] + LinesOf(DocTexts(docs))
  }

  lemma GivenBackAreSingle(docs: seq<Doc>)
    requires DocsFrom(DocsSection(docs), None, []) == docs
    ensures forall d :: d in docs ==> OneDoc(d)
  {
    DocsWellRead(DocsSection(docs), None, []);
    DocTextLines(docs);
    DocsCounted(DocsSection(docs), None, []);
    StartsAdd([""], DocLines(docs));
    OneStart("");
    NoProvenanceInBlank();
    StartsOfDocs(docs);
  }

  /** Document excerpts come back from their own lines if and only if every provenance is trimmed,
      not empty and on one line (or a single blank), every text is trimmed, and no line of a text
      reads as a provenance line, as one of seven dashes does. */
  lemma DocsExact(docs: seq<Doc>)
    ensures DocsFrom(DocsSection(docs), None, []) == docs <==> forall d :: d in docs ==> ReadableDoc(d)
  {
    if DocsFrom(DocsSection(docs), None, []) == docs {
      GivenBackAreSingle(docs);
    }
    if forall d :: d in docs ==> OneDoc(d) {
      DocTextLines(docs);
      DocsReadAs(docs);
      AllAsRead(docs);
    }
  }

  /** A rule of dashes, and the second line of a table, start a doc. */
  lemma RulesAreRead()
    ensures ProvenanceOf("-------") == Some("-") && ProvenanceOf("--- | ---") == Some("|")
  {
    ProvenanceIs("-------", "-", "-");
    ProvenanceIs("--- | ---", " | ", "|");
  }

  lemma ProvenanceIs(line: string, inner: string, name: string)
    requires line == "---" + inner + "---" && Trim(inner) == name && name != "" && OneLine(name)
    ensures ProvenanceOf(line) == Some(name)
  {
    assert line[3..|line| - 3] == inner && line[|line| - 3..] == "---";
  }
}
