/** The build log of a prompt file: parseBuildLog undoes buildLogLines. */
module PromptBuilds {
  import opened Wrappers
  import opened Strings
  import opened PromptFile
  import opened PromptSections

  // ---- one field line ---------------------------------------------------------------------

  /** A value that a field line can hold. */
  predicate FieldText(v: string) {
    v != "" && Trimmed(v) && OneLine(v)
  }

  predicate FieldName(name: string) {
    name != "" && ':' !in name && !IsSpace(name[0])
  }

  /** Two names without a colon cannot both head one line. */
  lemma NamesClash(name: string, other: string, rest: string)
    requires ':' !in name && ':' !in other && StartsWith(name + ":" + rest, other + ":")
    ensures name == other
  {
    var line := name + ":" + rest;
    assert line == name + [':'] + rest;
    assert line == other + [':'] + line[|other| + 1..] by {
      assert line[..|other| + 1] == other + ":";
    }
    IndexOfFirst(name, ':', rest);
    IndexOfFirst(other, ':', line[|other| + 1..]);
    assert name == line[..|name|] && other == line[..|other|];
  }

  lemma LineParts(name: string, v: string)
    requires FieldName(name) && v != "" && Trimmed(v)
    ensures var line := FieldLineOf(name, v);
      && Trim(line) == line
      && StartsWith(line, "-")
      && TrimLeft(line[1..]) == name + ":" + (" " + v)
  {
    var line := FieldLineOf(name, v);
    assert line[0] == '-' && line[|line| - 1] == v[|v| - 1];
    TrimTrimmed(line);
    var rest := name + ":" + (" " + v);
    assert line[1..] == " " + rest;
    assert rest[0] == name[0];
    TrimLeftPadded(" ", rest);
  }

  /** A field line gives its value to its own field and to no other. */
  lemma FieldRead(name: string, v: string, other: string)
    requires FieldName(name) && FieldName(other) && v != "" && Trimmed(v)
    ensures FieldRest(FieldLineOf(name, v), other) == if name == other then Some(v) else None
  {
    LineParts(name, v);
    var t := name + ":" + (" " + v);
    if StartsWith(t, other + ":") {
      NamesClash(name, other, " " + v);
    }
    if name == other {
      assert t[..|name| + 1] == name + ":";
      assert t[|name| + 1..] == " " + v;
      TrimLeftPadded(" ", v);
    }
  }

  lemma TextRead(name: string, v: string, other: string)
    requires FieldName(name) && FieldName(other) && FieldText(v)
    ensures Trim(FieldLineOf(name, v)) == FieldLineOf(name, v)
    ensures TextField(FieldLineOf(name, v), other) == if name == other then Some(v) else None
    ensures name != other ==> IntField(FieldLineOf(name, v), other) == None
  {
    LineParts(name, v);
    FieldRead(name, v, other);
  }

  lemma IntTextGood(n: int)
    ensures FieldText(IntText(n))
  {
    if n < 0 {
      assert IntText(n)[0] == '-';
    }
  }

  lemma IntRead(name: string, n: int)
    requires FieldName(name)
    ensures IntField(FieldLineOf(name, IntText(n)), name) == Some(n)
  {
    IntTextGood(n);
    FieldRead(name, IntText(n), name);
    IntRoundTrip(n);
  }

  // ---- the names --------------------------------------------------------------------------

  lemma Names()
    ensures FieldName("started") && FieldName("finished") && FieldName("exit code") && FieldName("model")
    ensures FieldName("elapsed") && FieldName("transcript") && FieldName("files touched")
  {
  }

  lemma NamesDiffer()
    ensures "started" != "finished" && "started" != "exit code" && "started" != "model" && "started" != "elapsed"
    ensures "started" != "transcript" && "started" != "files touched"
    ensures "finished" != "exit code" && "finished" != "model" && "finished" != "elapsed"
    ensures "finished" != "transcript" && "finished" != "files touched"
    ensures "exit code" != "model" && "exit code" != "elapsed" && "exit code" != "transcript" && "exit code" != "files touched"
    ensures "model" != "elapsed" && "model" != "transcript" && "model" != "files touched"
    ensures "elapsed" != "transcript" && "elapsed" != "files touched" && "transcript" != "files touched"
  {
    assert "started"[0] == 's' && "elapsed"[0] == 'e';
  }

  // ---- one line of a build ----------------------------------------------------------------

  lemma ReadStarted(b: BuildScan, v: string)
    requires FieldText(v) && !b.pastFields
    ensures ScanBuildLine(b, FieldLineOf("started", v)) == b.(startedAt := v)
  {
    Names();
    TextRead("started", v, "started");
  }

  lemma ReadFinished(b: BuildScan, v: string)
    requires FieldText(v) && !b.pastFields
    ensures ScanBuildLine(b, FieldLineOf("finished", v)) == b.(finishedAt := Some(v))
  {
    Names();
    NamesDiffer();
    TextRead("finished", v, "started");
    TextRead("finished", v, "finished");
  }

  lemma ReadExitCode(b: BuildScan, n: int)
    requires !b.pastFields
    ensures ScanBuildLine(b, FieldLineOf("exit code", IntText(n))) == b.(exitCode := Some(n))
  {
    Names();
    NamesDiffer();
    IntTextGood(n);
    TextRead("exit code", IntText(n), "started");
    TextRead("exit code", IntText(n), "finished");
    IntRead("exit code", n);
  }

  lemma ReadModel(b: BuildScan, v: string)
    requires FieldText(v) && !b.pastFields
    ensures ScanBuildLine(b, FieldLineOf("model", v)) == b.(model := Some(v))
  {
    Names();
    NamesDiffer();
    TextRead("model", v, "started");
    TextRead("model", v, "finished");
    TextRead("model", v, "exit code");
    TextRead("model", v, "model");
  }

  lemma ReadElapsed(b: BuildScan, n: int)
    requires !b.pastFields
    ensures ScanBuildLine(b, FieldLineOf("elapsed", IntText(n))) == b.(elapsedMs := Some(n))
  {
    Names();
    NamesDiffer();
    IntTextGood(n);
    TextRead("elapsed", IntText(n), "started");
    TextRead("elapsed", IntText(n), "finished");
    TextRead("elapsed", IntText(n), "exit code");
    TextRead("elapsed", IntText(n), "model");
    IntRead("elapsed", n);
  }

  lemma ReadTranscript(b: BuildScan, v: string)
    requires FieldText(v) && !b.pastFields
    ensures ScanBuildLine(b, FieldLineOf("transcript", v)) == b.(transcriptPath := Some(v))
  {
    Names();
    NamesDiffer();
    TextRead("transcript", v, "started");
    TextRead("transcript", v, "finished");
    TextRead("transcript", v, "exit code");
    TextRead("transcript", v, "model");
    TextRead("transcript", v, "elapsed");
    TextRead("transcript", v, "transcript");
  }

  lemma ReadFiles(b: BuildScan, v: string)
    requires FieldText(v) && !b.pastFields
    ensures ScanBuildLine(b, FieldLineOf("files touched", v))
         == b.(filesTouched := b.filesTouched + FilesOf(v), pastFields := true)
  {
    Names();
    NamesDiffer();
    TextRead("files touched", v, "started");
    TextRead("files touched", v, "finished");
    TextRead("files touched", v, "exit code");
    TextRead("files touched", v, "model");
    TextRead("files touched", v, "elapsed");
    TextRead("files touched", v, "transcript");
    TextRead("files touched", v, "files touched");
  }

  // ---- files touched ----------------------------------------------------------------------

  /** A path that the comma-separated list can hold. */
  predicate GoodFile(f: string) {
    f != "" && Trimmed(f) && ',' !in f
  }

  predicate GoodFiles(files: seq<string>) {
    forall f :: f in files ==> GoodFile(f) && OneLine(f)
  }

  /** One piece of the list, behind its white space. */
  lemma OneFile(gap: string, f: string, rest: seq<string>)
    requires AllSpace(gap) && GoodFile(f)
    ensures NonEmptyTrimmed([gap + f] + rest) == [f] + NonEmptyTrimmed(rest)
  {
    TrimPadded(gap, f, "");
    assert gap + f + "" == gap + f;
    assert ([gap + f] + rest)[1..] == rest;
  }

  lemma SplitOffFile(gap: string, f: string, more: string)
    requires ',' !in gap && ',' !in f
    ensures Split(gap + f, ',') == [gap + f]
    ensures Split(gap + f + [','] + more, ',') == [gap + f] + Split(more, ',')
  {
    SplitNone(gap + f, ',');
    SplitConcat(gap + f, ',', more);
  }

  lemma JoinedFiles(gap: string, files: seq<string>)
    requires |files| > 1
    ensures gap + Join(files, ", ") == gap + files[0] + [','] + (" " + Join(files[1..], ", "))
  {
  }

  lemma {:induction false} FilesSplit(gap: string, files: seq<string>)
    requires AllSpace(gap) && files != [] && forall f :: f in files ==> GoodFile(f)
    requires ',' !in gap
    ensures NonEmptyTrimmed(Split(gap + Join(files, ", "), ',')) == files
    decreases |files|
  {
    var f := files[0];
    assert f in files;
    assert [f] + files[1..] == files;
    if |files| == 1 {
      SplitOffFile(gap, f, "");
      OneFile(gap, f, []);
      assert [gap + f] + [] == [gap + f];
    } else {
      var more := " " + Join(files[1..], ", ");
      JoinedFiles(gap, files);
      SplitOffFile(gap, f, more);
      OneFile(gap, f, Split(more, ','));
      FilesSplit(" ", files[1..]);
    }
  }

  lemma NotNone(files: seq<string>)
    requires files != [NO_FILES] && files != []
    ensures Join(files, ", ") != NO_FILES
  {
    if |files| > 1 {
      var joined := Join(files, ", ");
      assert joined == files[0] + ", " + Join(files[1..], ", ");
      assert joined[|files[0]|] == ',' && ',' !in NO_FILES;
    } else {
      assert files == [files[0]];
    }
  }

  lemma {:induction false} ReadFilesAreGood(parts: seq<string>)
    requires forall part :: part in parts ==> ',' !in part
    ensures forall f :: f in NonEmptyTrimmed(parts) ==> GoodFile(f)
  {
    if parts != [] {
      TrimKeepsOut(parts[0], ',');
      assert parts[0] in parts;
      ReadFilesAreGood(parts[1..]);
    }
  }

  /** The list of files touched comes back as the same list if and only if every path is
      non-empty, trimmed and comma-free, and the list is not the placeholder alone. */
  lemma FilesExact(files: seq<string>)
    ensures FilesOf(FilesText(files)) == files <==>
      files != [NO_FILES] && forall f :: f in files ==> GoodFile(f)
  {
    var text := FilesText(files);
    if files == [NO_FILES] {
      assert text == NO_FILES;
    } else if files != [] {
      NotNone(files);
      SplitPieces(text, ',');
      ReadFilesAreGood(Split(text, ','));
      if forall f :: f in files ==> GoodFile(f) {
        FilesSplit("", files);
        assert "" + text == text;
      }
    }
  }

  lemma {:induction false} JoinedFieldText(files: seq<string>)
    requires files != [] && forall f :: f in files ==> FieldText(f)
    ensures FieldText(Join(files, ", "))
  {
    assert files[0] in files;
    if |files| > 1 {
      JoinedFieldText(files[1..]);
    }
  }

  lemma FilesTextGood(files: seq<string>)
    requires GoodFiles(files)
    ensures FieldText(FilesText(files))
  {
    if files != [] {
      JoinedFieldText(files);
    }
  }

  // ---- the summary ------------------------------------------------------------------------

  lemma FirstLineNotBlank(s: string)
    requires s != "" && !IsSpace(s[0])
    ensures !IsBlank(Split(s, '\n')[0])
  {
    var first := Split(s, '\n')[0];
    assert first[0] == s[0];
    BlankIff(first);
  }

  lemma {:induction false} LastLineNotBlank(s: string)
    requires s != "" && !IsSpace(s[|s| - 1])
    ensures var lines := Split(s, '\n'); !IsBlank(lines[|lines| - 1])
  {
    var rest := Split(s[1..], '\n');
    if |s| == 1 {
      assert s[1..] == "";
      FirstLineNotBlank(s);
    } else {
      LastLineNotBlank(s[1..]);
      if s[0] != '\n' && |rest| == 1 {
        var line := [s[0]] + rest[0];
        BlankIff(rest[0]);
        BlankIff(line);
        var i :| 0 <= i < |rest[0]| && !IsSpace(rest[0][i]);
        assert line[i + 1] == rest[0][i];
      }
    }
  }

  lemma {:induction false} ProseKept(b: BuildScan, lines: seq<string>)
    requires b.pastFields && b.summaryLines != []
    ensures ScanBuildLines(b, lines) == b.(summaryLines := b.summaryLines + lines)
    decreases |lines|
  {
    if lines == [] {
      assert b.summaryLines + lines == b.summaryLines;
    } else {
      var b' := b.(summaryLines := b.summaryLines + [lines[0]]);
      ProseKept(b', lines[1..]);
      assert b'.summaryLines + lines[1..] == b.summaryLines + lines;
    }
  }

  lemma ProseStarts(b: BuildScan, lines: seq<string>)
    requires b.pastFields && b.summaryLines == [] && lines != [] && !IsBlank(lines[0])
    ensures ScanBuildLines(b, lines) == b.(summaryLines := lines)
  {
    BlankIff(lines[0]);
    var b' := b.(summaryLines := [lines[0]]);
    ProseKept(b', lines[1..]);
    assert [lines[0]] + lines[1..] == lines;
    assert [] + [lines[0]] == [lines[0]];
  }

  lemma BlankIgnored(b: BuildScan)
    requires b.summaryLines == []
    ensures ScanBuildLine(b, "") == b
  {
  }

  /** What follows the field lines of a build in the file. */
  function SummaryLines(b: BuildRecord): seq<string> {
    if b.summary.Some? && b.summary.value != "" then [""] + Split(b.summary.value, '\n') + [""] else [""]
  }

  lemma TrailingBlankOff(lines: seq<string>)
    requires lines != [] && !IsBlank(lines[|lines| - 1])
    ensures WithoutTrailingBlanks(lines + [""]) == lines
  {
    assert (lines + [""])[..|lines|] == lines;
  }

  lemma SummaryRead(b: BuildScan, record: BuildRecord)
    requires b.pastFields && b.summaryLines == []
    requires record.summary.Some? ==> record.summary.value != "" && Trimmed(record.summary.value)
    ensures ScanBuildLines(b, SummaryLines(record)).(summaryLines := []) == b
    ensures BuildOf(record.id, ScanBuildLines(b, SummaryLines(record))).summary == record.summary
  {
    BlankIgnored(b);
    if record.summary.Some? {
      var s := record.summary.value;
      var lines := Split(s, '\n');
      var all := SummaryLines(record);
      assert all[1..] == lines + [""];
      FirstLineNotBlank(s);
      LastLineNotBlank(s);
      ProseStarts(b, lines + [""]);
      TrailingBlankOff(lines);
      JoinSplit(s, '\n');
      TrimTrimmed(s);
      assert ScanBuildLines(b, all) == b.(summaryLines := lines + [""]);
    } else {
      assert [""][1..] == [];
      assert ScanBuildLines(b, [""]) == b;
    }
  }

  // ---- one build --------------------------------------------------------------------------

  predicate OptionalGood(v: Option<string>) {
    v.Some? ==> FieldText(v.value)
  }

  /** Every field but the start, and but the placeholder among the files. */
  predicate GoodParts(b: BuildRecord) {
    && OptionalGood(b.finishedAt) && OptionalGood(b.model) && OptionalGood(b.transcriptPath)
    && GoodFiles(b.filesTouched)
    && (b.summary.Some? ==> b.summary.value != "" && Trimmed(b.summary.value))
  }

  /** The records that their own lines give back, by `PromptExact.BuildExact`. */
  predicate ReadableBuild(b: BuildRecord) {
    FieldText(b.startedAt) && GoodParts(b) && b.filesTouched != [NO_FILES]
  }

  /** A readable record whose lines stay one section of the file. */
  predicate GoodBuild(b: BuildRecord) {
    && FieldText(b.id) && ReadableBuild(b)
    && (b.summary.Some? ==> '\r' !in b.summary.value && NoHeading(Split(b.summary.value, '\n')))
  }

  lemma {:induction false} ScanBuildConcat(b: BuildScan, first: seq<string>, second: seq<string>)
    ensures ScanBuildLines(b, first + second) == ScanBuildLines(ScanBuildLines(b, first), second)
    decreases |first|
  {
    if first == [] {
      assert first + second == second;
    } else {
      assert (first + second)[1..] == first[1..] + second;
      ScanBuildConcat(ScanBuildLine(b, first[0]), first[1..], second);
    }
  }

  lemma ScanOne(b: BuildScan, line: string)
    ensures ScanBuildLines(b, [line]) == ScanBuildLine(b, line)
  {
    assert [line][1..] == [];
  }

  /** No field line has been seen but perhaps the start. */
  predicate NothingRead(b: BuildScan) {
    && !b.pastFields && b.finishedAt.None? && b.exitCode.None? && b.model.None? && b.elapsedMs.None?
    && b.transcriptPath.None? && b.filesTouched == []
  }

  function EarlyFields(record: BuildRecord): seq<string> {
    TruthyText("finished", record.finishedAt) + OptionalInt("exit code", record.exitCode)
  }

  function LateFields(record: BuildRecord): seq<string> {
    OptionalText("model", record.model) + OptionalInt("elapsed", record.elapsedMs)
    + TruthyText("transcript", record.transcriptPath)
  }

  function FilesLine(record: BuildRecord): string {
    FieldLineOf("files touched", FilesText(record.filesTouched))
  }

  /** The field lines after the start. */
  function OtherFields(record: BuildRecord): seq<string> {
    EarlyFields(record) + LateFields(record) + [FilesLine(record)]
  }

  function AfterEarly(b: BuildScan, record: BuildRecord): BuildScan {
    b.(finishedAt := record.finishedAt, exitCode := record.exitCode)
  }

  function AfterLate(b: BuildScan, record: BuildRecord): BuildScan {
    AfterEarly(b, record).(model := record.model, elapsedMs := record.elapsedMs, transcriptPath := record.transcriptPath)
  }

  function AfterFields(b: BuildScan, record: BuildRecord): BuildScan {
    AfterLate(b, record).(filesTouched := FilesOf(FilesText(record.filesTouched)), pastFields := true)
  }

  lemma ReadEarlyFields(b: BuildScan, record: BuildRecord)
    requires NothingRead(b) && OptionalGood(record.finishedAt)
    ensures ScanBuildLines(b, EarlyFields(record)) == AfterEarly(b, record)
  {
    var l1, l2 := TruthyText("finished", record.finishedAt), OptionalInt("exit code", record.exitCode);
    ScanBuildConcat(b, l1, l2);
    if record.finishedAt.Some? {
      assert l1 == [FieldLineOf("finished", record.finishedAt.value)];
      ScanOne(b, l1[0]);
      ReadFinished(b, record.finishedAt.value);
    }
    var b1 := b.(finishedAt := record.finishedAt);
    if record.exitCode.Some? {
      assert l2 == [FieldLineOf("exit code", IntText(record.exitCode.value))];
      ScanOne(b1, l2[0]);
      ReadExitCode(b1, record.exitCode.value);
    }
  }

  lemma ReadLateFields(b: BuildScan, record: BuildRecord)
    requires !b.pastFields && b.model.None? && b.elapsedMs.None? && b.transcriptPath.None?
    requires OptionalGood(record.model) && OptionalGood(record.transcriptPath)
    ensures ScanBuildLines(b, LateFields(record))
         == b.(model := record.model, elapsedMs := record.elapsedMs, transcriptPath := record.transcriptPath)
  {
    var l1, l2 := OptionalText("model", record.model), OptionalInt("elapsed", record.elapsedMs);
    var l3 := TruthyText("transcript", record.transcriptPath);
    ScanBuildConcat(b, l1 + l2, l3);
    ScanBuildConcat(b, l1, l2);
    if record.model.Some? {
      assert l1 == [FieldLineOf("model", record.model.value)];
      ScanOne(b, l1[0]);
      ReadModel(b, record.model.value);
    }
    var b1 := b.(model := record.model);
    if record.elapsedMs.Some? {
      assert l2 == [FieldLineOf("elapsed", IntText(record.elapsedMs.value))];
      ScanOne(b1, l2[0]);
      ReadElapsed(b1, record.elapsedMs.value);
    }
    var b2 := b1.(elapsedMs := record.elapsedMs);
    if record.transcriptPath.Some? {
      assert l3 == [FieldLineOf("transcript", record.transcriptPath.value)];
      ScanOne(b2, l3[0]);
      ReadTranscript(b2, record.transcriptPath.value);
    }
  }

  lemma ReadLastField(b: BuildScan, record: BuildRecord)
    requires !b.pastFields && b.filesTouched == [] && GoodFiles(record.filesTouched)
    ensures ScanBuildLines(b, [FilesLine(record)])
         == b.(filesTouched := FilesOf(FilesText(record.filesTouched)), pastFields := true)
  {
    FilesTextGood(record.filesTouched);
    ReadFiles(b, FilesText(record.filesTouched));
    ScanOne(b, FilesLine(record));
    assert [] + FilesOf(FilesText(record.filesTouched)) == FilesOf(FilesText(record.filesTouched));
  }

  lemma ScanInTurn(b: BuildScan, first: seq<string>, second: seq<string>, third: seq<string>)
    ensures ScanBuildLines(b, first + second + third) ==
            ScanBuildLines(ScanBuildLines(ScanBuildLines(b, first), second), third)
  {
    ScanBuildConcat(b, first + second, third);
    ScanBuildConcat(b, first, second);
  }

  lemma ReadOtherFields(b: BuildScan, record: BuildRecord)
    requires NothingRead(b) && GoodParts(record)
    ensures ScanBuildLines(b, OtherFields(record)) == AfterFields(b, record)
  {
    ReadEarlyFields(b, record);
    ReadLateFields(AfterEarly(b, record), record);
    ReadLastField(AfterLate(b, record), record);
    ScanInTurn(b, EarlyFields(record), LateFields(record), [FilesLine(record)]);
  }

  lemma FirstApart(a: seq<string>, b: seq<string>, c: seq<string>, d: seq<string>, e: seq<string>, f: seq<string>, g: seq<string>)
    ensures a + b + c + d + e + f + g == a + ((b + c) + (d + e + f) + g)
  {
  }

  lemma StartFirst(record: BuildRecord)
    ensures BuildFields(record) == [FieldLineOf("started", record.startedAt)] + OtherFields(record)
  {
    FirstApart([FieldLineOf("started", record.startedAt)], TruthyText("finished", record.finishedAt),
               OptionalInt("exit code", record.exitCode), OptionalText("model", record.model),
               OptionalInt("elapsed", record.elapsedMs), TruthyText("transcript", record.transcriptPath),
               [FilesLine(record)]);
  }

  /** The lines of one build's section, after its heading. */
  function BuildContent(b: BuildRecord): seq<string> {
    [""] + (BuildFields(b) + SummaryLines(b))
  }

  lemma ContentScanned(record: BuildRecord, b: BuildScan)
    requires b == ScanBuildLine(EMPTY_BUILD, FieldLineOf("started", record.startedAt))
    requires NothingRead(b) && GoodParts(record)
    ensures ScanBuildLines(EMPTY_BUILD, BuildContent(record))
         == ScanBuildLines(AfterFields(b, record), SummaryLines(record))
  {
    var start, others, summary := [FieldLineOf("started", record.startedAt)], OtherFields(record), SummaryLines(record);
    StartFirst(record);
    assert BuildFields(record) + summary == start + others + summary;
    ScanBuildConcat(EMPTY_BUILD, [""], start + others + summary);
    ScanOne(EMPTY_BUILD, "");
    BlankIgnored(EMPTY_BUILD);
    ScanInTurn(EMPTY_BUILD, start, others, summary);
    ScanOne(EMPTY_BUILD, start[0]);
    ReadOtherFields(b, record);
  }

  /** A readable build comes back as written. */
  lemma BuildRead(record: BuildRecord)
    requires ReadableBuild(record)
    ensures BuildOf(record.id, ScanBuildLines(EMPTY_BUILD, BuildContent(record))) == record
  {
    var b := EMPTY_BUILD.(startedAt := record.startedAt);
    ReadStarted(EMPTY_BUILD, record.startedAt);
    ContentScanned(record, b);
    FilesExact(record.filesTouched);
    SummaryRead(AfterFields(b, record), record);
  }
}
