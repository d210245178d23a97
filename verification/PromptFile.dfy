/**
 The prompt artifact and its Markdown file: what `serializePrompt` writes and what
 `parsePrompt` reads, as functions on texts and lines. PromptCode.dfy holds the loops that
 compute them; PromptRoundTrip.dfy proves that reading undoes writing.
 */
module PromptFile {
  import opened Wrappers
  import opened Strings
  import opened Escaping

  datatype State = Draft | Ready | Building | Built | Scrapped

  function StateText(s: State): string {
    match s
    case Draft => "draft"
    case Ready => "ready"
    case Building => "building"
    case Built => "built"
    case Scrapped => "scrapped"
  }

  function StateOf(text: string): Option<State> {
    if text == "draft" then Some(Draft)
    else if text == "ready" then Some(Ready)
    else if text == "building" then Some(Building)
    else if text == "built" then Some(Built)
    else if text == "scrapped" then Some(Scrapped)
    else None
  }

  datatype Doc = Doc(provenance: string, text: string)

  /** Components, gauges, routes and endpoints are kept as the text of their list items. */
  datatype Context = Context(
    components: seq<string>,
    files: seq<string>,
    gauges: seq<string>,
    routes: seq<string>,
    endpoints: seq<string>,
    docs: seq<Doc>
  )

  datatype BuildRecord = BuildRecord(
    id: string,
    startedAt: string,
    finishedAt: Option<string>,
    exitCode: Option<int>,
    model: Option<string>,
    elapsedMs: Option<int>,
    transcriptPath: Option<string>,
    filesTouched: seq<string>,
    summary: Option<string>
  )

  /** `target` is the JSON text of the target. */
  datatype Prompt = Prompt(
    id: string,
    slug: string,
    state: State,
    target: string,
    createdAt: string,
    updatedAt: string,
    scrappedFrom: Option<State>,
    requirement: string,
    acceptance: seq<string>,
    context: Context,
    builds: seq<BuildRecord>
  )

  datatype ParseError = NoFrontmatter | SchemaRejected

  // ---- writing ----------------------------------------------------------------------------

  const NO_REQUIREMENT := "_(no requirement written yet)_"
  const NONE_GIVEN := "_none given_"
  const NOTHING_SURVEYED := "_nothing surveyed yet_"
  const NO_FILES := "_none_"

  const RULE_REPO := "- Work in this repo only."
  const TESTS_FIRST := "- Test-first: write the failing "
  const TESTS_LAST := "test before the code that passes it."
  const RULE_TESTS := TESTS_FIRST + TESTS_LAST
  const JIG_FIRST := "- Do not edit `.jig/` \U{2014} that "
  const JIG_LAST := "tree belongs to Jig, never to a build."
  const RULE_JIG := JIG_FIRST + JIG_LAST
  const REPORT_FIRST := "- Report the files you touched at "
  const REPORT_LAST := "the end as a line `FILES: a, b, c`."
  const RULE_REPORT := REPORT_FIRST + REPORT_LAST

  const RULES := [RULE_REPO, RULE_TESTS, RULE_JIG, RULE_REPORT]

  function Marked(items: seq<string>): seq<string> {
    if items == [] then [] else ["- " + items[0]] + Marked(items[1..])
  }

  function Section(heading: string, body: seq<string>): seq<string> {
    [""] + ([heading, ""] + body)
  }

  function ListBlock(heading: string, items: seq<string>): seq<string> {
    if items == [] then [] else [heading, ""] + Marked(items) + [""]
  }

  function DocTexts(docs: seq<Doc>): seq<string> {
    if docs == [] then []
    else ["--- " + docs[0].provenance + " ---", docs[0].text, ""] + DocTexts(docs[1..])
  }

  function ContextBlocks(c: Context): seq<string> {
    ListBlock("### Component", c.components)
    + ListBlock("### Files", c.files)
    + ListBlock("### Gauges", c.gauges)
    + ListBlock("### Routes", c.routes)
    + ListBlock("### Endpoints", c.endpoints)
    + if c.docs == [] then [] else ["### Docs", ""] + DocTexts(c.docs)
  }

  function WithoutLastEmpty(lines: seq<string>): seq<string> {
    if lines != [] && lines[|lines| - 1] == "" then lines[..|lines| - 1] else lines
  }

  function ContextLines(c: Context): seq<string> {
    var lines := WithoutLastEmpty(ContextBlocks(c));
    if lines != [] then lines else [NOTHING_SURVEYED]
  }

  function FieldLineOf(name: string, v: string): string {
    "- " + name + ": " + v
  }

  function OptionalText(name: string, v: Option<string>): seq<string> {
    if v.Some? then [FieldLineOf(name, v.value)] else []
  }

  /** A field written under a truthiness test: the empty string is left out too. */
  function TruthyText(name: string, v: Option<string>): seq<string> {
    if v == Some("") then [] else OptionalText(name, v)
  }

  function OptionalInt(name: string, v: Option<int>): seq<string> {
    if v.Some? then [FieldLineOf(name, IntText(v.value))] else []
  }

  function FilesText(files: seq<string>): string {
    if files != [] then Join(files, ", ") else NO_FILES
  }

  /** The field lines of one build, `files touched` always last. */
  function BuildFields(b: BuildRecord): seq<string> {
    [FieldLineOf("started", b.startedAt)]
    + TruthyText("finished", b.finishedAt)
    + OptionalInt("exit code", b.exitCode)
    + OptionalText("model", b.model)
    + OptionalInt("elapsed", b.elapsedMs)
    + TruthyText("transcript", b.transcriptPath)
    + [FieldLineOf("files touched", FilesText(b.filesTouched))]
  }

  function SummaryTexts(b: BuildRecord): seq<string> {
    if b.summary.Some? && b.summary.value != "" then ["", b.summary.value] else []
  }

  function BuildBlock(b: BuildRecord): seq<string> {
    ["### Build " + b.id, ""] + BuildFields(b) + SummaryTexts(b) + [""]
  }

  function BuildBlocks(builds: seq<BuildRecord>): seq<string> {
    if builds == [] then [] else BuildBlock(builds[0]) + BuildBlocks(builds[1..])
  }

  function BuildLogLines(builds: seq<BuildRecord>): seq<string> {
    WithoutLastEmpty(BuildBlocks(builds))
  }

  type Pairs = seq<(string, string)>

  function FieldLine(key: string, value: string): string {
    key + ": " + value
  }

  function FieldLines(pairs: Pairs): seq<string> {
    if pairs == [] then [] else [FieldLine(pairs[0].0, pairs[0].1)] + FieldLines(pairs[1..])
  }

  const JIG_FORMAT: nat := 1

  /** The frontmatter, given the text of each value. */
  function HeaderPairs(id: string, slug: string, state: string, target: string,
                       createdAt: string, updatedAt: string, scrappedFrom: seq<string>): Pairs
    requires |scrappedFrom| <= 1
  {
    [
      ("jigFormat", NatText(JIG_FORMAT)), ("id", id), ("slug", slug), ("state", state), ("target", target),
      ("createdAt", createdAt), ("updatedAt", updatedAt)
    ] + if scrappedFrom != [] then [("scrappedFrom", scrappedFrom[0])] else []
  }

  function ScrappedScalar(p: Prompt): (r: seq<string>)
    ensures |r| <= 1
  {
    if p.scrappedFrom.Some? then [YamlScalar(StateText(p.scrappedFrom.value))] else []
  }

  function PairsOf(p: Prompt): Pairs {
    HeaderPairs(QUOTE + p.id + QUOTE, YamlScalar(p.slug), YamlScalar(StateText(p.state)), p.target,
                YamlScalar(p.createdAt), YamlScalar(p.updatedAt), ScrappedScalar(p))
  }

  function Or(text: string, fallback: string): string {
    if text != "" then text else fallback
  }

  function AcceptanceLines(acceptance: seq<string>): seq<string> {
    if acceptance != [] then Marked(acceptance) else [NONE_GIVEN]
  }

  function BodyTexts(p: Prompt): seq<string> {
    ["", "# Requirement", "", Or(p.requirement, NO_REQUIREMENT)]
    + Section("## Acceptance", AcceptanceLines(p.acceptance))
    + Section("## Context", ContextLines(p.context))
    + Section("## Rules", RULES)
    + (if p.builds != [] then Section("## Builds", BuildLogLines(p.builds)) else [])
    + [""]
  }

  function Serialized(p: Prompt): string {
    Join(["---"] + FieldLines(PairsOf(p)) + ["---"] + BodyTexts(p), "\n")
  }

  // ---- reading ----------------------------------------------------------------------------

  /** The first position of "\n---" in `s`. */
  function ClosingFence(s: string): (r: Option<nat>)
    ensures r.Some? ==> r.value + 4 <= |s|
  {
    if s == "" then None
    else if "\n---" <= s then Some(0)
    else
      match ClosingFence(s[1..])
      case None => None
      case Some(i) => Some(i + 1)
  }

  /** `/^---\n([\s\S]*?)\n---\n?([\s\S]*)$/` */
  function SplitFrontmatter(text: string): Option<(string, string)> {
    if !StartsWith(text, "---\n") then None
    else
      match ClosingFence(text[4..])
      case None => None
      case Some(i) =>
        var after := text[4..][i + 4..];
        Some((text[4..][..i], if StartsWith(after, "\n") then after[1..] else after))
  }

  function KeyValue(line: string): Option<(string, string)> {
    if IsBlank(line) then None
    else
      match IndexOf(line, ':')
      case None => None
      case Some(i) => Some((Trim(line[..i]), Trim(line[i + 1..])))
  }

  /** The key-value map of the frontmatter lines, a later line overriding an earlier one. */
  function FieldMap(lines: seq<string>): map<string, string> {
    if lines == [] then map[]
    else
      var earlier := FieldMap(lines[..|lines| - 1]);
      match KeyValue(lines[|lines| - 1])
      case None => earlier
      case Some((k, v)) => earlier[k := v]
  }

  function Lookup(fm: map<string, string>, key: string): string {
    if key in fm then fm[key] else ""
  }

  function LeadingDigits(s: string): (r: string)
    ensures AllDigits(r)
  {
    if s != "" && IsDigit(s[0]) then [s[0]] + LeadingDigits(s[1..]) else ""
  }

  /** `Number.parseInt(s, 10)`, with None for NaN. */
  function ParseInt(s: string): Option<int> {
    var t := TrimLeft(s);
    var negative := StartsWith(t, "-");
    var digits := LeadingDigits(if negative || StartsWith(t, "+") then t[1..] else t);
    if digits == "" then None
    else Some(if negative then -(NatValue(digits) as int) else NatValue(digits))
  }

  /** `/^##\s+/` */
  predicate IsSectionLine(line: string) {
    |line| > 2 && line[..2] == "##" && IsSpace(line[2])
  }

  predicate IsHeading(line: string) {
    IsSectionLine(line) || (|line| > 3 && line[..3] == "###" && IsSpace(line[3]))
  }

  function WithoutHashes(line: string): string {
    if StartsWith(line, "#") then WithoutHashes(line[1..]) else line
  }

  /** `line.replace(/^#+\s+/, '').trim()` of a heading line. */
  function HeadingText(line: string): string {
    Trim(WithoutHashes(line))
  }

  /** The `sections` map, in insertion order. */
  type Sections = seq<(string, seq<string>)>

  function SetSection(sections: Sections, key: string): Sections {
    if sections == [] then [(key, [])]
    else if sections[0].0 == key then [(key, [])] + sections[1..]
    else [sections[0]] + SetSection(sections[1..], key)
  }

  function PushLine(sections: Sections, key: string, line: string): Sections {
    if sections == [] then []
    else if sections[0].0 == key then [(key, sections[0].1 + [line])] + sections[1..]
    else [sections[0]] + PushLine(sections[1..], key, line)
  }

  function GetSection(sections: Sections, key: string): seq<string> {
    if sections == [] then []
    else if sections[0].0 == key then sections[0].1
    else GetSection(sections[1..], key)
  }

  /** `current` is the heading last seen; the empty string stands for null as well, since both
      are falsy. */
  datatype Scan = Scan(sections: Sections, current: string)

  function ScanLine(scan: Scan, line: string): Scan {
    if IsHeading(line) then
      Scan(SetSection(scan.sections, HeadingText(line)), HeadingText(line))
    else if scan.current != "" then
      scan.(sections := PushLine(scan.sections, scan.current, line))
    else
      scan
  }

  function ScanLines(scan: Scan, lines: seq<string>): Scan
    decreases |lines|
  {
    if lines == [] then scan else ScanLines(ScanLine(scan, lines[0]), lines[1..])
  }

  /** `/^#\s+Requirement\s*$/` */
  predicate IsRequirementLine(line: string) {
    |line| > 1 && line[0] == '#' && IsSpace(line[1]) && TrimRight(TrimLeft(line[1..])) == "Requirement"
  }

  function AfterRequirementLine(lines: seq<string>): Option<seq<string>> {
    if lines == [] then None
    else if IsRequirementLine(lines[0]) then Some(lines[1..])
    else AfterRequirementLine(lines[1..])
  }

  function UntilSection(lines: seq<string>): seq<string> {
    if lines == [] || IsSectionLine(lines[0]) then [] else [lines[0]] + UntilSection(lines[1..])
  }

  function RequirementOf(lines: seq<string>): string {
    var text := match AfterRequirementLine(lines)
      case None => ""
      case Some(rest) => Trim(Join(UntilSection(rest), "\n"));
    if text == NO_REQUIREMENT then "" else text
  }

  /** `l.replace(/^-\s?/, '')` */
  function WithoutMarker(line: string): string {
    if !StartsWith(line, "-") then line
    else if |line| > 1 && IsSpace(line[1]) then line[2..]
    else line[1..]
  }

  function StripListMarkers(lines: seq<string>): seq<string> {
    if lines == [] then []
    else if IsBlank(lines[0]) then StripListMarkers(lines[1..])
    else [WithoutMarker(lines[0])] + StripListMarkers(lines[1..])
  }

  function AcceptanceOf(lines: seq<string>): seq<string> {
    var items := StripListMarkers(lines);
    if items == [NONE_GIVEN] then [] else items
  }

  /** The last character of `s` that `.` matches. */
  function LastOnLine(s: string): Option<string> {
    if s == "" then None
    else if !IsLineTerminator(s[|s| - 1]) then Some(s[|s| - 1..])
    else LastOnLine(s[..|s| - 1])
  }

  /** The group of `/^---\s*(.+?)\s*---$/`; when only white space lies between the dashes,
      backtracking leaves its last character to the group. */
  function ProvenanceOf(line: string): Option<string> {
    if |line| < 7 || !StartsWith(line, "---") || !EndsWith(line, "---") then None
    else
      var inner := line[3..|line| - 3];
      var v := Trim(inner);
      if v == "" then LastOnLine(inner)
      else if OneLine(v) then Some(v)
      else None
  }

  function Flushed(provenance: Option<string>, text: seq<string>): seq<Doc> {
    if provenance.Some? then [Doc(provenance.value, Trim(Join(text, "\n")))] else []
  }

  function DocsFrom(lines: seq<string>, provenance: Option<string>, text: seq<string>): seq<Doc> {
    if lines == [] then Flushed(provenance, text)
    else
      match ProvenanceOf(Trim(lines[0]))
      case Some(next) => Flushed(provenance, text) + DocsFrom(lines[1..], Some(next), [])
      case None => DocsFrom(lines[1..], provenance, if provenance.Some? then text + [lines[0]] else text)
  }

  function ContextOf(sections: Sections): Context {
    Context(
      StripListMarkers(GetSection(sections, "Component")),
      StripListMarkers(GetSection(sections, "Files")),
      StripListMarkers(GetSection(sections, "Gauges")),
      StripListMarkers(GetSection(sections, "Routes")),
      StripListMarkers(GetSection(sections, "Endpoints")),
      DocsFrom(GetSection(sections, "Docs"), None, [])
    )
  }

  /** The text after `/^-\s*<name>:\s*\/` of a trimmed line. */
  function FieldRest(line: string, name: string): Option<string> {
    if !StartsWith(line, "-") then None
    else
      var t := TrimLeft(line[1..]);
      if StartsWith(t, name + ":") then Some(TrimLeft(t[|name| + 1..])) else None
  }

  /** The group of `/^-\s*<name>:\s*(.+)$/`. */
  function TextField(line: string, name: string): Option<string> {
    match FieldRest(line, name)
    case Some(v) => if v != "" && OneLine(v) then Some(v) else None
    case None => None
  }

  /** The group of `/^-\s*<name>:\s*(-?\d+)$/`, as a number. */
  function IntField(line: string, name: string): Option<int> {
    match FieldRest(line, name)
    case Some(v) => if IsIntText(v) then Some(IntValue(v)) else None
    case None => None
  }

  function NonEmptyTrimmed(parts: seq<string>): seq<string> {
    if parts == [] then []
    else (if Trim(parts[0]) != "" then [Trim(parts[0])] else []) + NonEmptyTrimmed(parts[1..])
  }

  function FilesOf(text: string): seq<string> {
    if text == NO_FILES then [] else NonEmptyTrimmed(Split(text, ','))
  }

  /** What parseBuildLog has gathered of one build. */
  datatype BuildScan = BuildScan(
    startedAt: string,
    finishedAt: Option<string>,
    exitCode: Option<int>,
    model: Option<string>,
    elapsedMs: Option<int>,
    transcriptPath: Option<string>,
    filesTouched: seq<string>,
    summaryLines: seq<string>,
    pastFields: bool
  )

  const EMPTY_BUILD := BuildScan("", None, None, None, None, None, [], [], false)

  function ScanProse(b: BuildScan, raw: string): BuildScan {
    if Trim(raw) != "" || b.summaryLines != [] then b.(summaryLines := b.summaryLines + [raw]) else b
  }

  function ScanBuildLine(b: BuildScan, raw: string): BuildScan {
    var line := Trim(raw);
    if b.pastFields then ScanProse(b, raw)
    else if TextField(line, "started").Some? then b.(startedAt := TextField(line, "started").value)
    else if TextField(line, "finished").Some? then b.(finishedAt := TextField(line, "finished"))
    else if IntField(line, "exit code").Some? then b.(exitCode := IntField(line, "exit code"))
    else if TextField(line, "model").Some? then b.(model := TextField(line, "model"))
    else if IntField(line, "elapsed").Some? then b.(elapsedMs := IntField(line, "elapsed"))
    else if TextField(line, "transcript").Some? then b.(transcriptPath := TextField(line, "transcript"))
    else if TextField(line, "files touched").Some? then
      b.(filesTouched := b.filesTouched + FilesOf(TextField(line, "files touched").value), pastFields := true)
    else if line == "" then b
    else ScanProse(b, raw)
  }

  function ScanBuildLines(b: BuildScan, lines: seq<string>): BuildScan
    decreases |lines|
  {
    if lines == [] then b else ScanBuildLines(ScanBuildLine(b, lines[0]), lines[1..])
  }

  function WithoutTrailingBlanks(lines: seq<string>): seq<string> {
    if lines != [] && IsBlank(lines[|lines| - 1]) then WithoutTrailingBlanks(lines[..|lines| - 1]) else lines
  }

  function BuildOf(id: string, b: BuildScan): BuildRecord {
    var summary := WithoutTrailingBlanks(b.summaryLines);
    BuildRecord(id, b.startedAt,
                if b.finishedAt == Some("") then None else b.finishedAt,
                b.exitCode, b.model, b.elapsedMs,
                if b.transcriptPath == Some("") then None else b.transcriptPath,
                b.filesTouched,
                if summary != [] then Some(Trim(Join(summary, "\n"))) else None)
  }

  /** The group of `/^Build (.+)$/`. */
  function BuildIdOf(heading: string): Option<string> {
    if StartsWith(heading, "Build ") && |heading| > 6 && OneLine(heading[6..]) then Some(heading[6..]) else None
  }

  /** The build of one section, if it is a build's. */
  function BuildIn(heading: string, lines: seq<string>): seq<BuildRecord> {
    match BuildIdOf(heading)
    case Some(id) => [BuildOf(id, ScanBuildLines(EMPTY_BUILD, lines))]
    case None => []
  }

  function BuildsOf(sections: Sections): seq<BuildRecord> {
    if sections == [] then [] else BuildIn(sections[0].0, sections[0].1) + BuildsOf(sections[1..])
  }

  predicate IsPromptId(id: string) {
    |id| == 4 && AllDigits(id)
  }

  /** PromptSchema.parse on what was read: the format stamp, the id and the states. */
  function Checked(fm: map<string, string>, lines: seq<string>): Result<Prompt, ParseError> {
    var sections := ScanLines(Scan([], ""), lines).sections;
    var id := Unquote(Lookup(fm, "id"));
    var state := StateOf(Unquote(Lookup(fm, "state")));
    var scrappedFrom := Lookup(fm, "scrappedFrom");
    var from := if Unquote(scrappedFrom) == "" then None else StateOf(Unquote(scrappedFrom));
    if ParseInt(Lookup(fm, "jigFormat")) != Some(JIG_FORMAT) || !IsPromptId(id) || state.None?
       || (Unquote(scrappedFrom) != "" && from.None?)
    then Failure(SchemaRejected)
    else Success(Prompt(
      id, Unquote(Lookup(fm, "slug")), state.value, Lookup(fm, "target"),
      Unquote(Lookup(fm, "createdAt")), Unquote(Lookup(fm, "updatedAt")), from,
      RequirementOf(lines), AcceptanceOf(GetSection(sections, "Acceptance")),
      ContextOf(sections), BuildsOf(sections)))
  }

  function Parsed(markdown: string): Result<Prompt, ParseError> {
    match SplitFrontmatter(ReplaceAll(markdown, "\r\n", "\n"))
    case None => Failure(NoFrontmatter)
    case Some((fmBlock, body)) => Checked(FieldMap(Split(fmBlock, '\n')), Split(body, '\n'))
  }
}
