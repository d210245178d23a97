# Jig bench: models and proofs

A Dafny model of six parts of the Jig bench, with proofs about every run, every document or
every input of each. `dafny verify dfyconfig.toml` checks the whole project.

1. **The bench host.** `HostProtocol` is a transition system: one step is the code a clamp or
   unclamp request runs between two awaits, or one callback of a target runner, and any two
   requests may interleave. `HostInvariants` holds what each step keeps, `HostTheorems` the
   guarantees, `HostObject` the same steps as methods that reassign the host's variables.
2. **The prompt file.** `Escaping` is the two-pass escape layer and the flow array. `PromptFile`
   defines the written file and the reading of one; `PromptFrontmatter`, `PromptSections`,
   `PromptBuilds` and `PromptBody` take the parts back one by one; `PromptExact` says exactly which
   build records and documents come back; `PromptRoundTrip` is the whole file; `PromptCode` has the
   writer's and the reader's loops.
3. **Schemas and fixtures.** `SchemaInlining` is reference rewriting and inlining over JSON trees,
   with cycles; `SchemaTheorems`, `SchemaCycles` and `SchemaRewriting` say what they mean;
   `FixtureGeneration` is the memoised entity pool.
4. **Documents.** `DocChunks`, `MarkdownOutline` and `MarkdownChunks` cut Markdown into sections;
   `MarkdownNesting` says when heading paths are the plain nesting of the headings;
   `TextRuns`, `GreedyPacking` and `PlainChunks` pack paragraphs; `StableSort` and `Ranking` index
   and rank; `DocsContext` selects under a budget of words.
5. **The C# scanner.** `BalancedText` is a grammar, with its printer; `BracketScanner`,
   `AttributeStripper` and `TopLevelSplit` are the character loops, proved against it.
6. **Three stateful parts.** `FixtureLife` and `FixtureObject` are the fixture store, with its
   operations suspended while their file is written; `HeldGesture` and `ReadyHold` are the held
   Ready button; `RecentBenches` is the list of recent benches.

A method that follows a loop or an update of the source ensures that its result or new state is
the value of a specification function; the lemmas are about that function.

## Where the code does less than its comments say

Each of these is proved, with the exact condition under which the code does meet its purpose.

- **The clamp's number is taken too late.** `packages/server/src/bench/host.ts:282` reads the
  generation after the whole close has been awaited, not at the bump (line 227). Two clamps whose
  closes overlap read the same number, both pass the check at line 298, and the first bench is
  overwritten without being closed while its runner is still obeyed. From every state a run can
  reach, one that met this before included, beginning a clamp keeps isolation until the next
  request begins if and only if no clamp is between its bump and line 282 (`ClampIsSafeIff`). Under
  the same condition it loses no further bench, whatever was lost before (`ClampLosesNothingIff`),
  and a request is answered as asked (`RequestIsAnsweredIff`). Over whole runs: when clamps keep out
  of each other's windows, unclamps beginning at any time, `Isolation` and `NothingLeaks` hold; when
  every request does, `LastRequestWins` holds too; with the number taken at the bump all three hold
  with no condition at all. Two clamps of an empty host meet the defect (`TwoClampsCross`), and so
  do a clamp and an unclamp, which is undone (`ClampThenUnclampUndone`).
- **Rewriting references can change meaning**, if and only if a stray reference is met: a local
  reference that the document already holds, or an OpenAPI reference with an empty name. With no
  stray in the table, a node keeps its meaning if and only if it holds none, on any chain
  (`RewriteKeepsMeaningIff`). A node with a stray loses it on every table of objects
  (`StrayChangesMeaning`), and all nodes without one keep it if and only if no component schema
  holds one (`TableKeepsMeaningIff`).
- **An acceptance list of exactly the placeholder** is read back as empty (`AcceptanceExact`). A
  requirement is read back as itself if and only if it is trimmed, is not the placeholder, and has
  no line that starts a section, that is `##` and white space (`RequirementExact`).
- **A build record with an empty start moves into its summary.** The schema takes the empty string,
  and `packages/core/src/prompt.ts:313` starts with it for a section without that line; its written
  line "- started:" is then read as prose. A record comes back from its own lines if and only if its
  start and the other strings written for it are trimmed, not empty and on one line, its files have
  no commas and are not just the placeholder, and its summary is trimmed and not empty
  (`BuildExact`). What was read from any lines at all, hand-edited ones included, comes back after a
  write if and only if its start is not empty and its files are not just the placeholder
  (`SecondReadExact`).
- **A rule of dashes in a document starts another one**, as does a table's second line "--- | ---"
  (`RulesAreRead`). Excerpts come back from their own lines if and only if every provenance is
  trimmed, not empty and on one line, or a single blank, every text is trimmed, and no line of a
  text reads as a provenance (`DocsExact`).
- **A heading's last hash is dropped** without a blank before it: a title is read back if and only
  if it does not end in one, so `# C#` is read as `C` (`HeadingRead`).
- **Skipped heading levels nest**: after `#`, `###` a second `###` goes under the first. The path is
  the plain nesting of the open headings, at every line, if and only if each heading either closes
  nothing or leaves open one heading of every level above its own (`StackIsNestingIff`). A
  document that skips no level does that (`NoSkipsCloseEvenly`).
- **The fixture sink's name can be wrong**: from every state a run can reach, whatever is already
  wrong in it, a create that the store accepts can lead to its own slug being active under a wrong
  name, with no further create, if and only if another fixture of its slug, with another name, is
  still being written (`CreateMisleadsIff`). Two creates in an empty store lead there
  (`TwoCreatesMislead`).
- **Two endpoints of one key** are not free of their order: they can be swapped if and only if their
  responses are equal (`SwapIff`).

## What the code relies on

- **clearTimeout.** The hold's timer callback asks whether a hold is on, not whether it is its own.
  Every completed hold lasts its full duration, in every run, if and only if clearTimeout removes
  the timer it is given (`InFullIffClears`).
- **The parsed survey.** Inlining leaves no reference, and is idempotent, for every table of JSON
  objects (`SurveyTablesInlineClean`, `SurveyTablesIdempotent`), and `packages/core/src/survey.ts:55`
  lets a survey hold nothing else. Called directly with another table, `dereferenceSchema` does both
  if and only if no schema is a string that begins like a reference (`CleanIff`, `IdempotentIff`).

## Model

| member | source | states |
|---|---|---|
| `HostTheorems.Ownership` | packages/server/src/bench/host.ts:226-305 | In every interleaving router and bench name the same bench, no bench is closed twice or while current, and the runner held is the current bench's own |
| `HostTheorems.GuardedCallback` | packages/server/src/bench/host.ts:159-181 | In a guarded state a report of `up` writes a plate and a recent entry exactly when its runner's bench is the current one, and then that bench's |
| `HostTheorems.Isolation` | packages/server/src/bench/host.ts:152-184 | Over every run in which no clamp begins in another clamp's window, unclamps at any time, or with the number taken at the bump, no report or log line of a runner reaches a bench it was not made for |
| `HostTheorems.NothingLeaks` | packages/server/src/bench/host.ts:278-305 | Over the same runs every bench ever created is exactly one of: current, handed to close, held by the one request about to do either |
| `HostTheorems.LastRequestWins` | packages/server/src/bench/host.ts:371-394 | Over every run in which no request begins in a clamp's window, or with the number taken at the bump: with no request pending, the host holds the bench of the last request if that was a clamp that succeeded, else none, and every other bench was closed |
| `HostTheorems.OverlapCrosses` | packages/server/src/bench/host.ts:226-305 | From any state with two clamps in their windows, a schedule leads to a lost, never closed bench whose runner writes to the other |
| `HostTheorems.TwoClampsCross` | packages/server/src/bench/host.ts:278-305 | The code as written reaches that state from the empty host with two clamps and nothing else |
| `HostTheorems.UnclampUndone` | packages/server/src/bench/host.ts:386-394 | An unclamp that begins inside a clamp's window and is the last request ends with the clamp's bench current |
| `HostTheorems.ClampThenUnclampUndone` | packages/server/src/bench/host.ts:386-394 | The code as written does so from the empty host with a clamp and an unclamp and nothing else |
| `HostTheorems.ClampIsSafeIff` | packages/server/src/bench/host.ts:278-302 | From every state that keeps what all runs keep: beginning a clamp keeps isolation, whatever happens before the next request, if and only if no clamp is between its bump and its number |
| `HostTheorems.ClampLosesNothingIff` | packages/server/src/bench/host.ts:278-305 | From every such state, whatever was lost before, beginning a clamp loses no further bench, whatever happens before the next request, if and only if the same holds |
| `HostTheorems.RequestIsAnsweredIff` | packages/server/src/bench/host.ts:278-302 | From every such state, beginning any request leaves the host's answer to it intact, whatever happens before the next request, if and only if the same holds |
| `HostInvariants.BasicRun` | packages/server/src/bench/host.ts:226-305 | What needs no condition is kept by every run: ranges, one runner per bench, right repo, router with bench, each bench owned once |
| `HostInvariants.BeginGuarded` | packages/server/src/bench/host.ts:226-234 | A clamp begun outside every clamp's window claims the new number alone, whatever went wrong before; an unclamp leaves at most the one claim there was |
| `HostInvariants.GuardedRun` | packages/server/src/bench/host.ts:226-305 | At most one request can install under the current number, and while one can no bench is current: kept by every guarded run, and by every run without a new request |
| `HostInvariants.OwnedRun` | packages/server/src/bench/host.ts:226-305 | A bench that is current, closed or held stays so along such runs, and so does every bench created in them, whatever was lost before |
| `HostInvariants.AnsweringRun` | packages/server/src/bench/host.ts:226-305 | Only the last request can install, and the current bench is what it installed: kept by every run in which requests keep out of clamps' windows |
| `HostObject.BenchHost.BeginRequest` | packages/server/src/bench/host.ts:226-244 | Up to the first await of the close: the counter moves, router and bench are let go, and the request alone holds the old bench |
| `HostObject.BenchHost.OnRunnerStopped` | packages/server/src/bench/host.ts:243-244 | The old bench's close is called once, by the request that let it go |
| `HostObject.BenchHost.OnBenchClosed` | packages/server/src/bench/host.ts:244 | The close of the old bench returns, or fails the request |
| `HostObject.BenchHost.OnCloseReturned` | packages/server/src/bench/host.ts:281-282 | The number is taken only now, from whatever the counter has become |
| `HostObject.BenchHost.OnBenchCreated` | packages/server/src/bench/host.ts:284-293 | A created bench is held by its request alone until the check; a failure creates none |
| `HostObject.BenchHost.CheckGeneration` | packages/server/src/bench/host.ts:298-305 | A clamp whose number is not the counter closes its own bench; otherwise bench, router and runner are installed together. Without an overlap a current bench is never written over |
| `HostObject.BenchHost.OnOwnBenchClosed` | packages/server/src/bench/host.ts:298-301 | An overtaken clamp ends as superseded, with its bench closed |
| `HostObject.BenchHost.OnSettled` | packages/server/src/bench/host.ts:307-328 | What follows the install ends the request and leaves the bench installed, whether or not it fails |
| `HostObject.BenchHost.OnStateChange` | packages/server/src/bench/host.ts:159-181 | A runner with another number changes nothing; one with the current number writes to the bench that is current now. In an isolated state a runner not made for the current bench changes nothing |
| `HostObject.BenchHost.OnLog` | packages/server/src/bench/host.ts:154-158 | Only a runner with the current number has its line broadcast, in an isolated state only the current bench's |
| `Escaping.UnescapeEscape` | packages/core/src/prompt.ts:174-177 | Undoing quotes first and backslashes second gives every string back |
| `Escaping.UnquoteScalar` | packages/core/src/prompt.ts:292-294 | Reading a written scalar gives the value back, for every string |
| `Escaping.FirstPass` | packages/core/src/work-order.ts:70-76 | After the first pass what is left is the value with its backslashes doubled |
| `Escaping.FlowArrayRoundTrip` | packages/core/src/work-order.ts:78-94 | Reading a written flow array gives the list back, for every list of strings |
| `Escaping.ParseYamlFlowArray` | packages/core/src/work-order.ts:82-94 | The loop over the pattern's matches collects exactly the tokens of the text between the brackets |
| `PromptRoundTrip.PromptRoundTrip` | packages/core/src/prompt.ts:433-508 | Reading a written prompt gives back every field, list and build record in order, for every prompt the file can hold, headings of level three in the requirement included when their names are not asked for |
| `PromptFrontmatter.SplitFenced` | packages/core/src/prompt.ts:434-439 | A fenced block and the body behind it are split at exactly those places |
| `PromptFrontmatter.HeaderRoundTrip` | packages/core/src/prompt.ts:441-458 | Every frontmatter key of a written prompt reads back as its value |
| `PromptSections.ScanBody` | packages/core/src/prompt.ts:460-470 | Headings with distinct keys are read as a map from each to the lines up to the next, behind whatever foreign sections the preamble opens |
| `PromptSections.ForeignUnseen` | packages/core/src/prompt.ts:303-307 | Sections whose names no reader asks for, in front of the others, change nothing that is read |
| `PromptSections.StripSection` | packages/core/src/prompt.ts:296-298 | The markers come off a written list, blank lines around it and all |
| `PromptSections.AcceptanceExact` | packages/core/src/prompt.ts:486-487 | A list of one-line items is read back exactly when it is not just the placeholder |
| `PromptSections.RequirementExact` | packages/core/src/prompt.ts:472-484 | A requirement is read back exactly when it is trimmed, is not the placeholder and has no line that starts a section |
| `PromptSections.DocsRead` | packages/core/src/prompt.ts:410-428 | Every readable document excerpt is read back with its provenance, in order |
| `PromptExact.DocsExact` | packages/core/src/prompt.ts:224-226 | Excerpts come back from their own lines if and only if each provenance is trimmed, not empty and on one line (or a single blank), each text is trimmed, and no line of a text reads as a provenance |
| `PromptExact.RulesAreRead` | packages/core/src/prompt.ts:410-428 | A rule of seven dashes and the second line of a table are read as the provenance of another document |
| `PromptBuilds.FieldRead` | packages/core/src/prompt.ts:321-327 | A written build field is matched by its own pattern, with its value, and by no other field's |
| `PromptBuilds.FilesExact` | packages/core/src/prompt.ts:352-353 | A list of touched files is read back exactly when its files are non-empty, trimmed and without commas, and it is not just the placeholder |
| `PromptBuilds.SummaryRead` | packages/core/src/prompt.ts:360-373 | A summary is read back although blank lines around it are dropped |
| `PromptBuilds.BuildRead` | packages/core/src/prompt.ts:303-378 | One readable build record is read back whole from its lines |
| `PromptExact.ReadIsGood` | packages/core/src/prompt.ts:303-378 | Whatever the lines of a section, the record read from them is readable but for an empty start or the placeholder among its files |
| `PromptExact.StartLost` | packages/core/src/prompt.ts:360-373 | A record with an empty start comes back with another summary |
| `PromptExact.BuildExact` | packages/core/src/prompt.ts:245-261 | For every record: it comes back from its own lines if and only if its start and other written strings are trimmed, not empty and on one line, its files comma-free and not just the placeholder, and its summary trimmed and not empty |
| `PromptExact.SecondReadExact` | packages/core/src/prompt.ts:309-378 | For every section, hand-edited ones included: the record read from it comes back after a write if and only if its start is not empty and its files are not just the placeholder |
| `PromptExact.UnstartedSection` | packages/core/src/prompt.ts:313 | The record of a section with no lines but a blank one does not |
| `PromptBody.BodyLines` | packages/core/src/prompt.ts:280-289 | The lines written after the frontmatter are a preamble and one block per heading |
| `PromptBody.AllKeysDistinct` | packages/core/src/prompt.ts:463-470 | No two headings of a written file share a key, so none overwrites another |
| `PromptBody.ContextRead` | packages/core/src/prompt.ts:380-431 | Every list of the context is read back, the empty ones as empty |
| `PromptBody.BuildsRead` | packages/core/src/prompt.ts:303-378 | All build records are read back in order, and no other section is taken for one |
| `PromptCode.SerializePrompt` | packages/core/src/prompt.ts:266-290 | The writer's loops produce the text that the round trip is about |
| `PromptCode.WriteContext` | packages/core/src/prompt.ts:194-229 | The context's loops push what `ContextRead` reads |
| `PromptCode.WriteBuildLog` | packages/core/src/prompt.ts:245-261 | The build log's loop pushes what `BuildsRead` reads |
| `PromptCode.ReadFields` | packages/core/src/prompt.ts:441-449 | The frontmatter loop fills the map that `HeaderRoundTrip` looks into |
| `PromptCode.ReadSections` | packages/core/src/prompt.ts:461-470 | The heading loop fills the map that `ScanBody` describes |
| `PromptCode.ReadBuildLines` | packages/core/src/prompt.ts:309-363 | The loop over a build's lines gathers what `BuildRead` is about |
| `PromptCode.ParsePrompt` | packages/core/src/prompt.ts:433-508 | The reader as a whole, with its two errors: no frontmatter, or a record the schema rejects |
| `SchemaTheorems.InlineClean` | packages/server/src/fixtures/generate.ts:64-87 | Inlining leaves no reference with a name, for every tree and every cyclic table without reference-like strings as schemas |
| `SchemaTheorems.CleanIff` | packages/server/src/fixtures/generate.ts:44-87 | It does so for every tree if and only if the table has no such schema |
| `SchemaTheorems.IdempotentIff` | packages/server/src/fixtures/generate.ts:64-87 | Inlining twice, with any table the second time, is inlining once for every node, if and only if the table has no such schema |
| `SchemaTheorems.SurveyTablesInlineClean` | packages/core/src/survey.ts:53-56 | For every table a parsed survey can hold, inlining leaves no reference with a name, for every node |
| `SchemaTheorems.SurveyTablesIdempotent` | packages/core/src/survey.ts:53-56 | For every such table, inlining twice, with any table the second time, is inlining once |
| `SchemaTheorems.InlineDepth` | packages/server/src/fixtures/generate.ts:64-87 | The result is at most as deep as the node and all schemas not yet on the chain together |
| `SchemaTheorems.InlineIsSubstitution` | packages/server/src/fixtures/generate.ts:64-87 | On a table with ranked schemas inlining is plain substitution, whatever unrelated names are on the chain |
| `SchemaCycles.AcyclicIff` | packages/server/src/fixtures/generate.ts:64-87 | A table has no cycle of references if and only if its schemas can be ranked so that references lead downwards |
| `SchemaCycles.AcyclicIsSubstitution` | packages/server/src/fixtures/generate.ts:64-87 | On a table without a cycle of references inlining is plain substitution, whatever names the node cannot reach are on the chain |
| `SchemaRewriting.RewriteKeepsMeaning` | packages/adapters/dotnet/src/openapi-parse.ts:9-25 | Inlining after rewriting equals inlining the original document's own references, cycles included |
| `SchemaRewriting.RewriteKeepsMeaningIff` | packages/adapters/dotnet/src/openapi-parse.ts:9-25 | For every node, chain and table of objects without stray references, it does so if and only if the node holds none |
| `SchemaRewriting.StrayChangesMeaning` | packages/adapters/dotnet/src/openapi-parse.ts:9-25 | A node with a stray reference is inlined differently on every chain and every table of objects |
| `SchemaRewriting.TableKeepsMeaningIff` | packages/adapters/dotnet/src/openapi-parse.ts:9-25 | For every table of objects: all nodes without a stray reference keep their meaning if and only if no schema that can be referred to holds one |
| `SchemaRewriting.StrayEmpty` | packages/server/src/fixtures/generate.ts:73-75 | A reference with an empty name is left in place, so rewriting it shows, whatever the table and the chain |
| `FixtureGeneration.PoolOfAnyCaller` | packages/server/src/fixtures/generate.ts:194-203 | A pool computed from any node that refers to a name is the same pool |
| `FixtureGeneration.PoolCache.PoolFor` | packages/server/src/fixtures/generate.ts:194-203 | What is remembered is what would be computed now, whichever caller filled it |
| `FixtureGeneration.GenerateFixture` | packages/server/src/fixtures/generate.ts:185-253 | With the cache the responses are those computed with no memory of any other endpoint, and the schema names are listed in order, each once |
| `FixtureGeneration.OrderIrrelevant` | packages/server/src/fixtures/generate.ts:207-234 | With one endpoint per key, responses and used names do not depend on the endpoints' order |
| `FixtureGeneration.FixtureIgnoresOrder` | packages/server/src/fixtures/generate.ts:185-253 | Two fixtures of the same endpoints in different orders have the same responses, forms and list of schema names |
| `FixtureGeneration.SwapIff` | packages/server/src/fixtures/generate.ts:207-234 | Two endpoints can be swapped if and only if one has no schema, their keys differ, or their responses are equal |
| `FixtureGeneration.ItemIsHeadOfList` | packages/server/src/fixtures/generate.ts:212-229 | An item endpoint's response is element 0 of every list response of the same schema |
| `DocChunks.WordsAdd` | packages/core/src/docs.ts:53-56 | Texts joined by white space have the sum of their words |
| `DocChunks.IdsDiffer` | packages/core/src/docs.ts:58-60 | Chunks of one file with the same id start on the same line |
| `MarkdownChunks.HeadingRead` | packages/core/src/docs.ts:62 | One to six hashes, a space and a one-line title are read back as that level and title if and only if the title does not end in a hash |
| `MarkdownChunks.HeadingNotBlank` | packages/core/src/docs.ts:62 | No blank line is a heading |
| `MarkdownChunks.SectionToChunk` | packages/core/src/docs.ts:73-98 | Nothing for a blank body; else the lines from the first with text to the last, and no text outside |
| `MarkdownChunks.ChunkMarkdown` | packages/core/src/docs.ts:108-150 | The loop over lines yields the sections of the document with their text, path and lines |
| `MarkdownChunks.Provenance` | packages/core/src/docs.ts:73-150 | Each chunk is exactly its lines, begins and ends on a line with text, and starts after the one before ends |
| `MarkdownChunks.IdsAreDistinct` | packages/core/src/docs.ts:58-60 | No two chunks of a document share an id |
| `MarkdownChunks.Conservation` | packages/core/src/docs.ts:116-142 | A line with text is in some chunk if and only if it is not a heading outside a fence |
| `MarkdownChunks.ChunksHaveWords` | packages/core/src/docs.ts:83 | No chunk is empty |
| `MarkdownChunks.ChunkPath` | packages/core/src/docs.ts:129-140 | A chunk's path is no longer than its heading's level and ends in its heading's title |
| `MarkdownOutline.CoveredIff` | packages/core/src/docs.ts:116-147 | In a document given by the kinds of its lines, a line with text is in some section if and only if it is no heading |
| `MarkdownOutline.HeadingPath` | packages/core/src/docs.ts:134-140 | For every document, entry j of a path is the latest heading above at depth j + 1 with none as shallow since |
| `MarkdownOutline.PlainHeadingPath` | packages/core/src/docs.ts:134-140 | When no heading skips a level, the path is the latest heading of each level not closed since |
| `MarkdownOutline.DepthIsLevelIff` | packages/core/src/docs.ts:136 | Depths are the heading levels if and only if no heading skips a level |
| `MarkdownOutline.SkippedLevelNests` | packages/core/src/docs.ts:136 | With a level skipped, a second heading of one level goes under the first |
| `MarkdownNesting.OpenHeadingsAreOpen` | packages/core/src/docs.ts:129-140 | The open headings, computed line by line, are exactly those that no later heading of their level or a smaller one has closed |
| `MarkdownNesting.StackIsNestingIff` | packages/core/src/docs.ts:134-140 | The stack holds the titles of the open headings at every line if and only if each heading closes nothing or leaves open one heading of every level above its own |
| `MarkdownNesting.NoSkipsCloseEvenly` | packages/core/src/docs.ts:136 | A document that skips no level meets that condition |
| `MarkdownNesting.PathIsNesting` | packages/core/src/docs.ts:134-140 | Under that condition a section's path is the titles of the headings open above it |
| `PlainChunks.SplitParagraphs` | packages/core/src/docs.ts:167-184 | The loop over lines yields the maximal runs of lines with text, with their line numbers |
| `TextRuns.RunsAreMaximal` | packages/core/src/docs.ts:167-184 | No run holds a blank line, none can be made longer, and they follow each other |
| `TextRuns.RunsCover` | packages/core/src/docs.ts:167-184 | Every line with text is in a run |
| `PlainChunks.FlushGroup` | packages/core/src/docs.ts:190-210 | The chunk of a group has the words of its paragraphs, counted again over its text |
| `PlainChunks.PackParagraphs` | packages/core/src/docs.ts:212-220 | The packing loop yields one chunk for each greedily filled group |
| `PlainChunks.ChunkPlain` | packages/core/src/docs.ts:166-223 | The whole call yields one chunk per greedy group of the text's paragraphs |
| `PlainChunks.FewestChunks` | packages/core/src/docs.ts:186-223 | Chunks are whole paragraphs in order, within the limit unless single, and no grouping under that rule needs fewer |
| `PlainChunks.ChunksFollow` | packages/core/src/docs.ts:194-208 | The chunks follow each other and have different ids |
| `PlainChunks.EveryLineIsHeld` | packages/core/src/docs.ts:166-223 | Every line with text is in a chunk |
| `PlainChunks.WordsOfGroup` | packages/core/src/docs.ts:196-197 | The words of a chunk's text are the sum over its paragraphs |
| `GreedyPacking.PackedIsOptimal` | packages/core/src/docs.ts:212-220 | Greedy packing groups all items in order, and no grouping that fits has fewer groups, for any limit |
| `GreedyPacking.OneApart` | packages/core/src/docs.ts:215 | Whatever the open group, the numbers of groups still to come differ by at most one |
| `Ranking.CountTerms` | packages/core/src/rank.ts:56-60 | A chunk's map holds exactly its terms, each as often as it occurs |
| `Ranking.CountDocuments` | packages/core/src/rank.ts:65-70 | The document map holds exactly the terms of the chunks, each with its number of chunks |
| `Ranking.BuildIndex` | packages/core/src/rank.ts:54-73 | All counts, lengths and the average equal a direct recount over the chunks |
| `Ranking.SaturationBounds` | packages/core/src/rank.ts:107-108 | A term's factor is above 0 and below 2.5 |
| `Ranking.OftenCountsMore` | packages/core/src/rank.ts:107-108 | A term that occurs more often in a document of the same length counts for more |
| `Ranking.LongerCountsLess` | packages/core/src/rank.ts:107-108 | A term that occurs as often counts for less in a longer document |
| `Ranking.RareTellsMore` | packages/core/src/rank.ts:101 | A term that fewer documents have has the greater idf |
| `Ranking.ScoreBounds` | packages/core/src/rank.ts:95-110 | A score is at least 0, is 0 exactly without a matching term, and else is below 2.5 times the idf of the matching terms |
| `Ranking.AddTerm` | packages/core/src/rank.ts:98-110 | One term's pass adds its share to every score in place |
| `Ranking.Retrieve` | packages/core/src/rank.ts:89-121 | The answer is the front of the sorted rankings, and empty for a query without terms |
| `Ranking.RanksBeforeIsTotalPreorder` | packages/core/src/rank.ts:113-118 | The comparator is one a sort can use |
| `Ranking.AnswerIsBest` | packages/core/src/rank.ts:112-120 | For k of 0 or more the answer is the first min(k, n) of a sorted permutation of all chunks, and nothing left out ranks before it |
| `Ranking.BestComeFirst` | packages/core/src/rank.ts:113-118 | Better scores come first, ties by file and then by line |
| `Ranking.AnswerIsUnique` | packages/core/src/rank.ts:84-88 | With no two chunks of one file and line the order depends neither on the algorithm nor on the order of indexing |
| `Ranking.TiesKeepIndexOrder` | packages/core/src/rank.ts:113-118 | Chunks that tie in score, file and line come in the order they were indexed in |
| `StableSort.SortedByIsSorted` | packages/core/src/rank.ts:113-118 | Sorting by a total preorder yields a sorted permutation |
| `StableSort.SortedByIsStable` | packages/core/src/rank.ts:113-118 | Elements that tie keep the order they had |
| `StableSort.SortedByIsTheStableSort` | packages/core/src/rank.ts:113-118 | It is the only sorted arrangement that keeps ties in order, so any stable algorithm gives it |
| `DocsContext.SelectWithin` | packages/server/src/docs/context.ts:50-64 | The loop takes a chunk exactly when it fits behind the ones taken |
| `DocsContext.ContextForPrompt` | packages/server/src/docs/context.ts:36-68 | The whole call: nothing for a budget of 0 or less, else that selection from all chunks in rank order |
| `DocsContext.WithinBudget` | packages/server/src/docs/context.ts:54 | The selection never exceeds the budget |
| `DocsContext.NothingMoreFits` | packages/server/src/docs/context.ts:54 | No chunk passed over could still be added |
| `DocsContext.GreedyIsGreatest` | packages/server/src/docs/context.ts:53-65 | Among all selections within the budget it is the lexicographically greatest in rank order |
| `BracketScanner.FindMatchingBracket` | packages/adapters/dotnet/src/cs-parse-utils.ts:9-33 | The loop answers the scanned position, or -1 |
| `BracketScanner.MatchingBracketIff` | packages/adapters/dotnet/src/cs-parse-utils.ts:9-33 | The answer is r if and only if a grammatically balanced group starts at the opener and ends at r |
| `BracketScanner.ScanOver` | packages/adapters/dotnet/src/cs-parse-utils.ts:12-31 | Inside a group the scanner passes over any balanced text, strings with brackets in them included |
| `BracketScanner.ScannedLevels` | packages/adapters/dotnet/src/cs-parse-utils.ts:12-31 | What was scanned up to the answer is one balanced text for every open group |
| `TopLevelSplit.SplitTopLevel` | packages/adapters/dotnet/src/cs-parse-utils.ts:38-72 | The loop yields the trimmed, non-blank pieces between the commas at depth 0 |
| `TopLevelSplit.PiecesOver` | packages/adapters/dotnet/src/cs-parse-utils.ts:44-69 | Balanced text without a top-level comma stays in one piece |
| `TopLevelSplit.SplitSegments` | packages/adapters/dotnet/src/cs-parse-utils.ts:38-72 | Balanced segments joined by commas split into just these, trimmed |
| `TopLevelSplit.SplitJoined` | packages/adapters/dotnet/src/cs-parse-utils.ts:38-72 | Splitting undoes joining with ", " for trimmed non-empty balanced parts without a top-level comma |
| `AttributeStripper.StripLeadingAttributes` | packages/adapters/dotnet/src/cs-parse-utils.ts:77-85 | The loop terminates, with the text stripped from the front |
| `AttributeStripper.StrippedIff` | packages/adapters/dotnet/src/cs-parse-utils.ts:77-85 | The result is `rest` if and only if the text is white space and balanced annotations followed by `rest`, which starts with neither |
| `FixtureLife.SoundRun` | packages/server/src/fixtures/store.ts:105-170 | In every interleaving the active fixture exists and is not scrapped, the wiring is the function of (active, size), and no id disappears |
| `FixtureLife.InitialIsSound` | packages/server/src/fixtures/store.ts:75-91 | So it is from whatever fixtures init read |
| `FixtureLife.RestoreUndoesScrap` | packages/server/src/fixtures/store.ts:119-137 | A scrap and a restore leave a fixture with neither mark and otherwise as it was |
| `FixtureLife.MatchedRun` | packages/server/src/fixtures/store.ts:105-152 | While no two creates of one slug and different names overlap, the sink's name is the active fixture's |
| `FixtureLife.NamesFromInitial` | packages/server/src/fixtures/store.ts:75-91 | So it is in every such run from whatever fixtures init read |
| `FixtureLife.CreateMisleadsIff` | packages/server/src/fixtures/store.ts:105-117 | From every state a run can reach, a create the store accepts can lead, with no further create, to its slug being active under a wrong name if and only if a fixture of its slug and another name is being written |
| `FixtureLife.TwoCreatesMislead` | packages/server/src/fixtures/store.ts:105-152 | Two names of one slug, created at the same time in an empty store, lead there |
| `FixtureObject.FixtureStore.Create` | packages/server/src/fixtures/store.ts:105-114 | Up to the await: a blank name or a taken slug is refused with nothing changed, else the fixture of the trimmed name is a suspended write and nothing else |
| `FixtureObject.FixtureStore.Scrap` | packages/server/src/fixtures/store.ts:119-121 | Up to the await: not found, or a suspended write of the fixture as it is now, scrapped |
| `FixtureObject.FixtureStore.Restore` | packages/server/src/fixtures/store.ts:128-133 | Up to the await: not found, or a suspended write of the fixture as it is now, not scrapped |
| `FixtureObject.FixtureStore.OnPersisted` | packages/server/src/fixtures/store.ts:114-136 | After the await: the fixture is stored, and a scrap of the active one unloads it |
| `FixtureObject.FixtureStore.OnPersistFailed` | packages/server/src/fixtures/store.ts:160-162 | A write that throws ends the operation and changes nothing else |
| `FixtureObject.FixtureStore.LoadFixture` | packages/server/src/fixtures/store.ts:139-146 | Not found, scrapped, or loaded with the sink told its name |
| `FixtureObject.FixtureStore.UnloadActive` | packages/server/src/fixtures/store.ts:148-152 | Nothing is active and the sink is told so |
| `FixtureObject.FixtureStore.RecomputeWiring` | packages/server/src/fixtures/store.ts:164-170 | The wiring becomes the function of (active, size) |
| `HeldGesture.SafeRun` | packages/bench/src/prompts/useReadyHold.ts:125-161 | With a reliable clear a timer is pending exactly while holding, never two, and a hold completes only after its full duration |
| `HeldGesture.ConsistentRun` | packages/bench/src/prompts/useReadyHold.ts:125-161 | With any clear, starts and ends take turns, so each hold gets at most one of complete and cancel, and a cancel tells its own times |
| `HeldGesture.CapturedRun` | packages/bench/src/prompts/useReadyHold.ts:168-179 | With the pointer captured, any run without a release or the timer, leaving the button and losing focus included, leaves the hold on and makes no callback |
| `HeldGesture.LettingGoCancels` | packages/bench/src/prompts/useReadyHold.ts:145-179 | A release, or leaving or losing focus uncaptured, ends the hold at once with the time it lasted and leaves no timer |
| `HeldGesture.InFullIffClears` | packages/bench/src/prompts/useReadyHold.ts:135-161 | Every hold completed in any run lasts its full duration if and only if clearTimeout removes the timer it is given |
| `HeldGesture.KeptUpCompletes` | packages/bench/src/prompts/useReadyHold.ts:135-142 | A hold that is kept up completes, and no timer is left |
| `HeldGesture.UnclearedTimerCompletesEarly` | packages/bench/src/prompts/useReadyHold.ts:136 | If it did not, a run exists in which a hold begun anew completes when an earlier one's time is up |
| `ReadyHold.ReadyButton.StartHold` | packages/bench/src/prompts/useReadyHold.ts:125-143 | A press while disabled or holding does nothing; any other starts one hold with one timer |
| `ReadyHold.ReadyButton.CancelHold` | packages/bench/src/prompts/useReadyHold.ts:145-161 | A cancel ends the hold, gives the pointer back, clears its timer and reports its times |
| `ReadyHold.ReadyButton.OnTimer` | packages/bench/src/prompts/useReadyHold.ts:135-142 | The callback completes a hold that is on, and is silent otherwise |
| `ReadyHold.ReadyButton.OnPointerLeave` | packages/bench/src/prompts/useReadyHold.ts:168-174 | Leaving the button cancels only uncaptured |
| `ReadyHold.ReadyButton.OnBlur` | packages/bench/src/prompts/useReadyHold.ts:175-179 | Losing focus cancels only uncaptured, and only when focus left the button |
| `RecentBenches.RecentFile.RecordRecentBench` | packages/server/src/bench/recent.ts:42-50 | The new file is the entry, then the others, cut to ten |
| `RecentBenches.RecentFile.UpdateRecentBench` | packages/server/src/bench/recent.ts:60-70 | A patch of one entry in place, or nothing for a repo that is not listed |
| `RecentBenches.FileIsRecentHistory` | packages/server/src/bench/recent.ts:42-70 | After any calls the file is, entry for entry, the first ten of the history that never forgets |
| `RecentBenches.FileHoldsLatest` | packages/server/src/bench/recent.ts:42-70 | Each repo once, with its latest entry and the updates since, the most recently recorded first |
| `RecentBenches.NoneLeftOut` | packages/server/src/bench/recent.ts:42-50 | A recorded repo is missing only from a full file of repos recorded more recently |
| `RecentBenches.UpdatesNeverReorder` | packages/server/src/bench/recent.ts:60-70 | Any number of updates between two clamps keep the repos, their order and their clamp times |

## Left out

- HTTP, WebSocket and Express plumbing, child processes, files and clocks: a request is a step, a file is a value, a time is a parameter.
- The host's target, setup and state routes, which read the current bench: they change nothing that is modelled. Cancelling a running build before the drain is part of closing.
- Repo paths are compared as given; the checks that refuse one before it reaches `clampTo` are not part of the model.
- Strings are sequences of Dafny characters rather than UTF-16 units; `toUpperCase` of a method is ASCII only.
- Numbers are mathematical integers and reals: nothing is said of rounding, nor of integers above 2^53.
- PromptRoundTrip.PromptRoundTrip: the target and the component, gauge, route and endpoint items are given back as the text they are written as. The prompts it covers are the ones the file can hold: a requirement, an acceptance list and headings as under the findings above; one-line fields without `\r`, and without U+2028 and U+2029 where a regular expression's dot reads them; build records as under the findings above; distinct build ids; no level-three heading in a requirement whose name the reader asks for or takes for a build's; no heading line in a summary or a document's text, which would end its section; and documents as under the findings above.
- PromptBody.ContextRead: components, gauges, routes and endpoints come back as the text of their list items; the patterns that take that text apart again (`packages/core/src/prompt.ts:383-408`) are ambiguous and not part of this model.
- PromptCode.WriteContext: for the same reason it is given each component, gauge, route and endpoint as its formatted text.
- PromptCode.SerializePrompt: it is given the target as the JSON text that `JSON.stringify` makes of it, and the context items as formatted text.
- PromptCode.ParsePrompt: it leaves the target as JSON text, so `JSON.parse` and its errors are not modelled, and the context items as text.
- The work-order document and its migration to a prompt; of `work-order.ts` only the escaping and the flow array are modelled. The prompt's state table is finite.
- FixtureGeneration.GenerateFixture: the format stamp of the file is left out, and the order of object keys that look like integers, and the key `__proto__`, are not special.
- The JSON schema generator, the faker hints and the seed hash are parameters of `FixtureGeneration`.
- Of `openapi-parse.ts` only `rewriteRefs` and its application to a table of schemas; the endpoint list is not part of this model.
- The tokenizer, its stop words and its stemmer: a chunk and a query come as their terms. The logarithm and the collation of file names are parameters with their laws. Sorting is by insertion, standing for the engine's own sort: any stable sort gives the same answer (`SortedByIsTheStableSort`).
- Reading the recent file when it is missing or broken, and two calls that read it before either writes.
- FixtureObject.FixtureStore.Create: the slug of a name and the content generated for it are parameters; the store's `init` itself, and an empty id in a file, are left out.
- The held gesture's element and pointer capture calls, its options being re-read at each call, and a clock that runs backwards.
- `mapCSharpType`, `toCamelCase` and the regular-expression surveys that use the scanner.
- The security gates on hosts, origins and paths, the user interface, MCP, the file watcher and atomic writes.
