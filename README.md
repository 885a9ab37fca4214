# Halo research agent and lab-news core, in Dafny

This project models the core of the Halo research application and proves properties of that model.

- **The research agent.** A workflow (`runResearchAgent`) loads a project and runs a fixed pipeline of stages over a shared research state. The stages are retrieve, embed, monitor sources, math OCR, expand graph, auto-tag and synthesize. After each stage the orchestrator merges the partial state the stage returned and writes the stage's log entries to the `agent_logs` table. The first stage that throws ends the run with one "Workflow failed" row.
- **Graph and ingestion actions.** One server action builds the knowledge-graph snapshot. Another ingests a URL: it inserts a placeholder document, scrapes the page, and splits it into paragraph chunks that it embeds and stores. It deletes the placeholder again on any failure.
- **Local replication.** A local RxDB copy of the documents has a schema, a jump start and a checkpointed pull handler.
- **The lab-news side.** A scraper turns source pages into categorised articles. A Redis-backed article store filters, sorts, pages, de-duplicates and counts. A report generator writes daily and weekly summaries. A set of string and list utilities supports all of these.

## How the model is built

- **Modules.** Each source file is one module. `Js` holds the few JavaScript value semantics the code relies on, and `Wrappers` holds `Option` and `Result`.
- **Outside calls become inputs.** The search provider, scraper, language models, embedding service, UUID generator, random picks and clock are all inputs. Each is modelled either as the outcome of the call or as a function from the call's number to its outcome. The stages are therefore total functions or side-effect-free methods. A stage returns the ordered list of store writes it issues next to the partial state.
- **State that changes in place becomes a class.** This covers the `agent_logs` table, the scraper's `articles`/`errors` lists, the article store's single key, the local RxDB collection and the replication's resync counter. Each method states its whole new state.
- **The category table is a parameter.** The scraper's specification functions take the keyword table as an argument. A `Scraper` keeps the module-level `CATEGORY_KEYWORDS` table in a constant field that its constructor sets, and its methods pass that field on.
- **Loops become methods.** Every loop in the source is a method with loop invariants. Its `ensures` ties the method to a specification function, and the properties are proved about that function.

## Model

| member | source | states |
|---|---|---|
| AgentTypes.Merge | src/lib/agents/workflow.ts:89 | `{ ...currentState, ...result }`: every field the stage returned replaces the state's, every other field is kept, and an empty result leaves the state unchanged |
| Workflow.InitialState | src/lib/agents/workflow.ts:19-30 | the run starts from the project's raw spec as query, no seeds, logs or findings, depth 0 and maxDepth 2 |
| Workflow.EntryRows | src/lib/agents/workflow.ts:90-94 | one agent_logs row per log entry a stage returned, in the stage's order |
| Workflow.SavedRows | src/lib/agents/workflow.ts:39-50 | one documents row per seed paper, in order, with the seed's id and the project id |
| Workflow.LogTable.constructor | src/lib/agents/workflow.ts:98-106 | the agent_logs table starts empty |
| Workflow.LogTable.Insert | src/lib/agents/workflow.ts:98-106 | `logStep` appends exactly one row and changes nothing else |
| Workflow.RunStep | src/lib/agents/workflow.ts:81-96 | a "Starting" row, then the stage's own log rows; a stage that throws propagates its message, otherwise the merged state is returned |
| Workflow.Stage | src/lib/agents/workflow.ts:34-77 | one pipeline step advances the run's trace as the step function prescribes, and the table holds exactly the rows that trace has logged; after a throw nothing more runs |
| Workflow.RunResearchAgent | src/lib/agents/workflow.ts:11-78 | a missing project throws "Project not found: id" and logs nothing; otherwise the table gains exactly the run's log and the seed documents saved are those of the run |
| Workflow.AbortedRunStops | src/lib/agents/workflow.ts:34-77 | once stage k throws, the final trace is the trace at that throw: no later stage runs or logs |
| Workflow.CompleteIffNoException | src/lib/agents/workflow.ts:32-77 | the log starts with "init" and ends with the "complete" row exactly when no stage threw; otherwise it ends with the one "Workflow failed" row carrying the thrown message |
| Retrieve.FirstPresent | src/lib/agents/nodes/retrieve.ts:27-37 | the result is empty or the first candidate array that is present |
| Retrieve.ParsePrecedence | src/lib/agents/nodes/retrieve.ts:20-37 | the response parser takes the first shape present in the fixed precedence: top-level array, `.data`, `.results`, `.web.results`, `.web.data`, `.web` as array; none present gives no results |
| Retrieve.HitTitle | src/lib/agents/nodes/retrieve.ts:54 | a seed's title is never empty: a non-empty hit title wins, and "Untitled Source" is used exactly when the title is missing or empty |
| Retrieve.Excerpt | src/lib/agents/nodes/retrieve.ts:56 | a non-empty markdown prefix of at most n characters wins; when that prefix is empty, a non-empty description; otherwise the empty string |
| Retrieve.SeedOf | src/lib/agents/nodes/retrieve.ts:52-58 | a hit becomes a seed with the generated id, its title, its url as both url and link, and a snippet of at most 200 characters |
| Retrieve.NewSeeds | src/lib/agents/nodes/retrieve.ts:52-58 | one seed per hit, in order, the i-th with the i-th generated UUID |
| Retrieve.Unique | src/lib/agents/nodes/retrieve.ts:61-62 | a seed is kept exactly when it is incoming and its id is not held already |
| Retrieve.Titles | src/lib/agents/nodes/retrieve.ts:68 | the log metadata lists the new seeds' titles, in order |
| Retrieve.RetrieveSeed | src/lib/agents/nodes/retrieve.ts:8-86 | the stage never throws and always returns exactly one log; held seeds are kept as a prefix and the log names exactly the appended ones; a failed search returns only the "Search failed" log |
| Retrieve.NoResultsOnlyLogs | src/lib/agents/nodes/retrieve.ts:41-49 | no results gives only the "No search results" log and leaves the seeds unchanged |
| Retrieve.FreshIdsDropNothing | src/lib/agents/nodes/retrieve.ts:52-74 | with freshly generated ids every hit becomes a new seed, in order, and the log reports exactly those |
| Retrieve.UniqueKeepsFresh | src/lib/agents/nodes/retrieve.ts:61-62 | the id filter drops nothing when no incoming id is already held |
| ExpandGraph.ExpandResults | src/lib/agents/nodes/expand-graph.ts:41-48 | the hits are `.data`, else `.results`, else `.web.results`, else none |
| ExpandGraph.UntilNull | src/lib/agents/nodes/expand-graph.ts:51-52 | the hits processed are the longest null-free prefix: reading `.url` of a null hit throws and ends that seed |
| ExpandGraph.Kept | src/lib/agents/nodes/expand-graph.ts:51-55 | every kept hit has a url and a title different from the seed's, and there are no more kept hits than hits |
| ExpandGraph.KeptExact | src/lib/agents/nodes/expand-graph.ts:51-55 | a hit is kept exactly when it has a url and a title different from the seed's |
| ExpandGraph.DocsFor | src/lib/agents/nodes/expand-graph.ts:57-71 | one new document per kept hit, in order, each with the next generated UUID |
| ExpandGraph.CitesFor | src/lib/agents/nodes/expand-graph.ts:73-81 | one "semantic" edge of weight 0.8 from the seed per new document, to that document's id |
| ExpandGraph.AllHits | src/lib/agents/nodes/expand-graph.ts:30-48 | the k-th expanded seed is searched with the k-th search outcome |
| ExpandGraph.Expansion | src/lib/agents/nodes/expand-graph.ts:28-87 | the collected documents and edges come in equal numbers |
| ExpandGraph.ExpansionPairs | src/lib/agents/nodes/expand-graph.ts:57-81 | the i-th edge runs from some expanded seed to the i-th new document, whose title differs from that seed's |
| ExpandGraph.SearchHitsKept | src/lib/agents/nodes/expand-graph.ts:44-55 | every collected hit passes the url, title and not-the-seed checks, and every hit of a search that returned, before its first null, that passes them is collected |
| ExpandGraph.ExpandGraphStage | src/lib/agents/nodes/expand-graph.ts:12-115 | no seeds gives only the "No seed papers" log and no writes; otherwise at most two seeds are expanded, the documents are upserted before the edges and the edges are skipped when that upsert fails; one summary log |
| ExpandGraph.ExpandSeed | src/lib/agents/nodes/expand-graph.ts:30-86 | one seed's loop yields exactly the documents and edges of its kept hits; a failed search yields none |
| ExpandGraph.CollectHits | src/lib/agents/nodes/expand-graph.ts:51-82 | the loop over one search's hits stops at the first null hit and collects exactly the kept hits' documents and edges, in order, under consecutive UUIDs |
| ExpandGraph.CollectHit | src/lib/agents/nodes/expand-graph.ts:52-81 | a kept hit appends one document and its edge with the next UUID; a skipped one changes nothing |
| ExpandGraph.EdgesFollowDocuments | src/lib/agents/nodes/expand-graph.ts:90-99 | citations are written only after a successful document upsert, and every edge's target is one of the upserted documents |
| ExpandGraph.FailedSeedSkipped | src/lib/agents/nodes/expand-graph.ts:84-86 | a seed whose search throws contributes nothing and the next seed still runs |
| MonitorSources.OfCategory | src/lib/agents/nodes/monitor-sources.ts:32-35 | a source is in the filtered list exactly when it is in the catalog with that category |
| MonitorSources.Pick | src/lib/agents/nodes/monitor-sources.ts:36 | a pick is defined exactly when the list is non-empty, and is then an element of it |
| MonitorSources.Sampled | src/lib/agents/nodes/monitor-sources.ts:37 | `.filter(Boolean)` keeps a pick exactly when it is defined |
| MonitorSources.CountOfAppend | src/lib/agents/nodes/monitor-sources.ts:37 | category counts add up over concatenated target lists |
| MonitorSources.StandardTargets | src/lib/agents/nodes/monitor-sources.ts:28-38 | standard mode scans at most four catalog sources, never a government one, and exactly one of each other category the catalog offers; deep mode scans the whole catalog |
| MonitorSources.TargetCount | src/lib/agents/nodes/monitor-sources.ts:32-37 | standard mode's target list holds one source of a non-government category the catalog offers and none of any other |
| MonitorSources.PickCount | src/lib/agents/nodes/monitor-sources.ts:36-37 | a category's pick holds one catalog source of that category exactly when the catalog offers one |
| MonitorSources.ArticleCandidates | src/lib/agents/nodes/monitor-sources.ts:82 | a link is a candidate exactly when it is longer than the source URL by more than five characters |
| MonitorSources.ArticleLinks | src/lib/agents/nodes/monitor-sources.ts:74-82 | at most 3 links are scraped in deep mode and 1 otherwise, each a mapped link passing the length filter |
| MonitorSources.GithubDoc | src/lib/agents/nodes/monitor-sources.ts:52-60 | a GitHub finding has source type "github" and at most 1500 characters of content |
| MonitorSources.BlogDoc | src/lib/agents/nodes/monitor-sources.ts:87-100 | a blog finding has source type "blog", the scraped link as url and at most 1000 characters of content |
| MonitorSources.LinkStep | src/lib/agents/nodes/monitor-sources.ts:85-101 | scraping one article link adds at most one finding |
| MonitorSources.LinkScan | src/lib/agents/nodes/monitor-sources.ts:84-104 | scraping i links adds at most i findings and no log |
| MonitorSources.GithubScan | src/lib/agents/nodes/monitor-sources.ts:49-63 | the GitHub strategy adds at most one finding and no log |
| MonitorSources.BlogScan | src/lib/agents/nodes/monitor-sources.ts:67-104 | the blog strategy adds at most 3 findings in deep mode and 1 otherwise |
| MonitorSources.SourceScan | src/lib/agents/nodes/monitor-sources.ts:42-108 | a started source logs "Scanning" once and adds at most 3 findings in deep mode and 1 otherwise |
| MonitorSources.ScanBound | src/lib/agents/nodes/monitor-sources.ts:44 | the brake bounds the haul to 43 documents in any mode, and standard mode finds at most one per scanned source |
| MonitorSources.StandardAtMostFour | src/lib/agents/nodes/monitor-sources.ts:28-44 | standard mode finds at most four documents |
| MonitorSources.ScanSource | src/lib/agents/nodes/monitor-sources.ts:42-108 | one source's scan equals its specification |
| MonitorSources.ScanBlog | src/lib/agents/nodes/monitor-sources.ts:67-104 | the blog strategy's code equals its specification |
| MonitorSources.ScanLinks | src/lib/agents/nodes/monitor-sources.ts:84-104 | the link loop equals its specification, leaving at the first throwing scrape |
| MonitorSources.LinkScanStops | src/lib/agents/nodes/monitor-sources.ts:84-108 | after a scrape throws, the source's later links change nothing |
| MonitorSources.MonitorSourcesStage | src/lib/agents/nodes/monitor-sources.ts:6-118 | the stage returns only logs (mode, one "Scanning" per started source, "Ingested" when something was found) and inserts the findings in one batch only when there are some |
| MonitorSources.ScanTargets | src/lib/agents/nodes/monitor-sources.ts:41-109 | the target loop equals its specification, leaving once the brake holds |
| MonitorSources.BrakeStops | src/lib/agents/nodes/monitor-sources.ts:44 | once the brake holds it holds for good, so breaking out equals skipping every later source |
| Embed.Strip | src/lib/agents/nodes/embed.ts:30 | removing line terminators leaves text no longer than the input and without terminators |
| Embed.LeadRun | src/lib/agents/nodes/embed.ts:30 | a greedy `.{1,1000}` match takes the longest terminator-free run, up to 1000 characters |
| Embed.StripAppend | src/lib/agents/nodes/embed.ts:30 | terminator removal distributes over concatenation |
| Embed.StripClean | src/lib/agents/nodes/embed.ts:30 | text without terminators is left as it is |
| Embed.ChunksWellFormed | src/lib/agents/nodes/embed.ts:30 | every chunk of `text.match(/.{1,1000}/g)` is non-empty, at most 1000 characters, and holds no line terminator |
| Embed.ChunksFlatten | src/lib/agents/nodes/embed.ts:30 | the chunks concatenated give back the text with only its line terminators lost |
| Embed.DocText | src/lib/agents/nodes/embed.ts:26 | a non-empty content wins; when the content is missing or empty, a non-empty snippet; otherwise the empty string |
| Embed.ChunkWrites | src/lib/agents/nodes/embed.ts:32-62 | one document issues at most one insert per chunk |
| Embed.ChunkWritesIndexed | src/lib/agents/nodes/embed.ts:49-56 | each insert names its document, and its chunk_index is the position of its content among the chunks |
| Embed.ChunkWritesAllOk | src/lib/agents/nodes/embed.ts:32-62 | a failed call drops only its own insert: when every call succeeds the j-th insert is the j-th chunk |
| Embed.EmbedBound | src/lib/agents/nodes/embed.ts:24-63 | one embedding call per chunk, and never more inserts than chunks |
| Embed.ShortTextSkipped | src/lib/agents/nodes/embed.ts:27 | a document with under 50 characters of text makes no call and no insert |
| Embed.EmbedDoc | src/lib/agents/nodes/embed.ts:32-62 | the chunk loop equals its specification |
| Embed.EmbedNext | src/lib/agents/nodes/embed.ts:24-63 | one turn of the document loop extends the writes and the count of embedding calls exactly as the specification's next document does |
| Embed.EmbedStage | src/lib/agents/nodes/embed.ts:11-70 | no seeds gives no logs and no writes; otherwise the inserts are those of the specification and the "Embedded" log appears exactly when some were made |
| MathOcr.ImageUrl | src/lib/agents/nodes/math-ocr.ts:17 | the image URL is present exactly when one of ogImage, screenshot, image is non-empty, and it is then non-empty; the first non-empty one in that order wins |
| MathOcr.VisionLogs | src/lib/agents/nodes/math-ocr.ts:14-41 | at most one log per target paper |
| MathOcr.VisionLogsFrom | src/lib/agents/nodes/math-ocr.ts:14-41 | every "Vision processed" log names a paper that had an image URL, was sent with a key, and whose call returned |
| MathOcr.NoKeyNoLogs | src/lib/agents/nodes/math-ocr.ts:19 | without the API key no paper is sent |
| MathOcr.OcrLogsBounds | src/lib/agents/nodes/math-ocr.ts:12-49 | the stage returns between one and three logs, drawn from the first three papers, and only the fallback log without a key |
| MathOcr.ExtractMath | src/lib/agents/nodes/math-ocr.ts:9-52 | the loop returns exactly the logs of the specification and nothing else |
| AutoTag.PromptTitles | src/lib/agents/nodes/auto-tag.ts:19 | the prompt names the titles of the first ten papers, in order |
| AutoTag.TitleBatchIgnoresRest | src/lib/agents/nodes/auto-tag.ts:18-19 | papers after the tenth never change the prompt |
| AutoTag.Retagged | src/lib/agents/nodes/auto-tag.ts:38 | the new metadata has `tags` set to the one-element list of the tag and keeps every other key of the old metadata, with its value |
| AutoTag.TagWrites | src/lib/agents/nodes/auto-tag.ts:33-41 | at most one update per paper |
| AutoTag.TagWritesFrom | src/lib/agents/nodes/auto-tag.ts:33-41 | every update comes from a paper whose title maps to a truthy tag and sets exactly that tag |
| AutoTag.TaggedPapersUpdated | src/lib/agents/nodes/auto-tag.ts:33-41 | every tagged paper is updated, including those past the tenth the prompt never named |
| AutoTag.AutoTagDocuments | src/lib/agents/nodes/auto-tag.ts:10-50 | no papers, a failed completion, or an answer that parses to `null` (whose title lookup throws) gives no log and no writes; otherwise the updates of the specification and the one "Ontology tags applied" log |
| Synthesize.BlockContent | src/lib/agents/nodes/synthesize.ts:32-33 | at most 1000 characters, taken from a non-empty content if there is one, else from a non-empty snippet, else empty |
| Synthesize.Blocks | src/lib/agents/nodes/synthesize.ts:30-33 | one block per paper, in order, numbered from 1 |
| Synthesize.JoinSnoc | src/lib/agents/nodes/synthesize.ts:34 | joining one more part appends the separator and that part |
| Synthesize.ContextSnoc | src/lib/agents/nodes/synthesize.ts:30-34 | the context grows paper by paper: one block, or the previous context, a blank line and the next numbered block |
| Synthesize.ReportText | src/lib/agents/nodes/synthesize.ts:65 | the stored report is never empty: the answer's content, or "No report generated." |
| Synthesize.SynthesizeReport | src/lib/agents/nodes/synthesize.ts:18-93 | no papers gives only the "No docs" log; a failed completion gives only the "Failed" log and no write; otherwise one completed report is inserted, one log is returned and one "Report Generated" finding |
| GraphWalk.GraphWalk | src/lib/agents/nodes/graph-walk.ts:16-41 | at or past maxDepth only the stop log is returned; below it the depth goes up by one with one log; seeds and findings are never touched |
| GraphWalk.WalkDepth | src/lib/agents/nodes/graph-walk.ts:17-39 | repeated walks raise the depth one at a time and never past maxDepth |
| GraphWalk.WalkReachesStop | src/lib/agents/nodes/graph-walk.ts:19-27 | after maxDepth - depth walks the next walk takes the stop branch, so the walk terminates |
| GraphSnapshot.NodeOf | src/app/actions/graph.ts:36-44 | a node keeps the document id; it is labelled by a non-empty title, and "Untitled" exactly when the title is missing or empty; it has radius 10 + 5 × score (at least 10 for a non-negative score), and is red exactly for arXiv documents |
| GraphSnapshot.Nodes | src/app/actions/graph.ts:36 | one node per document, in order |
| GraphSnapshot.NodeIds | src/app/actions/graph.ts:47 | the id set holds exactly the nodes' ids |
| GraphSnapshot.EdgeOf | src/app/actions/graph.ts:51-57 | an edge is named "source_target", a missing or zero weight becomes 1 and a missing type "semantic" |
| GraphSnapshot.Edges | src/app/actions/graph.ts:49-57 | only citations whose two endpoints are nodes give edges, so no edge dangles |
| GraphSnapshot.EdgesComplete | src/app/actions/graph.ts:50 | every citation between two nodes gives its edge |
| GraphSnapshot.EdgesAppend | src/app/actions/graph.ts:49-57 | the filter keeps the citations' order |
| GraphSnapshot.GetGraphSnapshot | src/app/actions/graph.ts:6-62 | a failed document fetch gives the empty graph; otherwise one node per document; the edges are the filtered citations between nodes when both fetches succeed, none when the citation fetch failed, and every edge joins two nodes |
| GraphSnapshot.SnapshotEdgesComplete | src/app/actions/graph.ts:47-57 | when both fetches succeed, every citation whose two ends are fetched documents appears as an edge of the snapshot |
| RxSchema.OnlyIdRequired | src/lib/rxdb/schema.ts:3-38 | a document holding only an id is valid exactly when the id is at most 100 characters |
| RxSchema.CitationNeedsEndpoints | src/lib/rxdb/schema.ts:46-68 | a citation missing either endpoint is invalid |
| RxSchema.ScoreRange | src/lib/rxdb/schema.ts:28-32 | a valid document's stored score is a number between 0 and 100 |
| RxSync.LocalDocOf | src/lib/rxdb/sync.ts:69-80 | a pulled row keeps its id, takes created_at as updated_at, is not deleted, and each missing field takes its default ("Untitled", "", "", "", "web_search", 0) |
| RxSync.LocalDocs | src/lib/rxdb/sync.ts:69-80 | one local document per pulled row, in order |
| RxSync.MappedDocValid | src/lib/rxdb/sync.ts:25-37 | a mapped row satisfies the local document schema exactly when its id is at most 100 characters and its score lies in [0, 100] |
| RxSync.Pull | src/lib/rxdb/sync.ts:54-86 | a store error is rethrown; otherwise every row is mapped, and the checkpoint becomes the last row's created_at, or stays as it was for an empty batch |
| RxSync.PullProgress | src/lib/rxdb/sync.ts:55-84 | the checkpoint never moves back, a non-empty batch moves it strictly forward, and every pulled row lies after the old bound and at or before the new one |
| RxSync.ReplayIdempotent | src/lib/rxdb/sync.ts:55-84 | with no row newer than the checkpoint a pull returns nothing and keeps the checkpoint |
| RxSync.SuccessivePulls | src/lib/rxdb/sync.ts:55-84 | every row of a later pull is newer than every row of the pull before it |
| RxSync.TieSkipped | src/lib/rxdb/sync.ts:55-84 | two rows share an instant, the batch size is 1: after the first pull the second row is never returned |
| RxSync.IdsAt | src/lib/rxdb/sync.ts:84 | the ids of the batch's rows at one instant, exactly |
| RxSync.PullSeen | src/lib/rxdb/sync.ts:54-86 | the corrected handler: same error path and mapping, and an empty batch keeps the checkpoint |
| RxSync.NoRowSkipped | src/lib/rxdb/sync.ts:55-84 | with the corrected checkpoint every due row is either pulled or still due afterwards |
| RxSync.SeenProgress | src/lib/rxdb/sync.ts:55-84 | the corrected checkpoint never moves back, and no pulled row is due again |
| RxSync.LocalCollection.constructor | src/lib/rxdb/sync.ts:9 | the local collection starts empty |
| RxSync.LocalCollection.BulkUpsert | src/lib/rxdb/sync.ts:39 | each row in turn replaces the document with its id or adds it |
| RxSync.UpsertAllKeys | src/lib/rxdb/sync.ts:39 | after the upsert every row's id is present and no other new key appears |
| RxSync.UpsertAllKeeps | src/lib/rxdb/sync.ts:39 | a document whose id no row carries keeps its value |
| RxSync.UpsertAllLastWins | src/lib/rxdb/sync.ts:39 | the last row carrying an id is the document stored under that id |
| RxSync.JumpStart | src/lib/rxdb/sync.ts:16-44 | a fetch error, an empty answer or a failing upsert leaves the collection as it was; otherwise the first 20 rows are upserted |
| RxSync.JumpStartRows | src/lib/rxdb/sync.ts:16-37 | at most 20 rows, mapped exactly as the pull handler maps them |
| RxSync.CountSubscribed | src/lib/rxdb/sync.ts:91-105 | no more matches than changes |
| RxSync.Replication.constructor | src/lib/rxdb/sync.ts:48-88 | a new replication has not resynced |
| RxSync.Replication.ReSync | src/lib/rxdb/sync.ts:102 | one resync per call |
| RxSync.Replication.OnChanges | src/lib/rxdb/sync.ts:91-105 | exactly one resync per insert into public.documents, and none for other changes |
| Ingest.RunEnd | src/app/actions/ingest.ts:30 | the end of a run of newlines: every character in between is a newline and the next one is not |
| Ingest.SplitFrom | src/app/actions/ingest.ts:30 | `split(/\n\n+/)` always yields at least one piece |
| Ingest.SplitFromClean | src/app/actions/ingest.ts:30 | no piece of the split holds two newlines in a row |
| Ingest.SplitFromWhole | src/app/actions/ingest.ts:30 | text without a blank line is one paragraph |
| Ingest.LongPieces | src/app/actions/ingest.ts:30 | a piece is kept exactly when it is longer than 50 characters |
| Ingest.IngestChunks | src/app/actions/ingest.ts:30-37 | the chunks are the first min(20, n) of the n paragraphs longer than 50 characters, in order; each is a paragraph of the markdown without a blank line |
| Ingest.TokenCount | src/app/actions/ingest.ts:53 | `Math.ceil(length / 4)`: the least n with 4n ≥ length |
| Ingest.ChunkRows | src/app/actions/ingest.ts:40-55 | one row per chunk, at its index, naming the document |
| Ingest.MathCount | src/app/actions/ingest.ts:70 | no more math chunks than chunks |
| Ingest.Density | src/app/actions/ingest.ts:69-71 | the math density lies in [0, 1] and is 0 without chunks |
| Ingest.FailMessage | src/app/actions/ingest.ts:80 | the rethrown message is never empty: the error's, or "Ingestion failed" |
| Ingest.EmbedFailure | src/app/actions/ingest.ts:40-42 | there is no embedding failure exactly when every call returned |
| Ingest.AfterEmbeddingOutcome | src/app/actions/ingest.ts:57-80 | a failure deletes the placeholder last, never updates it and carries a message; a success inserts the rows in one batch (none when empty) and ends with the update, titled by the page or "Untitled Document", with a density in [0, 1] |
| Ingest.AfterChunkingOutcome | src/app/actions/ingest.ts:40-80 | with embedding calls that may fail, failures still clean up and successes still end with the update |
| Ingest.AfterPlaceholderOutcome | src/app/actions/ingest.ts:21-81 | everything after the placeholder insert: a failure (scrape, empty markdown, embedding, chunk insert) deletes the placeholder and never updates it; a success reports the document id and at most 20 chunks |
| Ingest.IngestOutcomes | src/app/actions/ingest.ts:12-80 | the placeholder insert ("Processing...", score 0) always comes first; when it fails nothing else happens; otherwise the run fails exactly when its last write deletes the placeholder |
| Ingest.EmbedFailureInsertsNothing | src/app/actions/ingest.ts:40-63 | an embedding failure stops the run before any chunk is inserted |
| Ingest.BuildRows | src/app/actions/ingest.ts:40-55 | the chunk loop reports the first embedding failure, and without one yields one row per chunk |
| Ingest.EmbedFailureStays | src/app/actions/ingest.ts:40-42 | once a call fails, that first failure is the one reported |
| Ingest.EmbedAndStore | src/app/actions/ingest.ts:35-74 | embedding, the batch insert and the update equal their specification |
| Ingest.ProcessDocument | src/app/actions/ingest.ts:21-81 | everything after the placeholder equals its specification |
| Ingest.IngestUrl | src/app/actions/ingest.ts:8-82 | the whole action equals its specification |
| NewsUtils.RelativeTimeBuckets | lib/utils.ts:2-32 | read off the elapsed whole seconds s: under a minute "just now", then s/60 "m ago" below an hour, s/3600 "h ago" below a day, s/86400 "d ago" below a week, s/604800 "w ago" below four weeks, and the locale date beyond |
| NewsUtils.Truncate | lib/utils.ts:35-38 | text that fits comes back unchanged; longer text becomes its first maxLength characters (none for a negative bound) followed by "..." |
| Js.IndexOf | lib/utils.ts:67 | the position of the first occurrence of a character, or the length when there is none; `[^>]*` in stripHtml ends a tag at the first '>', and `\{[\s\S]*\}` in the report generator starts its match at the first '{' |
| NewsUtils.StripHtml | lib/utils.ts:66-68 | removing tags never lengthens the text or introduces a character |
| NewsUtils.StripHtmlPlain | lib/utils.ts:66-68 | text without '<' comes back unchanged |
| NewsUtils.StripHtmlComplete | lib/utils.ts:66-68 | the output holds no '<' followed later by a '>', so no tag is left |
| NewsUtils.StripHtmlNoTag | lib/utils.ts:66-68 | text with no tag comes back unchanged |
| NewsUtils.StripHtmlIdempotent | lib/utils.ts:66-68 | stripping twice is stripping once |
| NewsUtils.Dedup | lib/utils.ts:71-81 | the reference de-duplication never lengthens the list |
| NewsUtils.DeduplicateByKey | lib/utils.ts:71-81 | the `seen`-set filter equals the reference de-duplication |
| NewsUtils.KeysOfSnoc | lib/utils.ts:78 | adding an item adds its key to the key set |
| NewsUtils.DedupKeys | lib/utils.ts:71-81 | every key of the input survives de-duplication |
| NewsUtils.DedupDistinct | lib/utils.ts:71-81 | the output's keys are pairwise distinct |
| NewsUtils.PicksExtend | lib/utils.ts:71-81 | items that were first of their key in a prefix stay first in the whole list |
| NewsUtils.DedupFirst | lib/utils.ts:71-81 | the output is a subsequence of the input, in order, each item the first of its key |
| NewsDatabase.FilterArticles | lib/database.ts:29-45 | the filters keep exactly the stored articles matching every filter that is set, never more than there were |
| NewsDatabase.Insert | lib/database.ts:47-49 | inserting adds exactly one article and loses none |
| NewsDatabase.SortNewest | lib/database.ts:47-49 | the sort is a permutation of its input |
| NewsDatabase.InsertNewest | lib/database.ts:47-49 | inserting into a newest-first list keeps it newest first |
| NewsDatabase.InsertDistinct | lib/database.ts:81-83 | inserting an article with a new link keeps links distinct |
| NewsDatabase.SortNewestDistinct | lib/database.ts:81-83 | sorting keeps links distinct |
| NewsDatabase.SortNewestOrders | lib/database.ts:47-49 | the sort orders by scrapedAt, newest first |
| NewsDatabase.SortNewestSorted | lib/database.ts:47-49 | sorting a newest-first list changes nothing (the sort is stable) |
| NewsDatabase.PageStart | lib/database.ts:51-53 | the page start `(page - 1) * limit` is not negative for a page and limit of at least 1 |
| NewsDatabase.NewestSlice | lib/database.ts:56 | a slice of a newest-first list is newest first |
| NewsDatabase.SliceMembers | lib/database.ts:56 | a slice holds only elements of the list |
| NewsDatabase.SliceWindow | lib/database.ts:56 | `slice(start, start + limit)` is the window at start, cut at the end of the list |
| NewsDatabase.QueryMatches | lib/database.ts:23-60 | every returned article was stored and matches every filter set, the page is newest first, and the total counts all matches |
| NewsDatabase.QueryPage | lib/database.ts:51-57 | the page is the window of at most `limit` newest-first matches starting at `(page - 1) * limit`, empty past the end |
| NewsDatabase.TotalIgnoresPaging | lib/database.ts:57 | the total does not depend on the page or limit asked for |
| NewsDatabase.FilterSameMatches | lib/database.ts:29-45 | filters that accept the same articles give the same result |
| NewsDatabase.FilterNone | lib/database.ts:29-45 | no filters keep every article, in order |
| NewsDatabase.UniqueLinks | lib/database.ts:71-79 | the `seenLinks` pass leaves pairwise distinct links |
| NewsDatabase.SavedShape | lib/database.ts:67-84 | the saved list has distinct links, each the first article of its link, is newest first, holds min(1000, distinct links) articles, and every article left out is no newer than any kept |
| NewsDatabase.KeysOfBound | lib/database.ts:101-102 | there are no more distinct keys than articles, and none only without articles |
| NewsDatabase.StatsBounds | lib/database.ts:93-104 | totalArticles is the count, the distinct source and category counts are at most it and zero only without articles, and lastUpdated is the first article's time, null only without articles |
| NewsDatabase.Database.constructor | lib/database.ts:22 | nothing is stored before the first save |
| NewsDatabase.Database.GetArticles | lib/database.ts:23-64 | an unreachable store or an unparsable value answers the empty first page of 20 |
| NewsDatabase.Database.GetStats | lib/database.ts:93-108 | an unreachable store answers all-zero stats with no date |
| NewsDatabase.Database.SaveArticles | lib/database.ts:67-91 | a save stores exactly the de-duplicated, newest-first first thousand; a failure stores nothing |
| NewsDatabase.SaveThenRead | lib/database.ts:23-104 | reading back after a save with no filters gives the first 20 saved articles and the saved count, and the stats date the newest article |
| NewsDatabase.QueryUnfiltered | lib/database.ts:47-60 | with no filters a newest-first list reads back as its first 20 articles |
| NewsScraper.FirstHit | lib/scraper.ts:23-29 | the first table entry with a keyword in the text: it hits, none before it does, and no hit means no entry hits |
| NewsScraper.ExtractCategory | lib/scraper.ts:19-33 | with no keyword hit in the table, the source's own category, or "AI/ML" when that is empty |
| NewsScraper.CategoryFirstMatch | lib/scraper.ts:5-29 | the category of the first table entry (in declared order) whose keywords occur in the lower-cased "title description" wins, whatever the source says |
| NewsScraper.ItemAcceptance | lib/scraper.ts:58-85 | an item becomes an article exactly when its trimmed title and its link are non-empty and the link is absolute or resolves; an "http" link is kept as is, and the article carries the trimmed title and the source's id, name and region |
| NewsScraper.Accepted | lib/scraper.ts:50-89 | at most one article per container |
| NewsScraper.AcceptedFromItems | lib/scraper.ts:50-89 | every article comes from some container of the page and carries the source's id |
| NewsScraper.ScrapeAccounting | lib/scraper.ts:92-114 | one error record per failing source, naming it, and every article comes from a source whose page was fetched |
| NewsScraper.Scraper.constructor | lib/scraper.ts:5-17 | a new scraper has no articles and no errors, and files articles by the declared category table |
| NewsScraper.Scraper.CollectItems | lib/scraper.ts:47-91 | the container loop returns exactly the accepted articles, in container order |
| NewsScraper.Scraper.ScrapeSource | lib/scraper.ts:35-101 | a fetched page returns its accepted articles and records nothing; a failure returns none and appends one error naming the source |
| NewsScraper.Scraper.ScrapeAll | lib/scraper.ts:103-115 | both lists are cleared, then the articles are those of every source in order and the errors one per failed source; the articles are returned |
| NewsScraper.Scraper.ScrapeNext | lib/scraper.ts:107-109 | one turn of the source loop appends that source's accepted articles, and its error record when it failed |
| ReportGenerator.OfCategory | lib/report-generator.ts:32-39 | an article is in a category's group exactly when it is of that category; a category without articles has an empty group |
| ReportGenerator.GroupsExact | lib/report-generator.ts:32-39 | the reduction makes one group per category present, holding exactly that category's articles in input order |
| ReportGenerator.SummaryLines | lib/report-generator.ts:44-46 | one "[category] title (source)" line per article, in order |
| ReportGenerator.SummariesIgnoreRest | lib/report-generator.ts:42-47 | articles after the twentieth never reach the model |
| ReportGenerator.Project | lib/report-generator.ts:104-108 | the report lists title, link and category of every article, in order |
| ReportGenerator.LastCloseEnd | lib/report-generator.ts:93 | one past the last '}', or 0 when there is none |
| ReportGenerator.JsonSpan | lib/report-generator.ts:93 | a match of `/\{[\s\S]*\}/` starts with '{' and ends with '}' |
| ReportGenerator.JsonSpanExists | lib/report-generator.ts:93-96 | the match exists exactly when some '{' comes before some '}' |
| ReportGenerator.DailyOutcomes | lib/report-generator.ts:21-124 | no articles gives the fixed "No research published today." report; otherwise the report lists every article; a throwing call gives the "N research articles published across K categories." summary with K the distinct categories and no big news; a parsed JSON answer gives its summary and flag; no span or a failed parse gives the default summary and no big news; the date is always the day of the call |
| ReportGenerator.OfDay | lib/report-generator.ts:128-136 | an article is in a day's group exactly when it was scraped on that day |
| ReportGenerator.DaysOf | lib/report-generator.ts:130 | each article's UTC day, in order |
| ReportGenerator.InsertDay | lib/report-generator.ts:141 | inserting a day adds exactly it |
| ReportGenerator.SortDays | lib/report-generator.ts:141 | the sort keeps exactly the days it was given |
| ReportGenerator.InsertDayDescending | lib/report-generator.ts:141 | inserting a new day into a strictly newest-first list keeps it so |
| ReportGenerator.SortDaysDescending | lib/report-generator.ts:141 | distinct days sort strictly newest first |
| ReportGenerator.Weekly | lib/report-generator.ts:126-147 | one report per reported day, at most seven |
| ReportGenerator.DistinctDays | lib/report-generator.ts:128-140 | the grouping yields each day present exactly once |
| ReportGenerator.SortedDaysShape | lib/report-generator.ts:140-141 | the days present, strictly newest first |
| ReportGenerator.ReportDaysShape | lib/report-generator.ts:140-142 | the reported days are days of some article, strictly newest first, and a day is left out only when seven newer days are reported |
| ReportGenerator.TakeNewest | lib/report-generator.ts:142 | the first n of a strictly newest-first list are its n newest days |
| ReportGenerator.WeeklyReports | lib/report-generator.ts:139-144 | each weekly report covers exactly its day's articles, in input order, so none is the empty-day report, and carries the date of the call |

## Left out

- Console output, the 500 ms politeness delays (`sleep`, `setTimeout`) and the Redis client's connection caching are not modelled. They change nothing the code returns or stores.
- Clocks are not modelled. Every `new Date()` is an input: a `now` in milliseconds, a `today` date string, or an omitted log timestamp. One scrape call uses a single timestamp for all of its articles and errors.
- UUIDs, random picks and every provider call are inputs, as described above. This covers Firecrawl search, scrape and map, the OpenAI/Nebius completions and embeddings, and the Supabase and Redis reads.
- `JSON.parse` of model output is a `parse` parameter in `ReportGenerator.Daily`, and its result is the parsed answer in `AutoTag`. A parse that returns an object without the expected fields is not distinguished from one that supplies them.
- AutoTag.AutoTagDocuments: looking a title up in a parsed answer finds only an object's own keys. A parsed `null` throws and is modelled. An array or a string indexed by a title such as "0" or "length", and keys inherited from `Object.prototype` such as "constructor", are read as absent.
- String lengths count characters, not UTF-16 code units. JavaScript's `.length`, `slice`, `substring` and the regex `.{1,1000}` (without the `u` flag) count code units and can split a surrogate pair. For text outside the Basic Multilingual Plane this shifts the 50, 200, 500, 1000 and 1500 caps. The affected members are `Retrieve.Excerpt`, `ExpandGraph.DocOf`, `Embed.DocChunks`, `Embed.LeadRun`, `Synthesize.BlockContent`, `Ingest.LongPieces`, `Ingest.IngestChunks` and `NewsUtils.Truncate`.
- Fields read from JSON must be strings. `Js.StringField` reads a field that holds a non-string as absent. The source keeps any truthy `title` or `url` of a search hit (`Retrieve.HitTitle`, `Retrieve.SeedOf`, `ExpandGraph.Keep`), and it throws when it calls `.slice` on a `markdown` that is not a string (`Retrieve.Excerpt`). Neither is modelled.
- Store-side behaviour is not modelled. The store's `limit(1000)`, `limit(2000)` and `limit(20)` are taken as already applied to the rows it returns. A partial failure inside RxDB's `bulkUpsert` is treated as a whole failure. Database constraints and the vector dimension of embeddings are left out.
- Strings are modelled only in part. `toLowerCase` and `trim` are modelled on ASCII only; Unicode case folding and Unicode whitespace are not.
- URL handling is an input. Resolving a relative link (`new URL(link, source.url)`) gives `RawItem.resolved`. `getDomain`, `isValidUrl` and `sleep` in lib/utils.ts are not modelled, because they only wrap the platform's URL parser and timer.
- `toLocaleDateString` is a `localeDate` parameter of `NewsUtils.FormatRelativeTime`.
- Dates are numbers. `new Date(x).toISOString().split('T')[0]` is the UTC day number `scrapedAt / 86400000`. Sorting ISO day strings in reverse `localeCompare` order is modelled as sorting day numbers in descending order. The two agree for years 0 to 9999. Invalid dates, NaN and `Infinity` are not representable.
- Numbers are unbounded integers or reals. JavaScript's floating point is not modelled: `token_count` in the embed stage and the math density are exact quotients.
- The prompts' wording is not modelled. Only the data put into them is: the titles, the article lines and the context blocks.
- The Redis key's 30-day expiry is not modelled.
- `Workflow.RunResearchAgent` takes each stage's outcome (the partial state it returned, or the message it threw) as an input. It does not call the stage functions. The stages are modelled and proved on their own in their modules.
- `Workflow.LogTable.Insert`: the metadata of a stage's log entry is kept, but a failed `agent_logs` insert is not modelled, because the source never checks it.
- `NewsDatabase.Database.GetArticles` and `NewsDatabase.Database.GetStats` state only the failure path in their own contracts. The success path is proved about the functions they read, `Query` and `StatsOf`, in `NewsDatabase.QueryMatches`, `NewsDatabase.QueryPage` and `NewsDatabase.StatsBounds`. Negative page numbers, which the source passes on to `slice`, are covered only by `Query` itself.
- ExpandGraph.Kept: its own contract states only that kept hits pass the checks. Dafny would otherwise instantiate the converse at every use of `Kept`. The converse, that every hit passing the checks is kept, is proved separately in `ExpandGraph.KeptExact`.
- `Retrieve.RetrieveSeed` filters seeds by id exactly as the source does. The ids are freshly generated, so the filter can drop nothing, as `Retrieve.FreshIdsDropNothing` shows. The source's evident intent of de-duplicating search hits against held papers, for example by URL, is not what it does and is not modelled.
- The `_attachments` object of a local document is not modelled, because it is always empty.
- lib/scraper.ts's `close` does nothing and is not modelled.

## Findings

| source | as written | input that shows it | evidently intended | confidence | as-written member | corrected member |
|---|---|---|---|---|---|---|
| src/lib/rxdb/sync.ts:55-84 | the pull handler asks for rows with `created_at` strictly greater than the checkpoint, in batches of `batchSize`, and the checkpoint is the last pulled row's `created_at` | two rows `a`, `b` with the same `created_at` and a batch size of 1: the first pull returns `a` and moves the checkpoint to that instant, and no later pull ever returns `b` | every row is eventually pulled, for example by keeping the ids already pulled at the checkpoint's instant and asking for `created_at >= checkpoint` minus those ids | not executed | RxSync.TieSkipped | RxSync.PullSeen, RxSync.NoRowSkipped |
