/**
 * The research agent's shared state and the records its stages exchange:
 * log entries, seed papers, findings, the partial state a stage returns and
 * the rows it writes to the remote store.
 */
module AgentTypes {
  import opened Wrappers
  import opened Js

  /** An open, schema-less metadata bag. */
  type Meta = map<string, Json>

  /** A log object returned by a stage (its timestamp comes from the clock and is left out). */
  datatype LogEntry = LogEntry(step: string, message: string, metadata: Option<Meta>)

  /**
   * A seed paper held in the pipeline state. The retrieve stage fills `id`,
   * `title`, `url`, `snippet` and `link`; later stages also read the loosely
   * typed `content`, `metadata` and image fields, so they are optional here.
   */
  datatype Seed = Seed(
    id: string,
    title: string,
    url: Option<string>,
    snippet: Option<string>,
    link: Option<string>,
    content: Option<string>,
    metadata: Option<Meta>,
    ogImage: Option<string>,
    screenshot: Option<string>,
    image: Option<string>)

  datatype Verdict = Supported | Debated | Refuted | Unknown

  datatype ClaimCitation = ClaimCitation(documentId: string, chunkId: string, relevanceScore: real, snippet: string)

  datatype Finding = Finding(claimText: string, verdict: Verdict, confidence: real, citations: seq<ClaimCitation>)

  /** The pipeline state threaded through the stages. */
  datatype ResearchState = ResearchState(
    query: Option<string>,
    projectId: string,
    seedPapers: seq<Seed>,
    depth: int,
    maxDepth: int,
    logs: seq<LogEntry>,
    findings: seq<Finding>)

  /** What a stage returns: only the keys it sets are present. */
  datatype Partial = Partial(
    seedPapers: Option<seq<Seed>>,
    depth: Option<int>,
    logs: Option<seq<LogEntry>>,
    findings: Option<seq<Finding>>)

  /** `{ logs }`, the result of most stages. */
  function LogsOnly(logs: seq<LogEntry>): Partial {
    Partial(None, None, Some(logs), None)
  }

  /**
   * `{ ...state, ...partial }`: a key the stage returned replaces the state's
   * value, every other key keeps its value. In particular `logs` is replaced,
   * never concatenated.
   */
  function Merge(s: ResearchState, p: Partial): (r: ResearchState)
    ensures r.query == s.query && r.projectId == s.projectId && r.maxDepth == s.maxDepth
    ensures r.seedPapers == (if p.seedPapers.Some? then p.seedPapers.value else s.seedPapers)
    ensures r.depth == (if p.depth.Some? then p.depth.value else s.depth)
    ensures r.logs == (if p.logs.Some? then p.logs.value else s.logs)
    ensures r.findings == (if p.findings.Some? then p.findings.value else s.findings)
    ensures p == Partial(None, None, None, None) ==> r == s
  {
    s.(seedPapers := p.seedPapers.GetOr(s.seedPapers),
       depth := p.depth.GetOr(s.depth),
       logs := p.logs.GetOr(s.logs),
       findings := p.findings.GetOr(s.findings))
  }

  /** A row of the `documents` table as the stages write it. */
  datatype DocRow = DocRow(
    id: string,
    projectId: string,
    title: string,
    url: string,
    sourceType: string,
    content: string,
    score: Option<real>,     // math_density_score, None when the writer leaves it unset
    metadata: Option<Meta>)

  /** A row of the `citations` table. */
  datatype CitationRow = CitationRow(source: string, target: string, citationType: string, weight: real)

  /** A row of the `document_chunks` table (the embedding vector is left out). */
  datatype ChunkRow = ChunkRow(documentId: string, chunkIndex: nat, content: string, tokenCount: real)

  /** A row of the `validation_reports` table. */
  datatype ReportRow = ReportRow(projectId: string, status: string, summary: string)

  /** One write a stage issues to the remote store, in issue order. */
  datatype Write =
    | UpsertDocuments(docs: seq<DocRow>)
    | InsertDocuments(docs: seq<DocRow>)
    | UpsertCitations(citations: seq<CitationRow>)
    | InsertChunk(chunk: ChunkRow)
    | UpdateMetadata(docId: string, metadata: Meta)
    | InsertReport(report: ReportRow)
}
