/**
 * Manual ingestion of one URL: a placeholder document, a scrape, paragraph
 * chunks with a math heuristic, one batch of chunk rows, and a final update
 * of the document's title and math density; any failure after the
 * placeholder deletes it again.
 */
module Ingest {
  import opened Wrappers
  import opened Js

  /** Two newlines in a row start at position `k`. */
  predicate DoubleAt(s: string, k: int) {
    0 <= k && k + 1 < |s| && s[k] == '\n' && s[k + 1] == '\n'
  }

  predicate NoDouble(p: string) {
    forall k :: 0 <= k < |p| ==> !DoubleAt(p, k)
  }

  /** The end of the run of newlines starting at `i`. */
  function RunEnd(s: string, i: nat): (j: nat)
    requires i <= |s|
    ensures i <= j <= |s| && (j == |s| || s[j] != '\n')
    ensures forall k :: i <= k < j ==> s[k] == '\n'
    decreases |s| - i
  {
    if i < |s| && s[i] == '\n' then RunEnd(s, i + 1) else i
  }

  /**
   * `s.split(/\n\n+/)` from the piece starting at `start`, scanning at `i`:
   * the leftmost run of two or more newlines ends the piece and is dropped
   * whole.
   */
  function SplitFrom(s: string, start: nat, i: nat): (ps: seq<string>)
    requires start <= i <= |s|
    ensures ps != []
    decreases |s| - i
  {
    if i + 1 >= |s| then [s[start..]]
    else if DoubleAt(s, i) then
      var j := RunEnd(s, i);
      [s[start..i]] + SplitFrom(s, j, j)
    else SplitFrom(s, start, i + 1)
  }

  function Paragraphs(s: string): seq<string> {
    SplitFrom(s, 0, 0)
  }

  /** No piece keeps two newlines in a row. */
  lemma {:induction false} SplitFromClean(s: string, start: nat, i: nat)
    requires start <= i <= |s|
    requires forall k :: start <= k < i ==> !DoubleAt(s, k)
    ensures forall p :: p in SplitFrom(s, start, i) ==> NoDouble(p)
    decreases |s| - i
  {
    if i + 1 >= |s| {
      var p := s[start..];
      forall k | 0 <= k < |p|
        ensures !DoubleAt(p, k)
      {
        assert DoubleAt(p, k) ==> DoubleAt(s, start + k);
      }
    } else if DoubleAt(s, i) {
      var j := RunEnd(s, i);
      SplitFromClean(s, j, j);
      var p := s[start..i];
      forall k | 0 <= k < |p|
        ensures !DoubleAt(p, k)
      {
        assert DoubleAt(p, k) ==> DoubleAt(s, start + k);
      }
    } else {
      SplitFromClean(s, start, i + 1);
    }
  }

  /** Text without a blank line is a single paragraph. */
  lemma {:induction false} SplitFromWhole(s: string, start: nat, i: nat)
    requires start <= i <= |s|
    requires forall k :: i <= k < |s| ==> !DoubleAt(s, k)
    ensures SplitFrom(s, start, i) == [s[start..]]
    decreases |s| - i
  {
    if i + 1 < |s| {
      SplitFromWhole(s, start, i + 1);
    }
  }

  /** The pieces longer than 50 characters, in order. */
  function LongPieces(ps: seq<string>): (r: seq<string>)
    ensures |r| <= |ps|
    ensures forall p :: p in r <==> p in ps && |p| > 50
  {
    if ps == [] then []
    else (if |ps[0]| > 50 then [ps[0]] else []) + LongPieces(ps[1..])
  }

  /** The chunks ingested: the long paragraphs, at most the first 20. */
  function IngestChunks(markdown: string): (cs: seq<string>)
    ensures |cs| <= 20
    ensures forall c :: c in cs ==> |c| > 50 && NoDouble(c) && c in Paragraphs(markdown)
    ensures var long := LongPieces(Paragraphs(markdown));
            |cs| == (if |long| < 20 then |long| else 20) && cs == long[..|cs|]
  {
    var long := LongPieces(Paragraphs(markdown));
    SplitFromClean(markdown, 0, 0);
    var cs := Take(long, 20);
    assert forall c :: c in cs ==> c in long;
    cs
  }

  /** The math heuristic: a `$` or a `\begin` anywhere in the chunk. */
  predicate ContainsMath(c: string) {
    Contains(c, "$") || Contains(c, "\\begin")
  }

  /** `Math.ceil(length / 4)`. */
  function TokenCount(c: string): (n: nat)
    ensures 4 * n >= |c| && 4 * n < |c| + 4
  {
    (|c| + 3) / 4
  }

  datatype IngestChunk = IngestChunk(documentId: string, chunkIndex: nat, content: string, containsMath: bool,
                                     tokenCount: nat)

  function ChunkRow(docId: string, i: nat, c: string): IngestChunk {
    IngestChunk(docId, i, c, ContainsMath(c), TokenCount(c))
  }

  /** One row per chunk, at its position. */
  function ChunkRows(docId: string, cs: seq<string>): (rows: seq<IngestChunk>)
    ensures |rows| == |cs|
    ensures forall i :: 0 <= i < |cs| ==> rows[i] == ChunkRow(docId, i, cs[i])
  {
    seq(|cs|, i requires 0 <= i < |cs| => ChunkRow(docId, i, cs[i]))
  }

  function MathCount(rows: seq<IngestChunk>): (n: nat)
    ensures n <= |rows|
  {
    if rows == [] then 0 else (if rows[0].containsMath then 1 else 0) + MathCount(rows[1..])
  }

  /** The math density: the share of chunks with math, or 0 without chunks. */
  function Density(rows: seq<IngestChunk>): (d: real)
    ensures 0.0 <= d <= 1.0
    ensures rows == [] ==> d == 0.0
  {
    if |rows| > 0 then (MathCount(rows) as real) / (|rows| as real) else 0.0
  }

  /** What the scrape gave: an exception with its message, or the page's markdown and title. */
  datatype IngestScrape = ScrapeThrew(message: string) | Scraped(markdown: Option<string>, title: Option<string>)

  datatype IngestWrite =
    | InsertPlaceholder(url: string, sourceType: string, title: string, score: real)
    | InsertChunks(rows: seq<IngestChunk>)
    | UpdateDocument(id: string, title: string, score: real)
    | DeleteDocument(id: string)

  /** The placeholder row: titled "Processing..." with a zero score until the update. */
  function Placeholder(url: string, sourceType: string): IngestWrite {
    InsertPlaceholder(url, sourceType, "Processing...", 0.0)
  }

  datatype Ingested = Ingested(documentId: string, chunks: nat)

  /** The outcome and the writes issued, in order. */
  datatype Run = Run(result: Result<Ingested>, writes: seq<IngestWrite>)

  /** `error.message || "Ingestion failed"`. */
  function FailMessage(m: string): (r: string)
    ensures r != []
  {
    if m == "" then "Ingestion failed" else m
  }

  /** The first embedding failure among the first `n` chunks, if any. */
  function EmbedFailure(embedError: nat -> Option<string>, n: nat): (f: Option<string>)
    ensures f.None? <==> forall k :: 0 <= k < n ==> embedError(k).None?
  {
    if n == 0 then None
    else if EmbedFailure(embedError, n - 1).Some? then EmbedFailure(embedError, n - 1)
    else embedError(n - 1)
  }

  /** A failure after the placeholder: the placeholder is deleted and the error rethrown. */
  function Fail(id: string, writes: seq<IngestWrite>, message: string): Run {
    Run(Err(FailMessage(message)), writes + [DeleteDocument(id)])
  }

  /** The writes once the chunks are embedded: the batch insert, if any, then the update. */
  function AfterEmbedding(id: string, rows: seq<IngestChunk>, title: Option<string>, chunkError: Option<string>): Run {
    var w := if |rows| > 0 then [InsertChunks(rows)] else [];
    if |rows| > 0 && chunkError.Some? then Fail(id, w, chunkError.value)
    else Run(Ok(Ingested(id, |rows|)), w + [UpdateDocument(id, OrElse(title, "Untitled Document"), Density(rows))])
  }

  /** The writes once the chunks are known: the embedding calls may fail, then as above. */
  function AfterChunking(id: string, chunks: seq<string>, title: Option<string>, embedError: nat -> Option<string>,
                         chunkError: Option<string>): Run
  {
    var failure := EmbedFailure(embedError, |chunks|);
    if failure.Some? then Fail(id, [], failure.value)
    else AfterEmbedding(id, ChunkRows(id, chunks), title, chunkError)
  }

  /** What follows a successful placeholder insert, writes after that insert only. */
  function AfterPlaceholder(id: string, scrape: IngestScrape, embedError: nat -> Option<string>,
                            chunkError: Option<string>): Run
  {
    if scrape.ScrapeThrew? then Fail(id, [], scrape.message)
    else if OrElse(scrape.markdown, "") == "" then Fail(id, [], "No markdown content found")
    else AfterChunking(id, IngestChunks(scrape.markdown.value), scrape.title, embedError, chunkError)
  }

  /**
   * `ingestUrl`: `placeholder` is the placeholder insert's new id or error;
   * `embedError(k)` the error thrown by the k-th embedding call, if any;
   * `chunkError` the chunk insert's error, if any.
   */
  function IngestRun(url: string, sourceType: string, placeholder: Result<string>, scrape: IngestScrape,
                     embedError: nat -> Option<string>, chunkError: Option<string>): Run
  {
    var w0 := [Placeholder(url, sourceType)];
    if placeholder.Err? then Run(Err(placeholder.message), w0)
    else
      var rest := AfterPlaceholder(placeholder.value, scrape, embedError, chunkError);
      Run(rest.result, w0 + rest.writes)
  }

  /**
   * After the placeholder, a failure ends with the placeholder's deletion,
   * carries a non-empty message and never updates the document; a success
   * ends with the update, with a score in `[0, 1]`, and reports as many
   * chunks as rows were inserted, at most 20.
   */
  lemma AfterEmbeddingOutcome(id: string, rows: seq<IngestChunk>, title: Option<string>, chunkError: Option<string>)
    requires |rows| <= 20
    ensures var run := AfterEmbedding(id, rows, title, chunkError);
            && run.writes != []
            && (run.result.Err? ==>
                  run.writes[|run.writes| - 1] == DeleteDocument(id) && run.result.message != []
                  && forall w :: w in run.writes ==> !w.UpdateDocument?)
            && (run.result.Ok? ==>
                  && run.result == Ok(Ingested(id, |rows|))
                  && run.writes[|run.writes| - 1] == UpdateDocument(id, OrElse(title, "Untitled Document"), Density(rows))
                  && 0.0 <= Density(rows) <= 1.0
                  && run.writes[..|run.writes| - 1] == if rows == [] then [] else [InsertChunks(rows)])
  {
    var run := AfterEmbedding(id, rows, title, chunkError);
    if run.result.Ok? {
      var w := if |rows| > 0 then [InsertChunks(rows)] else [];
      assert run.writes == w + [UpdateDocument(id, OrElse(title, "Untitled Document"), Density(rows))];
    }
  }

  /** A failure deletes the placeholder last and never updates it. */
  predicate CleanedUp(id: string, run: Run) {
    && run.writes != []
    && (run.result.Err? ==>
          run.writes[|run.writes| - 1] == DeleteDocument(id) && run.result.message != []
          && forall w :: w in run.writes ==> !w.UpdateDocument?)
    && (run.result.Ok? ==>
          && run.result.value.documentId == id && run.result.value.chunks <= 20
          && var last := run.writes[|run.writes| - 1];
             last.UpdateDocument? && last.id == id && 0.0 <= last.score <= 1.0)
  }

  lemma AfterChunkingOutcome(id: string, chunks: seq<string>, title: Option<string>, embedError: nat -> Option<string>,
                             chunkError: Option<string>)
    requires |chunks| <= 20
    ensures CleanedUp(id, AfterChunking(id, chunks, title, embedError, chunkError))
  {
    if EmbedFailure(embedError, |chunks|).None? {
      AfterEmbeddingOutcome(id, ChunkRows(id, chunks), title, chunkError);
    }
  }

  /** The same holds for the whole run after the placeholder, at most 20 chunks included. */
  lemma AfterPlaceholderOutcome(id: string, scrape: IngestScrape, embedError: nat -> Option<string>,
                                chunkError: Option<string>)
    ensures CleanedUp(id, AfterPlaceholder(id, scrape, embedError, chunkError))
  {
    if scrape.Scraped? && OrElse(scrape.markdown, "") != "" {
      var chunks := IngestChunks(scrape.markdown.value);
      AfterChunkingOutcome(id, chunks, scrape.title, embedError, chunkError);
    }
  }

  /**
   * The placeholder insert always comes first; when it fails nothing else is
   * done; otherwise the run ends with the placeholder's deletion exactly
   * when it fails.
   */
  lemma IngestOutcomes(url: string, sourceType: string, placeholder: Result<string>, scrape: IngestScrape,
                       embedError: nat -> Option<string>, chunkError: Option<string>)
    ensures var run := IngestRun(url, sourceType, placeholder, scrape, embedError, chunkError);
            && run.writes != [] && run.writes[0] == Placeholder(url, sourceType)
            && (placeholder.Err? ==> run == Run(Err(placeholder.message), [Placeholder(url, sourceType)]))
            && (placeholder.Ok? ==>
                  (run.result.Err? <==> run.writes[|run.writes| - 1] == DeleteDocument(placeholder.value)))
  {
    if placeholder.Ok? {
      AfterPlaceholderOutcome(placeholder.value, scrape, embedError, chunkError);
    }
  }

  /** An embedding failure stops the run before any chunk is inserted. */
  lemma EmbedFailureInsertsNothing(id: string, markdown: string, title: Option<string>,
                                   embedError: nat -> Option<string>, chunkError: Option<string>)
    requires EmbedFailure(embedError, |IngestChunks(markdown)|).Some?
    ensures AfterChunking(id, IngestChunks(markdown), title, embedError, chunkError)
            == Run(Err(FailMessage(EmbedFailure(embedError, |IngestChunks(markdown)|).value)), [DeleteDocument(id)])
  {
  }

  /** The chunk loop: embed each chunk in turn, stopping at the first call that throws. */
  method BuildRows(id: string, chunks: seq<string>, embedError: nat -> Option<string>)
    returns (rows: seq<IngestChunk>, failure: Option<string>)
    ensures failure == EmbedFailure(embedError, |chunks|)
    ensures failure.None? ==> rows == ChunkRows(id, chunks)
  {
    rows := [];
    var index := 0;
    while index < |chunks|
      invariant 0 <= index <= |chunks|
      invariant EmbedFailure(embedError, index).None?
      invariant rows == ChunkRows(id, chunks[..index])
    {
      var e := embedError(index);
      if e.Some? {
        EmbedFailureStays(embedError, index + 1, |chunks|);
        return rows, e;
      }
      var content := chunks[index];
      rows := rows + [ChunkRow(id, index, content)];
      index := index + 1;
    }
    assert chunks[..index] == chunks;
    failure := None;
  }

  /** Once a call failed, the first failure stays the reported one. */
  lemma {:induction false} EmbedFailureStays(embedError: nat -> Option<string>, i: nat, n: nat)
    requires i <= n && EmbedFailure(embedError, i).Some?
    ensures EmbedFailure(embedError, n) == EmbedFailure(embedError, i)
    decreases n - i
  {
    if i < n {
      EmbedFailureStays(embedError, i + 1, n);
    }
  }

  /** Embedding, the batch insert and the final update, once the chunks are known. */
  method EmbedAndStore(id: string, chunks: seq<string>, title: Option<string>, embedError: nat -> Option<string>,
                       chunkError: Option<string>) returns (result: Result<Ingested>, writes: seq<IngestWrite>)
    ensures Run(result, writes) == AfterChunking(id, chunks, title, embedError, chunkError)
  {
    var rows, failure := BuildRows(id, chunks, embedError);
    writes := [];
    if failure.None? && |rows| > 0 {
      writes := [InsertChunks(rows)];
      failure := chunkError;
    }
    if failure.Some? {
      writes := writes + [DeleteDocument(id)];
      return Err(FailMessage(failure.value)), writes;
    }
    writes := writes + [UpdateDocument(id, OrElse(title, "Untitled Document"), Density(rows))];
    result := Ok(Ingested(id, |rows|));
  }

  /** Everything after the placeholder insert. */
  method ProcessDocument(id: string, scrape: IngestScrape, embedError: nat -> Option<string>,
                         chunkError: Option<string>) returns (result: Result<Ingested>, writes: seq<IngestWrite>)
    ensures Run(result, writes) == AfterPlaceholder(id, scrape, embedError, chunkError)
  {
    if scrape.ScrapeThrew? {
      return Err(FailMessage(scrape.message)), [DeleteDocument(id)];
    }
    if OrElse(scrape.markdown, "") == "" {
      return Err(FailMessage("No markdown content found")), [DeleteDocument(id)];
    }
    var chunks := IngestChunks(scrape.markdown.value);
    result, writes := EmbedAndStore(id, chunks, scrape.title, embedError, chunkError);
  }

  method IngestUrl(url: string, sourceType: string, placeholder: Result<string>, scrape: IngestScrape,
                   embedError: nat -> Option<string>, chunkError: Option<string>)
    returns (result: Result<Ingested>, writes: seq<IngestWrite>)
    ensures Run(result, writes) == IngestRun(url, sourceType, placeholder, scrape, embedError, chunkError)
  {
    writes := [Placeholder(url, sourceType)];
    if placeholder.Err? {
      return Err(placeholder.message), writes;
    }
    var rest;
    result, rest := ProcessDocument(placeholder.value, scrape, embedError, chunkError);
    writes := writes + rest;
  }
}
