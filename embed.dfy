/**
 * The embed stage: each seed paper's text is cut into chunks of at most
 * 1000 characters, each chunk is embedded and inserted as a
 * `document_chunks` row, and one log counts the inserted chunks.
 */
module Embed {
  import opened Wrappers
  import opened Js
  import opened AgentTypes

  /** The characters the regular-expression `.` does not match. */
  predicate IsTerminator(c: char) {
    c == '\n' || c == '\r' || c == '\U{2028}' || c == '\U{2029}'
  }

  predicate NoTerminator(s: string) {
    forall k :: 0 <= k < |s| ==> !IsTerminator(s[k])
  }

  /** The text with every line terminator removed. */
  function Strip(t: string): (r: string)
    ensures |r| <= |t| && NoTerminator(r)
  {
    if t == [] then []
    else (if IsTerminator(t[0]) then [] else [t[0]]) + Strip(t[1..])
  }

  /** The number of leading non-terminators, at most `cap`: what a greedy `.{1,cap}` consumes. */
  function LeadRun(t: string, cap: nat): (n: nat)
    ensures n <= cap && n <= |t|
    ensures NoTerminator(t[..n])
    ensures n < cap && n < |t| ==> IsTerminator(t[n])
  {
    if t == [] || cap == 0 || IsTerminator(t[0]) then 0 else 1 + LeadRun(t[1..], cap - 1)
  }

  /**
   * `text.match(/.{1,1000}/g) || []`: at a terminator the match fails and
   * the scan moves on one character; elsewhere it takes the longest run of
   * non-terminators up to 1000 characters.
   */
  function Chunks(t: string): seq<string>
    decreases |t|
  {
    if t == [] then []
    else if IsTerminator(t[0]) then Chunks(t[1..])
    else
      var n := LeadRun(t, 1000);
      [t[..n]] + Chunks(t[n..])
  }

  function Flatten(cs: seq<string>): string {
    if cs == [] then [] else cs[0] + Flatten(cs[1..])
  }

  lemma {:induction false} StripAppend(a: string, b: string)
    ensures Strip(a + b) == Strip(a) + Strip(b)
  {
    if a == [] {
      assert a + b == b;
    } else {
      assert (a + b)[1..] == a[1..] + b;
      StripAppend(a[1..], b);
    }
  }

  lemma {:induction false} StripClean(a: string)
    requires NoTerminator(a)
    ensures Strip(a) == a
  {
    if a != [] {
      StripClean(a[1..]);
    }
  }

  /** Every chunk is non-empty, at most 1000 characters and free of line terminators. */
  lemma {:induction false} ChunksWellFormed(t: string)
    ensures forall c :: c in Chunks(t) ==> 1 <= |c| <= 1000 && NoTerminator(c)
    decreases |t|
  {
    if t == [] {
    } else if IsTerminator(t[0]) {
      ChunksWellFormed(t[1..]);
    } else {
      var n := LeadRun(t, 1000);
      ChunksWellFormed(t[n..]);
      assert Chunks(t) == [t[..n]] + Chunks(t[n..]);
    }
  }

  /** The chunks put back together are the text with its line terminators removed. */
  lemma {:induction false} ChunksFlatten(t: string)
    ensures Flatten(Chunks(t)) == Strip(t)
    decreases |t|
  {
    if t == [] {
    } else if IsTerminator(t[0]) {
      ChunksFlatten(t[1..]);
    } else {
      var n := LeadRun(t, 1000);
      ChunksFlatten(t[n..]);
      var cs := Chunks(t);
      assert cs == [t[..n]] + Chunks(t[n..]);
      assert cs[1..] == Chunks(t[n..]);
      StripClean(t[..n]);
      StripAppend(t[..n], t[n..]);
      assert t[..n] + t[n..] == t;
    }
  }

  /** `d.content || d.snippet || ""`. */
  function DocText(d: Seed): (t: string)
    ensures t == [] || t == d.content.GetOr([]) || t == d.snippet.GetOr([])
    ensures d.content.Some? && d.content.value != [] ==> t == d.content.value
    ensures (d.content.None? || d.content.value == []) && d.snippet.Some? && d.snippet.value != [] ==> t == d.snippet.value
    ensures (d.content.None? || d.content.value == []) && (d.snippet.None? || d.snippet.value == []) ==> t == []
  {
    OrElse(d.content, OrElse(d.snippet, ""))
  }

  /** The chunks of a document that is embedded at all: none below 50 characters of text. */
  function DocChunks(d: Seed): seq<string> {
    var text := DocText(d);
    if |text| < 50 then [] else Chunks(text)
  }

  function ModelName(nebiusKey: bool): string {
    if nebiusKey then "BAAI/bge-en-icl" else "text-embedding-3-small"
  }

  /** The row for the `i`-th chunk of a document; `token_count` is a plain division. */
  function ChunkOf(docId: string, i: nat, c: string): ChunkRow {
    ChunkRow(docId, i, c, (|c| as real) / 4.0)
  }

  /**
   * The inserts for the first `i` chunks of one document: the `j`-th
   * embedding call is call number `base + j`, and `ok(k)` says whether call
   * `k` returned an embedding. The insert's own result is never checked.
   */
  function ChunkWrites(docId: string, chunks: seq<string>, ok: nat -> bool, base: nat, i: nat): (w: seq<Write>)
    requires i <= |chunks|
    ensures |w| <= i
  {
    if i == 0 then []
    else ChunkWrites(docId, chunks, ok, base, i - 1)
         + (if ok(base + i - 1) then [InsertChunk(ChunkOf(docId, i - 1, chunks[i - 1]))] else [])
  }

  /** The result so far: inserts issued and embedding calls made. */
  datatype Embedded = Embedded(writes: seq<Write>, calls: nat)

  /** The first `k` documents, in order. */
  function EmbedDocs(docs: seq<Seed>, ok: nat -> bool, k: nat): (e: Embedded)
    requires k <= |docs|
  {
    if k == 0 then Embedded([], 0)
    else
      var prev := EmbedDocs(docs, ok, k - 1);
      var cs := DocChunks(docs[k - 1]);
      Embedded(prev.writes + ChunkWrites(docs[k - 1].id, cs, ok, prev.calls, |cs|), prev.calls + |cs|)
  }

  function TotalChunks(docs: seq<Seed>, k: nat): nat
    requires k <= |docs|
  {
    if k == 0 then 0 else TotalChunks(docs, k - 1) + |DocChunks(docs[k - 1])|
  }

  function EmbedLogs(nebiusKey: bool, total: nat): seq<LogEntry> {
    if total > 0 then
      [LogEntry("embed", "Embedded " + NatToString(total) + " chunks using " + ModelName(nebiusKey) + ".", None)]
    else []
  }

  /**
   * Each insert of a document names that document, and its `chunk_index` is
   * the position of its content in the document's chunk list.
   */
  lemma {:induction false} ChunkWritesIndexed(docId: string, chunks: seq<string>, ok: nat -> bool, base: nat, i: nat)
    requires i <= |chunks|
    ensures forall w :: w in ChunkWrites(docId, chunks, ok, base, i) ==>
              w.InsertChunk? && w.chunk.documentId == docId && w.chunk.chunkIndex < i
              && w.chunk.content == chunks[w.chunk.chunkIndex]
  {
    if i > 0 {
      ChunkWritesIndexed(docId, chunks, ok, base, i - 1);
    }
  }

  /**
   * A failed chunk only drops its own insert: when every call succeeds, the
   * `j`-th insert is exactly the `j`-th chunk.
   */
  lemma {:induction false} ChunkWritesAllOk(docId: string, chunks: seq<string>, ok: nat -> bool, base: nat, i: nat)
    requires i <= |chunks|
    requires forall k: nat :: base <= k < base + i ==> ok(k)
    ensures var w := ChunkWrites(docId, chunks, ok, base, i);
            |w| == i && forall j :: 0 <= j < i ==> w[j] == InsertChunk(ChunkOf(docId, j, chunks[j]))
  {
    if i > 0 {
      ChunkWritesAllOk(docId, chunks, ok, base, i - 1);
    }
  }

  /** The stage counts one insert per successful call, so never more than there are chunks. */
  lemma {:induction false} EmbedBound(docs: seq<Seed>, ok: nat -> bool, k: nat)
    requires k <= |docs|
    ensures EmbedDocs(docs, ok, k).calls == TotalChunks(docs, k)
    ensures |EmbedDocs(docs, ok, k).writes| <= TotalChunks(docs, k)
  {
    if k > 0 {
      EmbedBound(docs, ok, k - 1);
    }
  }

  /** A document with less than 50 characters of text makes no call and no insert. */
  lemma ShortTextSkipped(docs: seq<Seed>, ok: nat -> bool, k: nat)
    requires 0 < k <= |docs| && |DocText(docs[k - 1])| < 50
    ensures EmbedDocs(docs, ok, k) == EmbedDocs(docs, ok, k - 1)
  {
  }

  /** The chunk loop of one document. */
  method EmbedDoc(docId: string, chunks: seq<string>, ok: nat -> bool, base: nat) returns (w: seq<Write>)
    ensures w == ChunkWrites(docId, chunks, ok, base, |chunks|)
  {
    w := [];
    var i := 0;
    while i < |chunks|
      invariant 0 <= i <= |chunks|
      invariant w == ChunkWrites(docId, chunks, ok, base, i)
    {
      if ok(base + i) {
        w := w + [InsertChunk(ChunkOf(docId, i, chunks[i]))];
      }
      i := i + 1;
    }
  }

  /**
   * `embedDocuments`: `nebiusKey` says whether the Nebius key is set and
   * `ok(k)` whether the `k`-th embedding call returned. Returns the partial
   * state and the inserts issued.
   */
  method EmbedStage(state: ResearchState, nebiusKey: bool, ok: nat -> bool) returns (r: Partial, writes: seq<Write>)
    ensures state.seedPapers == [] ==> r == LogsOnly([]) && writes == []
    ensures var e := EmbedDocs(state.seedPapers, ok, |state.seedPapers|);
            writes == e.writes && r == LogsOnly(EmbedLogs(nebiusKey, |e.writes|))
  {
    var docs := state.seedPapers;
    if |docs| == 0 {
      return LogsOnly([]), [];
    }
    writes := [];
    var calls: nat := 0;
    var k := 0;
    while k < |docs|
      invariant 0 <= k <= |docs|
      invariant EmbedDocs(docs, ok, k) == Embedded(writes, calls)
    {
      writes, calls := EmbedNext(docs, ok, k, writes, calls);
      k := k + 1;
    }
    var total := |writes|;
    r := LogsOnly(EmbedLogs(nebiusKey, total));
  }

  /** One turn of the document loop: a document with enough text has its chunks embedded and written. */
  method EmbedNext(docs: seq<Seed>, ok: nat -> bool, k: nat, writes: seq<Write>, calls: nat)
    returns (writes': seq<Write>, calls': nat)
    requires k < |docs| && EmbedDocs(docs, ok, k) == Embedded(writes, calls)
    ensures EmbedDocs(docs, ok, k + 1) == Embedded(writes', calls')
  {
    var text := DocText(docs[k]);
    var chunks: seq<string> := [];
    if |text| >= 50 {
      chunks := Chunks(text);
    }
    var w := EmbedDoc(docs[k].id, chunks, ok, calls);
    writes' := writes + w;
    calls' := calls + |chunks|;
  }
}
