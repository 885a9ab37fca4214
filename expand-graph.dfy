/**
 * The expand-graph stage: a search per seed (the first two only), each
 * acceptable hit becoming a new document paired with one "semantic" edge
 * from its seed, then two ordered batch writes.
 */
module ExpandGraph {
  import opened Wrappers
  import opened Js
  import opened AgentTypes
  import opened Retrieve

  /** The documents and edges collected so far. */
  datatype Batch = Batch(docs: seq<DocRow>, citations: seq<CitationRow>)

  /**
   * This stage's shorter parse: `raw?.data`, `raw?.results` when arrays,
   * else a truthy `raw?.web?.results`. A truthy non-array there yields no
   * document either way (a string iterates into hits without fields, any
   * other value throws before anything is collected).
   */
  function ExpandResults(raw: Json): (rs: seq<Json>)
    ensures rs == [] || Some(rs) == ArrayField(raw, "data") || Some(rs) == ArrayField(raw, "results")
            || Some(rs) == WebField(raw, "results")
  {
    if ArrayField(raw, "data").Some? then ArrayField(raw, "data").value
    else if ArrayField(raw, "results").Some? then ArrayField(raw, "results").value
    else if WebField(raw, "results").Some? then WebField(raw, "results").value
    else []
  }

  /** The hits before the first null one: reading `result.url` on null throws and ends that seed's loop. */
  function UntilNull(rs: seq<Json>): (r: seq<Json>)
    ensures |r| <= |rs| && r == rs[..|r|] && NoNull(r)
    ensures |r| < |rs| ==> rs[|r|].JNull?
  {
    if rs == [] || rs[0].JNull? then []
    else [rs[0]] + UntilNull(rs[1..])
  }

  /** A hit becomes a document when it has a url and a title, and the title is not the seed's own. */
  predicate Keep(seed: Seed, hit: Json) {
    OrElse(StringField(hit, "url"), "") != [] && OrElse(StringField(hit, "title"), "") != []
    && StringField(hit, "title") != Some(seed.title)
  }

  /** The kept hits, in order. */
  function Kept(seed: Seed, rs: seq<Json>): (r: seq<Json>)
    ensures |r| <= |rs|
    ensures forall h :: h in r ==> Keep(seed, h)
  {
    if rs == [] then []
    else Kept(seed, rs[..|rs| - 1]) + (if Keep(seed, rs[|rs| - 1]) then [rs[|rs| - 1]] else [])
  }

  /** The kept hits are exactly the hits that pass the checks. */
  lemma {:induction false} KeptExact(seed: Seed, rs: seq<Json>)
    ensures forall h :: h in Kept(seed, rs) <==> h in rs && Keep(seed, h)
  {
    if rs != [] {
      var p := rs[..|rs| - 1];
      KeptExact(seed, p);
      assert rs == p + [rs[|rs| - 1]];
    }
  }

  /** The hits of one seed's search that become documents. */
  function SeedHits(seed: Seed, o: SearchOutcome): seq<Json> {
    if o.SearchThrew? then [] else Kept(seed, UntilNull(ExpandResults(Payload(o))))
  }

  /** The document row for a kept hit. */
  function DocOf(projectId: string, hit: Json, id: string): DocRow {
    DocRow(id, projectId, OrElse(StringField(hit, "title"), ""), OrElse(StringField(hit, "url"), ""),
           "web_search", Excerpt(hit, 500), Some(0.2), None)
  }

  /** The documents for a seed's kept hits; the j-th draws the UUID numbered `base + j`. */
  function DocsFor(projectId: string, hits: seq<Json>, base: nat, newId: nat -> string): (ds: seq<DocRow>)
    ensures |ds| == |hits|
    ensures forall j :: 0 <= j < |hits| ==> ds[j] == DocOf(projectId, hits[j], newId(base + j))
  {
    seq(|hits|, j requires 0 <= j < |hits| => DocOf(projectId, hits[j], newId(base + j)))
  }

  /** One edge per document, from the seed to the document. */
  function CitesFor(seedId: string, n: nat, base: nat, newId: nat -> string): (cs: seq<CitationRow>)
    ensures |cs| == n
    ensures forall j :: 0 <= j < n ==> cs[j] == CitationRow(seedId, newId(base + j), "semantic", 0.8)
  {
    seq(n, j requires 0 <= j < n => CitationRow(seedId, newId(base + j), "semantic", 0.8))
  }

  /** The hits of every expanded seed; the k-th seed is searched by the k-th search call. */
  function AllHits(seeds: seq<Seed>, search: nat -> SearchOutcome): (hs: seq<seq<Json>>)
    ensures |hs| == |seeds|
    ensures forall k :: 0 <= k < |seeds| ==> hs[k] == SeedHits(seeds[k], search(k))
  {
    seq(|seeds|, k requires 0 <= k < |seeds| => SeedHits(seeds[k], search(k)))
  }

  /** What the first `k` seeds contribute, given each seed's kept hits; UUIDs are drawn in document order. */
  function Expansion(projectId: string, seeds: seq<Seed>, hits: seq<seq<Json>>, newId: nat -> string, k: nat)
    : (b: Batch)
    requires |hits| == |seeds| && k <= |seeds|
    ensures |b.docs| == |b.citations|
  {
    if k == 0 then Batch([], [])
    else
      var prev := Expansion(projectId, seeds, hits, newId, k - 1);
      Batch(prev.docs + DocsFor(projectId, hits[k - 1], |prev.docs|, newId),
            prev.citations + CitesFor(seeds[k - 1].id, |hits[k - 1]|, |prev.docs|, newId))
  }

  /** A document and its edge, as expanding `seed` writes them. */
  predicate PairedFrom(projectId: string, seed: Seed, d: DocRow, c: CitationRow) {
    && c == CitationRow(seed.id, d.id, "semantic", 0.8)
    && d.projectId == projectId && d.title != [] && d.url != [] && d.title != seed.title
  }

  /** For each collected document, the index of the seed whose search found it. */
  ghost function Origins(hits: seq<seq<Json>>, k: nat): (o: seq<nat>)
    requires k <= |hits|
    ensures forall i :: 0 <= i < |o| ==> o[i] < k
  {
    if k == 0 then [] else Origins(hits, k - 1) + seq(|hits[k - 1]|, _ => k - 1)
  }

  /** Every hit listed for a seed passes that seed's filter. */
  predicate AllKept(seeds: seq<Seed>, hits: seq<seq<Json>>) {
    |hits| == |seeds| && forall j, h :: 0 <= j < |seeds| && h in hits[j] ==> Keep(seeds[j], h)
  }

  /**
   * Every new document comes with exactly one edge, at the same position:
   * from the expanded seed that found it to that document, typed
   * "semantic" with weight 0.8; each document has a url and a title, and
   * none carries its seed's own title.
   */
  lemma {:induction false} ExpansionPairs(projectId: string, seeds: seq<Seed>, hits: seq<seq<Json>>,
                                          newId: nat -> string, k: nat)
    requires AllKept(seeds, hits) && k <= |seeds|
    ensures var b := Expansion(projectId, seeds, hits, newId, k);
            var o := Origins(hits, k);
            && |o| == |b.docs|
            && forall i :: 0 <= i < |b.docs| ==> PairedFrom(projectId, seeds[o[i]], b.docs[i], b.citations[i])
  {
    if k > 0 {
      ExpansionPairs(projectId, seeds, hits, newId, k - 1);
      var prev := Expansion(projectId, seeds, hits, newId, k - 1);
      var n := |prev.docs|;
      var ds := DocsFor(projectId, hits[k - 1], n, newId);
      var cs := CitesFor(seeds[k - 1].id, |hits[k - 1]|, n, newId);
      var o := seq(|hits[k - 1]|, _ => k - 1);
      SeedPairs(projectId, seeds, k - 1, hits[k - 1], n, newId);
      PairedAppend(projectId, seeds, Origins(hits, k - 1), prev.docs, prev.citations, o, ds, cs);
    }
  }

  /** Position by position, each document and edge were written for the seed `o` names. */
  predicate PairedAll(projectId: string, seeds: seq<Seed>, o: seq<nat>, docs: seq<DocRow>, cites: seq<CitationRow>) {
    && |o| == |docs| == |cites|
    && forall i :: 0 <= i < |docs| ==> o[i] < |seeds| && PairedFrom(projectId, seeds[o[i]], docs[i], cites[i])
  }

  lemma PairedAppend(projectId: string, seeds: seq<Seed>, o1: seq<nat>, d1: seq<DocRow>, c1: seq<CitationRow>,
                     o2: seq<nat>, d2: seq<DocRow>, c2: seq<CitationRow>)
    requires PairedAll(projectId, seeds, o1, d1, c1) && PairedAll(projectId, seeds, o2, d2, c2)
    ensures PairedAll(projectId, seeds, o1 + o2, d1 + d2, c1 + c2)
  {
    var o, d, c := o1 + o2, d1 + d2, c1 + c2;
    forall i | 0 <= i < |d|
      ensures o[i] < |seeds| && PairedFrom(projectId, seeds[o[i]], d[i], c[i])
    {
      if i >= |d1| {
        assert o[i] == o2[i - |d1|] && d[i] == d2[i - |d1|] && c[i] == c2[i - |d1|];
      }
    }
  }

  /** The documents and edges of one seed's kept hits are paired with that seed. */
  lemma SeedPairs(projectId: string, seeds: seq<Seed>, k: nat, hits: seq<Json>, base: nat, newId: nat -> string)
    requires k < |seeds| && forall h :: h in hits ==> Keep(seeds[k], h)
    ensures PairedAll(projectId, seeds, seq(|hits|, _ => k), DocsFor(projectId, hits, base, newId),
                      CitesFor(seeds[k].id, |hits|, base, newId))
  {
    var ds := DocsFor(projectId, hits, base, newId);
    var cs := CitesFor(seeds[k].id, |hits|, base, newId);
    forall j | 0 <= j < |hits|
      ensures PairedFrom(projectId, seeds[k], ds[j], cs[j])
    {
      assert hits[j] in hits;
    }
  }

  /** A seed's listed hits are exactly those of its search before the first null that pass its filter. */
  lemma SearchHitsKept(seeds: seq<Seed>, search: nat -> SearchOutcome)
    ensures AllKept(seeds, AllHits(seeds, search))
    ensures forall k, h :: 0 <= k < |seeds| && !search(k).SearchThrew?
                           && h in UntilNull(ExpandResults(Payload(search(k)))) && Keep(seeds[k], h)
                           ==> h in AllHits(seeds, search)[k]
  {
    forall k | 0 <= k < |seeds| && !search(k).SearchThrew?
      ensures forall h :: h in UntilNull(ExpandResults(Payload(search(k)))) && Keep(seeds[k], h)
                          ==> h in AllHits(seeds, search)[k]
    {
      KeptExact(seeds[k], UntilNull(ExpandResults(Payload(search(k)))));
    }
  }

  /** The writes for a batch: documents first, and edges only when the document upsert reported no error. */
  function BatchWrites(b: Batch, docUpsertFailed: bool): seq<Write> {
    if |b.docs| == 0 then []
    else [UpsertDocuments(b.docs)] + (if docUpsertFailed then [] else [UpsertCitations(b.citations)])
  }

  const NoSeedsLog := LogEntry("expand_graph", "No seed papers to expand from.", None)

  function SummaryLog(b: Batch): LogEntry {
    if |b.docs| > 0 then
      LogEntry("expand_graph", "Expanded graph with " + NatToString(|b.docs|) + " new nodes and "
                               + NatToString(|b.citations|) + " edges.", None)
    else LogEntry("expand_graph", "No new related papers found via search.", None)
  }

  /**
   * `expandGraph`: `search(k)` is what the search for the k-th seed gave,
   * `newId(n)` the n-th generated UUID, and `docUpsertFailed` whether the
   * document upsert reported an error. Returns the partial state and the
   * writes issued, in order.
   */
  method ExpandGraphStage(state: ResearchState, search: nat -> SearchOutcome, newId: nat -> string, docUpsertFailed: bool)
    returns (r: Partial, writes: seq<Write>)
    ensures |state.seedPapers| == 0 ==> r == LogsOnly([NoSeedsLog]) && writes == []
    ensures |state.seedPapers| > 0 ==>
              var seeds := Take(state.seedPapers, 2);
              var b := Expansion(state.projectId, seeds, AllHits(seeds, search), newId, |seeds|);
              r == LogsOnly([SummaryLog(b)]) && writes == BatchWrites(b, docUpsertFailed)
  {
    if |state.seedPapers| == 0 {
      return LogsOnly([NoSeedsLog]), [];
    }
    var seeds := Take(state.seedPapers, 2);
    var docs: seq<DocRow> := [];
    var citations: seq<CitationRow> := [];
    var k := 0;
    while k < |seeds|
      invariant 0 <= k <= |seeds|
      invariant Batch(docs, citations) == Expansion(state.projectId, seeds, AllHits(seeds, search), newId, k)
    {
      var seedDocs, seedCitations := ExpandSeed(state.projectId, seeds[k], search(k), newId, |docs|);
      docs, citations := docs + seedDocs, citations + seedCitations;
      k := k + 1;
    }
    var b := Batch(docs, citations);
    writes := [];
    if |docs| > 0 {
      writes := [UpsertDocuments(docs)];
      if !docUpsertFailed {
        writes := writes + [UpsertCitations(citations)];
      }
    }
    return LogsOnly([SummaryLog(b)]), writes;
  }

  /**
   * The body of the per-seed `try`: walks the hits until the end or a null
   * hit, collecting a document and its edge for each kept one; `base` is
   * the number of UUIDs drawn before. A search that threw collects nothing.
   */
  method ExpandSeed(projectId: string, seed: Seed, outcome: SearchOutcome, newId: nat -> string, base: nat)
    returns (docs: seq<DocRow>, citations: seq<CitationRow>)
    ensures docs == DocsFor(projectId, SeedHits(seed, outcome), base, newId)
    ensures citations == CitesFor(seed.id, |SeedHits(seed, outcome)|, base, newId)
  {
    docs, citations := [], [];
    if outcome.SearchThrew? {
      return;
    }
    var results := ExpandResults(Payload(outcome));
    docs, citations := CollectHits(projectId, seed, results, newId, base);
  }

  /** The loop over one search's hits: stops at the first null hit and collects the kept ones. */
  method CollectHits(projectId: string, seed: Seed, results: seq<Json>, newId: nat -> string, base: nat)
    returns (docs: seq<DocRow>, citations: seq<CitationRow>)
    ensures docs == DocsFor(projectId, Kept(seed, UntilNull(results)), base, newId)
    ensures citations == CitesFor(seed.id, |Kept(seed, UntilNull(results))|, base, newId)
  {
    docs, citations := [], [];
    var i := 0;
    ghost var kept: seq<Json> := [];
    while i < |results|
      invariant 0 <= i <= |results|
      invariant forall j :: 0 <= j < i ==> !results[j].JNull?
      invariant kept == Kept(seed, results[..i])
      invariant docs == DocsFor(projectId, kept, base, newId)
      invariant citations == CitesFor(seed.id, |kept|, base, newId)
    {
      var result := results[i];
      if result.JNull? {
        break;
      }
      KeptSnoc(seed, results, i);
      docs, citations, kept := CollectHit(projectId, seed, result, newId, base, kept, docs, citations);
      i := i + 1;
    }
    UntilNullAt(results, i);
  }

  /** One hit of the loop: a kept hit adds its document, with the next UUID, and its edge. */
  method CollectHit(projectId: string, seed: Seed, result: Json, newId: nat -> string, base: nat,
                    ghost kept: seq<Json>, docs: seq<DocRow>, citations: seq<CitationRow>)
    returns (docs': seq<DocRow>, citations': seq<CitationRow>, ghost kept': seq<Json>)
    requires docs == DocsFor(projectId, kept, base, newId)
    requires citations == CitesFor(seed.id, |kept|, base, newId)
    ensures kept' == kept + (if Keep(seed, result) then [result] else [])
    ensures docs' == DocsFor(projectId, kept', base, newId)
    ensures citations' == CitesFor(seed.id, |kept'|, base, newId)
  {
    docs', citations', kept' := docs, citations, kept;
    if Keep(seed, result) {
      var id := newId(base + |docs|);
      DocsForSnoc(projectId, seed.id, kept, result, base, newId);
      docs' := docs + [DocOf(projectId, result, id)];
      citations' := citations + [CitationRow(seed.id, id, "semantic", 0.8)];
      kept' := kept + [result];
    }
  }

  lemma KeptSnoc(seed: Seed, rs: seq<Json>, i: nat)
    requires i < |rs|
    ensures Kept(seed, rs[..i + 1]) == Kept(seed, rs[..i]) + (if Keep(seed, rs[i]) then [rs[i]] else [])
  {
    assert rs[..i + 1][..i] == rs[..i];
  }

  /** Collecting one more kept hit appends its document and its edge. */
  lemma DocsForSnoc(projectId: string, seedId: string, hits: seq<Json>, h: Json, base: nat, newId: nat -> string)
    ensures DocsFor(projectId, hits + [h], base, newId)
            == DocsFor(projectId, hits, base, newId) + [DocOf(projectId, h, newId(base + |hits|))]
    ensures CitesFor(seedId, |hits| + 1, base, newId)
            == CitesFor(seedId, |hits|, base, newId) + [CitationRow(seedId, newId(base + |hits|), "semantic", 0.8)]
  {
  }

  /** The loop's stopping point is the first null hit, or the end. */
  lemma {:induction false} UntilNullAt(rs: seq<Json>, i: nat)
    requires i <= |rs| && forall j :: 0 <= j < i ==> !rs[j].JNull?
    requires i == |rs| || rs[i].JNull?
    ensures UntilNull(rs) == rs[..i]
  {
    if i > 0 {
      assert rs[1..][..i - 1] == rs[..i][1..];
      UntilNullAt(rs[1..], i - 1);
    }
  }

  /**
   * Edges are written only after a successful document upsert, and then
   * every edge points at a document of that upsert.
   */
  lemma EdgesFollowDocuments(b: Batch, docUpsertFailed: bool, i: nat)
    requires |b.docs| == |b.citations| && forall j :: 0 <= j < |b.docs| ==> b.citations[j].target == b.docs[j].id
    requires i < |BatchWrites(b, docUpsertFailed)| && BatchWrites(b, docUpsertFailed)[i].UpsertCitations?
    ensures !docUpsertFailed && i == 1 && BatchWrites(b, docUpsertFailed)[0] == UpsertDocuments(b.docs)
    ensures forall c :: c in BatchWrites(b, docUpsertFailed)[i].citations ==> exists d :: d in b.docs && d.id == c.target
  {
    forall c | c in b.citations
      ensures exists d :: d in b.docs && d.id == c.target
    {
      var j :| 0 <= j < |b.citations| && b.citations[j] == c;
      assert b.docs[j] in b.docs;
    }
  }

  /**
   * A seed whose search threw contributes nothing, and the other seed's
   * documents are still collected: the two seeds' contributions are
   * independent.
   */
  lemma FailedSeedSkipped(projectId: string, seeds: seq<Seed>, search: nat -> SearchOutcome, newId: nat -> string)
    requires |seeds| == 2 && search(0).SearchThrew?
    ensures Expansion(projectId, seeds, AllHits(seeds, search), newId, 2).docs == DocsFor(projectId, SeedHits(seeds[1], search(1)), 0, newId)
  {
    assert Expansion(projectId, seeds, AllHits(seeds, search), newId, 1).docs == [];
  }
}
