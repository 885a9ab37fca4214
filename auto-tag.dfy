/**
 * The auto-tag stage: the first ten seed titles go to a completion model,
 * which answers with a title-to-tag map, and every seed paper whose title
 * maps to a tag gets that tag written into its metadata.
 */
module AutoTag {
  import opened Wrappers
  import opened Js
  import opened AgentTypes

  /**
   * What the completion gave: an exception (including a JSON parse failure)
   * or the parsed answer, which need not be an object.
   */
  datatype TagOutcome = TagThrew | TagMap(tags: Json)

  /** The titles put in the prompt: those of the first ten papers, in order. */
  function PromptTitles(docs: seq<Seed>): (ts: seq<string>)
    ensures |ts| == if |docs| < 10 then |docs| else 10
    ensures forall i :: 0 <= i < |ts| ==> ts[i] == docs[i].title
  {
    var first := Take(docs, 10);
    seq(|first|, i requires 0 <= i < |first| => first[i].title)
  }

  /** `docs.slice(0, 10).map(d => d.title).join("\n")`. */
  function TitleBatch(docs: seq<Seed>): string {
    Join(PromptTitles(docs), "\n")
  }

  /** Papers after the tenth never reach the prompt. */
  lemma TitleBatchIgnoresRest(docs: seq<Seed>, other: seq<Seed>)
    requires |docs| >= 10 && |other| >= 10 && docs[..10] == other[..10]
    ensures TitleBatch(docs) == TitleBatch(other)
  {
    assert PromptTitles(docs) == PromptTitles(other);
  }

  /** `tagsMap[doc.title]`, when the parsed answer is an object holding that key. */
  function TagFor(tags: Json, title: string): Option<Json> {
    Get(tags, title)
  }

  /** `{ ...(d.metadata || {}), tags: [tag] }`. */
  function Retagged(d: Seed, tag: Json): (m: Meta)
    ensures "tags" in m && m["tags"] == JArr([tag])
    ensures forall k :: k in m && k != "tags" <==> d.metadata.Some? && k in d.metadata.value && k != "tags"
    ensures forall k :: k in m && k != "tags" ==> m[k] == d.metadata.value[k]
  {
    d.metadata.GetOr(map[])["tags" := JArr([tag])]
  }

  /** Looking a title up in a parsed `null` throws a TypeError. */
  predicate LookupThrows(tags: Json) {
    tags.JNull?
  }

  /** Whether paper `d` gets an update: its title maps to a truthy tag. */
  predicate Tagged(tags: Json, d: Seed) {
    TagFor(tags, d.title).Some? && Truthy(TagFor(tags, d.title).value)
  }

  /** The metadata updates for the first `i` papers, in order; an update's own error is never checked. */
  function TagWrites(docs: seq<Seed>, tags: Json, i: nat): (w: seq<Write>)
    requires i <= |docs|
    ensures |w| <= i
  {
    if i == 0 then []
    else TagWrites(docs, tags, i - 1)
         + (if Tagged(tags, docs[i - 1])
            then [UpdateMetadata(docs[i - 1].id, Retagged(docs[i - 1], TagFor(tags, docs[i - 1].title).value))]
            else [])
  }

  const TaggedLog := LogEntry("auto_tag", "Ontology tags applied to documents.", None)

  /** Every update comes from a tagged paper and sets exactly that paper's tag. */
  lemma {:induction false} TagWritesFrom(docs: seq<Seed>, tags: Json, i: nat)
    requires i <= |docs|
    ensures forall w :: w in TagWrites(docs, tags, i) ==>
              exists j :: 0 <= j < i && Tagged(tags, docs[j])
                          && w == UpdateMetadata(docs[j].id, Retagged(docs[j], TagFor(tags, docs[j].title).value))
  {
    if i > 0 {
      TagWritesFrom(docs, tags, i - 1);
    }
  }

  /** Every tagged paper is updated, including those past the tenth that the prompt never named. */
  lemma {:induction false} TaggedPapersUpdated(docs: seq<Seed>, tags: Json, i: nat, j: nat)
    requires j < i <= |docs| && Tagged(tags, docs[j])
    ensures UpdateMetadata(docs[j].id, Retagged(docs[j], TagFor(tags, docs[j].title).value)) in TagWrites(docs, tags, i)
  {
    if j < i - 1 {
      TaggedPapersUpdated(docs, tags, i - 1, j);
    }
  }

  /**
   * `autoTagDocuments`: the completion and its parse are the `outcome`.
   * Returns the partial state and the updates issued.
   */
  method AutoTagDocuments(state: ResearchState, outcome: TagOutcome) returns (r: Partial, writes: seq<Write>)
    ensures state.seedPapers == [] || outcome.TagThrew? || LookupThrows(outcome.tags) ==>
              r == LogsOnly([]) && writes == []
    ensures state.seedPapers != [] && outcome.TagMap? && !LookupThrows(outcome.tags) ==>
              r == LogsOnly([TaggedLog]) && writes == TagWrites(state.seedPapers, outcome.tags, |state.seedPapers|)
  {
    var docs := state.seedPapers;
    if |docs| == 0 {
      return LogsOnly([]), [];
    }
    if outcome.TagThrew? || LookupThrows(outcome.tags) {
      return LogsOnly([]), [];
    }
    var tags := outcome.tags;
    writes := [];
    var i := 0;
    while i < |docs|
      invariant 0 <= i <= |docs|
      invariant writes == TagWrites(docs, tags, i)
    {
      var tag := TagFor(tags, docs[i].title);
      if tag.Some? && Truthy(tag.value) {
        writes := writes + [UpdateMetadata(docs[i].id, Retagged(docs[i], tag.value))];
      }
      i := i + 1;
    }
    r := LogsOnly([TaggedLog]);
  }
}
