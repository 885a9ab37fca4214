/**
 * The retrieve stage: one web search, a defensive parse of whichever
 * response shape the provider returned, and the mapping of each hit to a
 * seed paper appended to the state.
 */
module Retrieve {
  import opened Wrappers
  import opened Js
  import opened AgentTypes

  /**
   * What the search call gave: an exception (with its `message`, possibly
   * absent), a decoded payload, or a string together with what `JSON.parse`
   * made of it (None when parsing threw).
   */
  datatype SearchOutcome =
    | SearchThrew(message: Option<string>)
    | SearchGave(raw: Json)
    | SearchGaveText(text: string, parsed: Option<Json>)

  /** The payload after the string case: a string that does not parse stays a string. */
  function Payload(o: SearchOutcome): Json
    requires !o.SearchThrew?
  {
    match o
    case SearchGave(raw) => raw
    case SearchGaveText(text, parsed) => if parsed.Some? then parsed.value else JStr(text)
  }

  /** `raw.web.k` when it is an array. */
  function WebField(raw: Json, k: string): Option<seq<Json>> {
    match Get(raw, "web")
    case Some(web) => ArrayField(web, k)
    case None => None
  }

  /** `raw.web` when it is itself an array. */
  function WebArray(raw: Json): Option<seq<Json>> {
    match Get(raw, "web")
    case Some(JArr(items)) => Some(items)
    case _ => None
  }

  /** The parser's cascade of shape checks, in the order they are written. */
  function ParseResults(raw: Json): seq<Json> {
    if raw.JArr? then raw.items
    else if raw.JObj? then
      if ArrayField(raw, "data").Some? then ArrayField(raw, "data").value
      else if ArrayField(raw, "results").Some? then ArrayField(raw, "results").value
      else if Get(raw, "web").Some? && Truthy(Get(raw, "web").value) then
        var web := Get(raw, "web").value;
        if ArrayField(web, "results").Some? then ArrayField(web, "results").value
        else if ArrayField(web, "data").Some? then ArrayField(web, "data").value
        else if web.JArr? then web.items
        else []
      else []
    else []
  }

  /** The shapes the parser accepts, highest precedence first. */
  function Candidates(raw: Json): seq<Option<seq<Json>>> {
    [ if raw.JArr? then Some(raw.items) else None,
      ArrayField(raw, "data"),
      ArrayField(raw, "results"),
      WebField(raw, "results"),
      WebField(raw, "data"),
      WebArray(raw) ]
  }

  /** The first shape present from position `i` on, or nothing. */
  function FirstPresent(cs: seq<Option<seq<Json>>>, i: nat): (r: seq<Json>)
    ensures r == [] || exists j :: i <= j < |cs| && cs[j] == Some(r)
    decreases |cs| - i
  {
    if i >= |cs| then []
    else if cs[i].Some? then cs[i].value
    else FirstPresent(cs, i + 1)
  }

  /**
   * The cascade takes the first present shape in the fixed precedence
   * top-level array, `.data`, `.results`, `.web.results`, `.web.data`,
   * `.web` array, and yields no results when none is present (the
   * truthiness test on `.web` never hides a shape).
   */
  lemma ParsePrecedence(raw: Json)
    ensures ParseResults(raw) == FirstPresent(Candidates(raw), 0)
  {
    var cs := Candidates(raw);
    assert FirstPresent(cs, 6) == [];
    assert FirstPresent(cs, 5) == if cs[5].Some? then cs[5].value else [];
    assert FirstPresent(cs, 4) == if cs[4].Some? then cs[4].value else FirstPresent(cs, 5);
    assert FirstPresent(cs, 3) == if cs[3].Some? then cs[3].value else FirstPresent(cs, 4);
    assert FirstPresent(cs, 2) == if cs[2].Some? then cs[2].value else FirstPresent(cs, 3);
    assert FirstPresent(cs, 1) == if cs[1].Some? then cs[1].value else FirstPresent(cs, 2);
  }

  /** `result.title || "Untitled Source"`. */
  function HitTitle(hit: Json): (t: string)
    ensures t != []
    ensures t == "Untitled Source" || Some(t) == StringField(hit, "title")
    ensures var title := StringField(hit, "title");
            && (title.Some? && title.value != [] ==> t == title.value)
            && (title.None? || title.value == [] ==> t == "Untitled Source")
  {
    OrElse(StringField(hit, "title"), "Untitled Source")
  }

  /** `result.markdown?.slice(0, n) || result.description || ""`. */
  function Excerpt(hit: Json, n: nat): (s: string)
    ensures s == [] || Some(s) == StringField(hit, "description")
            || (StringField(hit, "markdown").Some? && |s| <= n && IsPrefix(s, StringField(hit, "markdown").value))
    ensures var md := StringField(hit, "markdown");
            var desc := StringField(hit, "description");
            var cut := md.Some? && md.value != [] && n > 0;
            && (cut ==> s == md.value[..if |md.value| < n then |md.value| else n])
            && (!cut && desc.Some? && desc.value != [] ==> s == desc.value)
            && (!cut && (desc.None? || desc.value == []) ==> s == [])
  {
    var md := StringField(hit, "markdown");
    if md.Some? && Take(md.value, n) != [] then Take(md.value, n)
    else OrElse(StringField(hit, "description"), "")
  }

  /** The seed paper built from one hit, under a freshly generated id. */
  function SeedOf(hit: Json, id: string): (p: Seed)
    ensures p.id == id && p.title == HitTitle(hit)
    ensures p.url == StringField(hit, "url") && p.link == p.url
    ensures p.snippet == Some(Excerpt(hit, 200))
  {
    Seed(id, HitTitle(hit), StringField(hit, "url"), Some(Excerpt(hit, 200)), StringField(hit, "url"),
         None, None, None, None, None)
  }

  /** Every hit mapped, the i-th under the i-th generated id. */
  function NewSeeds(hits: seq<Json>, newId: nat -> string): (seeds: seq<Seed>)
    ensures |seeds| == |hits|
    ensures forall i :: 0 <= i < |hits| ==> seeds[i] == SeedOf(hits[i], newId(i))
  {
    seq(|hits|, i requires 0 <= i < |hits| => SeedOf(hits[i], newId(i)))
  }

  function Ids(seeds: seq<Seed>): set<string> {
    set p | p in seeds :: p.id
  }

  /** The new seeds whose id is not already held in the state, in order. */
  function Unique(incoming: seq<Seed>, existing: set<string>): (r: seq<Seed>)
    ensures |r| <= |incoming|
    ensures forall p :: p in r <==> p in incoming && p.id !in existing
  {
    if incoming == [] then []
    else if incoming[0].id in existing then Unique(incoming[1..], existing)
    else [incoming[0]] + Unique(incoming[1..], existing)
  }

  function Titles(seeds: seq<Seed>): (ts: seq<Json>)
    ensures |ts| == |seeds|
    ensures forall i :: 0 <= i < |seeds| ==> ts[i] == JStr(seeds[i].title)
  {
    seq(|seeds|, i requires 0 <= i < |seeds| => JStr(seeds[i].title))
  }

  function FoundLog(unique: seq<Seed>): LogEntry {
    LogEntry("retrieve_seed", "Found " + NatToString(|unique|) + " new papers via Firecrawl",
             Some(map["sources" := JArr(Titles(unique))]))
  }

  const NoResultsLog := LogEntry("retrieve_seed", "No search results found via Firecrawl.", None)

  function FailedLog(message: Option<string>): LogEntry {
    LogEntry("retrieve_seed", "Search failed: " + OrElse(message, "Unknown error"), None)
  }

  /** The exception `result.title` raises on a null hit. */
  const NullHitMessage := "Cannot read properties of null (reading 'title')"

  /**
   * `retrieveSeed`: the stage never throws. The search outcome and the
   * k-th generated UUID (`newId(k)`) are inputs.
   */
  function RetrieveSeed(state: ResearchState, outcome: SearchOutcome, newId: nat -> string): (r: Partial)
    ensures r.depth.None? && r.findings.None? && r.logs.Some? && |r.logs.value| == 1
    ensures r.seedPapers.Some? ==>
              |state.seedPapers| <= |r.seedPapers.value| && r.seedPapers.value[..|state.seedPapers|] == state.seedPapers
    ensures r.seedPapers.Some? ==> r.logs == Some([FoundLog(r.seedPapers.value[|state.seedPapers|..])])
    ensures outcome.SearchThrew? ==> r == LogsOnly([FailedLog(outcome.message)])
  {
    if outcome.SearchThrew? then LogsOnly([FailedLog(outcome.message)])
    else
      var hits := ParseResults(Payload(outcome));
      if |hits| == 0 then LogsOnly([NoResultsLog])
      else if !NoNull(hits) then LogsOnly([FailedLog(Some(NullHitMessage))])
      else
        var unique := Unique(NewSeeds(hits, newId), Ids(state.seedPapers));
        Partial(Some(state.seedPapers + unique), None, Some([FoundLog(unique)]), None)
  }

  /**
   * Without results the stage returns exactly the "No search results" log
   * and no `seedPapers` key.
   */
  lemma NoResultsOnlyLogs(state: ResearchState, outcome: SearchOutcome, newId: nat -> string)
    requires !outcome.SearchThrew? && ParseResults(Payload(outcome)) == []
    ensures RetrieveSeed(state, outcome, newId) == LogsOnly([NoResultsLog])
    ensures Merge(state, RetrieveSeed(state, outcome, newId)).seedPapers == state.seedPapers
  {
  }

  /**
   * The id filter can only drop a hit whose generated id collides with a
   * held one; with incoming ids every hit becomes a new seed, in order, and
   * the success log counts and names exactly those seeds.
   */
  lemma FreshIdsDropNothing(state: ResearchState, outcome: SearchOutcome, newId: nat -> string)
    requires !outcome.SearchThrew?
    requires var hits := ParseResults(Payload(outcome)); |hits| > 0 && NoNull(hits)
    requires forall i: nat :: newId(i) !in Ids(state.seedPapers)
    ensures var hits := ParseResults(Payload(outcome));
            var r := RetrieveSeed(state, outcome, newId);
            && r.seedPapers == Some(state.seedPapers + NewSeeds(hits, newId))
            && r.logs == Some([FoundLog(NewSeeds(hits, newId))])
  {
    var hits := ParseResults(Payload(outcome));
    UniqueKeepsFresh(NewSeeds(hits, newId), Ids(state.seedPapers));
  }

  lemma {:induction false} UniqueKeepsFresh(incoming: seq<Seed>, existing: set<string>)
    requires forall p :: p in incoming ==> p.id !in existing
    ensures Unique(incoming, existing) == incoming
  {
    if incoming != [] {
      assert incoming[0] in incoming;
      assert forall p :: p in incoming[1..] ==> p in incoming;
      UniqueKeepsFresh(incoming[1..], existing);
    }
  }
}
