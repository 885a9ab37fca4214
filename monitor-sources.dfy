/**
 * The monitor-sources stage: picks its targets from the source catalog
 * (all of them in deep mode, one per sampled category otherwise), scrapes
 * GitHub pages and blog articles into new documents under a findings
 * brake, and inserts them in one batch.
 */
module MonitorSources {
  import opened Wrappers
  import opened Js
  import opened AgentTypes

  datatype Category = University | Industry | Government | Startup | Github

  function CategoryName(c: Category): string {
    match c
    case University => "university"
    case Industry => "industry"
    case Government => "government"
    case Startup => "startup"
    case Github => "github"
  }

  /** A catalog entry (its region is never read here). */
  datatype Source = Source(name: string, institution: Option<string>, url: string, category: Category, focus: seq<string>)

  /** What a scrape call gave: an exception, or the page's markdown and `metadata.title` (a null result has neither). */
  datatype ScrapeOutcome = ScrapeThrew | Scraped(markdown: Option<string>, title: Option<string>)

  /**
   * What a map call gave: an exception, an object (with its `links` when
   * truthy), an array of links, or anything else.
   */
  datatype MapOutcome = MapThrew | MapObject(links: Option<seq<string>>) | MapArray(items: seq<string>) | MapOther

  /** Deep mode holds exactly when the project's `settings.depth` is the string "deep". */
  predicate IsDeep(depth: Option<Json>) {
    depth == Some(JStr("deep"))
  }

  function ModeLog(isDeep: bool): LogEntry {
    LogEntry("monitor", "Running in " + (if isDeep then "DEEP (All Sources)" else "STANDARD (Sampled)") + " mode.", None)
  }

  function ScanningLog(s: Source): LogEntry {
    LogEntry("monitor", "Scanning " + s.name + "...", None)
  }

  function IngestedLog(n: nat): LogEntry {
    LogEntry("monitor", "Ingested " + NatToString(n) + " new items.", None)
  }

  /** The catalog entries of one category, in catalog order. */
  function OfCategory(catalog: seq<Source>, c: Category): (r: seq<Source>)
    ensures forall s :: s in r <==> s in catalog && s.category == c
  {
    if catalog == [] then []
    else (if catalog[0].category == c then [catalog[0]] else []) + OfCategory(catalog[1..], c)
  }

  /** `arr[Math.floor(Math.random() * arr.length)]`, with the random index as input; `undefined` for an empty array. */
  function Pick(arr: seq<Source>, choice: nat): (r: Option<Source>)
    ensures r.Some? <==> arr != []
    ensures r.Some? ==> r.value in arr
  {
    if arr == [] then None else Some(arr[choice % |arr|])
  }

  /** A pick as a list: empty when the category had no entry. */
  function Sampled(p: Option<Source>): (r: seq<Source>)
    ensures |r| <= 1 && (r != [] <==> p.Some?)
  {
    if p.Some? then [p.value] else []
  }

  /** The pick for one category, with the random index drawn for it. */
  function PickOf(catalog: seq<Source>, c: Category, choice: nat): seq<Source> {
    Sampled(Pick(OfCategory(catalog, c), choice))
  }

  /** The scan targets: the whole catalog in deep mode, else one random pick per sampled category. */
  function Targets(catalog: seq<Source>, isDeep: bool, choice: nat -> nat): seq<Source> {
    if isDeep then catalog
    else PickOf(catalog, Startup, choice(0)) + PickOf(catalog, Industry, choice(1))
         + PickOf(catalog, University, choice(2)) + PickOf(catalog, Github, choice(3))
  }

  /** How many targets are of category `c`. */
  function CountOf(t: seq<Source>, c: Category): nat {
    if t == [] then 0 else (if t[0].category == c then 1 else 0) + CountOf(t[1..], c)
  }

  lemma {:induction false} CountOfAppend(a: seq<Source>, b: seq<Source>, c: Category)
    ensures CountOf(a + b, c) == CountOf(a, c) + CountOf(b, c)
  {
    if a != [] {
      assert (a + b)[1..] == a[1..] + b;
      CountOfAppend(a[1..], b, c);
    } else {
      assert a + b == b;
    }
  }

  /** Whether the catalog has an entry of category `c`. */
  predicate Offers(catalog: seq<Source>, c: Category) {
    exists s :: s in catalog && s.category == c
  }

  /**
   * Standard mode scans at most four catalog sources, never a government
   * one, and exactly one of each other category the catalog offers; deep
   * mode scans the whole catalog.
   */
  lemma StandardTargets(catalog: seq<Source>, choice: nat -> nat)
    ensures var t := Targets(catalog, false, choice);
            && |t| <= 4
            && (forall s :: s in t ==> s in catalog && s.category != Government)
            && (forall c :: CountOf(t, c) == if c != Government && Offers(catalog, c) then 1 else 0)
    ensures Targets(catalog, true, choice) == catalog
  {
    var a, b, d, e := PickOf(catalog, Startup, choice(0)), PickOf(catalog, Industry, choice(1)),
                      PickOf(catalog, University, choice(2)), PickOf(catalog, Github, choice(3));
    PickCount(catalog, Startup, choice(0), Startup);
    PickCount(catalog, Industry, choice(1), Industry);
    PickCount(catalog, University, choice(2), University);
    PickCount(catalog, Github, choice(3), Github);
    forall c
      ensures CountOf(a + b + d + e, c) == if c != Government && Offers(catalog, c) then 1 else 0
    {
      TargetCount(catalog, choice, c);
    }
  }

  lemma TargetCount(catalog: seq<Source>, choice: nat -> nat, c: Category)
    ensures CountOf(Targets(catalog, false, choice), c) == if c != Government && Offers(catalog, c) then 1 else 0
  {
    var a, b, d, e := PickOf(catalog, Startup, choice(0)), PickOf(catalog, Industry, choice(1)),
                      PickOf(catalog, University, choice(2)), PickOf(catalog, Github, choice(3));
    CountOfAppend(a, b, c);
    CountOfAppend(a + b, d, c);
    CountOfAppend(a + b + d, e, c);
    PickCount(catalog, Startup, choice(0), c);
    PickCount(catalog, Industry, choice(1), c);
    PickCount(catalog, University, choice(2), c);
    PickCount(catalog, Github, choice(3), c);
  }

  /** A pick holds one entry of its category exactly when the catalog offers one. */
  lemma PickCount(catalog: seq<Source>, k: Category, choice: nat, c: Category)
    ensures forall s :: s in PickOf(catalog, k, choice) ==> s in catalog && s.category == k
    ensures CountOf(PickOf(catalog, k, choice), c) == if c == k && Offers(catalog, k) then 1 else 0
  {
    var cands := OfCategory(catalog, k);
    if Offers(catalog, k) {
      var s :| s in catalog && s.category == k;
      assert s in cands;
    }
  }

  /** The links of a map outcome: `mapResult.links || []` for an object, the array itself, or none. */
  function LinksOf(m: MapOutcome): seq<string>
    requires !m.MapThrew?
  {
    match m
    case MapObject(links) => links.GetOr([])
    case MapArray(items) => items
    case MapOther => []
  }

  /** The links longer than the source URL by more than five characters, in order. */
  function ArticleCandidates(links: seq<string>, url: string): (r: seq<string>)
    ensures |r| <= |links|
    ensures forall l :: l in r <==> l in links && |l| > |url| + 5
  {
    if links == [] then []
    else (if |links[0]| > |url| + 5 then [links[0]] else []) + ArticleCandidates(links[1..], url)
  }

  /** The article links scraped for a blog source: at most 3 in deep mode, 1 otherwise. */
  function ArticleLinks(m: MapOutcome, src: Source, isDeep: bool): (r: seq<string>)
    requires !m.MapThrew?
    ensures |r| <= (if isDeep then 3 else 1)
    ensures forall l :: l in r ==> l in LinksOf(m) && |l| > |src.url| + 5
  {
    Take(ArticleCandidates(LinksOf(m), src.url), if isDeep then 3 else 1)
  }

  function GithubMeta(src: Source): Meta {
    map["source_name" := JStr(src.name), "category" := JStr("github"),
        "focus" := JArr(seq(|src.focus|, i requires 0 <= i < |src.focus| => JStr(src.focus[i])))]
  }

  /** The blog metadata; an absent institution is dropped from the inserted JSON. */
  function BlogMeta(src: Source): Meta {
    var m := map["source_name" := JStr(src.name), "category" := JStr(CategoryName(src.category)),
                 "focus" := JArr(seq(|src.focus|, i requires 0 <= i < |src.focus| => JStr(src.focus[i])))];
    if src.institution.Some? then m["institution" := JStr(src.institution.value)] else m
  }

  function GithubDoc(projectId: string, src: Source, markdown: string, id: string): (d: DocRow)
    ensures |d.content| <= 1500 && d.sourceType == "github"
  {
    DocRow(id, projectId, src.name + " Update (GitHub)", src.url, "github", Take(markdown, 1500), None, Some(GithubMeta(src)))
  }

  function BlogDoc(projectId: string, src: Source, link: string, markdown: string, title: Option<string>, id: string)
    : (d: DocRow)
    ensures |d.content| <= 1000 && d.sourceType == "blog" && d.url == link
  {
    DocRow(id, projectId, OrElse(title, "Update from " + src.name), link, "blog", Take(markdown, 1000), None,
           Some(BlogMeta(src)))
  }

  /**
   * The scan so far: documents found, logs written, scrape and map calls
   * made (the oracles are indexed by call number) and whether the current
   * source threw.
   */
  datatype Scan = Scan(findings: seq<DocRow>, logs: seq<LogEntry>, scrapes: nat, maps: nat, threw: bool)

  /** The oracles and settings of one run. */
  datatype Env = Env(projectId: string, isDeep: bool, mapCall: nat -> MapOutcome, scrape: nat -> ScrapeOutcome,
                     newId: nat -> string)

  /** Scraping one article link; the UUIDs are numbered by document. */
  function LinkStep(env: Env, s: Scan, src: Source, link: string): (r: Scan)
    ensures |s.findings| <= |r.findings| <= |s.findings| + 1
  {
    var o := env.scrape(s.scrapes);
    var s1 := s.(scrapes := s.scrapes + 1);
    if o.ScrapeThrew? then s1.(threw := true)
    else if OrElse(o.markdown, "") != [] then
      s1.(findings := s.findings + [BlogDoc(env.projectId, src, link, o.markdown.value, o.title, env.newId(|s.findings|))])
    else s1
  }

  /** The first `i` article links of a source; an exception skips the rest of the source. */
  function LinkScan(env: Env, s: Scan, src: Source, links: seq<string>, i: nat): (r: Scan)
    requires i <= |links|
    ensures |s.findings| <= |r.findings| <= |s.findings| + i
    ensures r.logs == s.logs
  {
    if i == 0 then s
    else
      var prev := LinkScan(env, s, src, links, i - 1);
      if prev.threw then prev else LinkStep(env, prev, src, links[i - 1])
  }

  /** The GitHub strategy: one scrape, and a document when it gave markdown. */
  function GithubScan(env: Env, s: Scan, src: Source): (r: Scan)
    ensures |s.findings| <= |r.findings| <= |s.findings| + 1 && r.logs == s.logs
  {
    var o := env.scrape(s.scrapes);
    var s1 := s.(scrapes := s.scrapes + 1);
    if o.ScrapeThrew? then s1.(threw := true)
    else if OrElse(o.markdown, "") != [] then
      s1.(findings := s.findings + [GithubDoc(env.projectId, src, o.markdown.value, env.newId(|s.findings|))])
    else s1
  }

  /** The blog strategy: a map call, then the article links in order. */
  function BlogScan(env: Env, s: Scan, src: Source): (r: Scan)
    ensures |s.findings| <= |r.findings| <= |s.findings| + (if env.isDeep then 3 else 1) && r.logs == s.logs
  {
    var m := env.mapCall(s.maps);
    var s1 := s.(maps := s.maps + 1);
    if m.MapThrew? then s1.(threw := true)
    else
      var links := ArticleLinks(m, src, env.isDeep);
      LinkScan(env, s1, src, links, |links|)
  }

  /** Everything one started source does: its "Scanning" log, then the GitHub or the blog strategy. */
  function SourceScan(env: Env, s: Scan, src: Source): (r: Scan)
    ensures |s.findings| <= |r.findings| <= |s.findings| + (if env.isDeep then 3 else 1)
    ensures r.logs == s.logs + [ScanningLog(src)]
  {
    var s0 := s.(logs := s.logs + [ScanningLog(src)], threw := false);
    if src.category == Github then GithubScan(env, s0, src) else BlogScan(env, s0, src)
  }

  /** The first `k` targets: the brake stops the scan once more than 40 documents were found. */
  function ScanAll(env: Env, targets: seq<Source>, k: nat): Scan
    requires k <= |targets|
  {
    if k == 0 then Scan([], [], 0, 0, false)
    else
      var prev := ScanAll(env, targets, k - 1);
      if |prev.findings| > 40 then prev else SourceScan(env, prev, targets[k - 1])
  }

  /**
   * The brake bounds the haul: at most 43 documents in any mode, since a
   * source adds at most three; and at most one per scanned source in
   * standard mode.
   */
  lemma {:induction false} ScanBound(env: Env, targets: seq<Source>, k: nat)
    requires k <= |targets|
    ensures |ScanAll(env, targets, k).findings| <= 43
    ensures !env.isDeep ==> |ScanAll(env, targets, k).findings| <= k
  {
    if k > 0 {
      ScanBound(env, targets, k - 1);
    }
  }

  /** Standard mode finds at most four documents. */
  lemma StandardAtMostFour(env: Env, catalog: seq<Source>, choice: nat -> nat)
    requires !env.isDeep
    ensures var t := Targets(catalog, false, choice);
            |ScanAll(env, t, |t|).findings| <= 4
  {
    StandardTargets(catalog, choice);
    var t := Targets(catalog, false, choice);
    ScanBound(env, t, |t|);
  }

  /** The rows the stage inserts (one batch, only when something was found). */
  function ScanWrites(s: Scan): seq<Write> {
    if |s.findings| > 0 then [InsertDocuments(s.findings)] else []
  }

  /** The stage's logs: the mode log, one "Scanning" log per started source, and the ingest log when something was found. */
  function ScanLogs(isDeep: bool, s: Scan): seq<LogEntry> {
    [ModeLog(isDeep)] + s.logs + (if |s.findings| > 0 then [IngestedLog(|s.findings|)] else [])
  }

  /**
   * Scans one started source, mirroring the body of the per-source `try`:
   * the GitHub strategy, or a map call and a loop over the article links
   * that stops at the first scrape that throws.
   */
  method ScanSource(env: Env, s: Scan, src: Source) returns (r: Scan)
    ensures r == SourceScan(env, s, src)
  {
    var s0 := s.(logs := s.logs + [ScanningLog(src)], threw := false);
    if src.category == Github {
      r := GithubScan(env, s0, src);
    } else {
      r := ScanBlog(env, s0, src);
    }
  }

  /** The blog strategy of one source: a map call, then a loop over the article links. */
  method ScanBlog(env: Env, s: Scan, src: Source) returns (r: Scan)
    ensures r == BlogScan(env, s, src)
  {
    var m := env.mapCall(s.maps);
    if m.MapThrew? {
      r := s.(maps := s.maps + 1, threw := true);
    } else {
      var links := ArticleLinks(m, src, env.isDeep);
      r := ScanLinks(env, s.(maps := s.maps + 1), src, links);
    }
  }

  /** The article links in order, leaving the loop at the first scrape that throws. */
  method ScanLinks(env: Env, s: Scan, src: Source, links: seq<string>) returns (r: Scan)
    ensures r == LinkScan(env, s, src, links, |links|)
  {
    r := s;
    var i := 0;
    while i < |links|
      invariant 0 <= i <= |links|
      invariant r == LinkScan(env, s, src, links, i)
    {
      if r.threw {
        LinkScanStops(env, s, src, links, i);
        return;
      }
      r := LinkStep(env, r, src, links[i]);
      i := i + 1;
    }
  }

  /** Once a scrape threw, the later links of that source change nothing. */
  lemma {:induction false} LinkScanStops(env: Env, s: Scan, src: Source, links: seq<string>, i: nat)
    requires i <= |links| && LinkScan(env, s, src, links, i).threw
    ensures LinkScan(env, s, src, links, |links|) == LinkScan(env, s, src, links, i)
    decreases |links| - i
  {
    if i < |links| {
      LinkScanStops(env, s, src, links, i + 1);
    }
  }

  /**
   * `monitorSources`: `depth` is the project's `settings.depth`,
   * `choice(c)` the random index drawn for the c-th sampled category, and
   * the map, scrape and UUID oracles are indexed by call number. Returns the
   * partial state and the writes issued.
   */
  method MonitorSourcesStage(state: ResearchState, catalog: seq<Source>, depth: Option<Json>, choice: nat -> nat,
                             mapCall: nat -> MapOutcome, scrape: nat -> ScrapeOutcome, newId: nat -> string)
    returns (r: Partial, writes: seq<Write>)
    ensures var env := Env(state.projectId, IsDeep(depth), mapCall, scrape, newId);
            var targets := Targets(catalog, IsDeep(depth), choice);
            var s := ScanAll(env, targets, |targets|);
            r == LogsOnly(ScanLogs(IsDeep(depth), s)) && writes == ScanWrites(s)
  {
    var isDeep := IsDeep(depth);
    var env := Env(state.projectId, isDeep, mapCall, scrape, newId);
    var s := ScanTargets(env, Targets(catalog, isDeep, choice));
    writes := [];
    if |s.findings| > 0 {
      writes := [InsertDocuments(s.findings)];
    }
    return LogsOnly(ScanLogs(isDeep, s)), writes;
  }

  /** The loop over the targets, leaving it once the brake holds. */
  method ScanTargets(env: Env, targets: seq<Source>) returns (s: Scan)
    ensures s == ScanAll(env, targets, |targets|)
  {
    s := Scan([], [], 0, 0, false);
    var k := 0;
    while k < |targets|
      invariant 0 <= k <= |targets|
      invariant s == ScanAll(env, targets, k)
    {
      if |s.findings| > 40 {
        BrakeStops(env, targets, k);
        break;
      }
      s := ScanSource(env, s, targets[k]);
      k := k + 1;
    }
  }

  /** Once the brake holds it holds for good, so breaking out equals skipping every later source. */
  lemma {:induction false} BrakeStops(env: Env, targets: seq<Source>, k: nat)
    requires k <= |targets| && |ScanAll(env, targets, k).findings| > 40
    ensures ScanAll(env, targets, |targets|) == ScanAll(env, targets, k)
    decreases |targets| - k
  {
    if k < |targets| {
      BrakeStops(env, targets, k + 1);
    }
  }
}
