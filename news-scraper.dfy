/**
 * The lab-news scraper: each source page's items become articles when they
 * have a title and a link, each filed under the first category whose
 * keywords occur in its text; a source that fails adds one error record.
 */
module NewsScraper {
  import opened Wrappers
  import opened Js
  import opened News

  /** The categories in their declared order, each with its keywords. */
  const CategoryKeywords: seq<(string, seq<string>)> := [
    ("AI/ML", ["ai", "machine learning", "neural", "algorithm", "deep learning", "model", "training", "inference",
               "transformer"]),
    ("LLM/AGI", ["language model", "llm", "gpt", "bert", "llama", "agi", "reasoning", "rlhf", "prompt", "fine-tune"]),
    ("Robotics", ["robot", "robotic", "manipulator", "motion", "control", "autonomous vehicle", "drone", "rover",
                  "actuator"]),
    ("Physics", ["quantum", "particle", "physics", "electron", "photon", "relativity", "field", "collision", "energy"]),
    ("Biotech", ["gene", "genetic", "protein", "biology", "biotech", "crispr", "dna", "rna", "cell", "organism"]),
    ("Safety", ["safety", "alignment", "robust", "security", "adversarial", "verification", "interpretability",
                "explainability", "fairness"]),
    ("Medical", ["medical", "healthcare", "diagnosis", "treatment", "drug", "clinical", "patient", "disease",
                 "medicine", "hospital"])
  ]

  /** Some keyword occurs in the text. */
  predicate AnyKeyword(text: string, keywords: seq<string>) {
    exists k :: 0 <= k < |keywords| && Contains(text, keywords[k])
  }

  /** The first entry from `from` on whose keywords hit the text, by index. */
  function FirstHit(table: seq<(string, seq<string>)>, text: string, from: nat): (r: Option<nat>)
    requires from <= |table|
    ensures r.Some? ==> from <= r.value < |table| && AnyKeyword(text, table[r.value].1)
    ensures r.Some? ==> forall i :: from <= i < r.value ==> !AnyKeyword(text, table[i].1)
    ensures r.None? ==> forall i :: from <= i < |table| ==> !AnyKeyword(text, table[i].1)
    decreases |table| - from
  {
    if from == |table| then None
    else if AnyKeyword(text, table[from].1) then Some(from)
    else FirstHit(table, text, from + 1)
  }

  /**
   * `extractCategory`: the first category in table order with a keyword in
   * the lower-cased "title description", else the source's own category,
   * else "AI/ML".
   */
  function ExtractCategory(table: seq<(string, seq<string>)>, source: Source, title: string, description: string): (c: string)
    ensures var text := ToLower(title + " " + description);
            && (forall i :: 0 <= i < |table| ==> !AnyKeyword(text, table[i].1)) ==>
                 c == (if source.category != [] then source.category else "AI/ML")
  {
    var text := ToLower(title + " " + description);
    var hit := FirstHit(table, text, 0);
    if hit.Some? then table[hit.value].0
    else if source.category != [] then source.category
    else "AI/ML"
  }

  /**
   * A keyword hit decides the category: the one at the first index with a
   * hit, whatever the source says.
   */
  lemma CategoryFirstMatch(source: Source, title: string, description: string, i: nat)
    requires i < |CategoryKeywords|
    requires var text := ToLower(title + " " + description);
             AnyKeyword(text, CategoryKeywords[i].1) && forall j :: 0 <= j < i ==> !AnyKeyword(text, CategoryKeywords[j].1)
    ensures ExtractCategory(CategoryKeywords, source, title, description) == CategoryKeywords[i].0
  {
  }

  /**
   * One container as the page gave it: the text and attributes of its
   * title, description, date, link and image elements, and what resolving
   * the link against the source URL gives (`None` when that throws).
   */
  datatype RawItem = RawItem(
    titleText: string,
    descriptionText: string,
    dateText: string,
    dateTime: Option<string>,
    href: Option<string>,
    src: Option<string>,
    dataSrc: Option<string>,
    resolved: Option<string>)

  function LinkOfItem(item: RawItem): string {
    OrElse(item.href, "")
  }

  /** The article an item becomes, if any, filing it by `table`; `now` is the scrape time. */
  function ItemArticle(table: seq<(string, seq<string>)>, source: Source, item: RawItem, now: int): Option<Article> {
    var title := Trim(item.titleText);
    var description := Trim(item.descriptionText);
    var date := OrElse(Some(Trim(item.dateText)), OrElse(item.dateTime, ""));
    var link := LinkOfItem(item);
    var image := OrElse(item.src, OrElse(item.dataSrc, ""));
    if title == [] || link == [] then None
    else if !IsPrefix("http", link) && item.resolved.None? then None
    else
      var absolute := if IsPrefix("http", link) then link else item.resolved.value;
      Some(Article(title, description, date, absolute, image, source.id, source.name, source.institution,
                   source.region, ExtractCategory(table, source, title, description), now))
  }

  /**
   * An item is kept exactly when its trimmed title and its link are
   * non-empty and the link is absolute or resolves; an "http" link is kept
   * verbatim, and the article carries the source's identity.
   */
  lemma ItemAcceptance(table: seq<(string, seq<string>)>, source: Source, item: RawItem, now: int)
    ensures var r := ItemArticle(table, source, item, now);
            var link := LinkOfItem(item);
            && (r.Some? <==> Trim(item.titleText) != [] && link != [] && (IsPrefix("http", link) || item.resolved.Some?))
            && (r.Some? && IsPrefix("http", link) ==> r.value.link == link)
            && (r.Some? ==> r.value.title == Trim(item.titleText) && r.value.sourceId == source.id
                            && r.value.sourceName == source.name && r.value.region == source.region)
  {
  }

  /** The articles of the first `i` items, in order. */
  function Accepted(table: seq<(string, seq<string>)>, source: Source, items: seq<RawItem>, now: int, i: nat): (r: seq<Article>)
    requires i <= |items|
    ensures |r| <= i
  {
    if i == 0 then []
    else
      var a := ItemArticle(table, source, items[i - 1], now);
      Accepted(table, source, items, now, i - 1) + (if a.Some? then [a.value] else [])
  }

  /** Every article comes from an item of the source and carries its id. */
  lemma {:induction false} AcceptedFromItems(table: seq<(string, seq<string>)>, source: Source, items: seq<RawItem>, now: int, i: nat)
    requires i <= |items|
    ensures forall a :: a in Accepted(table, source, items, now, i) ==>
              a.sourceId == source.id && exists k :: 0 <= k < i && ItemArticle(table, source, items[k], now) == Some(a)
  {
    if i > 0 {
      AcceptedFromItems(table, source, items, now, i - 1);
    }
  }

  /** What fetching and parsing a source page gave: an error message, or its containers. */
  datatype Page = FetchFailed(message: string) | Fetched(items: seq<RawItem>)

  datatype ScrapeError = ScrapeError(source: string, error: string, timestamp: int)

  /** The articles a source contributes. */
  function SourceArticles(table: seq<(string, seq<string>)>, source: Source, page: Page, now: int): seq<Article> {
    if page.FetchFailed? then [] else Accepted(table, source, page.items, now, |page.items|)
  }

  /** The articles of the first `n` sources, in source order. */
  function AllArticles(table: seq<(string, seq<string>)>, sources: seq<Source>, pages: seq<Page>, now: int, n: nat): seq<Article>
    requires n <= |sources| == |pages|
  {
    if n == 0 then []
    else AllArticles(table, sources, pages, now, n - 1) + SourceArticles(table, sources[n - 1], pages[n - 1], now)
  }

  /** The error records of the first `n` sources, one per failure. */
  function AllErrors(sources: seq<Source>, pages: seq<Page>, now: int, n: nat): seq<ScrapeError>
    requires n <= |sources| == |pages|
  {
    if n == 0 then []
    else AllErrors(sources, pages, now, n - 1)
         + (if pages[n - 1].FetchFailed? then [ScrapeError(sources[n - 1].name, pages[n - 1].message, now)] else [])
  }

  /** One more source extends both lists by what that source gives. */
  lemma ScrapeStep(table: seq<(string, seq<string>)>, sources: seq<Source>, pages: seq<Page>, now: int, i: nat)
    requires i < |sources| == |pages|
    ensures AllArticles(table, sources, pages, now, i + 1)
            == AllArticles(table, sources, pages, now, i) + SourceArticles(table, sources[i], pages[i], now)
    ensures AllErrors(sources, pages, now, i + 1)
            == AllErrors(sources, pages, now, i) + (if pages[i].FetchFailed? then [ScrapeError(sources[i].name, pages[i].message, now)] else [])
  {
  }

  function Failures(pages: seq<Page>, n: nat): nat
    requires n <= |pages|
  {
    if n == 0 then 0 else Failures(pages, n - 1) + (if pages[n - 1].FetchFailed? then 1 else 0)
  }

  /**
   * There is one error record per failing source, naming it, and every
   * article comes from a source whose page was fetched.
   */
  lemma {:induction false} ScrapeAccounting(table: seq<(string, seq<string>)>, sources: seq<Source>, pages: seq<Page>,
                                            now: int, n: nat)
    requires n <= |sources| == |pages|
    ensures |AllErrors(sources, pages, now, n)| == Failures(pages, n)
    ensures forall e :: e in AllErrors(sources, pages, now, n) ==>
              exists k :: 0 <= k < n && pages[k].FetchFailed? && e.source == sources[k].name
    ensures forall a :: a in AllArticles(table, sources, pages, now, n) ==>
              exists k :: 0 <= k < n && pages[k].Fetched? && a.sourceId == sources[k].id
  {
    if n > 0 {
      ScrapeAccounting(table, sources, pages, now, n - 1);
      var page := pages[n - 1];
      if page.Fetched? {
        AcceptedFromItems(table, sources[n - 1], page.items, now, |page.items|);
      }
    }
  }

  /**
   * The scraper object: the articles and errors of the last `scrapeAll`,
   * and the category table it files articles by.
   */
  class Scraper {
    var articles: seq<Article>
    var errors: seq<ScrapeError>
    const keywords: seq<(string, seq<string>)>

    constructor()
      ensures articles == [] && errors == [] && keywords == CategoryKeywords
    {
      articles := [];
      errors := [];
      keywords := CategoryKeywords;
    }

    /** The container loop of one fetched page. */
    static method CollectItems(table: seq<(string, seq<string>)>, source: Source, items: seq<RawItem>, now: int)
      returns (found: seq<Article>)
      ensures found == Accepted(table, source, items, now, |items|)
    {
      found := [];
      var i := 0;
      while i < |items|
        invariant 0 <= i <= |items|
        invariant found == Accepted(table, source, items, now, i)
      {
        var a := ItemArticle(table, source, items[i], now);
        if a.Some? {
          found := found + [a.value];
        }
        i := i + 1;
      }
    }

    /** `scrapeSource`: a failure is recorded and contributes nothing. */
    method ScrapeSource(source: Source, page: Page, now: int) returns (found: seq<Article>)
      modifies this
      ensures found == SourceArticles(keywords, source, page, now)
      ensures articles == old(articles)
      ensures page.FetchFailed? ==> errors == old(errors) + [ScrapeError(source.name, page.message, now)]
      ensures page.Fetched? ==> errors == old(errors)
    {
      if page.FetchFailed? {
        errors := errors + [ScrapeError(source.name, page.message, now)];
        return [];
      }
      found := CollectItems(keywords, source, page.items, now);
    }

    /** `scrapeAll`: clear both lists, then scrape the sources in order. */
    method ScrapeAll(sources: seq<Source>, pages: seq<Page>, now: int) returns (r: seq<Article>)
      requires |pages| == |sources|
      modifies this
      ensures articles == AllArticles(keywords, sources, pages, now, |sources|)
      ensures errors == AllErrors(sources, pages, now, |sources|)
      ensures r == articles
    {
      articles := [];
      errors := [];
      var i := 0;
      while i < |sources|
        invariant 0 <= i <= |sources|
        invariant articles == AllArticles(keywords, sources, pages, now, i)
        invariant errors == AllErrors(sources, pages, now, i)
      {
        ScrapeNext(sources, pages, now, i);
        i := i + 1;
      }
      r := articles;
    }

    /** One turn of the `scrapeAll` loop: the i-th source's articles are appended. */
    method ScrapeNext(sources: seq<Source>, pages: seq<Page>, now: int, i: nat)
      requires i < |sources| == |pages|
      requires articles == AllArticles(keywords, sources, pages, now, i) && errors == AllErrors(sources, pages, now, i)
      modifies this
      ensures articles == AllArticles(keywords, sources, pages, now, i + 1)
      ensures errors == AllErrors(sources, pages, now, i + 1)
    {
      var found := ScrapeSource(sources[i], pages[i], now);
      articles := articles + found;
      ScrapeStep(keywords, sources, pages, now, i);
    }
  }
}
