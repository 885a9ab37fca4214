/**
 * The article store of the lab-news side: one key holding every saved
 * article, read back through a filter, a newest-first sort and a page
 * window, and rewritten by a save that de-duplicates by link and keeps the
 * newest thousand.
 */
module NewsDatabase {
  import opened Wrappers
  import opened Js
  import opened News
  import NewsUtils

  /** The query options; an empty string, a missing value or 0 leaves an option unset. */
  datatype Filters = Filters(
    sourceId: Option<string>,
    category: Option<string>,
    region: Option<string>,
    search: Option<string>,
    page: Option<int>,
    limit: Option<int>)

  const NoFilters := Filters(None, None, None, None, None, None)

  predicate Active(f: Option<string>) {
    f.Some? && f.value != []
  }

  /** `title` or `description` contains the query, both lower-cased. */
  predicate SearchHit(a: Article, query: string) {
    Contains(ToLower(a.title), ToLower(query)) || Contains(ToLower(a.description), ToLower(query))
  }

  /** Every option that is set holds. */
  predicate Matches(a: Article, f: Filters) {
    && (Active(f.sourceId) ==> a.sourceId == f.sourceId.value)
    && (Active(f.category) ==> a.category == f.category.value)
    && (Active(f.region) ==> a.region == f.region.value)
    && (Active(f.search) ==> SearchHit(a, f.search.value))
  }

  /** The filters in turn, which keep exactly the articles matching all of them, in order. */
  function FilterArticles(s: seq<Article>, f: Filters): (r: seq<Article>)
    ensures |r| <= |s|
    ensures forall a :: a in r <==> a in s && Matches(a, f)
  {
    if s == [] then []
    else (if Matches(s[0], f) then [s[0]] else []) + FilterArticles(s[1..], f)
  }

  predicate Newest(s: seq<Article>) {
    forall i, j :: 0 <= i < j < |s| ==> s[i].scrapedAt >= s[j].scrapedAt
  }

  /** Puts `x` before the first article not newer than it. */
  function Insert(x: Article, s: seq<Article>): (r: seq<Article>)
    ensures multiset(r) == multiset(s) + multiset{x}
    ensures forall y :: y in r <==> y == x || y in s
    ensures |r| == |s| + 1
  {
    if s == [] || s[0].scrapedAt <= x.scrapedAt then [x] + s
    else
      assert s == [s[0]] + s[1..];
      [s[0]] + Insert(x, s[1..])
  }

  /** The stable sort by `scrapedAt`, newest first. */
  function SortNewest(s: seq<Article>): (r: seq<Article>)
    ensures multiset(r) == multiset(s)
    ensures forall y :: y in r <==> y in s
    ensures |r| == |s|
  {
    if s == [] then []
    else
      assert s == [s[0]] + s[1..];
      Insert(s[0], SortNewest(s[1..]))
  }

  lemma {:induction false} InsertNewest(x: Article, s: seq<Article>)
    requires Newest(s)
    ensures Newest(Insert(x, s))
  {
    if s != [] && s[0].scrapedAt > x.scrapedAt {
      InsertNewest(x, s[1..]);
      var t := Insert(x, s[1..]);
      forall k | 0 <= k < |t|
        ensures s[0].scrapedAt >= t[k].scrapedAt
      {
        assert t[k] in t;
        if t[k] != x {
          var m :| 0 <= m < |s[1..]| && s[1..][m] == t[k];
          assert s[m + 1] == t[k];
        }
      }
    }
  }

  predicate DistinctLinks(s: seq<Article>) {
    forall i, j :: 0 <= i < j < |s| ==> s[i].link != s[j].link
  }

  lemma {:induction false} InsertDistinct(x: Article, s: seq<Article>)
    requires DistinctLinks(s) && forall y :: y in s ==> y.link != x.link
    ensures DistinctLinks(Insert(x, s))
  {
    if s != [] && s[0].scrapedAt > x.scrapedAt {
      InsertDistinct(x, s[1..]);
      var t := Insert(x, s[1..]);
      forall k | 0 <= k < |t|
        ensures s[0].link != t[k].link
      {
        assert t[k] in t;
        if t[k] != x {
          var m :| 0 <= m < |s[1..]| && s[1..][m] == t[k];
          assert s[m + 1] == t[k];
        }
      }
    }
  }

  /** Sorting keeps links distinct. */
  lemma {:induction false} SortNewestDistinct(s: seq<Article>)
    requires DistinctLinks(s)
    ensures DistinctLinks(SortNewest(s))
  {
    if s != [] {
      SortNewestDistinct(s[1..]);
      forall y | y in SortNewest(s[1..])
        ensures y.link != s[0].link
      {
        var m :| 0 <= m < |s[1..]| && s[1..][m] == y;
        assert s[m + 1] == y;
      }
      InsertDistinct(s[0], SortNewest(s[1..]));
    }
  }

  /** The sort orders newest first. */
  lemma {:induction false} SortNewestOrders(s: seq<Article>)
    ensures Newest(SortNewest(s))
  {
    if s != [] {
      SortNewestOrders(s[1..]);
      InsertNewest(s[0], SortNewest(s[1..]));
    }
  }

  /** Sorting what is already newest first changes nothing. */
  lemma {:induction false} SortNewestSorted(s: seq<Article>)
    requires Newest(s)
    ensures SortNewest(s) == s
  {
    if s != [] {
      SortNewestSorted(s[1..]);
    }
  }

  function PageOf(f: Filters): int {
    if f.page.None? || f.page.value == 0 then 1 else f.page.value
  }

  function LimitOf(f: Filters): int {
    if f.limit.None? || f.limit.value == 0 then 20 else f.limit.value
  }

  datatype ArticlePage = ArticlePage(articles: seq<Article>, total: nat, page: int, limit: int)

  /** What any failure answers. */
  const EmptyPage := ArticlePage([], 0, 1, 20)

  /** The sorted matches. */
  function Matching(stored: seq<Article>, f: Filters): seq<Article> {
    SortNewest(FilterArticles(stored, f))
  }

  /** Where page `page` of `limit` articles starts. */
  function PageStart(f: Filters): (start: int)
    ensures PageOf(f) >= 1 && LimitOf(f) >= 1 ==> start >= 0
  {
    (PageOf(f) - 1) * LimitOf(f)
  }

  /**
   * `getArticles` over the stored list (`Err` when the store or the parse
   * failed, `None` when nothing is stored): the page window starting at
   * `(page - 1) * limit` of the sorted matches, and their count.
   */
  function Query(stored: Result<Option<seq<Article>>>, f: Filters): ArticlePage {
    if stored.Err? then EmptyPage
    else
      var sorted := Matching(stored.value.GetOr([]), f);
      var start := PageStart(f);
      ArticlePage(Slice(sorted, start, start + LimitOf(f)), |sorted|, PageOf(f), LimitOf(f))
  }

  /** A slice of a newest-first list is newest first. */
  lemma NewestSlice(s: seq<Article>, lo: int, hi: int)
    requires Newest(s) && 0 <= lo <= hi <= |s|
    ensures Newest(s[lo..hi])
  {
    var t := s[lo..hi];
    forall i, j | 0 <= i < j < |t|
      ensures t[i].scrapedAt >= t[j].scrapedAt
    {
      assert t[i] == s[lo + i] && t[j] == s[lo + j];
    }
  }

  lemma SliceMembers<T>(s: seq<T>, lo: int, hi: int)
    requires 0 <= lo <= hi <= |s|
    ensures forall a :: a in s[lo..hi] ==> a in s
  {
    forall a | a in s[lo..hi]
      ensures a in s
    {
      var k :| 0 <= k < hi - lo && s[lo..hi][k] == a;
      assert s[lo + k] == a;
    }
  }

  /** The window `slice(start, start + len)` for a start and a length that are not negative. */
  lemma SliceWindow<T>(s: seq<T>, start: int, len: int)
    requires start >= 0 && len >= 1
    ensures Slice(s, start, start + len)
            == if start >= |s| then [] else s[start..if start + len <= |s| then start + len else |s|]
  {
  }

  /**
   * Every article returned matches every filter set and was stored, newest
   * first; the total counts all matches.
   */
  lemma QueryMatches(stored: seq<Article>, f: Filters)
    requires PageOf(f) >= 1 && LimitOf(f) >= 1
    ensures var r := Query(Ok(Some(stored)), f);
            && r.total == |FilterArticles(stored, f)|
            && (forall a :: a in r.articles ==> a in stored && Matches(a, f))
            && Newest(r.articles)
  {
    var filtered := FilterArticles(stored, f);
    var sorted := SortNewest(filtered);
    var r := Query(Ok(Some(stored)), f);
    assert r.articles == Slice(sorted, PageStart(f), PageStart(f) + LimitOf(f)) && r.total == |sorted|;
    SortNewestOrders(filtered);
    Window(sorted, PageStart(f), LimitOf(f));
    forall a | a in r.articles
      ensures a in stored && Matches(a, f)
    {
      assert a in sorted;
      assert a in filtered;
    }
  }

  /** A page window of a newest-first list is newest first, at most `len` long, and drawn from the list. */
  lemma Window(s: seq<Article>, start: int, len: int)
    requires Newest(s) && start >= 0 && len >= 1
    ensures var w := Slice(s, start, start + len);
            && Newest(w) && |w| <= len && forall a :: a in w ==> a in s
  {
    SliceWindow(s, start, len);
    if start < |s| {
      var hi := if start + len <= |s| then start + len else |s|;
      NewestSlice(s, start, hi);
      SliceMembers(s, start, hi);
    }
  }

  /**
   * The page is the window of the newest-first matches starting at
   * `(page - 1) * limit`, at most `limit` long.
   */
  lemma QueryPage(stored: seq<Article>, f: Filters)
    requires PageOf(f) >= 1 && LimitOf(f) >= 1
    ensures var r := Query(Ok(Some(stored)), f);
            var sorted := Matching(stored, f);
            var start := PageStart(f);
            var end := if start + LimitOf(f) <= |sorted| then start + LimitOf(f) else |sorted|;
            && |r.articles| <= LimitOf(f)
            && r.articles == if start >= |sorted| then [] else sorted[start..end]
  {
    SliceWindow(Matching(stored, f), PageStart(f), LimitOf(f));
  }

  /** The total does not depend on the page asked for. */
  lemma TotalIgnoresPaging(stored: Result<Option<seq<Article>>>, f: Filters, page: Option<int>, limit: Option<int>)
    requires stored.Ok?
    ensures Query(stored, f).total == Query(stored, f.(page := page, limit := limit)).total
            == |FilterArticles(stored.value.GetOr([]), f)|
  {
    assert forall a :: Matches(a, f) == Matches(a, f.(page := page, limit := limit));
    FilterSameMatches(stored.value.GetOr([]), f, f.(page := page, limit := limit));
  }

  lemma {:induction false} FilterSameMatches(s: seq<Article>, f: Filters, g: Filters)
    requires forall a :: Matches(a, f) == Matches(a, g)
    ensures FilterArticles(s, f) == FilterArticles(s, g)
  {
    if s != [] {
      FilterSameMatches(s[1..], f, g);
    }
  }

  lemma {:induction false} FilterNone(s: seq<Article>)
    ensures FilterArticles(s, NoFilters) == s
  {
    if s != [] {
      FilterNone(s[1..]);
    }
  }

  function LinkOf(a: Article): string {
    a.link
  }

  function SourceNameOf(a: Article): string {
    a.sourceName
  }

  function CategoryOf(a: Article): string {
    a.category
  }

  /** What a save stores: the first article of each link, newest first, at most 1000. */
  function Saved(input: seq<Article>): seq<Article> {
    Take(SortNewest(NewsUtils.Dedup(input, LinkOf)), 1000)
  }

  lemma UniqueLinks(input: seq<Article>)
    ensures DistinctLinks(NewsUtils.Dedup(input, LinkOf))
  {
    NewsUtils.DedupDistinct(input, LinkOf);
    var u := NewsUtils.Dedup(input, LinkOf);
    forall i, j | 0 <= i < j < |u|
      ensures u[i].link != u[j].link
    {
      assert LinkOf(u[i]) != LinkOf(u[j]);
    }
  }

  /**
   * The saved list has pairwise distinct links, each the first article of
   * its link, and is newest first; it keeps min(1000, distinct links)
   * articles, and every article left out is no newer than any kept.
   */
  lemma SavedShape(input: seq<Article>)
    ensures var saved := Saved(input);
            var unique := NewsUtils.Dedup(input, LinkOf);
            && |saved| == (if |unique| < 1000 then |unique| else 1000)
            && Newest(saved)
            && DistinctLinks(saved)
            && (forall a :: a in saved ==> a in unique)
            && (forall a :: a in unique && a !in saved ==> forall b :: b in saved ==> b.scrapedAt >= a.scrapedAt)
  {
    var unique := NewsUtils.Dedup(input, LinkOf);
    var sorted := SortNewest(unique);
    SortNewestOrders(unique);
    UniqueLinks(input);
    SortNewestDistinct(unique);
    var saved := Saved(input);
    assert saved == sorted[..|saved|];
    NewestPrefix(sorted, |saved|);
    DistinctPrefix(sorted, |saved|);
  }

  /** A prefix of a newest-first list is newest first, and no article left out is newer than one kept. */
  lemma NewestPrefix(s: seq<Article>, n: nat)
    requires Newest(s) && n <= |s|
    ensures Newest(s[..n])
    ensures forall a, b :: a in s && a !in s[..n] && b in s[..n] ==> b.scrapedAt >= a.scrapedAt
  {
    NewestSlice(s, 0, n);
    forall a, b | a in s && a !in s[..n] && b in s[..n]
      ensures b.scrapedAt >= a.scrapedAt
    {
      var k :| 0 <= k < |s| && s[k] == a;
      var m :| 0 <= m < n && s[..n][m] == b;
      assert s[m] == b;
    }
  }

  lemma DistinctPrefix(s: seq<Article>, n: nat)
    requires DistinctLinks(s) && n <= |s|
    ensures DistinctLinks(s[..n])
  {
    forall i, j | 0 <= i < j < n
      ensures s[..n][i].link != s[..n][j].link
    {
      assert s[..n][i] == s[i] && s[..n][j] == s[j];
    }
  }

  datatype Stats = Stats(totalArticles: nat, sources: nat, categories: nat, lastUpdated: Option<int>)

  const EmptyStats := Stats(0, 0, 0, None)

  /** `getStats` over the stored list. */
  function StatsOf(stored: Result<Option<seq<Article>>>): Stats {
    if stored.Err? then EmptyStats
    else
      var s := stored.value.GetOr([]);
      Stats(|s|, |NewsUtils.KeysOf(s, SourceNameOf)|, |NewsUtils.KeysOf(s, CategoryOf)|,
            if |s| > 0 then Some(s[0].scrapedAt) else None)
  }

  lemma {:induction false} KeysOfBound<K>(s: seq<Article>, key: Article -> K)
    ensures |NewsUtils.KeysOf(s, key)| <= |s|
    ensures |NewsUtils.KeysOf(s, key)| == 0 <==> s == []
  {
    if s != [] {
      var p := s[..|s| - 1];
      KeysOfBound(p, key);
      assert s == p + [s[|s| - 1]];
      NewsUtils.KeysOfSnoc(p, s[|s| - 1], key);
    }
  }

  /**
   * The counts of distinct sources and categories are at most the article
   * count and zero only without articles; `lastUpdated` is the first
   * article's time.
   */
  lemma StatsBounds(stored: seq<Article>)
    ensures var st := StatsOf(Ok(Some(stored)));
            && st.totalArticles == |stored|
            && st.sources <= |stored| && st.categories <= |stored|
            && (st.sources == 0 <==> stored == []) && (st.categories == 0 <==> stored == [])
            && (st.lastUpdated.None? <==> stored == [])
            && (stored != [] ==> st.lastUpdated == Some(stored[0].scrapedAt))
  {
    KeysOfBound(stored, SourceNameOf);
    KeysOfBound(stored, CategoryOf);
  }

  /**
   * The `Database` object over the single stored key. `connected` says
   * whether the store could be reached and its value parsed.
   */
  class Database {
    /** The `articles` key: absent until the first save. */
    var stored: Option<seq<Article>>

    constructor()
      ensures stored == None
    {
      stored := None;
    }

    function GetArticles(f: Filters, connected: bool): (r: ArticlePage)
      reads this
      ensures !connected ==> r == EmptyPage
    {
      Query(if connected then Ok(stored) else Err(""), f)
    }

    function GetStats(connected: bool): (r: Stats)
      reads this
      ensures !connected ==> r == EmptyStats
    {
      StatsOf(if connected then Ok(stored) else Err(""))
    }

    /**
     * `saveArticles`: the first of each link in a `seenLinks` pass, then the
     * newest thousand; a failure is swallowed and stores nothing.
     */
    method SaveArticles(input: seq<Article>, connected: bool)
      modifies this
      ensures connected ==> stored == Some(Saved(input))
      ensures !connected ==> stored == old(stored)
    {
      if !connected {
        return;
      }
      var unique := NewsUtils.DeduplicateByKey(input, LinkOf);
      var sorted := SortNewest(unique);
      var limited := Take(sorted, 1000);
      stored := Some(limited);
    }
  }

  /**
   * Reading back after a save with no filters gives the first 20 saved
   * articles and the saved count, and the stats date the newest of them.
   */
  lemma SaveThenRead(input: seq<Article>)
    ensures var saved := Saved(input);
            && Query(Ok(Some(saved)), NoFilters) == ArticlePage(Take(saved, 20), |saved|, 1, 20)
            && (saved != [] ==> StatsOf(Ok(Some(saved))).lastUpdated == Some(saved[0].scrapedAt))
  {
    SavedShape(input);
    QueryUnfiltered(Saved(input));
  }

  /** With no filters, a newest-first list reads back as its first 20 articles. */
  lemma QueryUnfiltered(saved: seq<Article>)
    requires Newest(saved)
    ensures Query(Ok(Some(saved)), NoFilters) == ArticlePage(Take(saved, 20), |saved|, 1, 20)
  {
    FilterNone(saved);
    SortNewestSorted(saved);
    assert Matching(saved, NoFilters) == saved;
    assert PageStart(NoFilters) == 0;
    SliceWindow(saved, 0, 20);
  }
}
