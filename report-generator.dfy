/**
 * The daily and weekly research reports: articles grouped by category, the
 * first twenty summarised by a completion model, with fixed summaries when
 * there is nothing to report or the model fails, and one report per day
 * for the seven newest days.
 */
module ReportGenerator {
  import opened Wrappers
  import opened Js
  import opened News
  import NewsUtils

  datatype ReportArticle = ReportArticle(title: string, link: string, category: string)

  datatype DailyReport = DailyReport(date: string, summary: string, articles: seq<ReportArticle>, isBigNews: bool)

  /** The fields read from the model's JSON answer. */
  datatype ReportData = ReportData(summary: string, isBigNews: bool)

  /** What the completion call gave: an exception, or the first choice's content, if any. */
  datatype Completion = CompletionThrew | Completed(content: Option<string>)

  const NothingToday := "No research published today."
  const DefaultData := ReportData("Research activity detected across multiple labs.", false)

  function CategoryOf(a: Article): string {
    a.category
  }

  /** The articles of category `c`, in input order. */
  function OfCategory(s: seq<Article>, c: string): (r: seq<Article>)
    ensures forall a :: a in r <==> a in s && a.category == c
    ensures (forall a :: a in s ==> a.category != c) ==> r == []
  {
    if s == [] then []
    else
      var p := s[..|s| - 1];
      assert s == p + [s[|s| - 1]];
      OfCategory(p, c) + (if s[|s| - 1].category == c then [s[|s| - 1]] else [])
  }

  /** The `byCategory` reduction: each article appended to its category's list. */
  function ByCategory(s: seq<Article>): map<string, seq<Article>> {
    if s == [] then map[]
    else
      var m := ByCategory(s[..|s| - 1]);
      var a := s[|s| - 1];
      m[a.category := (if a.category in m then m[a.category] else []) + [a]]
  }

  /**
   * Every article lands in exactly its category's group, in input order; the
   * groups are those of the categories present.
   */
  lemma {:induction false} GroupsExact(s: seq<Article>)
    ensures ByCategory(s).Keys == NewsUtils.KeysOf(s, CategoryOf)
    ensures forall c :: c in ByCategory(s) ==> ByCategory(s)[c] == OfCategory(s, c)
  {
    if s != [] {
      var p := s[..|s| - 1];
      var a := s[|s| - 1];
      GroupsExact(p);
      assert s == p + [a];
      NewsUtils.KeysOfSnoc(p, a, CategoryOf);
      forall c | c in ByCategory(p) && c != a.category
        ensures OfCategory(s, c) == OfCategory(p, c)
      {
      }
      if a.category !in ByCategory(p) {
        forall x | x in p
          ensures x.category != a.category
        {
          var i :| 0 <= i < |p| && p[i] == x;
          assert CategoryOf(p[i]) in NewsUtils.KeysOf(p, CategoryOf);
        }
      }
    }
  }

  /** The line sent to the model for one article. */
  function SummaryLine(a: Article): string {
    "[" + a.category + "] " + a.title + " (" + a.sourceName + ")\n" + a.description
  }

  function SummaryLines(s: seq<Article>): (ls: seq<string>)
    ensures |ls| == |s| && forall i :: 0 <= i < |s| ==> ls[i] == SummaryLine(s[i])
  {
    seq(|s|, i requires 0 <= i < |s| => SummaryLine(s[i]))
  }

  /** `articleSummaries`: the first 20 articles' lines, separated by a blank line. */
  function ArticleSummaries(s: seq<Article>): string {
    Join(SummaryLines(Take(s, 20)), "\n\n")
  }

  /** Articles after the twentieth never reach the model. */
  lemma SummariesIgnoreRest(s: seq<Article>, t: seq<Article>)
    requires |s| >= 20 && |t| >= 20 && s[..20] == t[..20]
    ensures ArticleSummaries(s) == ArticleSummaries(t)
  {
    assert Take(s, 20) == Take(t, 20);
  }

  /** The article list of a report: title, link and category of every article, in order. */
  function Project(s: seq<Article>): (r: seq<ReportArticle>)
    ensures |r| == |s|
    ensures forall i :: 0 <= i < |s| ==> r[i] == ReportArticle(s[i].title, s[i].link, s[i].category)
  {
    seq(|s|, i requires 0 <= i < |s| => ReportArticle(s[i].title, s[i].link, s[i].category))
  }

  /** The summary used when the completion call throws. */
  function FallbackSummary(s: seq<Article>): string {
    NatToString(|s|) + " research articles published across " + NatToString(|ByCategory(s).Keys|) + " categories."
  }

  /** One past the last '}', or 0 when there is none. */
  function LastCloseEnd(t: string): (k: nat)
    ensures k <= |t| && (k > 0 ==> t[k - 1] == '}')
    ensures forall i :: k <= i < |t| ==> t[i] != '}'
  {
    if t == [] then 0 else if t[|t| - 1] == '}' then |t| else LastCloseEnd(t[..|t| - 1])
  }

  /** `content.match(/\{[\s\S]*\}/)`: from the first '{' to the last '}' after it. */
  function JsonSpan(t: string): (r: Option<string>)
    ensures r.Some? ==> |r.value| >= 2 && r.value[0] == '{' && r.value[|r.value| - 1] == '}'
  {
    var i := IndexOf(t, '{');
    var j := LastCloseEnd(t);
    if i < j then Some(t[i..j]) else None
  }

  /** The span exists exactly when some '{' comes before some '}'. */
  lemma JsonSpanExists(t: string)
    ensures JsonSpan(t).Some? <==> exists i, j :: 0 <= i < j < |t| && t[i] == '{' && t[j] == '}'
  {
    var i := IndexOf(t, '{');
    var j := LastCloseEnd(t);
    if exists p, q :: 0 <= p < q < |t| && t[p] == '{' && t[q] == '}' {
      var p, q :| 0 <= p < q < |t| && t[p] == '{' && t[q] == '}';
      assert i <= p;
      assert q < j;
    }
    if i < j {
      assert t[j - 1] == '}';
    }
  }

  /**
   * `generateDailyReport`: `today` is the date string of the call and
   * `parse` stands for `JSON.parse` on the matched span (`None` when it
   * throws).
   */
  function Daily(s: seq<Article>, today: string, completion: Completion, parse: string -> Option<ReportData>): DailyReport {
    if |s| == 0 then DailyReport(today, NothingToday, [], false)
    else if completion.CompletionThrew? then DailyReport(today, FallbackSummary(s), Project(s), false)
    else
      var span := JsonSpan(OrElse(completion.content, ""));
      var data := if span.Some? && parse(span.value).Some? then parse(span.value).value else DefaultData;
      DailyReport(today, data.summary, Project(s), data.isBigNews)
  }

  /**
   * Without articles the report is the fixed one. With articles its list is
   * the projection of all of them, whatever the model does; when the model
   * throws the summary counts the articles and their distinct categories and
   * it is no big news; when its answer holds a JSON object that parses, its
   * summary and flag are used, and otherwise the default summary.
   */
  lemma DailyOutcomes(s: seq<Article>, today: string, completion: Completion, parse: string -> Option<ReportData>)
    ensures var r := Daily(s, today, completion, parse);
            && r.date == today
            && (s == [] ==> r == DailyReport(today, NothingToday, [], false))
            && (s != [] ==> r.articles == Project(s))
            && (s != [] && completion.CompletionThrew? ==>
                  r.isBigNews == false
                  && r.summary == NatToString(|s|) + " research articles published across "
                                  + NatToString(|NewsUtils.KeysOf(s, CategoryOf)|) + " categories.")
            && (s != [] && completion.Completed?
                && !(exists i, j :: 0 <= i < j < |OrElse(completion.content, "")|
                                    && OrElse(completion.content, "")[i] == '{' && OrElse(completion.content, "")[j] == '}')
                ==> r.summary == DefaultData.summary && !r.isBigNews)
            && (s != [] && completion.Completed? && JsonSpan(OrElse(completion.content, "")).Some? ==>
                  var data := parse(JsonSpan(OrElse(completion.content, "")).value);
                  && (data.Some? ==> r.summary == data.value.summary && r.isBigNews == data.value.isBigNews)
                  && (data.None? ==> r.summary == DefaultData.summary && !r.isBigNews))
  {
    GroupsExact(s);
    if completion.Completed? {
      JsonSpanExists(OrElse(completion.content, ""));
    }
  }

  /** The UTC day of an article's scrape time. */
  function DayOf(a: Article): int {
    a.scrapedAt / 86400000
  }

  /** The articles of day `d`, in input order. */
  function OfDay(s: seq<Article>, d: int): (r: seq<Article>)
    ensures forall a :: a in r <==> a in s && DayOf(a) == d
  {
    if s == [] then [] else (if DayOf(s[0]) == d then [s[0]] else []) + OfDay(s[1..], d)
  }

  function DaysOf(s: seq<Article>): (ds: seq<int>)
    ensures |ds| == |s| && forall i :: 0 <= i < |s| ==> ds[i] == DayOf(s[i])
  {
    seq(|s|, i requires 0 <= i < |s| => DayOf(s[i]))
  }

  predicate Descending(ds: seq<int>) {
    forall i, j :: 0 <= i < j < |ds| ==> ds[i] > ds[j]
  }

  function InsertDay(d: int, ds: seq<int>): (r: seq<int>)
    ensures forall x :: x in r <==> x == d || x in ds
    ensures |r| == |ds| + 1
  {
    if ds == [] || ds[0] <= d then [d] + ds else [ds[0]] + InsertDay(d, ds[1..])
  }

  /** Day numbers sorted newest first, as the date strings sort in reverse. */
  function SortDays(ds: seq<int>): (r: seq<int>)
    ensures forall x :: x in r <==> x in ds
    ensures |r| == |ds|
  {
    if ds == [] then [] else InsertDay(ds[0], SortDays(ds[1..]))
  }

  lemma {:induction false} InsertDayDescending(d: int, ds: seq<int>)
    requires Descending(ds) && d !in ds
    ensures Descending(InsertDay(d, ds))
  {
    if ds != [] && ds[0] > d {
      InsertDayDescending(d, ds[1..]);
      var t := InsertDay(d, ds[1..]);
      forall k | 0 <= k < |t|
        ensures ds[0] > t[k]
      {
        assert t[k] in t;
        if t[k] != d {
          var m :| 0 <= m < |ds[1..]| && ds[1..][m] == t[k];
          assert ds[m + 1] == t[k];
        }
      }
    }
  }

  /** Distinct day numbers sort strictly newest first. */
  lemma {:induction false} SortDaysDescending(ds: seq<int>)
    requires forall i, j :: 0 <= i < j < |ds| ==> ds[i] != ds[j]
    ensures Descending(SortDays(ds))
  {
    if ds != [] {
      SortDaysDescending(ds[1..]);
      forall m | 0 <= m < |ds[1..]|
        ensures ds[1..][m] != ds[0]
      {
        assert ds[1..][m] == ds[m + 1];
      }
      InsertDayDescending(ds[0], SortDays(ds[1..]));
    }
  }

  /** The days reported on: the distinct days present, newest first, at most seven. */
  function ReportDays(s: seq<Article>): seq<int> {
    Take(SortedDays(s), 7)
  }

  /**
   * `generateWeeklyReports`: one daily report per reported day, newest day
   * first, built from that day's articles; `completion(d)` is the model's
   * outcome for day `d`.
   */
  function Weekly(s: seq<Article>, today: string, completion: int -> Completion, parse: string -> Option<ReportData>)
    : (rs: seq<DailyReport>)
    ensures |rs| == |ReportDays(s)| <= 7
  {
    var days := ReportDays(s);
    seq(|days|, i requires 0 <= i < |days| => Daily(OfDay(s, days[i]), today, completion(days[i]), parse))
  }

  /** The days present, each once, in order of first appearance. */
  function UniqueDays(s: seq<Article>): seq<int> {
    DaysOf(NewsUtils.Dedup(s, DayOf))
  }

  lemma DistinctDays(s: seq<Article>)
    ensures var ds := UniqueDays(s);
            && (forall i, j :: 0 <= i < j < |ds| ==> ds[i] != ds[j])
            && (forall d :: d in ds <==> exists a :: a in s && DayOf(a) == d)
  {
    var u := NewsUtils.Dedup(s, DayOf);
    NewsUtils.DedupDistinct(s, DayOf);
    NewsUtils.DedupKeys(s, DayOf);
    var ds := DaysOf(u);
    forall d
      ensures d in ds <==> exists a :: a in s && DayOf(a) == d
    {
      if d in ds {
        var k :| 0 <= k < |ds| && ds[k] == d;
        assert DayOf(u[k]) in NewsUtils.KeysOf(u, DayOf);
      }
      if exists a :: a in s && DayOf(a) == d {
        var a :| a in s && DayOf(a) == d;
        var k :| 0 <= k < |s| && s[k] == a;
        assert DayOf(s[k]) in NewsUtils.KeysOf(s, DayOf);
        var m :| 0 <= m < |u| && DayOf(u[m]) == d;
        assert ds[m] == d;
      }
    }
  }

  /** The distinct days present, sorted newest first. */
  function SortedDays(s: seq<Article>): seq<int> {
    SortDays(UniqueDays(s))
  }

  lemma SortedDaysShape(s: seq<Article>)
    ensures Descending(SortedDays(s))
    ensures forall d :: d in SortedDays(s) <==> exists a :: a in s && DayOf(a) == d
  {
    DistinctDays(s);
    SortDaysDescending(UniqueDays(s));
  }

  /**
   * The reported days are days of some article, strictly newest first, as
   * many as there are distinct days up to seven, and any day left out is
   * older than every reported one.
   */
  lemma ReportDaysShape(s: seq<Article>)
    ensures var days := ReportDays(s);
            && Descending(days)
            && (forall d :: d in days ==> exists a :: a in s && DayOf(a) == d)
            && (forall a :: a in s && DayOf(a) !in days ==> |days| == 7 && forall d :: d in days ==> d > DayOf(a))
  {
    var sorted := SortedDays(s);
    SortedDaysShape(s);
    var days := ReportDays(s);
    assert days == sorted[..|days|];
    TakeNewest(sorted, |days|);
    forall a | a in s && DayOf(a) !in days
      ensures |days| == 7
    {
      assert DayOf(a) in sorted;
    }
  }

  /** A prefix of a strictly descending list is itself so, and holds its largest elements. */
  lemma TakeNewest(sorted: seq<int>, n: nat)
    requires Descending(sorted) && n <= |sorted|
    ensures Descending(sorted[..n])
    ensures forall d :: d in sorted[..n] ==> d in sorted
    ensures forall x :: x in sorted && x !in sorted[..n] ==> forall d :: d in sorted[..n] ==> d > x
  {
    var days := sorted[..n];
    forall d | d in days
      ensures d in sorted
    {
      var k :| 0 <= k < n && days[k] == d;
      assert sorted[k] == d;
    }
    forall x, d | x in sorted && x !in days && d in days
      ensures d > x
    {
      var k :| 0 <= k < |sorted| && sorted[k] == x;
      var m :| 0 <= m < n && days[m] == d;
      assert sorted[m] == d;
      assert forall j :: 0 <= j < n ==> days[j] == sorted[j];
    }
  }

  /**
   * Each weekly report lists exactly its day's articles, in input order, so
   * none is the empty-day report; every report carries the date of the call.
   */
  lemma WeeklyReports(s: seq<Article>, today: string, completion: int -> Completion, parse: string -> Option<ReportData>,
                      i: nat)
    requires i < |ReportDays(s)|
    ensures var r := Weekly(s, today, completion, parse)[i];
            var group := OfDay(s, ReportDays(s)[i]);
            && group != [] && r.articles == Project(group) && r.date == today
  {
    ReportDaysShape(s);
    var d := ReportDays(s)[i];
    assert d in ReportDays(s);
    var a :| a in s && DayOf(a) == d;
    assert a in OfDay(s, d);
  }
}
