/**
 * The CSV report of a crawl result: a title line, the summary and the
 * statistics sections, one detail row per page, the snippet section (only
 * when some lorem page has snippets) and the top-ten ranking, joined with
 * newlines.  Quoted fields have every `"` doubled, except URLs, which are
 * quoted as they are.  Date rendering (`toLocaleString`) and the
 * floating-point percentage are supplied by the caller.
 */
module CsvReport {
  import opened Wrappers
  import opened Strings
  import opened Seqs
  import opened Types

  /** `s.replace(/"/g, '""')`. */
  function Escape(s: string): string
    decreases |s|
  {
    if s == [] then [] else (if s[0] == '"' then "\"\"" else [s[0]]) + Escape(s[1..])
  }

  /** How a CSV reader reads the inside of a quoted field back: `""` stands for one `"`. */
  function Unescape(s: string): string
    decreases |s|
  {
    if |s| >= 2 && s[0] == '"' && s[1] == '"' then "\"" + Unescape(s[2..])
    else if s == [] then []
    else [s[0]] + Unescape(s[1..])
  }

  /** Reading an escaped text back gives the text: escaping loses nothing. */
  lemma {:induction false} EscapeRoundTrip(s: string)
    ensures Unescape(Escape(s)) == s
    decreases |s|
  {
    if s != [] {
      EscapeRoundTrip(s[1..]);
      var head := if s[0] == '"' then "\"\"" else [s[0]];
      var e := head + Escape(s[1..]);
      assert Escape(s) == e;
      if s[0] == '"' {
        assert e[2..] == Escape(s[1..]);
      } else {
        assert e[1..] == Escape(s[1..]);
      }
      assert s == [s[0]] + s[1..];
    }
  }

  /** A text without `"` is left as it is. */
  lemma {:induction false} EscapeWithoutQuotes(s: string)
    requires '"' !in s
    ensures Escape(s) == s
    decreases |s|
  {
    if s != [] {
      assert '"' !in s[1..] by {
        forall k | 0 <= k < |s[1..]| ensures s[1..][k] != '"' {
          assert s[1..][k] == s[k + 1];
        }
      }
      EscapeWithoutQuotes(s[1..]);
      assert s == [s[0]] + s[1..];
    }
  }

  /** `"${s}"`. */
  function Quote(s: string): string {
    "\"" + s + "\""
  }

  const ReportTitle := "Lorem Sleuth Crawl Report"
  const SummaryHeading := "=== CRAWL SUMMARY ==="
  const StatisticsHeading := "=== STATISTICS ==="
  const DetailsHeading := "=== DETAILED PAGE RESULTS ==="
  const DetailsHeader := "Page #,URL,Status,Lorem Count,Page Title,Timestamp,Error Message"
  const SnippetsHeading := "=== LOREM IPSUM SNIPPETS ==="
  const SnippetsHeader := "URL,Line Number,Context Before,Lorem Text,Context After"
  const TopHeading := "=== TOP PAGES WITH MOST LOREM INSTANCES ==="
  const TopHeader := "Rank,URL,Lorem Count"
  const ContextWidth := 50
  const TopCount := 10

  /** The lines before the statistics: the title, a blank line and the configuration. */
  function SummaryLines(r: CrawlResult, localeDate: string -> string): seq<string> {
    [ReportTitle, "",
     SummaryHeading,
     "Website URL," + r.config.url,
     "Crawl Scope," + ScopeName(r.config.scope),
     "Max Pages," + IntToString(r.config.maxPages),
     "Max Depth," + IntToString(r.config.maxDepth),
     "Scan Date," + localeDate(r.createdAt),
     "Scan Time," + r.summary.scanTime,
     ""]
  }

  /** The percentage field: `percent` renders the ratio, and it is `0` when no page was scanned. */
  function LoremPercentage(s: CrawlSummary, percent: (int, int) -> string): string {
    if s.totalPages > 0 then percent(s.loremPages, s.totalPages) else "0"
  }

  function StatisticsLines(r: CrawlResult, percent: (int, int) -> string): seq<string> {
    [StatisticsHeading,
     "Total Pages Scanned," + IntToString(r.summary.totalPages),
     "Pages with Lorem Ipsum," + IntToString(r.summary.loremPages),
     "Clean Pages," + IntToString(r.summary.cleanPages),
     "Total Lorem Instances," + IntToString(r.summary.totalInstances),
     "Lorem Percentage," + LoremPercentage(r.summary, percent) + "%",
     ""]
  }

  /** The error column: the escaped, quoted message, or empty when there is none (an empty message is falsy). */
  function ErrorField(error: Option<string>): string {
    if error.Some? && error.value != "" then Quote(Escape(error.value)) else ""
  }

  /** The seven columns of the detail row of page number `number`. */
  function DetailFields(number: nat, p: PageResult, localeDate: string -> string): seq<string> {
    [NatToString(number),
     Quote(p.url),
     StatusName(p.status),
     IntToString(p.loremCount),
     Quote(Escape(p.title)),
     localeDate(p.timestamp),
     ErrorField(p.error)]
  }

  function DetailRow(number: nat, p: PageResult, localeDate: string -> string): string {
    Join(DetailFields(number, p, localeDate), ",")
  }

  /** One detail row per page, in page order, numbered from 1. */
  function DetailRows(pages: seq<PageResult>, localeDate: string -> string): (rows: seq<string>)
    ensures |rows| == |pages|
  {
    seq(|pages|, i requires 0 <= i < |pages| => DetailRow(i + 1, pages[i], localeDate))
  }

  /** The pages whose snippets are listed. */
  predicate HasSnippets(p: PageResult) {
    p.status == Lorem && |p.snippets| > 0
  }

  function SnippetPages(pages: seq<PageResult>): seq<PageResult> {
    Filter(pages, (p: PageResult) => HasSnippets(p))
  }

  /** The columns of a snippet row: the contexts are cut to their first 50 characters before escaping. */
  function SnippetFields(url: string, s: LoremSnippet): seq<string> {
    [Quote(url),
     IntToString(s.lineNumber),
     Quote(Escape(Prefix(s.contextBefore, ContextWidth))),
     Quote(Escape(s.loremText)),
     Quote(Escape(Prefix(s.contextAfter, ContextWidth)))]
  }

  function SnippetRow(url: string, s: LoremSnippet): string {
    Join(SnippetFields(url, s), ",")
  }

  /** The snippet rows of one page, in snippet order. */
  function PageSnippetRows(p: PageResult): (rows: seq<string>)
    ensures |rows| == |p.snippets|
  {
    seq(|p.snippets|, j requires 0 <= j < |p.snippets| => SnippetRow(p.url, p.snippets[j]))
  }

  /** The snippet rows of the first `n` pages. */
  function SnippetRows(pages: seq<PageResult>, n: nat): seq<string>
    requires n <= |pages|
  {
    if n == 0 then [] else SnippetRows(pages, n - 1) + PageSnippetRows(pages[n - 1])
  }

  /** The snippet section, present only when some page is a lorem page with snippets. */
  function SnippetLines(pages: seq<PageResult>): seq<string> {
    var listed := SnippetPages(pages);
    if |listed| > 0 then ["", SnippetsHeading, SnippetsHeader] + SnippetRows(listed, |listed|) else []
  }

  /** The comparator `(a, b) => b.loremCount - a.loremCount`. */
  function ByCountDescending(a: PageResult, b: PageResult): int {
    b.loremCount - a.loremCount
  }

  /** The sort key the comparator orders by: the negated count. */
  function NegCount(p: PageResult): int {
    -p.loremCount
  }

  /** The pages with occurrences, by non-increasing count, ties in page order. */
  function Ranked(pages: seq<PageResult>): seq<PageResult> {
    SortWith(Filter(pages, (p: PageResult) => p.loremCount > 0), ByCountDescending)
  }

  /** `[...pages].filter(p => p.loremCount > 0).sort(...).slice(0, 10)`. */
  function TopPages(pages: seq<PageResult>): seq<PageResult> {
    Take(Ranked(pages), TopCount)
  }

  function TopRow(rank: nat, p: PageResult): string {
    NatToString(rank) + "," + Quote(p.url) + "," + IntToString(p.loremCount)
  }

  function TopRows(top: seq<PageResult>): (rows: seq<string>)
    ensures |rows| == |top|
  {
    seq(|top|, i requires 0 <= i < |top| => TopRow(i + 1, top[i]))
  }

  /** The detail section: its heading, the column names and one row per page. */
  function DetailLines(pages: seq<PageResult>, localeDate: string -> string): seq<string> {
    [DetailsHeading, DetailsHeader] + DetailRows(pages, localeDate)
  }

  /** The ranking section: a blank line, its heading, the column names and the rows. */
  function TopLines(pages: seq<PageResult>): seq<string> {
    ["", TopHeading, TopHeader] + TopRows(TopPages(pages))
  }

  /** Every line of the report, in section order. */
  function ReportLines(r: CrawlResult, localeDate: string -> string, percent: (int, int) -> string): seq<string> {
    SummaryLines(r, localeDate)
    + StatisticsLines(r, percent)
    + DetailLines(r.pages, localeDate)
    + SnippetLines(r.pages)
    + TopLines(r.pages)
  }

  /**
   * The CSV export: nothing without a result; otherwise the report lines,
   * pushed section by section, joined with newlines.
   */
  method ExportCsv(result: Option<CrawlResult>, localeDate: string -> string, percent: (int, int) -> string)
    returns (csv: Option<string>)
    ensures result.None? ==> csv.None?
    ensures result.Some? ==> csv == Some(Join(ReportLines(result.value, localeDate, percent), "\n"))
  {
    if result.None? {
      return None;
    }
    var r := result.value;
    var lines: seq<string> := [];
    lines := PushSummary(lines, r, localeDate);
    assert lines == SummaryLines(r, localeDate);
    lines := PushStatistics(lines, r, percent);
    lines := PushDetails(lines, r.pages, localeDate);
    lines := PushSnippets(lines, r.pages);
    lines := PushTop(lines, r.pages);
    csv := Some(Join(lines, "\n"));
  }

  /** The title, summary and configuration lines, pushed one by one. */
  method PushSummary(lines: seq<string>, r: CrawlResult, localeDate: string -> string) returns (out: seq<string>)
    ensures out == lines + SummaryLines(r, localeDate)
  {
    out := lines;
    out := out + [ReportTitle];
    out := out + [""];
    out := out + [SummaryHeading];
    out := out + ["Website URL," + r.config.url];
    out := out + ["Crawl Scope," + ScopeName(r.config.scope)];
    out := out + ["Max Pages," + IntToString(r.config.maxPages)];
    out := out + ["Max Depth," + IntToString(r.config.maxDepth)];
    out := out + ["Scan Date," + localeDate(r.createdAt)];
    out := out + ["Scan Time," + r.summary.scanTime];
    out := out + [""];
  }

  /** The statistics lines, pushed one by one. */
  method PushStatistics(lines: seq<string>, r: CrawlResult, percent: (int, int) -> string) returns (out: seq<string>)
    ensures out == lines + StatisticsLines(r, percent)
  {
    out := lines;
    out := out + [StatisticsHeading];
    out := out + ["Total Pages Scanned," + IntToString(r.summary.totalPages)];
    out := out + ["Pages with Lorem Ipsum," + IntToString(r.summary.loremPages)];
    out := out + ["Clean Pages," + IntToString(r.summary.cleanPages)];
    out := out + ["Total Lorem Instances," + IntToString(r.summary.totalInstances)];
    var loremPercentage := if r.summary.totalPages > 0 then percent(r.summary.loremPages, r.summary.totalPages) else "0";
    out := out + ["Lorem Percentage," + loremPercentage + "%"];
    out := out + [""];
  }

  /** The detail heading and the `pages.forEach`: one row per page, numbered from 1. */
  method PushDetails(lines: seq<string>, pages: seq<PageResult>, localeDate: string -> string) returns (out: seq<string>)
    ensures out == lines + DetailLines(pages, localeDate)
  {
    out := lines + [DetailsHeading];
    out := out + [DetailsHeader];
    ghost var start := out;
    for i := 0 to |pages|
      invariant out == start + DetailRows(pages, localeDate)[..i]
    {
      out := out + [DetailRow(i + 1, pages[i], localeDate)];
      assert DetailRows(pages, localeDate)[..i + 1] == DetailRows(pages, localeDate)[..i] + [DetailRow(i + 1, pages[i], localeDate)];
    }
    assert DetailRows(pages, localeDate)[..|pages|] == DetailRows(pages, localeDate);
    assert start == lines + [DetailsHeading, DetailsHeader];
  }

  /** The snippet section, pushed only when some lorem page has snippets. */
  method PushSnippets(lines: seq<string>, pages: seq<PageResult>) returns (out: seq<string>)
    ensures out == lines + SnippetLines(pages)
  {
    out := lines;
    var listed := SnippetPages(pages);
    if |listed| > 0 {
      out := out + [""];
      out := out + [SnippetsHeading];
      out := out + [SnippetsHeader];
      ghost var headed := out;
      assert headed == lines + ["", SnippetsHeading, SnippetsHeader];
      out := PushSnippetRows(out, listed);
      assert out == lines + (["", SnippetsHeading, SnippetsHeader] + SnippetRows(listed, |listed|));
    } else {
      assert out == lines + [];
    }
  }

  /** The ranking heading, then the ranked pages. */
  method PushTop(lines: seq<string>, pages: seq<PageResult>) returns (out: seq<string>)
    ensures out == lines + TopLines(pages)
  {
    out := lines + [""];
    out := out + [TopHeading];
    out := out + [TopHeader];
    assert out == lines + ["", TopHeading, TopHeader];
    out := PushTopRows(out, TopPages(pages));
  }

  /** The `topPages.forEach`: one row per ranked page, ranked from 1. */
  method PushTopRows(lines: seq<string>, top: seq<PageResult>) returns (out: seq<string>)
    ensures out == lines + TopRows(top)
  {
    out := lines;
    for i := 0 to |top|
      invariant out == lines + TopRows(top)[..i]
    {
      out := out + [TopRow(i + 1, top[i])];
      assert TopRows(top)[..i + 1] == TopRows(top)[..i] + [TopRow(i + 1, top[i])];
    }
    assert TopRows(top)[..|top|] == TopRows(top);
  }

  /** The nested `forEach`: one row per snippet of each listed page, pushed in order. */
  method PushSnippetRows(lines: seq<string>, listed: seq<PageResult>) returns (out: seq<string>)
    ensures out == lines + SnippetRows(listed, |listed|)
  {
    out := lines;
    for k := 0 to |listed|
      invariant out == lines + SnippetRows(listed, k)
    {
      var page := listed[k];
      ghost var start := out;
      for j := 0 to |page.snippets|
        invariant out == start + PageSnippetRows(page)[..j]
      {
        var s := page.snippets[j];
        out := out + [SnippetRow(page.url, s)];
        assert PageSnippetRows(page)[..j + 1] == PageSnippetRows(page)[..j] + [SnippetRow(page.url, s)];
      }
      assert PageSnippetRows(page)[..|page.snippets|] == PageSnippetRows(page);
      assert out == lines + (SnippetRows(listed, k) + PageSnippetRows(page));
    }
  }

  // ---------------------------------------------------------------------------
  // What the report states

  /** Row `i` of the details describes page `i`, numbered `i + 1`, in seven columns. */
  lemma DetailRowsMeaning(pages: seq<PageResult>, localeDate: string -> string, i: nat)
    requires i < |pages|
    ensures var fields := DetailFields(i + 1, pages[i], localeDate);
      DetailRows(pages, localeDate)[i] == Join(fields, ",")
      && |fields| == 7
      && DigitsValue(fields[0]) == i + 1
      && fields[1] == "\"" + pages[i].url + "\""
      && Unescape(fields[4][1..|fields[4]| - 1]) == pages[i].title
      && (fields[6] == "" <==> pages[i].error.None? || pages[i].error.value == "")
      && (fields[6] != "" ==> Unescape(fields[6][1..|fields[6]| - 1]) == pages[i].error.value)
  {
    NatToStringRoundTrip(i + 1);
    var fields := DetailFields(i + 1, pages[i], localeDate);
    EscapeRoundTrip(pages[i].title);
    assert fields[4][1..|fields[4]| - 1] == Escape(pages[i].title);
    if pages[i].error.Some? && pages[i].error.value != "" {
      EscapeRoundTrip(pages[i].error.value);
      assert fields[6][1..|fields[6]| - 1] == Escape(pages[i].error.value);
    }
  }

  /**
   * Snippet row `j` of a page describes its `j`-th snippet in five columns:
   * the page URL quoted but not escaped, the line number, and the context
   * before (cut to its first 50 characters), the lorem text and the context
   * after (cut likewise), each quoted with its quotes doubled.
   */
  lemma SnippetRowMeaning(p: PageResult, j: nat)
    requires j < |p.snippets|
    ensures var s := p.snippets[j];
      var fields := SnippetFields(p.url, s);
      var before := Prefix(s.contextBefore, ContextWidth);
      var after := Prefix(s.contextAfter, ContextWidth);
      PageSnippetRows(p)[j] == Join(fields, ",")
      && |fields| == 5
      && fields[0] == "\"" + p.url + "\""
      && (s.lineNumber >= 0 ==> AllDigits(fields[1]) && DigitsValue(fields[1]) == s.lineNumber)
      && |before| == (if |s.contextBefore| <= ContextWidth then |s.contextBefore| else ContextWidth) && before == s.contextBefore[..|before|]
      && |after| == (if |s.contextAfter| <= ContextWidth then |s.contextAfter| else ContextWidth) && after == s.contextAfter[..|after|]
      && Unescape(fields[2][1..|fields[2]| - 1]) == before
      && Unescape(fields[3][1..|fields[3]| - 1]) == s.loremText
      && Unescape(fields[4][1..|fields[4]| - 1]) == after
  {
    var s := p.snippets[j];
    var fields := SnippetFields(p.url, s);
    var before := Prefix(s.contextBefore, ContextWidth);
    var after := Prefix(s.contextAfter, ContextWidth);
    if s.lineNumber >= 0 {
      NatToStringRoundTrip(s.lineNumber);
    }
    EscapeRoundTrip(before);
    EscapeRoundTrip(s.loremText);
    EscapeRoundTrip(after);
    assert fields[2][1..|fields[2]| - 1] == Escape(before);
    assert fields[3][1..|fields[3]| - 1] == Escape(s.loremText);
    assert fields[4][1..|fields[4]| - 1] == Escape(after);
  }

  /** The snippet section appears exactly when some page is a lorem page with at least one snippet. */
  lemma SnippetSectionPresence(pages: seq<PageResult>)
    ensures SnippetLines(pages) != [] <==> exists i :: 0 <= i < |pages| && HasSnippets(pages[i])
  {
    var listed := SnippetPages(pages);
    FilterMembers(pages, (p: PageResult) => HasSnippets(p));
    if |listed| > 0 {
      assert listed[0] in listed;
    }
    forall i | 0 <= i < |pages| && HasSnippets(pages[i]) ensures |listed| > 0 {
      assert pages[i] in listed;
    }
  }

  lemma ByCountKeyed()
    ensures KeyedBy(ByCountDescending, NegCount)
  {
  }

  /** The ranked pages are the pages with occurrences, rearranged. */
  lemma RankedPermutation(pages: seq<PageResult>)
    ensures var positive := Filter(pages, (p: PageResult) => p.loremCount > 0);
      var ranked := Ranked(pages);
      multiset(ranked) == multiset(positive)
      && forall i :: 0 <= i < |ranked| ==> ranked[i].loremCount > 0 && ranked[i] in pages
  {
    var positive := Filter(pages, (p: PageResult) => p.loremCount > 0);
    var ranked := Ranked(pages);
    FilterMembers(pages, (p: PageResult) => p.loremCount > 0);
    forall i | 0 <= i < |ranked| ensures ranked[i].loremCount > 0 && ranked[i] in pages {
      assert ranked[i] in multiset(positive);
    }
  }

  /** The ranked pages run by non-increasing count. */
  lemma RankedNonIncreasing(pages: seq<PageResult>)
    ensures var ranked := Ranked(pages);
      forall i, j :: 0 <= i < j < |ranked| ==> ranked[i].loremCount >= ranked[j].loremCount
  {
    var positive := Filter(pages, (p: PageResult) => p.loremCount > 0);
    var ranked := Ranked(pages);
    ByCountKeyed();
    SortWithStable(positive, ByCountDescending, NegCount);
    forall i, j | 0 <= i < j < |ranked| ensures ranked[i].loremCount >= ranked[j].loremCount {
      assert NegCount(ranked[i]) <= NegCount(ranked[j]);
    }
  }

  /** Pages with equal counts keep their page order. */
  lemma RankedStable(pages: seq<PageResult>)
    ensures var positive := Filter(pages, (p: PageResult) => p.loremCount > 0);
      forall k :: WithKey(Ranked(pages), NegCount, k) == WithKey(positive, NegCount, k)
  {
    ByCountKeyed();
    SortWithStable(Filter(pages, (p: PageResult) => p.loremCount > 0), ByCountDescending, NegCount);
  }

  /** The pages with occurrences, sorted stably by non-increasing count. */
  lemma RankedMeaning(pages: seq<PageResult>)
    ensures var positive := Filter(pages, (p: PageResult) => p.loremCount > 0);
      var ranked := Ranked(pages);
      multiset(ranked) == multiset(positive)
      && (forall i :: 0 <= i < |ranked| ==> ranked[i].loremCount > 0 && ranked[i] in pages)
      && (forall i, j :: 0 <= i < j < |ranked| ==> ranked[i].loremCount >= ranked[j].loremCount)
      && forall k :: WithKey(ranked, NegCount, k) == WithKey(positive, NegCount, k)
  {
    RankedPermutation(pages);
    RankedNonIncreasing(pages);
    RankedStable(pages);
  }

  /** The ranking lists at most ten pages, all with occurrences, by non-increasing count. */
  lemma TopPagesMeaning(pages: seq<PageResult>)
    ensures var positive := Filter(pages, (p: PageResult) => p.loremCount > 0);
      var top := TopPages(pages);
      |top| == (if |positive| <= TopCount then |positive| else TopCount)
      && (forall i :: 0 <= i < |top| ==> top[i].loremCount > 0 && top[i] in pages)
      && (forall i, j :: 0 <= i < j < |top| ==> top[i].loremCount >= top[j].loremCount)
  {
    RankedPermutation(pages);
    RankedNonIncreasing(pages);
    var ranked := Ranked(pages);
    var top := TopPages(pages);
    forall i | 0 <= i < |top| ensures top[i] == ranked[i] {
    }
  }

  /**
   * No page left out of the ranking has a higher count than one listed, and
   * together the listed and the left-out pages are exactly the pages with
   * occurrences.
   */
  lemma TopPagesRest(pages: seq<PageResult>)
    ensures var positive := Filter(pages, (p: PageResult) => p.loremCount > 0);
      var ranked := Ranked(pages);
      var top := TopPages(pages);
      var rest := ranked[|top|..];
      (forall i, j :: 0 <= i < |top| && 0 <= j < |rest| ==> rest[j].loremCount <= top[i].loremCount)
      && multiset(top) + multiset(rest) == multiset(positive)
  {
    RankedPermutation(pages);
    RankedNonIncreasing(pages);
    var ranked := Ranked(pages);
    var top := TopPages(pages);
    var rest := ranked[|top|..];
    assert ranked == top + rest;
    forall i, j | 0 <= i < |top| && 0 <= j < |rest| ensures rest[j].loremCount <= top[i].loremCount {
      assert rest[j] == ranked[|top| + j] && top[i] == ranked[i];
    }
  }

  /** The percentage field is the literal `0` when no page was scanned. */
  lemma NoPagesZeroPercent(r: CrawlResult, percent: (int, int) -> string)
    requires r.summary.totalPages == 0
    ensures StatisticsLines(r, percent)[5] == "Lorem Percentage,0%"
  {
  }
}
