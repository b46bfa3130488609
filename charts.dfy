/**
 * The data behind the dashboard's two charts: a pie of clean against lorem
 * pages, and a bar per lorem page (at most five) showing its occurrence
 * count.  A bar is labelled with the last path segment of its URL, cut to
 * twenty characters, or `Homepage` when that segment is empty.  The bars are
 * the first five lorem pages in crawl order, not the five with the highest
 * counts.
 */
module CrawlCharts {
  import opened Strings
  import opened Seqs
  import opened Types
  import opened PageBuilder
  import opened Summary

  const BarLimit := 5
  const LabelWidth := 20
  const HomepageLabel := "Homepage"

  datatype PieSlice = PieSlice(name: string, value: nat, fill: string)

  datatype BarEntry = BarEntry(name: string, count: int)

  /** The two slices, clean first, each valued by the number of pages with that status. */
  function PieData(pages: seq<PageResult>): seq<PieSlice> {
    [PieSlice("Clean Pages", CountStatus(pages, Clean), "hsl(var(--chart-1))"),
     PieSlice("Lorem Pages", CountStatus(pages, Lorem), "hsl(var(--chart-2))")]
  }

  /**
   * `url.substring(url.lastIndexOf('/') + 1)`: the part of the URL after its
   * last `/`, or the whole URL when it has none.
   */
  function UrlTail(url: string): (t: string)
    ensures |t| <= |url| && url[|url| - |t|..] == t
    ensures '/' !in t
    ensures '/' in url ==> url[|url| - |t| - 1] == '/'
    ensures '/' !in url ==> t == url
  {
    url[LastIndexOf(url, '/') + 1..]
  }

  /**
   * The bar label: the tail cut to twenty characters, or `Homepage` when the
   * tail is empty; never empty and never longer than twenty characters.
   */
  function BarLabel(url: string): (name: string)
    ensures 0 < |name| <= LabelWidth
    ensures UrlTail(url) == "" ==> name == HomepageLabel
    ensures UrlTail(url) != "" ==>
      |name| == (if |UrlTail(url)| <= LabelWidth then |UrlTail(url)| else LabelWidth) && name == UrlTail(url)[..|name|]
  {
    var cut := Prefix(UrlTail(url), LabelWidth);
    if cut == "" then HomepageLabel else cut
  }

  /** The pages a bar may be drawn for. */
  function Charted(pages: seq<PageResult>): seq<PageResult> {
    Filter(pages, (p: PageResult) => p.status == Lorem && p.loremCount > 0)
  }

  function ToBar(p: PageResult): BarEntry {
    BarEntry(BarLabel(p.url), p.loremCount)
  }

  /** `filter`, then `map` to bars, then `slice(0, 5)`. */
  function BarData(pages: seq<PageResult>): seq<BarEntry> {
    var charted := Charted(pages);
    Take(seq(|charted|, i requires 0 <= i < |charted| => ToBar(charted[i])), BarLimit)
  }

  /**
   * The pie has exactly two slices, clean then lorem, valued by the two
   * counts, and what they leave of the pages are the error pages.
   */
  lemma PieDataMeaning(pages: seq<PageResult>)
    ensures var pie := PieData(pages);
      |pie| == 2
      && pie[0].name == "Clean Pages" && pie[0].value == CountStatus(pages, Clean)
      && pie[1].name == "Lorem Pages" && pie[1].value == CountStatus(pages, Lorem)
      && pie[0].value + pie[1].value + CountStatus(pages, Error) == |pages|
  {
    StatusAccounting(pages);
  }

  /**
   * The bars are, in crawl order, the first five lorem pages with
   * occurrences: bar `i` is labelled after and counts the occurrences of the
   * `i`-th such page.
   */
  lemma BarDataMeaning(pages: seq<PageResult>)
    ensures var charted := Charted(pages);
      var bars := BarData(pages);
      |bars| == (if |charted| <= BarLimit then |charted| else BarLimit)
      && (forall p :: p in charted <==> p in pages && p.status == Lorem && p.loremCount > 0)
      && forall i :: 0 <= i < |bars| ==> bars[i].count == charted[i].loremCount > 0 && bars[i].name == BarLabel(charted[i].url)
  {
    FilterMembers(pages, (p: PageResult) => p.status == Lorem && p.loremCount > 0);
  }

  /**
   * Once five pages are charted, pages crawled later never get a bar,
   * whatever their counts: the bars are the first five, not the top five.
   */
  lemma BarsAreFirstNotTop(pages: seq<PageResult>, later: seq<PageResult>)
    requires |Charted(pages)| >= BarLimit
    ensures BarData(pages + later) == BarData(pages)
  {
    FilterAppend(pages, later, (p: PageResult) => p.status == Lorem && p.loremCount > 0);
    var both := Charted(pages + later);
    var first := Charted(pages);
    assert both[..BarLimit] == first[..BarLimit];
  }

  /**
   * Over well-formed pages every lorem page has occurrences, so the number of
   * bars is the number of lorem pages, up to five.
   */
  lemma {:induction false} ChartedAreLoremPages(pages: seq<PageResult>)
    requires forall i :: 0 <= i < |pages| ==> WellFormedPage(pages[i])
    ensures |Charted(pages)| == CountStatus(pages, Lorem)
    ensures |BarData(pages)| == if CountStatus(pages, Lorem) <= BarLimit then CountStatus(pages, Lorem) else BarLimit
    decreases |pages|
  {
    if pages != [] {
      var init := pages[..|pages| - 1];
      var last := pages[|pages| - 1];
      ChartedAreLoremPages(init);
      assert pages == init + [last];
      CountStatusSnoc(init, last, Lorem);
    }
  }
}
