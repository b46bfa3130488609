/**
 * The summary a crawl ends with: page counts by status, the total number of
 * lorem occurrences, the elapsed time as minutes and seconds, and the crawl
 * result that bundles them with the configuration and the pages.
 */
module Summary {
  import opened Wrappers
  import opened Strings
  import opened Seqs
  import opened Types
  import opened Environment
  import opened PageBuilder

  /** `pages.filter(p => p.status === status).length`. */
  function CountStatus(pages: seq<PageResult>, status: Status): (r: nat)
    ensures r <= |pages|
  {
    |Filter(pages, (p: PageResult) => p.status == status)|
  }

  /** `pages.reduce((sum, p) => sum + p.loremCount, 0)`. */
  function TotalInstances(pages: seq<PageResult>): int
    decreases |pages|
  {
    if pages == [] then 0 else TotalInstances(pages[..|pages| - 1]) + pages[|pages| - 1].loremCount
  }

  /** Counting one more page adds one to the count of its own status and nothing to the others. */
  lemma CountStatusSnoc(pages: seq<PageResult>, p: PageResult, status: Status)
    ensures CountStatus(pages + [p], status) == CountStatus(pages, status) + (if p.status == status then 1 else 0)
  {
    assert (pages + [p])[..|pages|] == pages;
  }

  /** Every page has exactly one of the three statuses, so the three counts add up to the number of pages. */
  lemma {:induction false} StatusAccounting(pages: seq<PageResult>)
    ensures CountStatus(pages, Lorem) + CountStatus(pages, Clean) + CountStatus(pages, Error) == |pages|
    decreases |pages|
  {
    if pages != [] {
      var init := pages[..|pages| - 1];
      var last := pages[|pages| - 1];
      StatusAccounting(init);
      assert pages == init + [last];
      CountStatusSnoc(init, last, Lorem);
      CountStatusSnoc(init, last, Clean);
      CountStatusSnoc(init, last, Error);
    }
  }

  /**
   * Over well-formed pages the occurrence total is never negative, is at
   * least the number of lorem pages (each has at least one occurrence), and
   * is zero exactly when no page is a lorem page.
   */
  lemma {:induction false} InstancesAndLoremPages(pages: seq<PageResult>)
    requires forall i :: 0 <= i < |pages| ==> WellFormedPage(pages[i])
    ensures TotalInstances(pages) >= CountStatus(pages, Lorem) >= 0
    ensures TotalInstances(pages) == 0 <==> CountStatus(pages, Lorem) == 0
    decreases |pages|
  {
    if pages != [] {
      var init := pages[..|pages| - 1];
      var last := pages[|pages| - 1];
      InstancesAndLoremPages(init);
      assert pages == init + [last];
      CountStatusSnoc(init, last, Lorem);
    }
  }

  /** `${Math.floor(ms / 60000)}m ${Math.floor((ms % 60000) / 1000)}s`. */
  function ScanTime(ms: nat): string {
    NatToString(ms / 60000) + "m " + NatToString((ms % 60000) / 1000) + "s"
  }

  /**
   * The scan time shows whole minutes and the whole seconds left over: for
   * an elapsed time within the second that starts at `minutes` minutes and
   * `seconds` seconds (with `seconds` below 60), exactly those two numbers.
   */
  lemma ScanTimeParts(ms: nat, minutes: nat, seconds: nat)
    requires seconds < 60
    requires minutes * 60000 + seconds * 1000 <= ms < minutes * 60000 + seconds * 1000 + 1000
    ensures ScanTime(ms) == NatToString(minutes) + "m " + NatToString(seconds) + "s"
  {
    var rest := ms - minutes * 60000;
    assert ms / 60000 == minutes && ms % 60000 == rest;
    assert rest / 1000 == seconds;
  }

  /** The summary of the recorded pages after `elapsedMs` milliseconds. */
  function Summarize(pages: seq<PageResult>, elapsedMs: nat): CrawlSummary {
    CrawlSummary(
      |pages|,
      CountStatus(pages, Lorem),
      CountStatus(pages, Clean),
      TotalInstances(pages),
      ScanTime(elapsedMs))
  }

  /**
   * What the summary of well-formed pages states: the page total, lorem and
   * clean counts that leave the error pages as the remainder, and an
   * occurrence total that is at least the lorem-page count and zero exactly
   * when that count is.
   */
  lemma SummaryMeaning(pages: seq<PageResult>, elapsedMs: nat)
    requires forall i :: 0 <= i < |pages| ==> WellFormedPage(pages[i])
    ensures var s := Summarize(pages, elapsedMs);
      s.totalPages == |pages|
      && s.loremPages + s.cleanPages <= s.totalPages
      && s.totalPages - s.loremPages - s.cleanPages == CountStatus(pages, Error)
      && s.totalInstances >= s.loremPages >= 0
      && (s.totalInstances == 0 <==> s.loremPages == 0)
  {
    StatusAccounting(pages);
    InstancesAndLoremPages(pages);
  }

  /** The crawl result: an id from the clock, the configuration with the patterns joined, the summary and the pages. */
  function BuildResult(input: CrawlInput, pages: seq<PageResult>, clock: Clock): CrawlResult {
    CrawlResult(
      "crawl_" + NatToString(clock.idMs),
      ConfigOf(input),
      Summarize(pages, clock.elapsedMs),
      pages,
      clock.createdAt)
  }
}
